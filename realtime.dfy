/** The vital-sign simulator: a roster of patients whose readings drift by a
    bounded random step on every tick, each history kept to a sliding window
    of the newest readings, and two lists of subscribers to notify.

    The randomness of the simulator is a parameter: a `Perturbation` holds
    the rounded variation drawn for each vital of one patient on one tick. */
module Realtime {
  import opened PatientTypes
  import opened Seqs
  import opened Classifier
  import opened Alerts

  /** The number of readings kept per vital. */
  const MaxHistory: nat := 24

  /** Appends the newest reading and, when the history is then longer than
      the window, drops the oldest one. */
  function Window<T>(s: seq<T>, x: T): (r: seq<T>)
    ensures |r| == if |s| < MaxHistory then |s| + 1 else |s|
  {
    var pushed := s + [x];
    if |pushed| > MaxHistory then pushed[1..] else pushed
  }

  /** The window is the newest readings of the history extended by `x`, and
      it ends with `x`. */
  lemma WindowIsSuffix<T>(s: seq<T>, x: T)
    ensures Window(s, x) == Suffix(s + [x], |Window(s, x)|)
    ensures Window(s, x)[|Window(s, x)| - 1] == x
  {
  }

  /** A window never holds more than `MaxHistory` readings once it is within it. */
  lemma WindowBounded<T>(s: seq<T>, x: T)
    requires |s| <= MaxHistory
    ensures |Window(s, x)| <= MaxHistory
    ensures |Window(s, x)| == if |s| == MaxHistory then MaxHistory else |s| + 1
  {
  }

  /** The older readings that stay keep their order: the window before the
      newest reading is a suffix of the previous history. */
  lemma WindowKeepsOlder<T>(s: seq<T>, x: T)
    ensures var r := Window(s, x);
            r[..|r| - 1] == Suffix(s, |r| - 1)
  {
    var r := Window(s, x);
    WindowIsSuffix(s, x);
    assert (s + [x])[|s| + 1 - |r|..|s|] == s[|s| + 1 - |r|..];
  }

  /** A sequence of ticks, oldest reading first. */
  function WindowAll<T>(s: seq<T>, xs: seq<T>): seq<T>
    decreases |xs|
  {
    if xs == [] then s else WindowAll(Window(s, xs[0]), xs[1..])
  }

  function Min(a: int, b: int): int
  {
    if a <= b then a else b
  }

  /** Dropping from the front before appending is dropping afterwards. */
  lemma SuffixAppend<T>(a: seq<T>, k: nat, b: seq<T>, m: nat)
    requires k <= |a| && m <= k + |b|
    ensures Suffix(Suffix(a, k) + b, m) == Suffix(a + b, m)
  {
    assert Suffix(a, k) + b == (a + b)[|a| - k..];
  }

  /** After any run of ticks the history is the newest readings of the old
      history followed by the new ones, up to `MaxHistory` of them. */
  lemma {:induction false} WindowAllSuffix<T>(s: seq<T>, xs: seq<T>)
    requires |s| <= MaxHistory
    ensures |WindowAll(s, xs)| == Min(|s| + |xs|, MaxHistory)
    ensures WindowAll(s, xs) == Suffix(s + xs, Min(|s| + |xs|, MaxHistory))
    decreases |xs|
  {
    if xs == [] {
      assert s + xs == s;
    } else {
      var w := Window(s, xs[0]);
      WindowIsSuffix(s, xs[0]);
      WindowAllSuffix(w, xs[1..]);
      SuffixAppend(s + [xs[0]], |w|, xs[1..], Min(|w| + |xs[1..]|, MaxHistory));
      assert s + [xs[0]] + xs[1..] == s + xs;
    }
  }

  /** A history longer than `MaxHistory` is shifted only once per tick, so it
      keeps its length. */
  lemma {:induction false} WindowAllLong<T>(s: seq<T>, xs: seq<T>)
    requires |s| > MaxHistory
    ensures |WindowAll(s, xs)| == |s|
    decreases |xs|
  {
    if xs != [] {
      WindowAllLong(Window(s, xs[0]), xs[1..]);
    }
  }

  /** Once `MaxHistory` ticks have passed, every history holds exactly
      `MaxHistory` readings, the newest ones. */
  lemma WindowAllFull<T>(s: seq<T>, xs: seq<T>)
    requires |s| <= MaxHistory <= |xs|
    ensures WindowAll(s, xs) == Suffix(xs, MaxHistory)
  {
    WindowAllSuffix(s, xs);
    assert Suffix(s + xs, MaxHistory) == Suffix(xs, MaxHistory);
  }

  /** `Math.max(lo, Math.min(hi, x))`. */
  function Clamp(lo: int, hi: int, x: int): (r: int)
    requires lo <= hi
    ensures lo <= r <= hi
    ensures lo <= x <= hi ==> r == x
  {
    if x < lo then lo else if x > hi then hi else x
  }

  /** Clamping a step that starts inside the range never moves further than the step. */
  lemma ClampStep(lo: int, hi: int, current: int, delta: int)
    requires lo <= current <= hi
    ensures var r := Clamp(lo, hi, current + delta);
            (delta >= 0 ==> current <= r <= current + delta) &&
            (delta <= 0 ==> current + delta <= r <= current)
  {
  }

  /** The heart-rate range of the simulator: 60–150 under 18, 50–100 from 65,
      50–120 in between. */
  function HeartRateRange(age: int): (r: Range)
    ensures r.min < r.max
  {
    if age < 18 then Range(60, 150) else if age >= 65 then Range(50, 100) else Range(50, 120)
  }

  /** The new heart rate: the current one moved by `delta`, kept inside the age band's range. */
  function GenerateNewHeartRate(current: int, age: int, delta: int): (r: int)
    ensures HeartRateRange(age).min <= r <= HeartRateRange(age).max
    ensures HeartRateRange(age).min <= current + delta <= HeartRateRange(age).max ==> r == current + delta
  {
    Clamp(HeartRateRange(age).min, HeartRateRange(age).max, current + delta)
  }

  /** The new temperature, in tenths: the current one moved by `delta`, with no bound. */
  function GenerateNewTemperature(current: int, delta: int): (r: int)
    ensures r - current == delta
  {
    current + delta
  }

  /** The blood-pressure ranges of the simulator: systolic 100–180 and
      diastolic 60–110 from 65, systolic 90–160 and diastolic 50–100 below. */
  function SystolicRange(age: int): (r: Range)
    ensures r.min < r.max
  {
    if age >= 65 then Range(100, 180) else Range(90, 160)
  }

  function DiastolicRange(age: int): (r: Range)
    ensures r.min < r.max
  {
    if age >= 65 then Range(60, 110) else Range(50, 100)
  }

  function GenerateNewBloodPressure(current: BloodPressure, age: int, systolicDelta: int, diastolicDelta: int): (r: BloodPressure)
    ensures SystolicRange(age).min <= r.systolic <= SystolicRange(age).max
    ensures DiastolicRange(age).min <= r.diastolic <= DiastolicRange(age).max
    ensures SystolicRange(age).min <= current.systolic + systolicDelta <= SystolicRange(age).max ==>
              r.systolic == current.systolic + systolicDelta
    ensures DiastolicRange(age).min <= current.diastolic + diastolicDelta <= DiastolicRange(age).max ==>
              r.diastolic == current.diastolic + diastolicDelta
  {
    BloodPressure(
      Clamp(SystolicRange(age).min, SystolicRange(age).max, current.systolic + systolicDelta),
      Clamp(DiastolicRange(age).min, DiastolicRange(age).max, current.diastolic + diastolicDelta))
  }

  /** The new saturation: moved by `delta` and kept within 90–100 %. */
  function GenerateNewOxygenSaturation(current: int, delta: int): (r: int)
    ensures 90 <= r <= 100
    ensures 90 <= current + delta <= 100 ==> r == current + delta
  {
    Clamp(90, 100, current + delta)
  }

  /** The rounded variations drawn for one patient on one tick. */
  datatype Perturbation = Perturbation(
    heartRate: int, temperature: int, systolic: int, diastolic: int, oxygenSaturation: int)

  /** The ranges the rounded random variations fall in: ±10 bpm, ±0.3 °C,
      ±5 and ±4 mmHg, ±1 %. */
  predicate ValidPerturbation(d: Perturbation)
  {
    -10 <= d.heartRate <= 10 && -3 <= d.temperature <= 3 &&
    -5 <= d.systolic <= 5 && -4 <= d.diastolic <= 4 &&
    -1 <= d.oxygenSaturation <= 1
  }

  /** Every history has a current reading to perturb. */
  predicate Simulable(p: Patient)
  {
    |p.vitals.heartRate| > 0 && |p.vitals.temperature| > 0 &&
    |p.vitals.bloodPressure| > 0 && |p.vitals.oxygenSaturation| > 0
  }

  predicate AllSimulable(patients: seq<Patient>)
  {
    forall i :: 0 <= i < |patients| ==> Simulable(patients[i])
  }

  /** The patient after one tick: each history gets its new reading, windowed. */
  function UpdatedPatient(p: Patient, d: Perturbation): (r: Patient)
    requires Simulable(p)
    ensures Simulable(r) && HasLatestVitals(r)
    ensures r.id == p.id && r.firstName == p.firstName && r.lastName == p.lastName &&
            r.age == p.age && r.medicalRecordNumber == p.medicalRecordNumber
  {
    var v := p.vitals;
    p.(vitals := PatientVitals(
      Window(v.heartRate, GenerateNewHeartRate(Last(v.heartRate), p.age, d.heartRate)),
      Window(v.temperature, GenerateNewTemperature(Last(v.temperature), d.temperature)),
      Window(v.bloodPressure, GenerateNewBloodPressure(Last(v.bloodPressure), p.age, d.systolic, d.diastolic)),
      Window(v.oxygenSaturation, GenerateNewOxygenSaturation(Last(v.oxygenSaturation), d.oxygenSaturation))))
  }

  /** Histories that start within the window and of one length stay so. */
  lemma UpdatedPatientLengths(p: Patient, d: Perturbation)
    requires Simulable(p)
    requires |p.vitals.heartRate| == |p.vitals.temperature| == |p.vitals.bloodPressure| ==
             |p.vitals.oxygenSaturation| <= MaxHistory
    ensures var v := UpdatedPatient(p, d).vitals;
            |v.heartRate| == |v.temperature| == |v.bloodPressure| == |v.oxygenSaturation| ==
            Min(|p.vitals.heartRate| + 1, MaxHistory)
  {
  }

  /** The patient after one tick per perturbation, oldest tick first. */
  function Simulate(p: Patient, ds: seq<Perturbation>): (r: Patient)
    requires Simulable(p)
    ensures Simulable(r)
    decreases |ds|
  {
    if ds == [] then p else Simulate(UpdatedPatient(p, ds[0]), ds[1..])
  }

  /** Histories of one length within the window stay of one length, grow by
      one per tick and stop at `MaxHistory`: after `MaxHistory` ticks each
      holds exactly `MaxHistory` readings. */
  lemma {:induction false} SimulateLengths(p: Patient, ds: seq<Perturbation>)
    requires Simulable(p)
    requires |p.vitals.heartRate| == |p.vitals.temperature| == |p.vitals.bloodPressure| ==
             |p.vitals.oxygenSaturation| <= MaxHistory
    ensures var v := Simulate(p, ds).vitals;
            |v.heartRate| == |v.temperature| == |v.bloodPressure| == |v.oxygenSaturation| ==
            Min(|p.vitals.heartRate| + |ds|, MaxHistory)
    decreases |ds|
  {
    if ds != [] {
      UpdatedPatientLengths(p, ds[0]);
      SimulateLengths(UpdatedPatient(p, ds[0]), ds[1..]);
    }
  }

  /** A tick with variations in their ranges moves an in-range heart rate by at
      most 10 bpm and a temperature by at most 0.3 °C. */
  lemma UpdatedPatientStep(p: Patient, d: Perturbation)
    requires Simulable(p) && ValidPerturbation(d)
    requires HeartRateRange(p.age).min <= Last(p.vitals.heartRate) <= HeartRateRange(p.age).max
    ensures var q := UpdatedPatient(p, d);
            -10 <= Last(q.vitals.heartRate) - Last(p.vitals.heartRate) <= 10 &&
            -3 <= Last(q.vitals.temperature) - Last(p.vitals.temperature) <= 3
  {
    ClampStep(HeartRateRange(p.age).min, HeartRateRange(p.age).max, Last(p.vitals.heartRate), d.heartRate);
  }

  /** The simulated blood pressure is never critical: each range's top equals
      the critical ceiling of the same age band. */
  lemma SimulatedBloodPressureNeverCritical(p: Patient, d: Perturbation)
    requires Simulable(p)
    ensures !IsCriticalBloodPressure(Last(UpdatedPatient(p, d).vitals.bloodPressure), p.age)
  {
  }

  /** A child's simulated heart rate is never critical: its range is the
      critical interval itself. */
  lemma SimulatedChildHeartRateNeverCritical(p: Patient, d: Perturbation)
    requires Simulable(p) && p.age < 18
    ensures !IsCriticalHeartRate(Last(UpdatedPatient(p, d).vitals.heartRate), p.age)
  {
  }

  /** An elderly patient's simulated heart rate never exceeds 100 bpm, so it is
      critical only from below. */
  lemma SimulatedElderlyHeartRateNotHigh(p: Patient, d: Perturbation)
    requires Simulable(p) && p.age >= 65
    ensures Last(UpdatedPatient(p, d).vitals.heartRate) <= GetHeartRateLimits(p.age).critical.max
  {
  }

  /** An adult's heart rate can be driven into the critical band: 100 bpm plus 10. */
  lemma SimulatedAdultHeartRateCanBeCritical()
    ensures IsCriticalHeartRate(GenerateNewHeartRate(100, 40, 10), 40)
  {
  }

  /** The whole roster after one tick: every patient stays in place with its
      id and age, able to take the next tick and to be classified. */
  function UpdatedRoster(patients: seq<Patient>, deltas: seq<Perturbation>): (r: seq<Patient>)
    requires |deltas| == |patients| && AllSimulable(patients)
    ensures |r| == |patients|
    ensures AllSimulable(r) && AllHaveLatestVitals(r)
    ensures forall i :: 0 <= i < |r| ==> r[i].id == patients[i].id && r[i].age == patients[i].age
  {
    seq(|patients|, i requires 0 <= i < |patients| => UpdatedPatient(patients[i], deltas[i]))
  }

  /** `unsubscribe`: the list without the first occurrence of `x`, or unchanged. */
  function Without<T(==)>(s: seq<T>, x: T): (r: seq<T>)
    ensures x in s ==> multiset(r) == multiset(s) - multiset{x}
    ensures x in s ==> exists k :: 0 <= k < |s| && s[k] == x && x !in s[..k] && r == s[..k] + s[k + 1..]
    ensures x !in s ==> r == s
  {
    var k := IndexOf(s, x);
    if k == -1 then s
    else
      assert RemoveAt(s, k) == s[..k] + s[k + 1..];
      RemoveAt(s, k)
  }

  /** Subscribing and then unsubscribing a new callback leaves the list as it was. */
  lemma WithoutAppended<T>(s: seq<T>, x: T)
    requires x !in s
    ensures Without(s + [x], x) == s
  {
    var k := IndexOf(s + [x], x);
    assert (s + [x])[|s|] == x;
    assert k == |s|;
  }

  /** A callback subscribed twice is removed one subscription at a time. */
  lemma WithoutOnce<T>(s: seq<T>, x: T)
    requires multiset(s)[x] >= 2
    ensures x in Without(s, x)
  {
    assert x in s;
    assert multiset(Without(s, x))[x] >= 1;
  }

  /** The simulator. `updateInterval` is the handle of the pending update
      interval, or nothing when the service is stopped. */
  class RealtimeService {
    var updateInterval: Option<nat>
    var listeners: seq<nat>
    var alertListeners: seq<nat>
    var patients: seq<Patient>

    /** A new service: stopped, no subscribers, no patients. */
    constructor ()
      ensures updateInterval == None && listeners == [] && alertListeners == [] && patients == []
    {
      updateInterval := None;
      listeners := [];
      alertListeners := [];
      patients := [];
    }

    /** Takes a copy of the roster to simulate. */
    method SetPatients(roster: seq<Patient>)
      modifies this
      ensures patients == roster
      ensures updateInterval == old(updateInterval) && listeners == old(listeners) && alertListeners == old(alertListeners)
    {
      patients := roster;
    }

    method Subscribe(callback: nat)
      modifies this
      ensures listeners == old(listeners) + [callback]
      ensures updateInterval == old(updateInterval) && alertListeners == old(alertListeners) && patients == old(patients)
    {
      listeners := listeners + [callback];
    }

    method Unsubscribe(callback: nat)
      modifies this
      ensures listeners == Without(old(listeners), callback)
      ensures updateInterval == old(updateInterval) && alertListeners == old(alertListeners) && patients == old(patients)
    {
      var index := IndexOf(listeners, callback);
      if index > -1 {
        listeners := RemoveAt(listeners, index);
      }
    }

    method SubscribeToAlerts(callback: nat)
      modifies this
      ensures alertListeners == old(alertListeners) + [callback]
      ensures updateInterval == old(updateInterval) && listeners == old(listeners) && patients == old(patients)
    {
      alertListeners := alertListeners + [callback];
    }

    method UnsubscribeFromAlerts(callback: nat)
      modifies this
      ensures alertListeners == Without(old(alertListeners), callback)
      ensures updateInterval == old(updateInterval) && listeners == old(listeners) && patients == old(patients)
    {
      var index := IndexOf(alertListeners, callback);
      if index > -1 {
        alertListeners := RemoveAt(alertListeners, index);
      }
    }

    /** Starting a running service does nothing; otherwise the interval
        `handle` that `setInterval` returns is kept. */
    method StartRealTimeUpdates(handle: nat)
      modifies this
      ensures IsRunning()
      ensures updateInterval == if old(updateInterval).Some? then old(updateInterval) else Some(handle)
      ensures listeners == old(listeners) && alertListeners == old(alertListeners) && patients == old(patients)
    {
      if updateInterval.Some? {
        return;
      }
      updateInterval := Some(handle);
    }

    /** Stopping a stopped service does nothing; otherwise the interval is cleared. */
    method StopRealTimeUpdates()
      modifies this
      ensures !IsRunning()
      ensures updateInterval == None
      ensures listeners == old(listeners) && alertListeners == old(alertListeners) && patients == old(patients)
    {
      if updateInterval.Some? {
        updateInterval := None;
      }
    }

    /** Running exactly when an update interval is pending. */
    function IsRunning(): (r: bool)
      reads this
      ensures r <==> updateInterval != None
    {
      updateInterval.Some?
    }

    method GetPatients() returns (roster: seq<Patient>)
      ensures roster == patients
    {
      roster := patients;
    }

    /** One patient's tick: push each new reading, then shift each history
        that has grown past the window. */
    method UpdatePatientVital(i: nat, d: Perturbation)
      requires i < |patients| && Simulable(patients[i])
      modifies this
      ensures patients == old(patients)[i := UpdatedPatient(old(patients)[i], d)]
      ensures updateInterval == old(updateInterval) && listeners == old(listeners) && alertListeners == old(alertListeners)
    {
      var patient := patients[i];
      var vitals := patient.vitals;

      var newHeartRate := GenerateNewHeartRate(Last(vitals.heartRate), patient.age, d.heartRate);
      var newTemperature := GenerateNewTemperature(Last(vitals.temperature), d.temperature);
      var newBloodPressure := GenerateNewBloodPressure(Last(vitals.bloodPressure), patient.age, d.systolic, d.diastolic);
      var newOxygenSaturation := GenerateNewOxygenSaturation(Last(vitals.oxygenSaturation), d.oxygenSaturation);

      var heartRate := vitals.heartRate + [newHeartRate];
      var temperature := vitals.temperature + [newTemperature];
      var bloodPressure := vitals.bloodPressure + [newBloodPressure];
      var oxygenSaturation := vitals.oxygenSaturation + [newOxygenSaturation];

      if |heartRate| > MaxHistory {
        heartRate := heartRate[1..];
      }
      if |temperature| > MaxHistory {
        temperature := temperature[1..];
      }
      if |bloodPressure| > MaxHistory {
        bloodPressure := bloodPressure[1..];
      }
      if |oxygenSaturation| > MaxHistory {
        oxygenSaturation := oxygenSaturation[1..];
      }

      patients := patients[i := patient.(vitals := PatientVitals(heartRate, temperature, bloodPressure, oxygenSaturation))];
    }

    /** Every patient's tick, in roster order. */
    method UpdatePatientVitals(deltas: seq<Perturbation>)
      requires |deltas| == |patients| && AllSimulable(patients)
      modifies this
      ensures patients == UpdatedRoster(old(patients), deltas)
      ensures updateInterval == old(updateInterval) && listeners == old(listeners) && alertListeners == old(alertListeners)
    {
      ghost var target := UpdatedRoster(patients, deltas);
      var i := 0;
      while i < |patients|
        invariant 0 <= i <= |patients| == |target|
        invariant forall k :: 0 <= k < i ==> patients[k] == target[k]
        invariant forall k :: i <= k < |patients| ==> patients[k] == old(patients)[k]
        invariant updateInterval == old(updateInterval) && listeners == old(listeners) && alertListeners == old(alertListeners)
      {
        assert Simulable(patients[i]) && target[i] == UpdatedPatient(patients[i], deltas[i]);
        UpdatePatientVital(i, deltas[i]);
        i := i + 1;
      }
      assert patients == target;
    }

    /** What the update interval does on each tick: advance every patient,
        then hand the simulated roster to the listeners and the critical
        alerts to the alert listeners. The alerts are those of the patient
        service's own roster `serviceRoster`, evaluated at `clock`, not of
        the simulated patients. */
    method Tick(deltas: seq<Perturbation>, serviceRoster: seq<Patient>, clock: seq<int>)
      returns (notified: seq<Patient>, criticalAlerts: seq<Alert>)
      requires IsRunning()
      requires |deltas| == |patients| && AllSimulable(patients)
      requires |clock| == |serviceRoster| && AllHaveLatestVitals(serviceRoster)
      modifies this
      ensures patients == UpdatedRoster(old(patients), deltas) && notified == patients
      ensures criticalAlerts == CriticalOnly(SortByTime(ConcatAlerts(serviceRoster, clock)))
      ensures updateInterval == old(updateInterval) && listeners == old(listeners) && alertListeners == old(alertListeners)
    {
      UpdatePatientVitals(deltas);
      notified := patients;
      criticalAlerts := GetCriticalAlerts(serviceRoster, clock);
    }
  }
}
