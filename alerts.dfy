/** Alert generation of the patient service: at most one alert per vital,
    with a deterministic id, and the roster-wide newest-first list. The clock
    is a parameter: `now` stands for the `new Date()` of one patient's evaluation. */
module Alerts {
  import opened PatientTypes
  import opened Seqs
  import opened Text
  import opened Classifier

  /** The French label of a vital type in alert messages. The oxygen type has
      no entry in the label table, and a template literal prints the missing
      entry as "undefined"; no alert of that type is ever created. */
  function TypeLabel(t: VitalType): string
  {
    match t
    case HeartRateVital => "Fréquence cardiaque"
    case TemperatureVital => "Température"
    case BloodPressureVital => "Tension artérielle"
    case OxygenSaturationVital => "undefined"
  }

  function SeverityLabel(s: Severity): string
  {
    match s
    case CriticalLevel => "critique"
    case WarningLevel => "élevée"
  }

  /** `${type}-${severity}-${patientId}`. The id reads back as exactly the
      vital type, severity and patient it was built from, negative ids
      included. */
  function AlertId(t: VitalType, s: Severity, patientId: int): (id: string)
    ensures ParseAlertId(id) == Some(AlertKey(t, s, patientId))
  {
    var digits := IntToString(patientId);
    var rest := SeverityName(s) + "-" + digits;
    TypeNameRoundTrip(t);
    SeverityNameRoundTrip(s);
    SplitAtDashJoin(TypeName(t), rest);
    SplitAtDashJoin(SeverityName(s), digits);
    IntToStringRoundTrip(patientId);
    assert TypeName(t) + "-" + SeverityName(s) + "-" + digits == TypeName(t) + "-" + rest;
    TypeName(t) + "-" + rest
  }

  /** What an alert id stands for. */
  datatype AlertKey = AlertKey(vitalType: VitalType, severity: Severity, patientId: int)

  /** The text before the first '-' and the text after it. */
  function SplitAtDash(s: string): Option<(string, string)>
  {
    if s == [] then None
    else if s[0] == '-' then Some(([], s[1..]))
    else match SplitAtDash(s[1..])
      case None => None
      case Some(parts) => Some(([s[0]] + parts.0, parts.1))
  }

  lemma {:induction false} SplitAtDashJoin(a: string, b: string)
    requires '-' !in a
    ensures SplitAtDash(a + "-" + b) == Some((a, b))
  {
    if a != [] {
      assert (a + "-" + b)[1..] == a[1..] + "-" + b;
      SplitAtDashJoin(a[1..], b);
      assert [a[0]] + a[1..] == a;
    } else {
      assert a + "-" + b == "-" + b;
    }
  }

  function TypeFromName(name: string): Option<VitalType>
  {
    if name == "heartRate" then Some(HeartRateVital)
    else if name == "temperature" then Some(TemperatureVital)
    else if name == "bloodPressure" then Some(BloodPressureVital)
    else if name == "oxygenSaturation" then Some(OxygenSaturationVital)
    else None
  }

  function SeverityFromName(name: string): Option<Severity>
  {
    if name == "warning" then Some(WarningLevel)
    else if name == "critical" then Some(CriticalLevel)
    else None
  }

  /** Reads an alert id back into the vital type, severity and patient it names. */
  function ParseAlertId(id: string): Option<AlertKey>
  {
    match SplitAtDash(id)
    case None => None
    case Some(first) =>
      match SplitAtDash(first.1)
      case None => None
      case Some(second) =>
        match (TypeFromName(first.0), SeverityFromName(second.0), ParseInt(second.1))
        case (Some(t), Some(s), Some(n)) => Some(AlertKey(t, s, n))
        case _ => None
  }

  lemma TypeNameRoundTrip(t: VitalType)
    ensures '-' !in TypeName(t) && TypeFromName(TypeName(t)) == Some(t)
  {
    match t
    case HeartRateVital =>
    case TemperatureVital =>
    case BloodPressureVital =>
    case OxygenSaturationVital =>
  }

  lemma SeverityNameRoundTrip(s: Severity)
    ensures '-' !in SeverityName(s) && SeverityFromName(SeverityName(s)) == Some(s)
  {
    match s
    case WarningLevel =>
    case CriticalLevel =>
  }

  /** Two alerts share an id only when they are about the same vital type,
      severity and patient, so consumers can de-duplicate by id. */
  lemma AlertIdInjective(t1: VitalType, s1: Severity, p1: int, t2: VitalType, s2: Severity, p2: int)
    requires AlertId(t1, s1, p1) == AlertId(t2, s2, p2)
    ensures t1 == t2 && s1 == s2 && p1 == p2
  {
    assert ParseAlertId(AlertId(t1, s1, p1)) == Some(AlertKey(t1, s1, p1));
    assert ParseAlertId(AlertId(t2, s2, p2)) == Some(AlertKey(t2, s2, p2));
  }

  /** The alert's id reads back as its own type, severity and patient. */
  predicate WellKeyed(a: Alert)
  {
    ParseAlertId(a.id) == Some(AlertKey(a.vitalType, a.severity, a.patientId))
  }

  /** `createAlert`: an alert of vital `t` and severity `s` for the patient,
      stamped `now`, whose message shows the reading `valueText`. */
  function CreateAlert(patientId: int, t: VitalType, s: Severity, valueText: string, now: int): (a: Alert)
    ensures a.patientId == patientId && a.vitalType == t && a.severity == s && a.timestamp == now
  {
    var prefix := TypeLabel(t) + " " + SeverityLabel(s) + ": ";
    Alert(AlertId(t, s, patientId), patientId, t, prefix + valueText, s, now)
  }

  /** The id of a created alert encodes its type, severity and patient. */
  lemma CreateAlertWellKeyed(patientId: int, t: VitalType, s: Severity, valueText: string, now: int)
    ensures WellKeyed(CreateAlert(patientId, t, s, valueText, now))
  {
  }

  /** The message opens with the French label of the type and of the
      severity, and ends with the reading. */
  lemma CreateAlertMessage(patientId: int, t: VitalType, s: Severity, valueText: string, now: int)
    ensures var m := CreateAlert(patientId, t, s, valueText, now).message;
            var prefix := TypeLabel(t) + " " + SeverityLabel(s) + ": ";
            m == prefix + valueText && |prefix| <= |m| && m[..|prefix|] == prefix && m[|prefix|..] == valueText
  {
  }

  function FormatHeartRate(heartRate: int): string
  {
    IntToString(heartRate) + " bpm"
  }

  function FormatTemperature(temperature: int): string
  {
    TenthsToString(temperature) + "°C"
  }

  function FormatBloodPressure(bp: BloodPressure): string
  {
    IntToString(bp.systolic) + "/" + IntToString(bp.diastolic) + " mmHg"
  }

  /** Whether the latest reading of vital `t` is critical; oxygen saturation
      is never classified. */
  predicate VitalCritical(v: LatestVitals, age: int, t: VitalType)
  {
    match t
    case HeartRateVital => IsCriticalHeartRate(v.heartRate, age)
    case TemperatureVital => IsCriticalTemperature(v.temperature)
    case BloodPressureVital => IsCriticalBloodPressure(v.bloodPressure, age)
    case OxygenSaturationVital => false
  }

  predicate VitalWarning(v: LatestVitals, age: int, t: VitalType)
  {
    match t
    case HeartRateVital => IsWarningHeartRate(v.heartRate, age)
    case TemperatureVital => IsWarningTemperature(v.temperature)
    case BloodPressureVital => IsWarningBloodPressure(v.bloodPressure, age)
    case OxygenSaturationVital => false
  }

  /** The severity the latest reading of vital `t` calls for, if any. */
  function CalledFor(v: LatestVitals, age: int, t: VitalType): Option<Severity>
  {
    if VitalCritical(v, age, t) then Some(CriticalLevel)
    else if VitalWarning(v, age, t) then Some(WarningLevel)
    else None
  }

  /** The order in which `generateAlerts` checks the vitals. */
  function Rank(t: VitalType): nat
  {
    match t
    case HeartRateVital => 0
    case TemperatureVital => 1
    case BloodPressureVital => 2
    case OxygenSaturationVital => 3
  }

  /** One entry of the check list `generateAlerts` builds: the vital, whether
      its latest reading is critical, whether it is in warning, and the
      reading as printed in the message. */
  datatype VitalCheck = VitalCheck(vitalType: VitalType, critical: bool, warning: bool, valueText: string)

  /** The check list: heart rate, temperature, blood pressure, in that order. */
  function VitalChecks(p: Patient): (r: seq<VitalCheck>)
    requires HasLatestVitals(p)
    ensures |r| == 3
    ensures forall i :: 0 <= i < |r| ==> Rank(r[i].vitalType) == i
    ensures forall i :: 0 <= i < |r| ==> (r[i].critical ==> r[i].warning)
  {
    var v := GetLatestVitals(p);
    [ VitalCheck(HeartRateVital, IsCriticalHeartRate(v.heartRate, p.age),
                 IsWarningHeartRate(v.heartRate, p.age), FormatHeartRate(v.heartRate)),
      VitalCheck(TemperatureVital, IsCriticalTemperature(v.temperature),
                 IsWarningTemperature(v.temperature), FormatTemperature(v.temperature)),
      VitalCheck(BloodPressureVital, IsCriticalBloodPressure(v.bloodPressure, p.age),
                 IsWarningBloodPressure(v.bloodPressure, p.age), FormatBloodPressure(v.bloodPressure)) ]
  }

  /** What one check raises: a critical alert, else a warning alert, else nothing. */
  function Raised(c: VitalCheck): Option<Severity>
  {
    if c.critical then Some(CriticalLevel) else if c.warning then Some(WarningLevel) else None
  }

  /** The body of the `forEach`: at most one alert, of the severity the check raises. */
  function CheckAlert(patientId: int, c: VitalCheck, now: int): (r: seq<Alert>)
    ensures |r| <= 1
    ensures r != [] <==> Raised(c).Some?
    ensures r != [] ==> r[0].patientId == patientId && r[0].vitalType == c.vitalType &&
                        r[0].timestamp == now && Raised(c) == Some(r[0].severity)
  {
    if c.critical then [CreateAlert(patientId, c.vitalType, CriticalLevel, c.valueText, now)]
    else if c.warning then [CreateAlert(patientId, c.vitalType, WarningLevel, c.valueText, now)]
    else []
  }

  /** `checks.forEach(...)`, pushing each raised alert at the end. */
  function RaiseAlerts(patientId: int, checks: seq<VitalCheck>, now: int): (r: seq<Alert>)
    ensures |r| <= |checks|
    ensures forall i :: 0 <= i < |r| ==> r[i].patientId == patientId && r[i].timestamp == now
  {
    if checks == [] then []
    else CheckAlert(patientId, checks[0], now) + RaiseAlerts(patientId, checks[1..], now)
  }

  /** `generateAlerts`: at most three alerts, all for this patient at this time. */
  function GenerateAlerts(p: Patient, now: int): (r: seq<Alert>)
    requires HasLatestVitals(p)
    ensures |r| <= 3
    ensures forall i :: 0 <= i < |r| ==> r[i].patientId == p.id && r[i].timestamp == now
  {
    RaiseAlerts(p.id, VitalChecks(p), now)
  }

  /** Where each element of three concatenated lists of at most one element comes from. */
  lemma ConcatAtMostOne<T>(a: seq<T>, b: seq<T>, c: seq<T>)
    requires |a| <= 1 && |b| <= 1 && |c| <= 1
    ensures forall i :: 0 <= i < |a + b + c| ==>
      (a + b + c)[i] == if i < |a| then a[0] else if i < |a| + |b| then b[0] else c[0]
    ensures a != [] ==> (a + b + c)[0] == a[0]
    ensures b != [] ==> (a + b + c)[|a|] == b[0]
    ensures c != [] ==> (a + b + c)[|a| + |b|] == c[0]
  {
  }

  /** What kind of alert an alert is: its vital and its severity. */
  type Kind = (VitalType, Severity)

  /** The alert the reading of vital `t` calls for, as a list of at most one kind. */
  function KindFor(v: LatestVitals, age: int, t: VitalType): (k: seq<Kind>)
    ensures |k| <= 1 && (k != [] <==> CalledFor(v, age, t).Some?)
    ensures k != [] ==> k[0] == (t, CalledFor(v, age, t).value)
  {
    match CalledFor(v, age, t)
    case Some(s) => [(t, s)]
    case None => []
  }

  /** The alerts the latest readings call for, heart rate first, then
      temperature, then blood pressure: the reference the generated alerts
      are held to. */
  function ExpectedKinds(v: LatestVitals, age: int): seq<Kind>
  {
    KindFor(v, age, HeartRateVital) + KindFor(v, age, TemperatureVital) + KindFor(v, age, BloodPressureVital)
  }

  /** Position by position, the alerts are of the given kinds. */
  predicate HasKinds(r: seq<Alert>, kinds: seq<Kind>)
  {
    |r| == |kinds| && forall i :: 0 <= i < |r| ==> (r[i].vitalType, r[i].severity) == kinds[i]
  }

  /** The kind one check raises, if any. */
  function TraceOne(c: VitalCheck): (t: seq<Kind>)
    ensures |t| <= 1 && (t != [] <==> Raised(c).Some?)
    ensures t != [] ==> t[0] == (c.vitalType, Raised(c).value)
  {
    match Raised(c)
    case Some(s) => [(c.vitalType, s)]
    case None => []
  }

  /** The kinds a check list raises, in order. */
  function Trace(checks: seq<VitalCheck>): seq<Kind>
  {
    if checks == [] then [] else TraceOne(checks[0]) + Trace(checks[1..])
  }

  /** Kinds line up across a concatenation. */
  lemma HasKindsAppend(a: seq<Alert>, ka: seq<Kind>, b: seq<Alert>, kb: seq<Kind>)
    requires HasKinds(a, ka) && HasKinds(b, kb)
    ensures HasKinds(a + b, ka + kb)
  {
    forall i | 0 <= i < |a + b|
      ensures ((a + b)[i].vitalType, (a + b)[i].severity) == (ka + kb)[i]
    {
      if i >= |a| {
        assert (a + b)[i] == b[i - |a|] && (ka + kb)[i] == kb[i - |a|];
      }
    }
  }

  /** The alert one check raises is of the kind the check raises. */
  lemma CheckAlertKind(patientId: int, c: VitalCheck, now: int)
    ensures HasKinds(CheckAlert(patientId, c, now), TraceOne(c))
  {
  }

  /** The alerts raised by a check list are, in order, of exactly the kinds
      its checks raise. */
  lemma {:induction false} RaiseAlertsTrace(patientId: int, checks: seq<VitalCheck>, now: int)
    ensures HasKinds(RaiseAlerts(patientId, checks, now), Trace(checks))
  {
    if checks != [] {
      RaiseAlertsTrace(patientId, checks[1..], now);
      CheckAlertKind(patientId, checks[0], now);
      HasKindsAppend(CheckAlert(patientId, checks[0], now), TraceOne(checks[0]),
                     RaiseAlerts(patientId, checks[1..], now), Trace(checks[1..]));
    }
  }

  /** The trace of three checks, one check at a time. */
  lemma TraceThree(c0: VitalCheck, c1: VitalCheck, c2: VitalCheck)
    ensures Trace([c0, c1, c2]) == TraceOne(c0) + TraceOne(c1) + TraceOne(c2)
  {
    var t0, t1, t2 := TraceOne(c0), TraceOne(c1), TraceOne(c2);
    assert [c2][1..] == [];
    assert Trace([c2]) == t2 + Trace([]) == t2;
    assert [c1, c2][1..] == [c2];
    assert Trace([c1, c2]) == t1 + t2;
    assert [c0, c1, c2][1..] == [c1, c2];
    assert Trace([c0, c1, c2]) == t0 + (t1 + t2);
  }

  /** Each entry of the check list raises the alert its vital's reading calls for. */
  lemma VitalChecksCallFor(p: Patient)
    requires HasLatestVitals(p)
    ensures var checks := VitalChecks(p);
            var v := GetLatestVitals(p);
            |checks| == 3 &&
            TraceOne(checks[0]) == KindFor(v, p.age, HeartRateVital) &&
            TraceOne(checks[1]) == KindFor(v, p.age, TemperatureVital) &&
            TraceOne(checks[2]) == KindFor(v, p.age, BloodPressureVital)
  {
  }

  /** The alerts of a patient are exactly the ones its latest readings call
      for, in the reference order. */
  lemma GenerateAlertsKinds(p: Patient, now: int)
    requires HasLatestVitals(p)
    ensures HasKinds(GenerateAlerts(p, now), ExpectedKinds(GetLatestVitals(p), p.age))
  {
    var checks := VitalChecks(p);
    VitalChecksCallFor(p);
    assert checks == [checks[0], checks[1], checks[2]];
    RaiseAlertsTrace(p.id, checks, now);
    TraceThree(checks[0], checks[1], checks[2]);
  }

  lemma KindsOrdered(v: LatestVitals, age: int, r: seq<Alert>)
    requires HasKinds(r, ExpectedKinds(v, age))
    ensures forall i, j :: 0 <= i < j < |r| ==> Rank(r[i].vitalType) < Rank(r[j].vitalType)
    ensures forall i :: 0 <= i < |r| ==> CalledFor(v, age, r[i].vitalType) == Some(r[i].severity)
  {
    ConcatAtMostOne(KindFor(v, age, HeartRateVital), KindFor(v, age, TemperatureVital), KindFor(v, age, BloodPressureVital));
  }

  lemma KindsComplete(v: LatestVitals, age: int, r: seq<Alert>)
    requires HasKinds(r, ExpectedKinds(v, age))
    ensures forall t :: CalledFor(v, age, t).Some? ==> exists i :: 0 <= i < |r| && r[i].vitalType == t
  {
    var a, b, c := KindFor(v, age, HeartRateVital), KindFor(v, age, TemperatureVital), KindFor(v, age, BloodPressureVital);
    ConcatAtMostOne(a, b, c);
    forall t | CalledFor(v, age, t).Some?
      ensures exists i :: 0 <= i < |r| && r[i].vitalType == t
    {
      match t
      case HeartRateVital => assert r[0].vitalType == t;
      case TemperatureVital => assert r[|a|].vitalType == t;
      case BloodPressureVital => assert r[|a| + |b|].vitalType == t;
    }
  }

  /** Alerts come in the order heart rate, temperature, blood pressure, so no
      vital has two of them; each alert has exactly the severity its vital's
      reading calls for (critical if critical, else warning), and every vital
      whose reading calls for one has one. Oxygen saturation calls for none. */
  lemma GenerateAlertsPerVital(p: Patient, now: int)
    requires HasLatestVitals(p)
    ensures var r := GenerateAlerts(p, now);
            forall i, j :: 0 <= i < j < |r| ==> Rank(r[i].vitalType) < Rank(r[j].vitalType)
    ensures var r := GenerateAlerts(p, now);
            forall i :: 0 <= i < |r| ==> CalledFor(GetLatestVitals(p), p.age, r[i].vitalType) == Some(r[i].severity)
    ensures var r := GenerateAlerts(p, now);
            forall t :: CalledFor(GetLatestVitals(p), p.age, t).Some? ==> exists i :: 0 <= i < |r| && r[i].vitalType == t
  {
    GenerateAlertsKinds(p, now);
    KindsOrdered(GetLatestVitals(p), p.age, GenerateAlerts(p, now));
    KindsComplete(GetLatestVitals(p), p.age, GenerateAlerts(p, now));
  }

  lemma KindsNoOxygen(v: LatestVitals, age: int, r: seq<Alert>)
    requires HasKinds(r, ExpectedKinds(v, age))
    ensures forall i :: 0 <= i < |r| ==> r[i].vitalType != OxygenSaturationVital
  {
    KindsOrdered(v, age, r);
  }

  /** No alert is ever about oxygen saturation. */
  lemma GenerateAlertsNoOxygen(p: Patient, now: int)
    requires HasLatestVitals(p)
    ensures var r := GenerateAlerts(p, now);
            forall i :: 0 <= i < |r| ==> r[i].vitalType != OxygenSaturationVital
  {
    GenerateAlertsKinds(p, now);
    KindsNoOxygen(GetLatestVitals(p), p.age, GenerateAlerts(p, now));
  }

  lemma KindsEmptyIffNoWarning(v: LatestVitals, age: int, r: seq<Alert>)
    requires HasKinds(r, ExpectedKinds(v, age))
    ensures r == [] <==> !HasWarningVitals(v, age)
  {
    CriticalImpliesWarning(v, age);
  }

  /** The alert list is empty exactly when the patient is stable. */
  lemma GenerateAlertsEmptyIffStable(p: Patient, now: int)
    requires HasLatestVitals(p)
    ensures GenerateAlerts(p, now) == [] <==> GetPatientStatus(p) == Stable
  {
    GenerateAlertsKinds(p, now);
    KindsEmptyIffNoWarning(GetLatestVitals(p), p.age, GenerateAlerts(p, now));
  }

  lemma KindsCriticalIff(v: LatestVitals, age: int, r: seq<Alert>)
    requires HasKinds(r, ExpectedKinds(v, age))
    ensures (exists i :: 0 <= i < |r| && r[i].severity == CriticalLevel) <==> HasCriticalVitals(v, age)
  {
    var a, b, c := KindFor(v, age, HeartRateVital), KindFor(v, age, TemperatureVital), KindFor(v, age, BloodPressureVital);
    ConcatAtMostOne(a, b, c);
    if IsCriticalHeartRate(v.heartRate, age) {
      assert r[0].severity == CriticalLevel;
    } else if IsCriticalTemperature(v.temperature) {
      assert r[|a|].severity == CriticalLevel;
    } else if IsCriticalBloodPressure(v.bloodPressure, age) {
      assert r[|a| + |b|].severity == CriticalLevel;
    }
  }

  /** The alert list holds a critical alert exactly when the patient is critical. */
  lemma GenerateAlertsCriticalIffCritical(p: Patient, now: int)
    requires HasLatestVitals(p)
    ensures (exists i :: 0 <= i < |GenerateAlerts(p, now)| && GenerateAlerts(p, now)[i].severity == CriticalLevel)
            <==> GetPatientStatus(p) == Critical
  {
    GenerateAlertsKinds(p, now);
    KindsCriticalIff(GetLatestVitals(p), p.age, GenerateAlerts(p, now));
  }

  /** Every raised alert's id reads back as its own type, severity and patient. */
  lemma {:induction false} RaiseAlertsWellKeyed(patientId: int, checks: seq<VitalCheck>, now: int)
    ensures forall i :: 0 <= i < |RaiseAlerts(patientId, checks, now)| ==> WellKeyed(RaiseAlerts(patientId, checks, now)[i])
  {
    if checks != [] {
      var c := checks[0];
      RaiseAlertsWellKeyed(patientId, checks[1..], now);
      CreateAlertWellKeyed(patientId, c.vitalType, CriticalLevel, c.valueText, now);
      CreateAlertWellKeyed(patientId, c.vitalType, WarningLevel, c.valueText, now);
      var a := CheckAlert(patientId, c, now);
      var rest := RaiseAlerts(patientId, checks[1..], now);
      assert RaiseAlerts(patientId, checks, now) == a + rest;
    }
  }

  /** Alerts of distinct vitals whose ids read back correctly have distinct ids. */
  lemma DistinctIdsOf(r: seq<Alert>)
    requires forall i :: 0 <= i < |r| ==> WellKeyed(r[i])
    requires forall i, j :: 0 <= i < j < |r| ==> Rank(r[i].vitalType) < Rank(r[j].vitalType)
    ensures forall i, j :: 0 <= i < j < |r| ==> r[i].id != r[j].id
  {
    forall i, j | 0 <= i < j < |r|
      ensures r[i].id != r[j].id
    {
      assert WellKeyed(r[i]) && WellKeyed(r[j]);
      assert r[i].vitalType != r[j].vitalType;
    }
  }

  /** No two alerts of one patient share an id. */
  lemma GenerateAlertsDistinctIds(p: Patient, now: int)
    requires HasLatestVitals(p)
    ensures var r := GenerateAlerts(p, now);
            forall i, j :: 0 <= i < j < |r| ==> r[i].id != r[j].id
  {
    RaiseAlertsWellKeyed(p.id, VitalChecks(p), now);
    GenerateAlertsPerVital(p, now);
    DistinctIdsOf(GenerateAlerts(p, now));
  }

  /** One check at another time raises the same alert but for its timestamp. */
  lemma CheckAlertAtAnotherTime(patientId: int, c: VitalCheck, t1: int, t2: int)
    ensures var a1 := CheckAlert(patientId, c, t1);
            var a2 := CheckAlert(patientId, c, t2);
            |a1| == |a2| && forall i :: 0 <= i < |a1| ==> a1[i] == a2[i].(timestamp := t1)
  {
  }

  /** Raising the same checks at another time gives the same alerts but for
      their timestamps. */
  lemma {:induction false} RaiseAlertsAtAnotherTime(patientId: int, checks: seq<VitalCheck>, t1: int, t2: int)
    ensures var r1 := RaiseAlerts(patientId, checks, t1);
            var r2 := RaiseAlerts(patientId, checks, t2);
            |r1| == |r2| && forall i :: 0 <= i < |r1| ==> r1[i] == r2[i].(timestamp := t1)
  {
    if checks != [] {
      RaiseAlertsAtAnotherTime(patientId, checks[1..], t1, t2);
      var a1: seq<Alert>, a2: seq<Alert> := CheckAlert(patientId, checks[0], t1), CheckAlert(patientId, checks[0], t2);
      var b1: seq<Alert>, b2: seq<Alert> := RaiseAlerts(patientId, checks[1..], t1), RaiseAlerts(patientId, checks[1..], t2);
      CheckAlertAtAnotherTime(patientId, checks[0], t1, t2);
      RetimedAppend(a1, a2, b1, b2, t1);
    }
  }

  /** Lists equal but for their timestamps stay so when concatenated. */
  lemma RetimedAppend(a1: seq<Alert>, a2: seq<Alert>, b1: seq<Alert>, b2: seq<Alert>, t1: int)
    requires |a1| == |a2| && forall i :: 0 <= i < |a1| ==> a1[i] == a2[i].(timestamp := t1)
    requires |b1| == |b2| && forall i :: 0 <= i < |b1| ==> b1[i] == b2[i].(timestamp := t1)
    ensures |a1 + b1| == |a2 + b2|
    ensures forall i :: 0 <= i < |a1 + b1| ==> (a1 + b1)[i] == (a2 + b2)[i].(timestamp := t1)
  {
    forall i | 0 <= i < |a1 + b1|
      ensures (a1 + b1)[i] == (a2 + b2)[i].(timestamp := t1)
    {
      if i >= |a1| {
        assert (a1 + b1)[i] == b1[i - |a1|] && (a2 + b2)[i] == b2[i - |a1|];
      }
    }
  }

  /** Evaluating an unchanged patient again yields the same alerts, with the
      same ids and messages, differing only in their timestamps. */
  lemma GenerateAlertsIdempotent(p: Patient, t1: int, t2: int)
    requires HasLatestVitals(p)
    ensures var r1 := GenerateAlerts(p, t1);
            var r2 := GenerateAlerts(p, t2);
            |r1| == |r2| &&
            forall i :: 0 <= i < |r1| ==> r1[i].id == r2[i].id && r1[i].message == r2[i].message &&
                                          r1[i] == r2[i].(timestamp := t1)
  {
    RaiseAlertsAtAnotherTime(p.id, VitalChecks(p), t1, t2);
  }

  /** The alert id of a critical heart rate for patient 7. */
  lemma HeartRateAlertIdScenario()
    ensures AlertId(HeartRateVital, CriticalLevel, 7) == "heartRate-critical-7"
  {
  }

  /** Every patient of the roster has a current reading to classify. */
  predicate AllHaveLatestVitals(roster: seq<Patient>)
  {
    forall i :: 0 <= i < |roster| ==> HasLatestVitals(roster[i])
  }

  /** The alert is for some patient `i` of the roster, stamped `clock[i]`. */
  predicate StampedFor(a: Alert, roster: seq<Patient>, clock: seq<int>)
    requires |clock| == |roster|
  {
    exists i :: 0 <= i < |roster| && a.patientId == roster[i].id && a.timestamp == clock[i]
  }

  predicate FromRoster(r: seq<Alert>, roster: seq<Patient>, clock: seq<int>)
    requires |clock| == |roster|
  {
    forall k :: 0 <= k < |r| ==> StampedFor(r[k], roster, clock)
  }

  /** Adding the roster's last patient keeps the alerts of the others from the roster. */
  lemma FromRosterExtend(front: seq<Alert>, last: seq<Alert>, roster: seq<Patient>, clock: seq<int>)
    requires |clock| == |roster| > 0
    requires FromRoster(front, roster[..|roster| - 1], clock[..|clock| - 1])
    requires forall k :: 0 <= k < |last| ==>
               last[k].patientId == roster[|roster| - 1].id && last[k].timestamp == clock[|clock| - 1]
    ensures FromRoster(front + last, roster, clock)
  {
    var n := |roster| - 1;
    forall k | 0 <= k < |front + last|
      ensures StampedFor((front + last)[k], roster, clock)
    {
      if k < |front| {
        assert StampedFor(front[k], roster[..n], clock[..n]);
        var i :| 0 <= i < n && front[k].patientId == roster[..n][i].id && front[k].timestamp == clock[..n][i];
        assert (front + last)[k] == front[k] && roster[..n][i] == roster[i];
      } else {
        assert (front + last)[k] == last[k - |front|];
        assert (front + last)[k].patientId == roster[n].id && (front + last)[k].timestamp == clock[n];
      }
    }
  }

  /** The per-patient alert lists, concatenated in roster order; `clock[i]`
      is the time at which patient `i` is evaluated. At most three alerts per
      patient, each for a roster patient at that patient's time. */
  function ConcatAlerts(roster: seq<Patient>, clock: seq<int>): (r: seq<Alert>)
    requires |clock| == |roster| && AllHaveLatestVitals(roster)
    ensures |r| <= 3 * |roster|
    ensures FromRoster(r, roster, clock)
  {
    if roster == [] then []
    else
      var n := |roster| - 1;
      var front := ConcatAlerts(roster[..n], clock[..n]);
      var last := GenerateAlerts(roster[n], clock[n]);
      FromRosterExtend(front, last, roster, clock);
      front + last
  }

  predicate NewestFirst(s: seq<Alert>)
  {
    forall i, j :: 0 <= i < j < |s| ==> s[i].timestamp >= s[j].timestamp
  }

  /** Places `x` before the first alert that is not newer than it. */
  function InsertByTime(x: Alert, s: seq<Alert>): seq<Alert>
  {
    if s == [] || s[0].timestamp <= x.timestamp then [x] + s
    else [s[0]] + InsertByTime(x, s[1..])
  }

  /** The sort by `b.timestamp - a.timestamp`, which is stable: alerts with
      equal timestamps keep their relative order. */
  function SortByTime(s: seq<Alert>): (r: seq<Alert>)
    ensures NewestFirst(r)
    ensures multiset(r) == multiset(s)
  {
    if s == [] then []
    else
      var rest := SortByTime(s[1..]);
      InsertByTimeSorted(s[0], rest);
      InsertByTimePermutation(s[0], rest);
      assert s == [s[0]] + s[1..];
      InsertByTime(s[0], rest)
  }

  lemma {:induction false} InsertByTimePermutation(x: Alert, s: seq<Alert>)
    ensures multiset(InsertByTime(x, s)) == multiset(s) + multiset{x}
  {
    if !(s == [] || s[0].timestamp <= x.timestamp) {
      InsertByTimePermutation(x, s[1..]);
      assert s == [s[0]] + s[1..];
    }
  }

  /** Inserting keeps every timestamp at or below a common bound. */
  lemma {:induction false} InsertByTimeBound(x: Alert, s: seq<Alert>, bound: int)
    requires x.timestamp <= bound
    requires forall k :: 0 <= k < |s| ==> s[k].timestamp <= bound
    ensures forall k :: 0 <= k < |InsertByTime(x, s)| ==> InsertByTime(x, s)[k].timestamp <= bound
  {
    if !(s == [] || s[0].timestamp <= x.timestamp) {
      InsertByTimeBound(x, s[1..], bound);
    }
  }

  lemma {:induction false} InsertByTimeSorted(x: Alert, s: seq<Alert>)
    requires NewestFirst(s)
    ensures NewestFirst(InsertByTime(x, s))
  {
    if !(s == [] || s[0].timestamp <= x.timestamp) {
      InsertByTimeSorted(x, s[1..]);
      InsertByTimeBound(x, s[1..], s[0].timestamp);
    }
  }

  /** The alerts stamped `t`, in order. Written out rather than as a
      `Filter`, whose contract makes the stability proofs costly;
      `AtTimeIsFilter` shows the two agree. */
  function AtTime(s: seq<Alert>, t: int): seq<Alert>
  {
    if s == [] then [] else (if s[0].timestamp == t then [s[0]] else []) + AtTime(s[1..], t)
  }

  lemma {:induction false} AtTimeIsFilter(s: seq<Alert>, t: int)
    ensures AtTime(s, t) == Filter(s, (a: Alert) => a.timestamp == t)
  {
    if s != [] {
      AtTimeIsFilter(s[1..], t);
    }
  }

  lemma {:induction false} InsertByTimeStable(x: Alert, s: seq<Alert>, t: int)
    ensures AtTime(InsertByTime(x, s), t) == AtTime([x], t) + AtTime(s, t)
  {
    if s == [] || s[0].timestamp <= x.timestamp {
      assert ([x] + s)[1..] == s;
    } else {
      var rest := InsertByTime(x, s[1..]);
      assert InsertByTime(x, s) == [s[0]] + rest;
      assert ([s[0]] + rest)[1..] == rest;
      InsertByTimeStable(x, s[1..], t);
    }
  }

  /** Stability: among alerts with the same timestamp, the sorted list keeps
      the order of the input. */
  lemma {:induction false} SortByTimeStable(s: seq<Alert>, t: int)
    ensures AtTime(SortByTime(s), t) == AtTime(s, t)
  {
    if s != [] {
      SortByTimeStable(s[1..], t);
      InsertByTimeStable(s[0], SortByTime(s[1..]), t);
    }
  }

  /** A list that is already newest first comes back unchanged. */
  lemma {:induction false} SortByTimeSortedInput(s: seq<Alert>)
    requires NewestFirst(s)
    ensures SortByTime(s) == s
  {
    if s != [] {
      SortByTimeSortedInput(s[1..]);
      assert [s[0]] + s[1..] == s;
    }
  }

  predicate IsCriticalAlert(a: Alert)
  {
    a.severity == CriticalLevel
  }

  function CriticalOnly(s: seq<Alert>): seq<Alert>
  {
    Filter(s, IsCriticalAlert)
  }

  /** Filtering a newest-first list keeps it newest first. */
  lemma FilterKeepsNewestFirst(s: seq<Alert>, f: Alert -> bool)
    requires NewestFirst(s)
    ensures NewestFirst(Filter(s, f))
  {
    FilterKeepsOrder(s, f, (a: Alert, b: Alert) => a.timestamp >= b.timestamp);
  }

  /** One more patient appends that patient's alerts. */
  lemma ConcatAlertsStep(roster: seq<Patient>, clock: seq<int>, i: nat)
    requires |clock| == |roster| && AllHaveLatestVitals(roster) && i < |roster|
    ensures AllHaveLatestVitals(roster[..i]) && AllHaveLatestVitals(roster[..i + 1])
    ensures ConcatAlerts(roster[..i + 1], clock[..i + 1]) ==
            ConcatAlerts(roster[..i], clock[..i]) + GenerateAlerts(roster[i], clock[i])
  {
    assert roster[..i + 1][..i] == roster[..i];
    assert clock[..i + 1][..i] == clock[..i];
  }

  /** `getAllAlerts`: every patient's alerts, newest first. */
  method GetAllAlerts(roster: seq<Patient>, clock: seq<int>) returns (alerts: seq<Alert>)
    requires |clock| == |roster| && AllHaveLatestVitals(roster)
    ensures alerts == SortByTime(ConcatAlerts(roster, clock))
    ensures NewestFirst(alerts)
    ensures multiset(alerts) == multiset(ConcatAlerts(roster, clock))
  {
    var all: seq<Alert> := [];
    var i := 0;
    while i < |roster|
      invariant 0 <= i <= |roster|
      invariant AllHaveLatestVitals(roster[..i])
      invariant all == ConcatAlerts(roster[..i], clock[..i])
    {
      ConcatAlertsStep(roster, clock, i);
      all := all + GenerateAlerts(roster[i], clock[i]);
      i := i + 1;
    }
    assert roster[..i] == roster && clock[..i] == clock;
    alerts := SortByTime(all);
  }

  /** `getCriticalAlerts`: the critical alerts of `getAllAlerts`, in its order. */
  method GetCriticalAlerts(roster: seq<Patient>, clock: seq<int>) returns (alerts: seq<Alert>)
    requires |clock| == |roster| && AllHaveLatestVitals(roster)
    ensures alerts == CriticalOnly(SortByTime(ConcatAlerts(roster, clock)))
    ensures NewestFirst(alerts)
    ensures forall i :: 0 <= i < |alerts| ==> alerts[i].severity == CriticalLevel
    ensures multiset(alerts) == multiset(CriticalOnly(ConcatAlerts(roster, clock)))
  {
    var all := GetAllAlerts(roster, clock);
    FilterKeepsNewestFirst(all, IsCriticalAlert);
    FilterPermutation(all, ConcatAlerts(roster, clock), IsCriticalAlert);
    alerts := CriticalOnly(all);
  }
}
