/** The age-banded threshold tables and the three-way patient status of the
    patient service. Every predicate compares the latest reading with fixed
    limits; temperatures are in tenths of a degree. */
module Classifier {
  import opened PatientTypes
  import opened Seqs

  /** A closed interval of readings: the normal interval of a threshold band,
      or the range the simulator clamps a reading to. */
  datatype Range = Range(min: int, max: int)

  datatype HeartRateLimits = HeartRateLimits(critical: Range, warning: Range)

  /** Upper ceilings only: blood pressure is never checked from below. */
  datatype Ceiling = Ceiling(systolic: int, diastolic: int)

  datatype BloodPressureLimits = BloodPressureLimits(critical: Ceiling, warning: Ceiling)

  predicate Outside(x: int, r: Range)
  {
    x < r.min || x > r.max
  }

  /** Three age bands: under 18, 65 and over, and the adults in between.
      In each band the warning interval lies strictly inside the critical one. */
  function GetHeartRateLimits(age: int): (l: HeartRateLimits)
    ensures l.critical.min < l.warning.min < l.warning.max < l.critical.max
  {
    if age < 18 then HeartRateLimits(Range(60, 150), Range(80, 120))
    else if age >= 65 then HeartRateLimits(Range(60, 100), Range(70, 90))
    else HeartRateLimits(Range(50, 100), Range(60, 80))
  }

  /** Outside the age band's critical interval. Whatever the age, below 50
      or above 150 bpm is critical and 60–100 bpm is not; a critical heart
      rate is always also a warning one. */
  function IsCriticalHeartRate(heartRate: int, age: int): (b: bool)
    ensures heartRate < 50 || heartRate > 150 ==> b
    ensures 60 <= heartRate <= 100 ==> !b
    ensures b ==> IsWarningHeartRate(heartRate, age)
  {
    Outside(heartRate, GetHeartRateLimits(age).critical)
  }

  /** Outside the age band's warning interval. Whatever the age, below 60
      or above 120 bpm is in warning, and 80 bpm is the one rate normal in
      every band. */
  function IsWarningHeartRate(heartRate: int, age: int): (b: bool)
    ensures heartRate < 60 || heartRate > 120 ==> b
    ensures heartRate == 80 ==> !b
  {
    Outside(heartRate, GetHeartRateLimits(age).warning)
  }

  /** Critical below 29 °C or above 42.6 °C, whatever the age; a critical
      temperature is always also a warning one. */
  function IsCriticalTemperature(temperature: int): (b: bool)
    ensures b ==> IsWarningTemperature(temperature)
  {
    temperature < 290 || temperature > 426
  }

  /** Warning below 36.3 °C or above 37.5 °C, whatever the age: a normal
      temperature reads 36.x or 37.x °C. */
  function IsWarningTemperature(temperature: int): (b: bool)
    ensures !b ==> 36 <= temperature / 10 <= 37
  {
    temperature < 363 || temperature > 375
  }

  /** Two age bands: 65 and over, and everyone younger. In each band both
      warning ceilings lie strictly below the critical ones. */
  function GetBloodPressureLimits(age: int): (l: BloodPressureLimits)
    ensures l.warning.systolic < l.critical.systolic
    ensures l.warning.diastolic < l.critical.diastolic
  {
    if age >= 65 then BloodPressureLimits(Ceiling(180, 110), Ceiling(170, 90))
    else BloodPressureLimits(Ceiling(160, 100), Ceiling(140, 80))
  }

  /** Above either critical ceiling. Whatever the age, above 180/110 mmHg
      is critical and at or below 160/100 mmHg is not; a critical blood
      pressure is always also a warning one. */
  function IsCriticalBloodPressure(bp: BloodPressure, age: int): (b: bool)
    ensures bp.systolic > 180 || bp.diastolic > 110 ==> b
    ensures bp.systolic <= 160 && bp.diastolic <= 100 ==> !b
    ensures b ==> IsWarningBloodPressure(bp, age)
  {
    var l := GetBloodPressureLimits(age);
    bp.systolic > l.critical.systolic || bp.diastolic > l.critical.diastolic
  }

  /** Above either warning ceiling. Whatever the age, above 170/90 mmHg is
      in warning and at or below 140/80 mmHg is not. */
  function IsWarningBloodPressure(bp: BloodPressure, age: int): (b: bool)
    ensures bp.systolic > 170 || bp.diastolic > 90 ==> b
    ensures bp.systolic <= 140 && bp.diastolic <= 80 ==> !b
  {
    var l := GetBloodPressureLimits(age);
    bp.systolic > l.warning.systolic || bp.diastolic > l.warning.diastolic
  }

  /** The current reading of each vital the classifier looks at. */
  datatype LatestVitals = LatestVitals(heartRate: int, temperature: int, bloodPressure: BloodPressure)

  /** The three histories the classifier reads have a current reading. */
  predicate HasLatestVitals(p: Patient)
  {
    |p.vitals.heartRate| > 0 && |p.vitals.temperature| > 0 && |p.vitals.bloodPressure| > 0
  }

  /** The last element of each history: each history is its older readings
      followed by the reading returned. */
  function GetLatestVitals(p: Patient): (v: LatestVitals)
    requires HasLatestVitals(p)
    ensures p.vitals.heartRate == p.vitals.heartRate[..|p.vitals.heartRate| - 1] + [v.heartRate]
    ensures p.vitals.temperature == p.vitals.temperature[..|p.vitals.temperature| - 1] + [v.temperature]
    ensures p.vitals.bloodPressure == p.vitals.bloodPressure[..|p.vitals.bloodPressure| - 1] + [v.bloodPressure]
  {
    LatestVitals(Last(p.vitals.heartRate), Last(p.vitals.temperature), Last(p.vitals.bloodPressure))
  }

  /** Some vital is critical; then some vital is also in warning. */
  function HasCriticalVitals(v: LatestVitals, age: int): (b: bool)
    ensures b ==> HasWarningVitals(v, age)
  {
    IsCriticalHeartRate(v.heartRate, age) ||
    IsCriticalTemperature(v.temperature) ||
    IsCriticalBloodPressure(v.bloodPressure, age)
  }

  /** Some vital is in warning; when none is, none is critical either. */
  function HasWarningVitals(v: LatestVitals, age: int): (b: bool)
    ensures !b ==> !IsCriticalHeartRate(v.heartRate, age) && !IsCriticalTemperature(v.temperature) &&
                   !IsCriticalBloodPressure(v.bloodPressure, age)
  {
    IsWarningHeartRate(v.heartRate, age) ||
    IsWarningTemperature(v.temperature) ||
    IsWarningBloodPressure(v.bloodPressure, age)
  }

  /** Every critical reading is also a warning reading, for each vital and age:
      each critical band lies outside its warning band. */
  lemma CriticalImpliesWarning(v: LatestVitals, age: int)
    ensures IsCriticalHeartRate(v.heartRate, age) ==> IsWarningHeartRate(v.heartRate, age)
    ensures IsCriticalTemperature(v.temperature) ==> IsWarningTemperature(v.temperature)
    ensures IsCriticalBloodPressure(v.bloodPressure, age) ==> IsWarningBloodPressure(v.bloodPressure, age)
    ensures HasCriticalVitals(v, age) ==> HasWarningVitals(v, age)
  {
    var hr := GetHeartRateLimits(age);
    var bp := GetBloodPressureLimits(age);
  }

  /** Critical if any vital is critical; otherwise watch if any vital is in
      warning; otherwise stable. */
  function GetPatientStatus(p: Patient): (s: PatientStatus)
    requires HasLatestVitals(p)
    ensures s == Critical <==> HasCriticalVitals(GetLatestVitals(p), p.age)
    ensures s == Stable <==> !HasWarningVitals(GetLatestVitals(p), p.age)
    ensures s == Watch <==> !HasCriticalVitals(GetLatestVitals(p), p.age) && HasWarningVitals(GetLatestVitals(p), p.age)
  {
    var latest := GetLatestVitals(p);
    CriticalImpliesWarning(latest, p.age);
    if HasCriticalVitals(latest, p.age) then Critical
    else if HasWarningVitals(latest, p.age) then Watch
    else Stable
  }

  /** Any other status would be drawn grey; the three statuses are all the
      type admits, so grey never appears. */
  function GetStatusColor(status: PatientStatus): (color: string)
    ensures color != "gray"
  {
    match status
    case Stable => "green"
    case Watch => "yellow"
    case Critical => "red"
  }

  /** Each status has its own colour. */
  lemma StatusColorInjective(s: PatientStatus, t: PatientStatus)
    requires GetStatusColor(s) == GetStatusColor(t)
    ensures s == t
  {
  }

  /** The severity of a heart rate on the scale stable (0), warning (1), critical (2). */
  function HeartRateLevel(heartRate: int, age: int): nat
  {
    if IsCriticalHeartRate(heartRate, age) then 2
    else if IsWarningHeartRate(heartRate, age) then 1
    else 0
  }

  /** Moving a heart rate further from the age band's normal interval, on
      either side, never lowers its severity. */
  lemma HeartRateLevelMonotone(age: int, near: int, far: int)
    requires far <= near <= GetHeartRateLimits(age).warning.min ||
             GetHeartRateLimits(age).warning.max <= near <= far
    ensures HeartRateLevel(near, age) <= HeartRateLevel(far, age)
  {
  }

  /** The severity of a temperature on the same scale. */
  function TemperatureLevel(temperature: int): nat
  {
    if IsCriticalTemperature(temperature) then 2
    else if IsWarningTemperature(temperature) then 1
    else 0
  }

  /** Moving a temperature further from 36.3–37.5 °C never lowers its severity. */
  lemma TemperatureLevelMonotone(near: int, far: int)
    requires far <= near <= 363 || 375 <= near <= far
    ensures TemperatureLevel(near) <= TemperatureLevel(far)
  {
  }

  /** The severity of a blood pressure reading on the same scale. */
  function BloodPressureLevel(bp: BloodPressure, age: int): nat
  {
    if IsCriticalBloodPressure(bp, age) then 2
    else if IsWarningBloodPressure(bp, age) then 1
    else 0
  }

  /** Raising either pressure never lowers the severity. */
  lemma BloodPressureLevelMonotone(age: int, low: BloodPressure, high: BloodPressure)
    requires low.systolic <= high.systolic && low.diastolic <= high.diastolic
    ensures BloodPressureLevel(low, age) <= BloodPressureLevel(high, age)
  {
  }

  /** Only ceilings are checked: a reading at or below both warning ceilings is
      neither warning nor critical, however low it is. */
  lemma LowBloodPressureIsNormal(bp: BloodPressure, age: int)
    requires bp.systolic <= (if age >= 65 then 170 else 140)
    requires bp.diastolic <= (if age >= 65 then 90 else 80)
    ensures !IsWarningBloodPressure(bp, age) && !IsCriticalBloodPressure(bp, age)
  {
  }

  /** An elderly patient: 95 bpm is watch, 105 bpm is critical. */
  lemma ElderlyHeartRateScenario(p: Patient)
    requires p.age == 70 && HasLatestVitals(p)
    requires Last(p.vitals.temperature) == 370 && Last(p.vitals.bloodPressure) == BloodPressure(120, 70)
    ensures Last(p.vitals.heartRate) == 95 ==> GetPatientStatus(p) == Watch
    ensures Last(p.vitals.heartRate) == 105 ==> GetPatientStatus(p) == Critical
  {
  }

  /** A child at 43.0 °C is critical whatever the other readings. */
  lemma ChildFeverScenario(p: Patient)
    requires p.age == 10 && HasLatestVitals(p) && Last(p.vitals.temperature) == 430
    ensures GetPatientStatus(p) == Critical
  {
  }
}
