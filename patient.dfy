/** The records shared by the classifier and the simulator. */
module PatientTypes {

  datatype BloodPressure = BloodPressure(systolic: int, diastolic: int)

  /** Four parallel histories, oldest sample first; the last sample is the
      current reading. Temperatures are in tenths of a degree Celsius
      (37.5 °C is 375). */
  datatype PatientVitals = PatientVitals(
    heartRate: seq<int>,
    temperature: seq<int>,
    bloodPressure: seq<BloodPressure>,
    oxygenSaturation: seq<int>)

  datatype Patient = Patient(
    id: int,
    firstName: string,
    lastName: string,
    age: int,
    medicalRecordNumber: string,
    vitals: PatientVitals)

  datatype PatientStatus = Stable | Watch | Critical

  /** The `type` of an alert. No alert of the last kind is ever generated. */
  datatype VitalType = HeartRateVital | TemperatureVital | BloodPressureVital | OxygenSaturationVital

  datatype Severity = WarningLevel | CriticalLevel

  /** `timestamp` is a clock reading in milliseconds, as `Date.getTime()` gives it. */
  datatype Alert = Alert(
    id: string,
    patientId: int,
    vitalType: VitalType,
    message: string,
    severity: Severity,
    timestamp: int)

  /** The spelling of a vital type in alert ids. */
  function TypeName(t: VitalType): string
  {
    match t
    case HeartRateVital => "heartRate"
    case TemperatureVital => "temperature"
    case BloodPressureVital => "bloodPressure"
    case OxygenSaturationVital => "oxygenSaturation"
  }

  /** The spelling of a severity in alert ids. */
  function SeverityName(s: Severity): string
  {
    match s
    case WarningLevel => "warning"
    case CriticalLevel => "critical"
  }
}
