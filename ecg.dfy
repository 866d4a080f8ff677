/**
 * Data model of the monitor: one derived heartbeat reading, one detected
 * condition, and the fixed thresholds the detector compares against.
 */
module ECG {

  /**
   * A point in time, as nanoseconds counted from Go's zero `time.Time`.
   * The value 0 is the zero time, which `IsZero` recognises.
   */
  type Timestamp = int

  predicate IsZero(t: Timestamp) {
    t == 0
  }

  /** One heartbeat's derived features, an immutable value. Intervals in seconds. */
  datatype ECGData = ECGData(
    timestamp: Timestamp,
    heartRate: int,
    rrInterval: real,
    qtInterval: real,
    prInterval: real,
    qrsInterval: real,
    signalQuality: real)

  /** The closed set of condition types; `Name` is the string the record carries. */
  datatype ConditionType = Tachycardia | Bradycardia | Arrhythmia {
    function Name(): string {
      match this
      case Tachycardia => "tachycardia"
      case Bradycardia => "bradycardia"
      case Arrhythmia => "arrhythmia"
    }
  }

  /** Severity tiers, ordered by `Rank` from least to most risk. */
  datatype Severity = Mild | Moderate | Severe {
    function Name(): string {
      match this
      case Mild => "mild"
      case Moderate => "moderate"
      case Severe => "severe"
    }

    function Rank(): nat {
      match this
      case Mild => 0
      case Moderate => 1
      case Severe => 2
    }
  }

  /** A detected anomaly: exactly one type and one severity per record. */
  datatype HeartCondition = HeartCondition(
    kind: ConditionType,
    severity: Severity,
    heartRate: int,
    timestamp: Timestamp,
    description: string)

  const TachycardiaThreshold: int := 100
  const BradycardiaThreshold: int := 60
  const RRVariationArrhythmiaThreshold: real := 0.15

  /** The textual names of distinct condition types differ. */
  lemma ConditionTypeNameInjective(a: ConditionType, b: ConditionType)
    ensures a.Name() == b.Name() <==> a == b
  {
  }

  /** The textual names of distinct severities differ. */
  lemma SeverityNameInjective(a: Severity, b: Severity)
    ensures a.Name() == b.Name() <==> a == b
  {
  }

  /** No integer heart rate is both above the tachycardia and below the bradycardia threshold. */
  lemma RateThresholdsDisjoint(heartRate: int)
    ensures !(heartRate > TachycardiaThreshold && heartRate < BradycardiaThreshold)
  {
  }
}
