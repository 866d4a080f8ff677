/**
 * The streaming heart-reading classifier. A `Detector` remembers the RR
 * interval and timestamp of the previous reading; each call classifies one
 * reading against the rate thresholds and, when a previous reading exists,
 * against the relative change of the RR interval, and then remembers the
 * new reading.
 */
module Detection {
  import opened Wrappers
  import opened ECG

  function Abs(x: real): (r: real)
    ensures r >= 0.0 && (r == x || r == -x)
  {
    if x < 0.0 then -x else x
  }

  /** Relative change of the RR interval against the previous one. */
  function Variation(lastRR: real, rr: real): (v: real)
    requires lastRR > 0.0
    ensures v >= 0.0
    ensures v * lastRR == Abs(rr - lastRR)
  {
    Abs(rr - lastRR) / lastRR
  }

  function TachycardiaSeverity(heartRate: int): Severity {
    if heartRate > TachycardiaThreshold + 40 then Severe
    else if heartRate > TachycardiaThreshold + 20 then Moderate
    else Mild
  }

  function BradycardiaSeverity(heartRate: int): Severity {
    if heartRate < BradycardiaThreshold - 20 then Severe
    else if heartRate < BradycardiaThreshold - 10 then Moderate
    else Mild
  }

  function ArrhythmiaSeverity(variation: real): Severity {
    if variation > RRVariationArrhythmiaThreshold * 2.0 then Severe
    else if variation > RRVariationArrhythmiaThreshold * 1.5 then Moderate
    else Mild
  }

  /** The fixed human-readable text for each condition type. */
  function Description(kind: ConditionType): string {
    match kind
    case Tachycardia => "Abnormally high heart rate detected"
    case Bradycardia => "Abnormally low heart rate detected"
    case Arrhythmia => "Irregular heart rhythm detected"
  }

  /** A condition of the given type and severity for `data`. */
  function ConditionFor(kind: ConditionType, severity: Severity, data: ECGData): HeartCondition {
    HeartCondition(kind, severity, data.heartRate, data.timestamp, Description(kind))
  }

  /** A previous reading has been seen: both state fields are set. */
  predicate HasPrior(lastRR: real, lastTs: Timestamp) {
    lastRR > 0.0 && !IsZero(lastTs)
  }

  /** The arrhythmia rule fires for `data` in the given state. */
  predicate ArrhythmiaFires(lastRR: real, lastTs: Timestamp, data: ECGData) {
    HasPrior(lastRR, lastTs) && Variation(lastRR, data.rrInterval) > RRVariationArrhythmiaThreshold
  }

  /**
   * The condition one call reports for `data`, given the state left by the
   * previous call. The three rules run in order and each later rule that
   * fires replaces the earlier result.
   */
  function Classify(lastRR: real, lastTs: Timestamp, data: ECGData): (r: Option<HeartCondition>)
    ensures r.Some? ==> r.value.heartRate == data.heartRate && r.value.timestamp == data.timestamp
    ensures r.Some? ==> r.value.description == Description(r.value.kind)
    ensures r.None? <==>
      BradycardiaThreshold <= data.heartRate <= TachycardiaThreshold && !ArrhythmiaFires(lastRR, lastTs, data)
  {
    var afterTachycardia :=
      if data.heartRate > TachycardiaThreshold
      then Some(ConditionFor(Tachycardia, TachycardiaSeverity(data.heartRate), data))
      else None;
    var afterBradycardia :=
      if data.heartRate < BradycardiaThreshold
      then Some(ConditionFor(Bradycardia, BradycardiaSeverity(data.heartRate), data))
      else afterTachycardia;
    if ArrhythmiaFires(lastRR, lastTs, data)
    then Some(ConditionFor(Arrhythmia, ArrhythmiaSeverity(Variation(lastRR, data.rrInterval)), data))
    else afterBradycardia
  }

  /** The detector: the RR interval and timestamp of the previous reading, 0 when unset. */
  class Detector {
    var lastRR: real
    var lastTs: Timestamp

    constructor ()
      ensures lastRR == 0.0 && lastTs == 0
      ensures !HasPrior(lastRR, lastTs)
    {
      lastRR := 0.0;
      lastTs := 0;
    }

    /** Classifies one reading, then remembers it whatever the outcome. */
    method AnalyzeECGData(data: ECGData) returns (condition: Option<HeartCondition>)
      modifies this
      ensures condition == Classify(old(lastRR), old(lastTs), data)
      ensures lastRR == data.rrInterval && lastTs == data.timestamp
    {
      condition := None;

      if data.heartRate > TachycardiaThreshold {
        var severity := Mild;
        if data.heartRate > TachycardiaThreshold + 20 {
          severity := Moderate;
        }
        if data.heartRate > TachycardiaThreshold + 40 {
          severity := Severe;
        }
        condition := Some(HeartCondition(Tachycardia, severity, data.heartRate, data.timestamp,
                                         "Abnormally high heart rate detected"));
      }

      if data.heartRate < BradycardiaThreshold {
        var severity := Mild;
        if data.heartRate < BradycardiaThreshold - 10 {
          severity := Moderate;
        }
        if data.heartRate < BradycardiaThreshold - 20 {
          severity := Severe;
        }
        condition := Some(HeartCondition(Bradycardia, severity, data.heartRate, data.timestamp,
                                         "Abnormally low heart rate detected"));
      }

      if lastRR > 0.0 && !IsZero(lastTs) {
        var variation := Abs(data.rrInterval - lastRR) / lastRR;
        if variation > RRVariationArrhythmiaThreshold {
          var severity := Mild;
          if variation > RRVariationArrhythmiaThreshold * 1.5 {
            severity := Moderate;
          }
          if variation > RRVariationArrhythmiaThreshold * 2.0 {
            severity := Severe;
          }
          condition := Some(HeartCondition(Arrhythmia, severity, data.heartRate, data.timestamp,
                                           "Irregular heart rhythm detected"));
        }
      }

      lastRR := data.rrInterval;
      lastTs := data.timestamp;
    }
  }

  // ---------------------------------------------------------------------
  // Properties of one classification step
  // ---------------------------------------------------------------------

  /** Without a previous reading the arrhythmia rule cannot fire. */
  lemma NoPriorNoArrhythmia(lastRR: real, lastTs: Timestamp, data: ECGData)
    requires lastRR <= 0.0 || lastTs == 0
    ensures Classify(lastRR, lastTs, data).None? || Classify(lastRR, lastTs, data).value.kind != Arrhythmia
  {
  }

  /**
   * The arrhythmia rule, stated without division: with a previous reading,
   * it fires exactly when the new RR interval lies more than 15% above or
   * below the previous one.
   */
  lemma ArrhythmiaFiresIff(lastRR: real, lastTs: Timestamp, data: ECGData)
    ensures ArrhythmiaFires(lastRR, lastTs, data) <==>
      lastRR > 0.0 && lastTs != 0 &&
      (data.rrInterval > 1.15 * lastRR || data.rrInterval < 0.85 * lastRR)
  {
    if HasPrior(lastRR, lastTs) {
      var v := Variation(lastRR, data.rrInterval);
      var d := Abs(data.rrInterval - lastRR);
      assert v * lastRR == d;
      VariationAbove(lastRR, v, d, RRVariationArrhythmiaThreshold);
    }
  }

  /** For a positive divisor, `v * b == d` exceeds `t` exactly when `d` exceeds `t * b`. */
  lemma VariationAbove(b: real, v: real, d: real, t: real)
    requires b > 0.0 && v * b == d
    ensures v > t <==> d > t * b
  {
  }

  /** Heart rate above 100 without the arrhythmia rule firing: tachycardia, banded at 120 and 140. */
  lemma TachycardiaBands(lastRR: real, lastTs: Timestamp, data: ECGData)
    requires data.heartRate > 100
    requires !ArrhythmiaFires(lastRR, lastTs, data)
    ensures Classify(lastRR, lastTs, data) == Some(HeartCondition(
      Tachycardia,
      if data.heartRate <= 120 then Mild else if data.heartRate <= 140 then Moderate else Severe,
      data.heartRate, data.timestamp, "Abnormally high heart rate detected"))
  {
  }

  /** Heart rate below 60 without the arrhythmia rule firing: bradycardia, banded at 50 and 40. */
  lemma BradycardiaBands(lastRR: real, lastTs: Timestamp, data: ECGData)
    requires data.heartRate < 60
    requires !ArrhythmiaFires(lastRR, lastTs, data)
    ensures Classify(lastRR, lastTs, data) == Some(HeartCondition(
      Bradycardia,
      if data.heartRate >= 50 then Mild else if data.heartRate >= 40 then Moderate else Severe,
      data.heartRate, data.timestamp, "Abnormally low heart rate detected"))
  {
  }

  /**
   * When the arrhythmia rule fires it decides the result, whatever the heart
   * rate: arrhythmia, banded at relative changes of 0.225 and 0.30.
   */
  lemma ArrhythmiaOverrides(lastRR: real, lastTs: Timestamp, data: ECGData)
    requires ArrhythmiaFires(lastRR, lastTs, data)
    ensures Classify(lastRR, lastTs, data) == Some(HeartCondition(
      Arrhythmia,
      var v := Abs(data.rrInterval - lastRR) / lastRR;
      if v <= 0.225 then Mild else if v <= 0.30 then Moderate else Severe,
      data.heartRate, data.timestamp, "Irregular heart rhythm detected"))
  {
  }

  /**
   * No condition exactly when the heart rate lies in 60..100 and the RR
   * interval stays within 15% of the previous one (or no previous reading exists).
   */
  lemma NormalReadingIff(lastRR: real, lastTs: Timestamp, data: ECGData)
    ensures Classify(lastRR, lastTs, data).None? <==>
      60 <= data.heartRate <= 100 &&
      !(lastRR > 0.0 && lastTs != 0 &&
        (data.rrInterval > 1.15 * lastRR || data.rrInterval < 0.85 * lastRR))
  {
    ArrhythmiaFiresIff(lastRR, lastTs, data);
  }

  /** Classification reads only the heart rate, RR interval and timestamp of a reading. */
  lemma ClassifyReadsThreeFields(lastRR: real, lastTs: Timestamp, d1: ECGData, d2: ECGData)
    requires d1.heartRate == d2.heartRate && d1.rrInterval == d2.rrInterval && d1.timestamp == d2.timestamp
    ensures Classify(lastRR, lastTs, d1) == Classify(lastRR, lastTs, d2)
  {
  }

  // ---------------------------------------------------------------------
  // Severity is monotone in the deviation beyond each threshold
  // ---------------------------------------------------------------------

  lemma TachycardiaSeverityMonotone(h1: int, h2: int)
    requires TachycardiaThreshold < h1 <= h2
    ensures TachycardiaSeverity(h1).Rank() <= TachycardiaSeverity(h2).Rank()
  {
  }

  lemma BradycardiaSeverityMonotone(h1: int, h2: int)
    requires h2 <= h1 < BradycardiaThreshold
    ensures BradycardiaSeverity(h1).Rank() <= BradycardiaSeverity(h2).Rank()
  {
  }

  /** A larger jump of the RR interval from the same previous interval never lowers the tier. */
  lemma ArrhythmiaSeverityMonotone(lastRR: real, rr1: real, rr2: real)
    requires lastRR > 0.0
    requires Abs(rr1 - lastRR) <= Abs(rr2 - lastRR)
    ensures ArrhythmiaSeverity(Variation(lastRR, rr1)).Rank() <= ArrhythmiaSeverity(Variation(lastRR, rr2)).Rank()
  {
    var v1, v2 := Variation(lastRR, rr1), Variation(lastRR, rr2);
    assert (v2 - v1) * lastRR >= 0.0;
  }

  // ---------------------------------------------------------------------
  // A stream of readings
  // ---------------------------------------------------------------------

  /** The conditions a detector in the given state reports for `readings`, one call each, in order. */
  function Replay(lastRR: real, lastTs: Timestamp, readings: seq<ECGData>): (r: seq<Option<HeartCondition>>)
    ensures |r| == |readings|
    ensures |readings| > 0 ==> r[0] == Classify(lastRR, lastTs, readings[0])
    decreases |readings|
  {
    if readings == [] then []
    else [Classify(lastRR, lastTs, readings[0])]
         + Replay(readings[0].rrInterval, readings[0].timestamp, readings[1..])
  }

  /**
   * Feeds `readings` to one detector, one call each, in arrival order, as the
   * client's read loop does with the messages it decodes.
   */
  method AnalyzeAll(d: Detector, readings: seq<ECGData>) returns (rs: seq<Option<HeartCondition>>)
    modifies d
    ensures rs == Replay(old(d.lastRR), old(d.lastTs), readings)
    ensures |readings| > 0 ==>
      d.lastRR == readings[|readings| - 1].rrInterval && d.lastTs == readings[|readings| - 1].timestamp
    ensures |readings| == 0 ==> d.lastRR == old(d.lastRR) && d.lastTs == old(d.lastTs)
  {
    rs := [];
    var i := 0;
    while i < |readings|
      invariant 0 <= i <= |readings|
      invariant rs + Replay(d.lastRR, d.lastTs, readings[i..]) == Replay(old(d.lastRR), old(d.lastTs), readings)
      invariant i > 0 ==> d.lastRR == readings[i - 1].rrInterval && d.lastTs == readings[i - 1].timestamp
      invariant i == 0 ==> d.lastRR == old(d.lastRR) && d.lastTs == old(d.lastTs)
    {
      assert readings[i..][1..] == readings[i + 1..];
      var c := d.AnalyzeECGData(readings[i]);
      rs := rs + [c];
      i := i + 1;
    }
  }

  /** Every reading after the first is compared with the reading immediately before it. */
  lemma {:induction false} ReplayComparesWithPredecessor(lastRR: real, lastTs: Timestamp, readings: seq<ECGData>, i: nat)
    requires 0 < i < |readings|
    ensures Replay(lastRR, lastTs, readings)[i] ==
      Classify(readings[i - 1].rrInterval, readings[i - 1].timestamp, readings[i])
    decreases i
  {
    var rest := Replay(readings[0].rrInterval, readings[0].timestamp, readings[1..]);
    assert Replay(lastRR, lastTs, readings)[i] == rest[i - 1];
    if i > 1 {
      ReplayComparesWithPredecessor(readings[0].rrInterval, readings[0].timestamp, readings[1..], i - 1);
    }
  }

  /** A fresh detector never reports arrhythmia for the first reading of a stream. */
  lemma FreshStreamStartsWithoutArrhythmia(readings: seq<ECGData>)
    requires |readings| > 0
    ensures Replay(0.0, 0, readings)[0].None? || Replay(0.0, 0, readings)[0].value.kind != Arrhythmia
  {
    NoPriorNoArrhythmia(0.0, 0, readings[0]);
  }
}
