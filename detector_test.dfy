/**
 * The detector's four scenario tests, as verified client code: each test
 * builds a fresh detector, feeds it readings and returns what it reported;
 * the postconditions say what those results are. `now` (and `later`) stand
 * for the clock readings taken by the test.
 */
module DetectionTests {
  import opened Wrappers
  import opened ECG
  import opened Detection

  const Second: int := 1_000_000_000

  method TestDetectTachycardia(now: Timestamp) returns (condition: Option<HeartCondition>)
    ensures condition == Some(HeartCondition(Tachycardia, Mild, 120, now, "Abnormally high heart rate detected"))
    ensures condition.value.kind.Name() == "tachycardia"
  {
    var detector := new Detector();
    var data := ECGData(now, 120, 60.0 / 120.0, 0.35, 0.15, 0.08, 0.95);
    condition := detector.AnalyzeECGData(data);
    assert condition.Some? && condition.value.kind == Tachycardia;
  }

  method TestDetectBradycardia(now: Timestamp) returns (condition: Option<HeartCondition>)
    ensures condition == Some(HeartCondition(Bradycardia, Moderate, 45, now, "Abnormally low heart rate detected"))
    ensures condition.value.kind.Name() == "bradycardia"
  {
    var detector := new Detector();
    var data := ECGData(now, 45, 60.0 / 45.0, 0.35, 0.15, 0.08, 0.95);
    condition := detector.AnalyzeECGData(data);
    assert condition.Some? && condition.value.kind == Bradycardia;
  }

  method TestDetectArrhythmia(now: Timestamp, later: Timestamp) returns (condition1: Option<HeartCondition>, condition2: Option<HeartCondition>)
    requires !IsZero(now)
    ensures condition1 == None
    ensures condition2 == Some(HeartCondition(Arrhythmia, Moderate, 70, later + Second, "Irregular heart rhythm detected"))
    ensures condition2.value.kind.Name() == "arrhythmia"
  {
    var detector := new Detector();

    var data1 := ECGData(now, 70, 0.85, 0.35, 0.15, 0.08, 0.95);
    condition1 := detector.AnalyzeECGData(data1);
    assert condition1 == None;

    var data2 := ECGData(later + Second, 70, 1.1, 0.35, 0.15, 0.08, 0.95);
    condition2 := detector.AnalyzeECGData(data2);
    assert condition2.Some? && condition2.value.kind == Arrhythmia;
  }

  method TestNormalHeartbeat(now: Timestamp) returns (condition: Option<HeartCondition>)
    ensures condition == None
  {
    var detector := new Detector();
    var data := ECGData(now, 70, 60.0 / 70.0, 0.35, 0.15, 0.08, 0.95);
    condition := detector.AnalyzeECGData(data);
  }
}
