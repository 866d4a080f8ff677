# ECG monitor: the streaming heart-reading classifier

This project models the anomaly detector of an ECG monitoring tool in Dafny. A
`Detector` receives one derived heartbeat reading (`ECGData`) per call. It
checks the reading in a fixed order:

1. tachycardia: heart rate above 100, with tiers at 120 and 140;
2. bradycardia: heart rate below 60, with tiers at 50 and 40;
3. arrhythmia: the RR interval changed by more than 15% relative to the
   previous reading, with tiers at 0.225 and 0.30. This rule runs only when a
   previous reading has been seen, and it overrides the first two.

The call reports at most one `HeartCondition`. It then always stores the
reading's RR interval and timestamp for the next call.

Files:

- `wrappers.dfy`: the `Option` datatype. `None` stands for Go's nil result.
- `ecg.dfy` (module `ECG`): the `ECGData` and `HeartCondition` records and the
  three threshold constants. Condition types and severities are enumerations.
  Their `Name()` gives the string the Go record stores.
- `detector.dfy` (module `Detection`): the pure specification `Classify`. The
  class `Detector` has fields `lastRR: real` and `lastTs: Timestamp`, with 0
  as the unset value for both. Its method `AnalyzeECGData` follows the Go code
  statement by statement, and its postcondition ties the result to `Classify`
  of the old state and the new state to the reading. The file also holds the
  lemmas about `Classify`, and `Replay`, which gives the results of a whole
  stream of calls; the method `AnalyzeAll` feeds a stream to one detector,
  as the client's read loop does, and is proved to return `Replay`.
- `detector_test.dfy` (module `DetectionTests`): the repository's four
  scenario tests as verified methods. Each returns what the detector
  reported, and its postcondition pins that result down fully: type,
  severity, copied fields and description.

Modelling choices:

- RR intervals and the other float fields are exact `real`s.
- A Go `time.Time` is an `int` count of nanoseconds from Go's zero time, so
  `IsZero()` means `== 0`.
- The tests read the clock with `time.Now()`. Here each clock read is a
  parameter: `now`, and in the arrhythmia test also `later` for the second
  read, to which the Go test adds one second. The arrhythmia test requires
  `now` to be non-zero, which the Go test silently relies on: with a zero
  first timestamp the second reading could not be compared.
- The bradycardia scenario (heart rate 45) is `moderate`: the second band
  test `heartRate < 60 - 10` (pkg/detection/detector.go:43) holds for 45.
  The Go test checks only the type.

## Model

| member | source | states |
|---|---|---|
| ECG.ConditionTypeNameInjective | pkg/model/ecg.go:17-23 | distinct condition types carry distinct `Type` strings, so a condition has exactly one identifiable type |
| ECG.SeverityNameInjective | pkg/model/ecg.go:17-23 | distinct severities carry distinct `Severity` strings |
| ECG.RateThresholdsDisjoint | pkg/model/ecg.go:25-30 | with thresholds 100 and 60, no integer heart rate triggers both rate rules |
| Detection.Abs | pkg/detection/detector.go:60 | the absolute value is non-negative and equals the argument or its negation |
| Detection.Variation | pkg/detection/detector.go:60 | the relative RR change is non-negative and, multiplied by the previous interval, gives the absolute change |
| Detection.Classify | pkg/detection/detector.go:19-85 | a reported condition copies heart rate and timestamp and has its type's fixed description; nothing is reported exactly when 60 <= rate <= 100 and the arrhythmia rule does not fire |
| Detection.Detector.constructor | pkg/detection/detector.go:15-17 | a new detector has both fields unset (0), so it has no previous reading |
| Detection.Detector.AnalyzeECGData | pkg/detection/detector.go:19-86 | the result is `Classify` of the state before the call; afterwards the state is the reading's RR interval and timestamp, whatever was returned |
| Detection.NoPriorNoArrhythmia | pkg/detection/detector.go:59 | with the RR interval or the timestamp unset, no arrhythmia is reported |
| Detection.ArrhythmiaFiresIff | pkg/detection/detector.go:59-62 | the arrhythmia rule fires exactly when both fields are set and the new RR interval is above 1.15 or below 0.85 times the previous one |
| Detection.TachycardiaBands | pkg/detection/detector.go:23-39 | heart rate above 100, rule 3 not firing: tachycardia, `mild` up to 120, `moderate` up to 140, `severe` above, with the input's rate and timestamp and the fixed description |
| Detection.BradycardiaBands | pkg/detection/detector.go:41-57 | heart rate below 60, rule 3 not firing: bradycardia, `mild` from 50, `moderate` from 40, `severe` below 40, with copied fields and the fixed description |
| Detection.ArrhythmiaOverrides | pkg/detection/detector.go:59-79 | when rule 3 fires the result is arrhythmia whatever the heart rate: `mild` up to variation 0.225, `moderate` up to 0.30, `severe` above |
| Detection.NormalReadingIff | pkg/detection/detector.go:19-85 | no condition exactly when 60 <= rate <= 100 and, if a previous reading exists, the RR interval stays within 15% of it |
| Detection.ClassifyReadsThreeFields | pkg/model/ecg.go:7-15 | two readings equal in heart rate, RR interval and timestamp are classified alike; the QT, PR, QRS and signal-quality fields are not read |
| Detection.TachycardiaSeverityMonotone | pkg/detection/detector.go:24-30 | a higher rate above 100 never gets a lower tachycardia tier |
| Detection.BradycardiaSeverityMonotone | pkg/detection/detector.go:42-48 | a lower rate below 60 never gets a lower bradycardia tier |
| Detection.ArrhythmiaSeverityMonotone | pkg/detection/detector.go:60-69 | from the same previous interval, a larger RR jump never gets a lower arrhythmia tier |
| Detection.Replay | pkg/detection/detector.go:81-83 | a stream of calls returns one result per reading, the first classified against the starting state |
| Detection.AnalyzeAll | cmd/client/main.go:74-89 | successive `AnalyzeECGData` calls on one detector return exactly `Replay` of its starting state, and leave the detector holding the last reading (unchanged for an empty stream) |
| Detection.ReplayComparesWithPredecessor | pkg/detection/detector.go:59-83 | in a stream, each reading after the first is classified against the reading immediately before it |
| Detection.FreshStreamStartsWithoutArrhythmia | pkg/detection/detector.go:15-17 | the first reading a fresh detector sees never yields arrhythmia |
| DetectionTests.TestDetectTachycardia | pkg/detection/detector_test.go:10-33 | fresh detector, rate 120, RR 0.5: tachycardia, `mild` (120 is not above 120); the `Type` string is "tachycardia" |
| DetectionTests.TestDetectBradycardia | pkg/detection/detector_test.go:35-58 | fresh detector, rate 45, RR 60/45: bradycardia, `moderate` (45 < 50); the `Type` string is "bradycardia" |
| DetectionTests.TestDetectArrhythmia | pkg/detection/detector_test.go:60-101 | rate 70, RR 0.85 gives nothing; then, at the second clock read plus one second, rate 70, RR 1.1 gives arrhythmia, `moderate` (variation 0.25/0.85 is about 0.294); the `Type` string is "arrhythmia" |
| DetectionTests.TestNormalHeartbeat | pkg/detection/detector_test.go:103-121 | fresh detector, rate 70, RR 60/70: nothing is reported |

## Left out

- IEEE-754 behaviour of the variation computation: the model uses exact reals. At a variation of exactly 0.15, 0.225 or 0.30, float rounding may put a reading in the other tier, so the model does not claim float-exact agreement.
- Go pointers: the returned `*HeartCondition` is modelled as an `Option` value. A fresh allocation per call cannot be observed by callers.
- `time.Time`: only its zero test is modelled, with timestamps as integers. Wall-clock reads in the tests are a parameter.
- cmd/client/main.go: apart from the detector calls modelled by `AnalyzeAll`, the websocket loop, flag parsing, JSON decoding (a malformed message is skipped before the detector is called), console output and signal handling. These are I/O and concurrency.
- cmd/server/main.go: the websocket server and its random, float-based reading generator.
- pkg/notification/beeper.go and pkg/notification/logger.go: sound output, process execution, sleeping, file logging and its mutex. These are side effects with no result to verify.
- cmd/sound_test/main.go: a manual audio check.
