# Acoustic vehicle detector: capture session, store and prediction folding

This is a Dafny model of the logic in a small browser application. The
application listens to the microphone and shows live audio metrics: a volume
level, a dominant frequency and a running `mm:ss` clock. It also shows
vehicle-class predictions (tank, pedestrian, light vehicle) and keeps a
bounded detection history that persists across reloads.

The model covers three source files:

- `src/services/audioService.js` is modelled by `metrics.dfy`, `clock.dfy` and `audio.dfy`.
  - `metrics.dfy` covers the integer steps of `updateMetrics`: the first-maximum scan, the bin-to-Hz mapping and the energy sum.
  - `clock.dfy` covers the elapsed-time formatting of the recording timer.
  - `audio.dfy` covers `startAudioRecording`, `stopAudioRecording` and every callback they schedule.
- `src/store/useAudioStore.js` is modelled by `store.dfy`. The store is a class with one field per store key. `localStorage` is a class over a map; each of its calls takes a `fault` flag that makes the call throw.
- `src/services/apiService.js` is modelled by `api.dfy`: `handlePredictionResult`, the fixed demo prediction table and `simulatePrediction`.

`environment.dfy` models the browser around the code, with opaque numbered
handles:
- live media streams and open audio contexts;
- interval timers, each with the store snapshot its closure reads;
- pending timeouts;
- running metrics loops.

Every callback the code hands to the browser is recorded as a value that
carries the part of the store snapshot its closure reads. A timeout or a
metrics loop carries the snapshot's `isRecording` flag. The recording timer
carries the snapshot's `recordingStartTime`. Firing a callback is an explicit
method: `ClockTick`, `MetricsTick`, `FireWarmUp`, `FireSimulation` or
`FireNextPrediction`. The first `updateMetrics` frame is called directly by
`startAudioMetrics` rather than handed to the browser; it too is a
`MetricsTick` step.

The model follows the code where it differs from what the application's
design suggests:
- The snapshot in `startAudioRecording` is taken before `isRecording` is set to true. So the 3 s warm-up guard sees the value from before the start. From a stopped store the prediction loop never starts (`StartFromIdleNeverPredicts`). It starts only when a session was already recording.
- The metrics loop's snapshot is taken after `isRecording` is set. So its guards always pass, and the loop keeps running after a stop.
- The prediction loop's snapshot is taken when the warm-up fires. Stopping does not end the loop, and a late demo result still reaches the store (`StopDoesNotEndPredictionLoop`).
- `stopAudioRecording` clears only the current interval. It does not cancel pending timeouts or metrics loops.
- A second `startAudioRecording` overwrites the interval handle, so the first interval and the first stream are never released (`StartTwice`).
- A failed start sets the error status and returns the error, which stands for the rethrow. It releases nothing it had already acquired.

## Model

| member | source | states |
|---|---|---|
| Metrics.DominantBin | src/services/audioService.js:117-124 | the index is inside a non-empty frame and is 0 for an empty frame |
| Metrics.DominantBinIsFirstMaximum | src/services/audioService.js:119-124 | the index holds a maximum and every earlier bin is strictly smaller, so ties go to the lowest index |
| Metrics.FirstMaximumIsUnique | src/services/audioService.js:119-124 | at most one index of a frame is a first maximum, so the scan's answer is fully determined |
| Metrics.SilentSpectrumHasBinZero | src/services/audioService.js:117-124 | an all-zero frame yields index 0 |
| Metrics.FindDominantBin | src/services/audioService.js:113-124 | the in-place scan over the analyser's byte array returns the first maximum (0 for an empty array) |
| Metrics.DominantFrequency | src/services/audioService.js:116-126 | the reported frequency of a frame is never negative for a non-negative sample rate, and is 0 exactly when the scan picks bin 0 |
| Metrics.ZeroHzIffBinZeroIsMaximum | src/services/audioService.js:116-126 | a non-empty frame reports 0 Hz exactly when no bin is larger than bin 0 |
| Metrics.BinFrequency | src/services/audioService.js:126 | the frequency is never negative for a non-negative sample rate, and is 0 exactly at bin 0 |
| Metrics.SinglePeakFrequency | src/services/audioService.js:117-126 | a frame with one non-zero peak at bin k reports exactly k*sampleRate/2048 |
| Metrics.BelowNyquist | src/services/audioService.js:93-126 | a full frame of 1024 bins reports a frequency in [0, sampleRate/2) |
| Metrics.BinBelowHalfRate | src/services/audioService.js:126 | every bin below 1024 maps below half the sample rate |
| Metrics.DeviationSquareBound | src/services/audioService.js:104-105 | one sample's squared deviation from 128 is between 0 and 128² |
| Metrics.Energy | src/services/audioService.js:102-106 | the reference sum Σ(x-128)², 128² times the source's sum of squares, is never negative |
| Metrics.NoEnergyOnlyAtMidpoint | src/services/audioService.js:102-106 | a frame with zero energy has every sample at 128, the converse of the next row |
| Metrics.MidpointFrameHasNoEnergy | src/services/audioService.js:102-106 | a frame whose samples are all 128 has zero energy |
| Metrics.EnergyBounds | src/services/audioService.js:102-106 | 0 ≤ Σ(x-128)² ≤ 128²·n, so the normalised sum of squares is at most n |
| Metrics.SumSquaredDeviation | src/services/audioService.js:102-106 | the accumulation loop computes Σ(x-128)² over the array, within those bounds |
| Clock.JsRemainder | src/services/audioService.js:83 | JavaScript `%` with a positive divisor: the remainder has the dividend's sign and is smaller than the divisor in magnitude |
| Clock.JsRemainderIsTruncated | src/services/audioService.js:83 | the remainder's value is `a - b * trunc(a / b)`, the quotient rounded toward zero, as JavaScript's `%` defines it |
| Clock.ClockFields | src/services/audioService.js:80-83 | for elapsed ≥ 0, minutes*60 + seconds = floor(elapsed/1000), with minutes ≥ 0 and 0 ≤ seconds < 60; a negative elapsed time gives negative minutes |
| Clock.DigitChar | src/services/audioService.js:86 | a digit value becomes a digit character |
| Clock.Decimal | src/services/audioService.js:86 | `String` of a non-negative integer is all digits, one digit exactly below 10, two digits for 10..99, and a leading `0` only for 0 itself |
| Clock.JsIntString | src/services/audioService.js:86 | `String` of any integer: non-empty, a leading `-` exactly for negatives, digits after it, one character exactly for 0..9 |
| Clock.PadStart | src/services/audioService.js:86 | `padStart` leaves a long string alone, otherwise fills on the left up to the width, and keeps the string as its suffix |
| Clock.FormatClockShape | src/services/audioService.js:80-86 | the shown text `FormatClock(elapsed)` is at least five characters (two padded fields and the colon), and starts with `-` exactly when the elapsed time is negative |
| Clock.ParseDecimalOfDecimal | src/services/audioService.js:86 | reading the decimal text back gives the number |
| Clock.ParseDecimalLeadingZero | src/services/audioService.js:86 | a leading zero pad does not change the number read back |
| Clock.PaddedDecimal | src/services/audioService.js:86 | a padded field is all digits, at least two long, exactly two below 100, and reads back as its number |
| Clock.ParseClockOfFields | src/services/audioService.js:85-86 | a digits `:` two-digits string reads back as those two numbers |
| Clock.FormatClockRoundTrip | src/services/audioService.js:80-86 | for elapsed ≥ 0 the shown `mm:ss` reads back as exactly the minutes and seconds of the elapsed time |
| Clock.UnderOneSecond | src/services/audioService.js:80-86 | less than a second elapsed shows `"00:00"` |
| Clock.OneHourShowsSixtyMinutes | src/services/audioService.js:80-86 | there is no hour field: one hour shows `"60:00"` |
| Clock.NegativeElapsed | src/services/audioService.js:80-86 | a clock that went backwards by 1 ms shows `"-1:-1"` (JavaScript floor and truncating `%`) |
| Environment.Browser.constructor | src/services/audioService.js:5 | the browser starts with no streams, contexts, timers or loops |
| Environment.Browser.AcquireStream | src/services/audioService.js:14-20 | `getUserMedia` yields a new live stream; nothing else changes |
| Environment.Browser.OpenContext | src/services/audioService.js:23 | a new audio context is open; nothing else changes |
| Environment.Browser.CreateNode | src/services/audioService.js:24-27 | an analyser or source node gets a new handle; nothing else changes |
| Environment.Browser.SetInterval | src/services/audioService.js:76-88 | a new interval runs the clock task with its snapshot's start time |
| Environment.Browser.ClearInterval | src/services/audioService.js:63-66 | the interval is removed; nothing else changes |
| Environment.Browser.SetTimeout | src/services/audioService.js:46-50 | one more pending timeout with its captured snapshot |
| Environment.Browser.TakeTimeout | src/services/audioService.js:46-50 | a firing timeout leaves the pending set once |
| Environment.Browser.StartMetricsLoop | src/services/audioService.js:91-135 | one more metrics loop with its analyser, sample rate and snapshot |
| Environment.Browser.Release | src/store/useAudioStore.js:81-89 | the given streams stop and the given contexts close; nothing else changes |
| Store.PrependBounded | src/store/useAudioStore.js:47 | the new entry is first, the old entries follow in order, and the length is min(old+1, 20) |
| Store.Reversed | src/store/useAudioStore.js:45-48 | the reversal of the added entries, element by element |
| Store.TruncateAppend | src/store/useAudioStore.js:47 | truncating to 20 before or after prepending gives the same list |
| Store.PrependAllKeepsNewest | src/store/useAudioStore.js:45-48 | after one or more additions, the history is the added entries newest first, then the old history, cut to 20 |
| Store.TwentyFiveAdditions | src/store/useAudioStore.js:45-48 | 25 additions from empty leave exactly the 20 most recent, newest first |
| Store.LocalStorage.constructor | src/store/useAudioStore.js:50-52 | storage starts empty |
| Store.LocalStorage.SetItem | src/store/useAudioStore.js:52 | the key holds the value, or nothing changes when the write throws |
| Store.LocalStorage.RemoveItem | src/store/useAudioStore.js:61 | the key is gone, or nothing changes when the removal throws |
| Store.LocalStorage.GetItem | src/store/useAudioStore.js:69 | returns the stored value exactly when the key is present; changes nothing |
| Store.StreamOf | src/store/useAudioStore.js:82-84 | the streams to stop: the microphone's media stream when a microphone is held, none otherwise |
| Wrappers.SetOf | src/store/useAudioStore.js:87-89 | the handles an optional handle holds: exactly the held one, none for `null`; this gives the context to close here and the interval to clear in the service's stop (src/services/audioService.js:63-66) |
| Store.ResetAudio | src/store/useAudioStore.js:96-106 | the nine audio fields are at their defaults and the history, prediction, processing and status fields are untouched |
| Store.ResetAudioCharacterised | src/store/useAudioStore.js:96-106 | a state is the reset of s exactly when its audio fields are at their defaults and its other fields equal those of s |
| Store.ResetAudioIdempotent | src/store/useAudioStore.js:78-107 | resetting twice equals resetting once |
| Store.ResetAudioRestoresInitial | src/store/useAudioStore.js:4-26 | the initial store has its audio fields at the defaults the reset restores |
| Store.AudioStore.constructor | src/store/useAudioStore.js:3-26 | the store starts at its initial values |
| Store.AudioStore.SetIsRecording | src/store/useAudioStore.js:29 | only `isRecording` changes |
| Store.AudioStore.SetAudioContext | src/store/useAudioStore.js:30 | only `audioContext` changes |
| Store.AudioStore.SetAnalyser | src/store/useAudioStore.js:31 | only `analyser` changes |
| Store.AudioStore.SetMicrophone | src/store/useAudioStore.js:32 | only `microphone` changes |
| Store.AudioStore.SetAnimationId | src/store/useAudioStore.js:33 | only `animationId` changes |
| Store.AudioStore.SetRecordingStartTime | src/store/useAudioStore.js:34 | only `recordingStartTime` changes |
| Store.AudioStore.SetVolumeLevel | src/store/useAudioStore.js:36 | only `volumeLevel` changes |
| Store.AudioStore.SetFrequencyRange | src/store/useAudioStore.js:37 | only `frequencyRange` changes |
| Store.AudioStore.SetRecordingTime | src/store/useAudioStore.js:38 | only `recordingTime` changes |
| Store.AudioStore.SetCurrentPrediction | src/store/useAudioStore.js:40 | only `currentPrediction` changes |
| Store.AudioStore.SetIsProcessing | src/store/useAudioStore.js:41 | only `isProcessing` changes |
| Store.AudioStore.SetStatus | src/store/useAudioStore.js:43 | `status` and `statusText` change together, and nothing else does |
| Store.AudioStore.AddToHistory | src/store/useAudioStore.js:45-56 | the history becomes the bounded prepend, and storage holds that same list unless the write throws, which does not undo the in-memory update |
| Store.AudioStore.ClearHistory | src/store/useAudioStore.js:58-65 | the history is empty and the key is removed; a throwing removal keeps the old key and is swallowed |
| Store.AudioStore.LoadHistory | src/store/useAudioStore.js:67-76 | a stored list replaces the history untruncated; an absent key, empty text, malformed text or a throwing read leaves it unchanged |
| Store.AudioStore.ResetAudioState | src/store/useAudioStore.js:78-107 | the store becomes `ResetAudio` of the old store, and the microphone's stream and the context are released |
| Store.ClearThenLoad | src/store/useAudioStore.js:58-76 | after a clear, a reload brings the old list back only if the removal threw |
| Api.TextOr | src/services/apiService.js:97-99 | JavaScript `\|\|` on text: a missing or empty string gives the default, any other string is kept |
| Api.ScoreOr0 | src/services/apiService.js:94-96 | a missing score becomes 0, a present one is kept |
| Api.Normalize | src/services/apiService.js:91-100 | type and confidence are copied unchanged; a falsy score becomes 0; a falsy timestamp becomes the current time; a falsy processing time or audio duration becomes `'--'`; a truthy value is kept |
| Api.NormalizeIdempotent | src/services/apiService.js:91-100 | normalising an already normalised prediction changes nothing, at any later time |
| Api.ToHistoryEntry | src/services/apiService.js:103-107 | the entry keeps exactly the prediction's type, confidence and timestamp |
| Api.FoldResult | src/services/apiService.js:102-107 | the store gets a current prediction carrying the data's type and confidence, and the history head is the projection of that same prediction |
| Api.FoldResultProperties | src/services/apiService.js:88-108 | the current prediction is replaced, not merged; exactly one entry is prepended; it is the type, confidence and timestamp of that same prediction; no other field changes |
| Api.HandlePredictionResult | src/services/apiService.js:88-108 | the store moves by that fold, and storage holds the new history unless the write throws |
| Api.DemoTableConsistent | src/services/apiService.js:122-144 | the table has three rows, and in each row the confidence equals the row's own type score, which is the largest of the three |
| Api.SimulatedData | src/services/apiService.js:148-153 | the spread object keeps the row's type, its confidence is the row's own type score for a consistent row, and the duration is "3.0s" |
| Api.SimulatedDataNeedsNoDefaults | src/services/apiService.js:148-155 | with non-empty generated texts, normalising the demo object applies no default and gives the row's values exactly |
| Api.SimulatePredictionBegin | src/services/apiService.js:117-118 | only `isProcessing` becomes true |
| Api.SimulatePredictionComplete | src/services/apiService.js:120-158 | the chosen row, with the new timestamp, processing time and "3.0s" duration, is folded into the store and then `isProcessing` is false; the resolved value is that row |
| Api.TankScenario | src/services/apiService.js:114-161 | for the tank row, `isProcessing` is true during the call and false after it; the current prediction carries 0.89/0.07/0.04; the history head is tank, 0.89, with the same timestamp |
| Audio.StoppedState | src/services/audioService.js:59-71 | after a stop, the audio fields are at their defaults and the status is ready/"Stopped"; history, prediction and the processing flag are kept |
| Audio.StopIdempotent | src/services/audioService.js:59-71 | stopping twice equals stopping once, and a stopped store holds no stream or context |
| Audio.AudioService.constructor | src/services/audioService.js:5 | no recording interval is held |
| Audio.AudioService.Start | src/services/audioService.js:7-57 | success: recording, start time set, status active/"Recording...", a new stream, context, interval and metrics loop, and a warm-up that carries the pre-start `isRecording`; failure: status error/"Error: " + message, the error is returned, and what was acquired stays held |
| Audio.AudioService.AcquireGraph | src/services/audioService.js:14-28 | a stream, a context, an analyser and a source node over that stream are acquired, with consecutive new handles |
| Audio.AudioService.RecordSession | src/services/audioService.js:30-37 | the store holds the graph, is recording with the given start time, and reports "Recording..." |
| Audio.AudioService.ScheduleSession | src/services/audioService.js:39-50 | the clock interval replaces the held handle; a metrics loop that sees recording and a warm-up carrying the given snapshot are added |
| Audio.AudioService.FailStart | src/services/audioService.js:14-28 | each failure point leaves exactly what it had acquired, and the status reports the error |
| Audio.AudioService.Stop | src/services/audioService.js:59-71 | the held interval is cleared and forgotten, the store becomes its stopped state, the stream and context are released, and timeouts and metrics loops remain |
| Audio.AudioService.ClockTick | src/services/audioService.js:76-88 | with a missing or zero start time nothing changes; otherwise only `recordingTime` changes, to the `mm:ss` of now minus the start |
| Audio.AudioService.MetricsTick | src/services/audioService.js:95-133 | when the loop's snapshot says recording (as every loop `Start` creates does), the volume becomes the dB of the energy sum and the frequency becomes the dominant frequency at the loop's sample rate; nothing else changes |
| Audio.AudioService.RunPrediction | src/services/audioService.js:141-145 | with a passing snapshot `isProcessing` becomes true and the demo timer is queued; otherwise nothing changes |
| Audio.AudioService.FireWarmUp | src/services/audioService.js:46-50 | the warm-up leaves the queue; only when its pre-start snapshot and the current `isRecording` both hold does a prediction start |
| Audio.AudioService.FireNextPrediction | src/services/audioService.js:148-149 | the repeat runs the loop on its unchanged snapshot |
| Audio.AudioService.FireSimulation | src/services/audioService.js:145-150 | the demo result is folded into the store even after a stop, storage holds the new history unless the write throws, and the next 5 s repeat is queued when the loop's snapshot holds |
| Audio.StartFromIdleNeverPredicts | src/services/audioService.js:7-50 | a start from a fresh store, followed by its warm-up, leaves no pending timeouts, no processing and no prediction (the clock interval and the metrics loop stay registered) |
| Audio.StartTwice | src/services/audioService.js:5-50 | two starts hold both streams and both intervals; only the second handle is remembered; the two warm-ups saw false and true |
| Audio.StopDoesNotEndPredictionLoop | src/services/audioService.js:59-71 | after a stop, the pending demo result still becomes the current prediction, the next repeat is queued, and the first start's stream and interval are still held |

## Left out

- Browser audio internals: `getUserMedia` options, `AudioContext`, the analyser's `fftSize` setting and `microphone.connect`. These are handles in the model; the analyser's data arrays are parameters of `MetricsTick`.
- MetricsTick: the volume is `toDb(energy, n)`, a parameter that stands for the floating-point `20 * log10(sqrt(sum / n))` with its `-Infinity` for silence. The normalisation by 128 happens inside that parameter; the model keeps the integer sum Σ(x-128)².
- The first metrics frame runs synchronously inside `startAudioMetrics`. In the model it is a separate `MetricsTick` step after `Start`, because its data comes from the analyser.
- Timer delays (100 ms, 3 s, 1.5 s, 5 s), `requestAnimationFrame` order and `await` interleavings are not modelled. Each firing is a step the caller chooses.
- `animationId` is never set by this code, so `cancelAnimationFrame` in `resetAudioState` never runs. The field and its setter are modelled; the cancellation is not.
- `Date.now()`, `new Date().toISOString()`, `Math.random()` and `toFixed` are parameters: `now`, `timestamp`, `choice` and `processingTime`.
- `captureAudioBlob` and `MediaRecorder`, the axios calls, and the WebSocket functions of `apiService.js` are not part of this model.
- The source's `catch` in `runPrediction` is unreachable for the demo prediction, which never rejects, so it is not modelled.
- JSON: the stored text is `Serialized(list)`, `EmptyText` or `Malformed`. Parsed non-list values are not modelled, and neither is a throwing `JSON.stringify`; a write fault stands for any throw from `setItem`.
- Api.Normalize: a score is `Option<real>`, so a falsy score present as `0` is kept as 0, which is the same result as `|| 0`. Other falsy JavaScript values (`false`, `NaN`, `''`) are not modelled for scores.
- Metrics.BinFrequency: computed on unbounded reals, where the source uses IEEE doubles. For an integer sample rate the two agree exactly: the product of a bin below 2^11 and a rate below 2^42 stays below 2^53, and dividing by 2^11 is exact.
- The `console.error` logging in the `catch` blocks (src/services/audioService.js:53, 152; src/store/useAudioStore.js:54, 63, 74) is output only and is not modelled.
- Rendering, zustand subscriptions and the JSX components are not part of this model.
