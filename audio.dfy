/**
 * The capture session of the audio service: `startAudioRecording`,
 * `stopAudioRecording`, and one explicit step for each callback the browser
 * runs later (the recording timer, a metrics frame, the 3 s warm-up, the
 * demo prediction and the 5 s repeat).
 *
 * Each guard reads the store snapshot its closure captured. The snapshot of
 * `startAudioRecording` is taken before `isRecording` is set, so the warm-up
 * guard sees the value from before the start; the metrics loop's snapshot is
 * taken after, so it always sees `true`; the prediction loop's snapshot is
 * taken when the warm-up fires and never changes afterwards.
 */
module Audio {

  import opened Wrappers
  import opened Metrics
  import opened Clock
  import opened Environment
  import opened Store
  import Api

  /** Where `startAudioRecording` throws, with the error's `message`. */
  datatype StartFault =
    | NoFault
    | MediaRejected(message: string)  // `getUserMedia` rejects: nothing acquired yet
    | ContextFailed(message: string)  // `new AudioContext()` throws: the stream is already held
    | GraphFailed(message: string)    // the analyser or source node fails: stream and context held

  /** `stopAudioRecording`'s effect on the store. */
  function StoppedState(s: StoreState): (r: StoreState)
    ensures AudioAtDefaults(r)
    ensures r.status == Ready && r.statusText == "Stopped"
    ensures r.currentPrediction == s.currentPrediction && r.detectionHistory == s.detectionHistory
    ensures r.isProcessing == s.isProcessing
  {
    ResetAudio(s).(status := Ready, statusText := "Stopped")
  }

  /** Stopping twice ends where stopping once does, whatever the state before. */
  lemma StopIdempotent(s: StoreState)
    ensures StoppedState(StoppedState(s)) == StoppedState(s)
    ensures StreamOf(StoppedState(s).microphone) == {} && SetOf(StoppedState(s).audioContext) == {}
  {
  }

  class AudioService {
    const store: AudioStore
    /** The module-level `recordingInterval`. */
    var recordingInterval: Option<nat>

    ghost predicate Valid()
      reads this, store.browser
    {
      && store.browser.Valid()
      && (recordingInterval.Some? ==> recordingInterval.value in store.browser.intervals)
    }

    constructor (store: AudioStore)
      requires store.browser.Valid()
      ensures Valid() && this.store == store && recordingInterval == None
    {
      this.store := store;
      recordingInterval := None;
    }

    /**
     * `startAudioRecording` at clock time `now`, with the new context's
     * `sampleRate`. On failure the status becomes an error, the error is
     * returned (the source rethrows it) and whatever was acquired stays held.
     */
    method Start(now: int, sampleRate: real, fault: StartFault) returns (error: Option<string>)
      requires Valid()
      modifies this, store, store.browser
      ensures Valid()
      ensures error == if fault.NoFault? then None else Some(fault.message)
      ensures fault.NoFault? ==>
        var n := old(store.browser.nextId);
        && store.State() == old(store.State()).(
             isRecording := true, audioContext := Some(n + 1), analyser := Some(n + 2),
             microphone := Some(SourceNode(n + 3, n)), recordingStartTime := Some(now),
             status := Active, statusText := "Recording...")
        && recordingInterval == Some(n + 4)
        && store.browser.State() == old(store.browser.State()).(
             liveStreams := old(store.browser.liveStreams) + {n},
             openContexts := old(store.browser.openContexts) + {n + 1},
             intervals := old(store.browser.intervals)[n + 4 := ClockTask(Some(now))],
             timeouts := old(store.browser.timeouts) + multiset{WarmUp(old(store.isRecording))},
             metricsLoops := old(store.browser.metricsLoops) + [MetricsLoop(n + 2, sampleRate, true)],
             nextId := n + 5)
      ensures !fault.NoFault? ==>
        var n := old(store.browser.nextId);
        && store.State() == old(store.State()).(status := Error, statusText := "Error: " + fault.message)
        && recordingInterval == old(recordingInterval)
        && store.browser.State().(nextId := n) == old(store.browser.State()).(
             liveStreams := old(store.browser.liveStreams) + (if fault.MediaRejected? then {} else {n}),
             openContexts := old(store.browser.openContexts) + (if fault.GraphFailed? then {n + 1} else {}))
    {
      var sawRecording := store.isRecording;
      store.SetStatus(Active, "Initializing...");
      if fault.NoFault? {
        var stream, context, analyser, microphone := AcquireGraph();
        RecordSession(now, stream, context, analyser, microphone);
        ScheduleSession(sampleRate, analyser, sawRecording);
        error := None;
      } else {
        FailStart(fault);
        error := Some(fault.message);
      }
    }

    /** The acquisition steps of a successful start: a stream, a context, an analyser and a source node. */
    method AcquireGraph() returns (stream: nat, context: nat, analyser: nat, microphone: nat)
      requires Valid()
      modifies store.browser
      ensures Valid()
      ensures var n := old(store.browser.nextId);
        && stream == n && context == n + 1 && analyser == n + 2 && microphone == n + 3
        && store.browser.State() == old(store.browser.State()).(
             liveStreams := old(store.browser.liveStreams) + {n},
             openContexts := old(store.browser.openContexts) + {n + 1},
             nextId := n + 4)
    {
      stream := store.browser.AcquireStream();
      context := store.browser.OpenContext();
      analyser := store.browser.CreateNode();
      microphone := store.browser.CreateNode();
    }

    /** The store updates after acquisition: the store records the session. */
    method RecordSession(now: int, stream: nat, context: nat, analyser: nat, microphone: nat)
      modifies store
      ensures store.State() == old(store.State()).(
                isRecording := true, audioContext := Some(context), analyser := Some(analyser),
                microphone := Some(SourceNode(microphone, stream)), recordingStartTime := Some(now),
                status := Active, statusText := "Recording...")
    {
      store.SetAudioContext(Some(context));
      store.SetAnalyser(Some(analyser));
      store.SetMicrophone(Some(SourceNode(microphone, stream)));
      store.SetIsRecording(true);
      store.SetRecordingStartTime(Some(now));
      store.SetStatus(Active, "Recording...");
    }

    /**
     * The scheduling steps of the start: the recording timer (an interval that
     * replaces `recordingInterval` without clearing the old one), the
     * metrics loop and the warm-up with the start's snapshot.
     */
    method ScheduleSession(sampleRate: real, analyser: nat, sawRecording: bool)
      requires Valid()
      modifies this, store.browser
      ensures Valid()
      ensures var n := old(store.browser.nextId);
        && recordingInterval == Some(n)
        && store.browser.State() == old(store.browser.State()).(
             intervals := old(store.browser.intervals)[n := ClockTask(store.recordingStartTime)],
             timeouts := old(store.browser.timeouts) + multiset{WarmUp(sawRecording)},
             metricsLoops := old(store.browser.metricsLoops) + [MetricsLoop(analyser, sampleRate, store.isRecording)],
             nextId := n + 1)
    {
      // startRecordingTimer: its snapshot holds the start time recorded before it.
      var interval := store.browser.SetInterval(ClockTask(store.recordingStartTime));
      recordingInterval := Some(interval);
      // startAudioMetrics: its snapshot sees the isRecording recorded before it.
      store.browser.StartMetricsLoop(MetricsLoop(analyser, sampleRate, store.isRecording));
      store.browser.SetTimeout(WarmUp(sawRecording));
    }

    /**
     * A start that throws: what was acquired before the throw stays held,
     * the status reports the error's message.
     */
    method FailStart(fault: StartFault)
      requires Valid() && !fault.NoFault?
      modifies store, store.browser
      ensures Valid()
      ensures store.State() == old(store.State()).(status := Error, statusText := "Error: " + fault.message)
      ensures var n := old(store.browser.nextId);
        store.browser.State().(nextId := n) == old(store.browser.State()).(
          liveStreams := old(store.browser.liveStreams) + (if fault.MediaRejected? then {} else {n}),
          openContexts := old(store.browser.openContexts) + (if fault.GraphFailed? then {n + 1} else {}))
    {
      if !fault.MediaRejected? {
        var _ := store.browser.AcquireStream();
        if fault.GraphFailed? {
          var _ := store.browser.OpenContext();
        }
      }
      store.SetStatus(Error, "Error: " + fault.message);
    }

    /**
     * `stopAudioRecording`: clears the timer interval, releases the stream
     * and the context through `resetAudioState`, and reports "Stopped". The
     * pending timeouts and the metrics loops are left alone.
     */
    method Stop()
      requires Valid()
      modifies this, store, store.browser
      ensures Valid()
      ensures recordingInterval == None
      ensures store.State() == StoppedState(old(store.State()))
      ensures store.browser.State() == old(store.browser.State()).(
                intervals := old(store.browser.intervals) - SetOf(old(recordingInterval)),
                liveStreams := old(store.browser.liveStreams) - StreamOf(old(store.microphone)),
                openContexts := old(store.browser.openContexts) - SetOf(old(store.audioContext)))
    {
      if recordingInterval.Some? {
        store.browser.ClearInterval(recordingInterval.value);
        recordingInterval := None;
      }
      store.ResetAudioState();
      store.SetStatus(Ready, "Stopped");
    }

    /**
     * One run of the recording timer `id` at clock time `now`. It does
     * nothing when its start time is missing or 0, and otherwise shows the
     * elapsed time as `mm:ss`.
     */
    method ClockTick(id: nat, now: int)
      requires id in store.browser.intervals
      modifies store
      ensures var start := old(store.browser.intervals[id].startTime);
        if start == None || start == Some(0) then store.State() == old(store.State())
        else && store.recordingTime == FormatClock(now - start.value)
             && store.State() == old(store.State()).(recordingTime := store.recordingTime)
    {
      var start := store.browser.intervals[id].startTime;
      if start == None || start == Some(0) {
        return;
      }
      store.SetRecordingTime(FormatClock(now - start.value));
    }

    /**
     * One frame of metrics loop `k`: the analyser's time-domain and
     * frequency-domain data are `timeData` and `frequencyData`; `toDb` stands
     * for the floating-point `20 * log10(sqrt(energy / 128^2 / n))`.
     */
    method MetricsTick(k: nat, timeData: array<byte>, frequencyData: array<byte>, toDb: (int, nat) -> real)
      requires k < |store.browser.metricsLoops|
      modifies store
      ensures var loop := store.browser.metricsLoops[k];
        if !loop.sawRecording then store.State() == old(store.State())
        else store.State() == old(store.State()).(
               volumeLevel := toDb(Energy(timeData[..]), timeData.Length),
               frequencyRange := DominantFrequency(frequencyData[..], loop.sampleRate))
    {
      var loop := store.browser.metricsLoops[k];
      if !loop.sawRecording {
        return;
      }
      var sum := SumSquaredDeviation(timeData);
      store.SetVolumeLevel(toDb(sum, timeData.Length));
      var maxIndex := FindDominantBin(frequencyData);
      store.SetFrequencyRange(BinFrequency(maxIndex, loop.sampleRate));
    }

    /**
     * `runPrediction` of a loop whose snapshot is `sawRecording`: when it
     * holds, the demo prediction starts and its timer is queued.
     */
    method RunPrediction(sawRecording: bool)
      requires Valid()
      modifies store, store.browser
      ensures Valid()
      ensures if sawRecording then
                && store.State() == old(store.State()).(isProcessing := true)
                && store.browser.State() == old(store.browser.State()).(
                     timeouts := old(store.browser.timeouts) + multiset{Simulation(true)})
              else
                && store.State() == old(store.State())
                && store.browser.State() == old(store.browser.State())
    {
      if !sawRecording {
        return;
      }
      Api.SimulatePredictionBegin(store);
      store.browser.SetTimeout(Simulation(sawRecording));
    }

    /**
     * The 3 s warm-up fires. Its guard reads the start's snapshot; when that
     * holds, the prediction loop starts with a snapshot of the store as it is now.
     */
    method FireWarmUp(t: Timeout)
      requires Valid() && t.WarmUp? && t in store.browser.timeouts
      modifies store, store.browser
      ensures Valid()
      ensures var loops := t.sawRecording && old(store.isRecording);
        if loops then
          && store.State() == old(store.State()).(isProcessing := true)
          && store.browser.State() == old(store.browser.State()).(
               timeouts := old(store.browser.timeouts) - multiset{t} + multiset{Simulation(true)})
        else
          && store.State() == old(store.State())
          && store.browser.State() == old(store.browser.State()).(
               timeouts := old(store.browser.timeouts) - multiset{t})
    {
      store.browser.TakeTimeout(t);
      if t.sawRecording {
        var loopSawRecording := store.isRecording;
        RunPrediction(loopSawRecording);
      }
    }

    /** The 5 s repeat fires: the loop runs again on its unchanged snapshot. */
    method FireNextPrediction(t: Timeout)
      requires Valid() && t.NextPrediction? && t in store.browser.timeouts
      modifies store, store.browser
      ensures Valid()
      ensures if t.sawRecording then
                && store.State() == old(store.State()).(isProcessing := true)
                && store.browser.State() == old(store.browser.State()).(
                     timeouts := old(store.browser.timeouts) - multiset{t} + multiset{Simulation(true)})
              else
                && store.State() == old(store.State())
                && store.browser.State() == old(store.browser.State()).(
                     timeouts := old(store.browser.timeouts) - multiset{t})
    {
      store.browser.TakeTimeout(t);
      RunPrediction(t.sawRecording);
    }

    /**
     * The demo prediction's timer fires (see `Api.SimulatePredictionComplete`
     * for the parameters); the awaiting loop then queues its 5 s repeat when
     * its snapshot holds, whether or not the session has since stopped.
     */
    method FireSimulation(t: Timeout, choice: nat, timestamp: string, processingTime: string,
                          now: string, fault: bool)
      requires Valid() && t.Simulation? && t in store.browser.timeouts
      requires choice < |Api.DEMO_PREDICTIONS|
      modifies store, store.storage, store.browser
      ensures Valid()
      ensures store.State() == Api.FoldResult(
                old(store.State()),
                Api.SimulatedData(Api.DEMO_PREDICTIONS[choice], timestamp, processingTime),
                now).(isProcessing := false)
      ensures store.storage.items == if fault then old(store.storage.items)
                                     else old(store.storage.items)[HISTORY_KEY := Serialized(store.detectionHistory)]
      ensures store.browser.State() == old(store.browser.State()).(
                timeouts := old(store.browser.timeouts) - multiset{t} +
                            (if t.sawRecording then multiset{NextPrediction(true)} else multiset{}))
    {
      store.browser.TakeTimeout(t);
      var _ := Api.SimulatePredictionComplete(store, choice, timestamp, processingTime, now, fault);
      if t.sawRecording {
        store.browser.SetTimeout(NextPrediction(t.sawRecording));
      }
    }
  }

  /**
   * A start from a fresh store queues a warm-up whose snapshot says "not
   * recording", so when it fires no prediction is ever requested.
   */
  method StartFromIdleNeverPredicts(now: int, sampleRate: real)
    returns (pending: multiset<Timeout>, processing: bool, prediction: Option<Prediction>)
    ensures pending == multiset{} && !processing && prediction == None
  {
    var storage := new LocalStorage();
    var browser := new Browser();
    var store := new AudioStore(storage, browser);
    var service := new AudioService(store);
    var _ := service.Start(now, sampleRate, NoFault);
    service.FireWarmUp(WarmUp(false));
    pending, processing, prediction := browser.timeouts, store.isProcessing, store.currentPrediction;
  }

  /** A fresh session started twice in a row: the second start's warm-up sees "recording". */
  method StartTwice(now: int, sampleRate: real) returns (service: AudioService)
    ensures fresh(service) && fresh(service.store) && fresh(service.store.storage) && fresh(service.store.browser)
    ensures service.Valid() && service.store.isRecording && service.recordingInterval == Some(9)
    ensures service.store.microphone == Some(SourceNode(8, 5)) && service.store.audioContext == Some(6)
    ensures service.store.browser.timeouts == multiset{WarmUp(false), WarmUp(true)}
    ensures service.store.browser.liveStreams == {0, 5} && service.store.browser.intervals.Keys == {4, 9}
  {
    var storage := new LocalStorage();
    var browser := new Browser();
    var store := new AudioStore(storage, browser);
    service := new AudioService(store);
    var _ := service.Start(now, sampleRate, NoFault);
    assert browser.liveStreams == {0} && browser.intervals.Keys == {4};
    var _ := service.Start(now, sampleRate, NoFault);
  }

  /**
   * A second start while recording does get the prediction loop going. A
   * stop then neither cancels the pending demo prediction nor keeps its
   * result out of the store, and the loop queues its next round; the first
   * start's stream and timer interval are still held.
   */
  method StopDoesNotEndPredictionLoop(now: int, sampleRate: real, timestamp: string, processingTime: string)
    returns (recording: bool, prediction: Option<Prediction>, pending: multiset<Timeout>,
             liveStreams: set<nat>, liveIntervals: set<nat>)
    requires timestamp != "" && processingTime != ""
    ensures !recording
    ensures prediction.Some? && prediction.value.kind == Some("tank") && prediction.value.timestamp == timestamp
    ensures pending == multiset{NextPrediction(true)}
    ensures liveStreams == {0} && liveIntervals == {4}
  {
    var service := StartTwice(now, sampleRate);
    var store, browser := service.store, service.store.browser;
    service.FireWarmUp(WarmUp(false));
    service.FireWarmUp(WarmUp(true));
    assert browser.timeouts == multiset{Simulation(true)};
    service.Stop();
    assert browser.liveStreams == {0} && browser.intervals.Keys == {4};
    assert !store.isRecording;
    service.FireSimulation(Simulation(true), 0, timestamp, processingTime, timestamp, false);
    recording, prediction, pending := store.isRecording, store.currentPrediction, browser.timeouts;
    liveStreams, liveIntervals := browser.liveStreams, browser.intervals.Keys;
  }
}
