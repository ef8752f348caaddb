/**
 * The browser as the audio service sees it: opaque handles for media
 * streams, audio contexts and audio nodes, and the callbacks it has been
 * asked to run later (`setInterval`, `setTimeout`, `requestAnimationFrame`).
 * Each pending callback is recorded as a value holding what its closure
 * captured, so that firing it is an explicit step of the model.
 */
module Environment {

  import opened Wrappers

  /** `audioContext.createMediaStreamSource(stream)`: a node and the stream it reads (`mediaStream`). */
  datatype SourceNode = SourceNode(node: nat, mediaStream: nat)

  /** The interval callback of `startRecordingTimer`, with the start time held by its store snapshot. */
  datatype ClockTask = ClockTask(startTime: Option<int>)

  /**
   * The `updateMetrics` loop of `startAudioMetrics`: the analyser and sample
   * rate it reads and the `isRecording` value of its store snapshot.
   */
  datatype MetricsLoop = MetricsLoop(analyser: nat, sampleRate: real, sawRecording: bool)

  /** A pending `setTimeout` callback and the `isRecording` value of the snapshot its guard reads. */
  datatype Timeout =
    | WarmUp(sawRecording: bool)          // the 3 s delay before the prediction loop
    | Simulation(sawRecording: bool)      // the 1.5 s demo prediction, awaited by a loop with this snapshot
    | NextPrediction(sawRecording: bool)  // the 5 s delay between predictions

  datatype BrowserState = BrowserState(
    liveStreams: set<nat>,
    openContexts: set<nat>,
    intervals: map<nat, ClockTask>,
    timeouts: multiset<Timeout>,
    metricsLoops: seq<MetricsLoop>,
    nextId: nat)

  class Browser {
    /** Streams whose device tracks are still running (the microphone stays locked). */
    var liveStreams: set<nat>
    /** Audio contexts not yet closed. */
    var openContexts: set<nat>
    /** Active `setInterval` timers by id. */
    var intervals: map<nat, ClockTask>
    /** Pending `setTimeout` callbacks. */
    var timeouts: multiset<Timeout>
    /** Running animation-frame loops. */
    var metricsLoops: seq<MetricsLoop>
    /** Next unused handle. */
    var nextId: nat

    function State(): BrowserState
      reads this
    {
      BrowserState(liveStreams, openContexts, intervals, timeouts, metricsLoops, nextId)
    }

    /** Every handle in use was handed out before `nextId`. */
    ghost predicate Valid()
      reads this
    {
      && (forall id :: id in liveStreams ==> id < nextId)
      && (forall id :: id in openContexts ==> id < nextId)
      && (forall id :: id in intervals ==> id < nextId)
    }

    constructor ()
      ensures Valid()
      ensures State() == BrowserState({}, {}, map[], multiset{}, [], 0)
    {
      liveStreams, openContexts, intervals := {}, {}, map[];
      timeouts, metricsLoops, nextId := multiset{}, [], 0;
    }

    /** `getUserMedia` on success: a new stream whose tracks run. */
    method AcquireStream() returns (stream: nat)
      requires Valid()
      modifies this
      ensures Valid()
      ensures stream == old(nextId) && stream !in old(liveStreams)
      ensures State() == old(State()).(liveStreams := old(liveStreams) + {stream}, nextId := stream + 1)
    {
      stream := nextId;
      liveStreams := liveStreams + {stream};
      nextId := nextId + 1;
    }

    /** `new AudioContext()` on success: a new open context. */
    method OpenContext() returns (context: nat)
      requires Valid()
      modifies this
      ensures Valid()
      ensures context == old(nextId) && context !in old(openContexts)
      ensures State() == old(State()).(openContexts := old(openContexts) + {context}, nextId := context + 1)
    {
      context := nextId;
      openContexts := openContexts + {context};
      nextId := nextId + 1;
    }

    /** A new audio node (an analyser or a source node). */
    method CreateNode() returns (node: nat)
      requires Valid()
      modifies this
      ensures Valid()
      ensures node == old(nextId)
      ensures State() == old(State()).(nextId := node + 1)
    {
      node := nextId;
      nextId := nextId + 1;
    }

    method SetInterval(task: ClockTask) returns (id: nat)
      requires Valid()
      modifies this
      ensures Valid()
      ensures id == old(nextId) && id !in old(intervals)
      ensures State() == old(State()).(intervals := old(intervals)[id := task], nextId := id + 1)
    {
      id := nextId;
      intervals := intervals[id := task];
      nextId := nextId + 1;
    }

    method ClearInterval(id: nat)
      requires Valid()
      modifies this
      ensures Valid()
      ensures State() == old(State()).(intervals := old(intervals) - {id})
    {
      intervals := intervals - {id};
    }

    method SetTimeout(t: Timeout)
      requires Valid()
      modifies this
      ensures Valid()
      ensures State() == old(State()).(timeouts := old(timeouts) + multiset{t})
    {
      timeouts := timeouts + multiset{t};
    }

    /** The timer fires: its callback leaves the queue. */
    method TakeTimeout(t: Timeout)
      requires Valid() && t in timeouts
      modifies this
      ensures Valid()
      ensures State() == old(State()).(timeouts := old(timeouts) - multiset{t})
    {
      timeouts := timeouts - multiset{t};
    }

    method StartMetricsLoop(loop: MetricsLoop)
      requires Valid()
      modifies this
      ensures Valid()
      ensures State() == old(State()).(metricsLoops := old(metricsLoops) + [loop])
    {
      metricsLoops := metricsLoops + [loop];
    }

    /**
     * `track.stop()` on every track of the given streams and `close()` on the
     * given contexts (doing either twice is harmless).
     */
    method Release(streams: set<nat>, contexts: set<nat>)
      requires Valid()
      modifies this
      ensures Valid()
      ensures State() == old(State()).(liveStreams := old(liveStreams) - streams,
                                       openContexts := old(openContexts) - contexts)
    {
      liveStreams := liveStreams - streams;
      openContexts := openContexts - contexts;
    }
  }
}
