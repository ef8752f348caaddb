/**
 * The application store (`useAudioStore`): session, metrics and prediction
 * fields with their setters, the bounded detection history and its
 * persistence in `localStorage`.
 */
module Store {

  import opened Wrappers
  import opened Environment

  /** The three values the code gives `status`. */
  datatype Status = Ready | Active | Error

  /**
   * A normalised prediction. `kind` (the source's `type`) and `confidence`
   * are whatever the backend sent, possibly missing.
   */
  datatype Prediction = Prediction(
    kind: Option<string>,
    confidence: Option<real>,
    tank: real,
    pedestrian: real,
    lightVehicle: real,
    timestamp: string,
    processingTime: string,
    audioDuration: string)

  /** An entry of the detection history: `{type, confidence, timestamp}`. */
  datatype HistoryEntry = HistoryEntry(kind: Option<string>, confidence: Option<real>, timestamp: string)

  const MAX_HISTORY: nat := 20
  const HISTORY_KEY: string := "detectionHistory"

  function Min(a: int, b: int): int { if a <= b then a else b }

  // ---------------------------------------------------------------------------
  // The history list

  /** `[prediction, ...history].slice(0, 20)`. */
  function PrependBounded(history: seq<HistoryEntry>, entry: HistoryEntry): (r: seq<HistoryEntry>)
    ensures |r| == Min(|history| + 1, MAX_HISTORY)
    ensures r[0] == entry
    ensures r[1..] == history[..|r| - 1]
  {
    ([entry] + history)[..Min(|history| + 1, MAX_HISTORY)]
  }

  /** Adding `entries` one after another, first to last. */
  function PrependAll(history: seq<HistoryEntry>, entries: seq<HistoryEntry>): seq<HistoryEntry>
    decreases |entries|
  {
    if entries == [] then history else PrependAll(PrependBounded(history, entries[0]), entries[1..])
  }

  function Reversed(s: seq<HistoryEntry>): (r: seq<HistoryEntry>)
    ensures |r| == |s|
    ensures forall i :: 0 <= i < |s| ==> r[i] == s[|s| - 1 - i]
    decreases |s|
  {
    if s == [] then [] else Reversed(s[1..]) + [s[0]]
  }

  /** Truncating the tail first and then the whole is one truncation. */
  lemma TruncateAppend(a: seq<HistoryEntry>, b: seq<HistoryEntry>)
    ensures (a + b[..Min(|b|, MAX_HISTORY)])[..Min(|a| + Min(|b|, MAX_HISTORY), MAX_HISTORY)]
         == (a + b)[..Min(|a| + |b|, MAX_HISTORY)]
  {
  }

  /**
   * Adding one or more entries leaves the most recent ones first, then the
   * older history, capped at 20 (however long the history was before).
   */
  lemma {:induction false} PrependAllKeepsNewest(history: seq<HistoryEntry>, entries: seq<HistoryEntry>)
    requires entries != []
    ensures PrependAll(history, entries) == (Reversed(entries) + history)[..Min(|entries| + |history|, MAX_HISTORY)]
    decreases |entries|
  {
    var x, rest := entries[0], entries[1..];
    var h' := PrependBounded(history, x);
    assert Reversed(entries) == Reversed(rest) + [x];
    if rest == [] {
      assert PrependAll(history, entries) == PrependAll(h', rest) == h';
      assert Reversed(entries) == [x];
    } else {
      PrependAllKeepsNewest(h', rest);
      TruncateAppend(Reversed(rest), [x] + history);
      assert Reversed(rest) + ([x] + history) == Reversed(entries) + history;
    }
  }

  /** Twenty-five additions to an empty history keep exactly the last twenty, newest first. */
  lemma TwentyFiveAdditions(entries: seq<HistoryEntry>)
    requires |entries| == 25
    ensures |PrependAll([], entries)| == 20
    ensures forall i :: 0 <= i < 20 ==> PrependAll([], entries)[i] == entries[24 - i]
  {
    PrependAllKeepsNewest([], entries);
    assert Reversed(entries) + [] == Reversed(entries);
  }

  // ---------------------------------------------------------------------------
  // Persistence

  /**
   * What `localStorage` holds under a key, as far as `JSON.parse` is
   * concerned: a list the store wrote, the empty text (which `if (saved)`
   * skips) or text that does not parse.
   */
  datatype Stored = Serialized(entries: seq<HistoryEntry>) | EmptyText | Malformed

  /**
   * `localStorage`. Every call takes `fault`, whether the browser throws
   * (storage full, disabled or denied); a call that throws changes nothing.
   */
  class LocalStorage {
    var items: map<string, Stored>

    constructor ()
      ensures items == map[]
    {
      items := map[];
    }

    method SetItem(key: string, value: Stored, fault: bool) returns (threw: bool)
      modifies this
      ensures threw == fault
      ensures items == if fault then old(items) else old(items)[key := value]
    {
      threw := fault;
      if !fault {
        items := items[key := value];
      }
    }

    method RemoveItem(key: string, fault: bool) returns (threw: bool)
      modifies this
      ensures threw == fault
      ensures items == if fault then old(items) else old(items) - {key}
    {
      threw := fault;
      if !fault {
        items := items - {key};
      }
    }

    /** `getItem`: `None` is the source's `null` for a missing key. */
    method GetItem(key: string, fault: bool) returns (saved: Option<Stored>, threw: bool)
      ensures threw == fault
      ensures !fault ==> (saved.Some? <==> key in items)
      ensures !fault && key in items ==> saved == Some(items[key])
      ensures fault ==> saved == None
    {
      threw := fault;
      if fault {
        saved := None;
      } else if key in items {
        saved := Some(items[key]);
      } else {
        saved := None;
      }
    }
  }

  // ---------------------------------------------------------------------------
  // The store

  datatype StoreState = StoreState(
    isRecording: bool,
    audioContext: Option<nat>,
    analyser: Option<nat>,
    microphone: Option<SourceNode>,
    animationId: Option<nat>,
    recordingStartTime: Option<int>,
    volumeLevel: real,
    frequencyRange: real,
    recordingTime: string,
    currentPrediction: Option<Prediction>,
    isProcessing: bool,
    detectionHistory: seq<HistoryEntry>,
    status: Status,
    statusText: string)

  /** The values the store is created with. */
  const INITIAL_STATE := StoreState(
    false, None, None, None, None, None, 0.0, 0.0, "00:00",
    None, false, [], Ready, "Ready")

  /** The nine capture and metrics fields hold the values the store starts with. */
  predicate AudioAtDefaults(s: StoreState)
  {
    && !s.isRecording
    && s.audioContext == None && s.analyser == None && s.microphone == None
    && s.animationId == None && s.recordingStartTime == None
    && s.volumeLevel == 0.0 && s.frequencyRange == 0.0 && s.recordingTime == "00:00"
  }

  /** The prediction, history and status fields agree. */
  predicate SameLedger(s: StoreState, t: StoreState)
  {
    && s.currentPrediction == t.currentPrediction
    && s.isProcessing == t.isProcessing
    && s.detectionHistory == t.detectionHistory
    && s.status == t.status
    && s.statusText == t.statusText
  }

  /** The state `resetAudioState` leaves behind. */
  function ResetAudio(s: StoreState): (r: StoreState)
    ensures AudioAtDefaults(r) && SameLedger(r, s)
  {
    s.(isRecording := false, audioContext := None, analyser := None, microphone := None,
       animationId := None, recordingStartTime := None,
       volumeLevel := 0.0, frequencyRange := 0.0, recordingTime := "00:00")
  }

  /** The reset state is the only one with default capture fields and the same ledger. */
  lemma ResetAudioCharacterised(s: StoreState, t: StoreState)
    ensures (AudioAtDefaults(t) && SameLedger(t, s)) <==> t == ResetAudio(s)
  {
  }

  lemma ResetAudioIdempotent(s: StoreState)
    ensures ResetAudio(ResetAudio(s)) == ResetAudio(s)
  {
  }

  /** The reset fields return to the values the store is created with. */
  lemma ResetAudioRestoresInitial()
    ensures AudioAtDefaults(INITIAL_STATE)
    ensures ResetAudio(INITIAL_STATE) == INITIAL_STATE
  {
  }

  /** The stream ids an optional source node holds. */
  function StreamOf(microphone: Option<SourceNode>): (streams: set<nat>)
    ensures forall x :: x in streams <==> microphone.Some? && microphone.value.mediaStream == x
  {
    if microphone.Some? then {microphone.value.mediaStream} else {}
  }

  class AudioStore {
    const storage: LocalStorage
    const browser: Browser

    var isRecording: bool
    var audioContext: Option<nat>
    var analyser: Option<nat>
    var microphone: Option<SourceNode>
    var animationId: Option<nat>
    var recordingStartTime: Option<int>
    var volumeLevel: real
    var frequencyRange: real
    var recordingTime: string
    var currentPrediction: Option<Prediction>
    var isProcessing: bool
    var detectionHistory: seq<HistoryEntry>
    var status: Status
    var statusText: string

    function State(): StoreState
      reads this
    {
      StoreState(isRecording, audioContext, analyser, microphone, animationId, recordingStartTime,
                 volumeLevel, frequencyRange, recordingTime, currentPrediction, isProcessing,
                 detectionHistory, status, statusText)
    }

    constructor (storage: LocalStorage, browser: Browser)
      ensures this.storage == storage && this.browser == browser
      ensures State() == INITIAL_STATE
    {
      this.storage, this.browser := storage, browser;
      isRecording, audioContext, analyser, microphone := false, None, None, None;
      animationId, recordingStartTime := None, None;
      volumeLevel, frequencyRange, recordingTime := 0.0, 0.0, "00:00";
      currentPrediction, isProcessing, detectionHistory := None, false, [];
      status, statusText := Ready, "Ready";
    }

    method SetIsRecording(value: bool)
      modifies this
      ensures State() == old(State()).(isRecording := value)
    {
      isRecording := value;
    }

    method SetAudioContext(context: Option<nat>)
      modifies this
      ensures State() == old(State()).(audioContext := context)
    {
      audioContext := context;
    }

    method SetAnalyser(node: Option<nat>)
      modifies this
      ensures State() == old(State()).(analyser := node)
    {
      analyser := node;
    }

    method SetMicrophone(node: Option<SourceNode>)
      modifies this
      ensures State() == old(State()).(microphone := node)
    {
      microphone := node;
    }

    method SetAnimationId(id: Option<nat>)
      modifies this
      ensures State() == old(State()).(animationId := id)
    {
      animationId := id;
    }

    method SetRecordingStartTime(time: Option<int>)
      modifies this
      ensures State() == old(State()).(recordingStartTime := time)
    {
      recordingStartTime := time;
    }

    method SetVolumeLevel(level: real)
      modifies this
      ensures State() == old(State()).(volumeLevel := level)
    {
      volumeLevel := level;
    }

    method SetFrequencyRange(range: real)
      modifies this
      ensures State() == old(State()).(frequencyRange := range)
    {
      frequencyRange := range;
    }

    method SetRecordingTime(time: string)
      modifies this
      ensures State() == old(State()).(recordingTime := time)
    {
      recordingTime := time;
    }

    method SetCurrentPrediction(prediction: Option<Prediction>)
      modifies this
      ensures State() == old(State()).(currentPrediction := prediction)
    {
      currentPrediction := prediction;
    }

    method SetIsProcessing(value: bool)
      modifies this
      ensures State() == old(State()).(isProcessing := value)
    {
      isProcessing := value;
    }

    /** Status and its text change together. */
    method SetStatus(newStatus: Status, text: string)
      modifies this
      ensures State() == old(State()).(status := newStatus, statusText := text)
    {
      status, statusText := newStatus, text;
    }

    /**
     * Prepends the entry, keeps at most 20, then writes the list under
     * `detectionHistory`; a failed write leaves the new list in memory.
     */
    method AddToHistory(entry: HistoryEntry, fault: bool)
      modifies this, storage
      ensures State() == old(State()).(detectionHistory := PrependBounded(old(detectionHistory), entry))
      ensures storage.items == if fault then old(storage.items)
                               else old(storage.items)[HISTORY_KEY := Serialized(detectionHistory)]
    {
      var newHistory := PrependBounded(detectionHistory, entry);
      detectionHistory := newHistory;
      var _ := storage.SetItem(HISTORY_KEY, Serialized(newHistory), fault);
    }

    /** Empties the list and removes the key; a failed removal is swallowed. */
    method ClearHistory(fault: bool)
      modifies this, storage
      ensures State() == old(State()).(detectionHistory := [])
      ensures storage.items == if fault then old(storage.items) else old(storage.items) - {HISTORY_KEY}
    {
      detectionHistory := [];
      var _ := storage.RemoveItem(HISTORY_KEY, fault);
    }

    /**
     * Replaces the list with the stored one, without truncating it. A missing
     * key, empty text, text that does not parse or a failed read leave it as
     * it was.
     */
    method LoadHistory(fault: bool)
      modifies this
      ensures !fault && HISTORY_KEY in storage.items && storage.items[HISTORY_KEY].Serialized? ==>
                State() == old(State()).(detectionHistory := storage.items[HISTORY_KEY].entries)
      ensures fault || HISTORY_KEY !in storage.items || !storage.items[HISTORY_KEY].Serialized? ==>
                State() == old(State())
    {
      var saved, threw := storage.GetItem(HISTORY_KEY, fault);
      if !threw && saved.Some? {
        match saved.value
        case Serialized(entries) => detectionHistory := entries;
        case EmptyText =>
        case Malformed =>
      }
    }

    /**
     * Stops the microphone's tracks, closes the audio context and resets the
     * nine capture and metrics fields; history, prediction and status stay.
     */
    method ResetAudioState()
      requires browser.Valid()
      modifies this, browser
      ensures browser.Valid()
      ensures State() == ResetAudio(old(State()))
      ensures browser.State() == old(browser.State()).(
                liveStreams := old(browser.liveStreams) - StreamOf(old(microphone)),
                openContexts := old(browser.openContexts) - SetOf(old(audioContext)))
    {
      ghost var before := State();
      var streams, contexts := StreamOf(microphone), SetOf(audioContext);
      browser.Release(streams, contexts);
      assert State() == before;
      isRecording, audioContext, analyser, microphone := false, None, None, None;
      animationId, recordingStartTime := None, None;
      volumeLevel, frequencyRange, recordingTime := 0.0, 0.0, "00:00";
      assert State() == ResetAudio(before);
    }
  }

  /**
   * Clearing and then loading yields an empty history, unless the removal
   * failed: the failure is swallowed and the load brings the old list back.
   */
  method ClearThenLoad(saved: seq<HistoryEntry>, removeFault: bool) returns (loaded: seq<HistoryEntry>)
    ensures loaded == if removeFault then saved else []
  {
    var storage := new LocalStorage();
    var browser := new Browser();
    var store := new AudioStore(storage, browser);
    var _ := storage.SetItem(HISTORY_KEY, Serialized(saved), false);
    store.ClearHistory(removeFault);
    store.LoadHistory(false);
    loaded := store.detectionHistory;
  }
}
