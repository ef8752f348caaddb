/**
 * Folding classification results into the store (`handlePredictionResult`)
 * and the demo classifier `simulatePrediction` with its fixed table.
 */
module Api {

  import opened Wrappers
  import opened Store
  import opened Environment

  /**
   * A result as the backend (or the demo) delivers it; `None` is a missing
   * or `null` field.
   */
  datatype PredictionData = PredictionData(
    kind: Option<string>,
    confidence: Option<real>,
    tank: Option<real>,
    pedestrian: Option<real>,
    lightVehicle: Option<real>,
    timestamp: Option<string>,
    processingTime: Option<string>,
    audioDuration: Option<string>)

  /** `data.x || default` for a text field: missing and empty text are both falsy. */
  function TextOr(v: Option<string>, default: string): (r: string)
    ensures (v == None || v == Some("")) ==> r == default
    ensures v.Some? && v.value != "" ==> r == v.value
  {
    if v.Some? && v.value != "" then v.value else default
  }

  /** `data.x || 0` for a score: a missing score becomes 0 (and 0 stays 0). */
  function ScoreOr0(v: Option<real>): (r: real)
    ensures v.Some? ==> r == v.value
    ensures v == None ==> r == 0.0
  {
    v.GetOr(0.0)
  }

  /**
   * The prediction object built from `data`; `now` is `new Date().toISOString()`.
   * Class and confidence are copied as they are, with no check.
   */
  function Normalize(data: PredictionData, now: string): (p: Prediction)
    ensures p.kind == data.kind && p.confidence == data.confidence
    ensures data.tank.Some? ==> p.tank == data.tank.value
    ensures data.pedestrian.Some? ==> p.pedestrian == data.pedestrian.value
    ensures data.lightVehicle.Some? ==> p.lightVehicle == data.lightVehicle.value
    ensures data.tank == None ==> p.tank == 0.0
    ensures data.pedestrian == None ==> p.pedestrian == 0.0
    ensures data.lightVehicle == None ==> p.lightVehicle == 0.0
    ensures (data.timestamp == None || data.timestamp == Some("")) ==> p.timestamp == now
    ensures data.timestamp.Some? && data.timestamp.value != "" ==> p.timestamp == data.timestamp.value
    ensures (data.processingTime == None || data.processingTime == Some("")) ==> p.processingTime == "--"
    ensures data.processingTime.Some? && data.processingTime.value != "" ==> p.processingTime == data.processingTime.value
    ensures (data.audioDuration == None || data.audioDuration == Some("")) ==> p.audioDuration == "--"
    ensures data.audioDuration.Some? && data.audioDuration.value != "" ==> p.audioDuration == data.audioDuration.value
  {
    Prediction(
      data.kind,
      data.confidence,
      ScoreOr0(data.tank),
      ScoreOr0(data.pedestrian),
      ScoreOr0(data.lightVehicle),
      TextOr(data.timestamp, now),
      TextOr(data.processingTime, "--"),
      TextOr(data.audioDuration, "--"))
  }

  /** A prediction handed back as data, every field present. */
  function AsData(p: Prediction): PredictionData
  {
    PredictionData(p.kind, p.confidence, Some(p.tank), Some(p.pedestrian),
                   Some(p.lightVehicle), Some(p.timestamp), Some(p.processingTime), Some(p.audioDuration))
  }

  /** `{type, confidence, timestamp}` of a prediction. */
  function ToHistoryEntry(p: Prediction): (e: HistoryEntry)
    ensures e.kind == p.kind && e.confidence == p.confidence && e.timestamp == p.timestamp
  {
    HistoryEntry(p.kind, p.confidence, p.timestamp)
  }

  /**
   * The store after `handlePredictionResult(data)`: the current prediction
   * is replaced and its projection is added to the history.
   */
  function FoldResult(s: StoreState, data: PredictionData, now: string): (t: StoreState)
    ensures t.currentPrediction.Some? && t.detectionHistory != []
    ensures t.detectionHistory[0] == ToHistoryEntry(t.currentPrediction.value)
    ensures t.currentPrediction.value.kind == data.kind && t.currentPrediction.value.confidence == data.confidence
  {
    var p := Normalize(data, now);
    s.(currentPrediction := Some(p), detectionHistory := PrependBounded(s.detectionHistory, ToHistoryEntry(p)))
  }

  /**
   * Folding replaces the prediction whatever was there, adds exactly one
   * history entry (subject to the cap) whose class, confidence and
   * timestamp are the new prediction's, and touches nothing else.
   */
  lemma FoldResultProperties(s: StoreState, data: PredictionData, now: string)
    ensures var t := FoldResult(s, data, now);
      && t.currentPrediction == Some(Normalize(data, now))
      && |t.detectionHistory| == Min(|s.detectionHistory| + 1, MAX_HISTORY)
      && t.detectionHistory[0].kind == data.kind
      && t.detectionHistory[0].confidence == data.confidence
      && t.detectionHistory[0].timestamp == t.currentPrediction.value.timestamp
      && t.detectionHistory[1..] == s.detectionHistory[..|t.detectionHistory| - 1]
      && t == s.(currentPrediction := t.currentPrediction, detectionHistory := t.detectionHistory)
  {
  }

  /** Normalising an already normalised prediction changes nothing (given a non-empty clock text). */
  lemma {:induction false} NormalizeIdempotent(data: PredictionData, now: string, later: string)
    requires now != ""
    ensures Normalize(AsData(Normalize(data, now)), later) == Normalize(data, now)
  {
    var p := Normalize(data, now);
    assert p.timestamp != "";
    assert p.processingTime != "" && p.audioDuration != "";
  }

  /** `handlePredictionResult`, with the persistence outcome of `addToHistory` as `fault`. */
  method HandlePredictionResult(store: AudioStore, data: PredictionData, now: string, fault: bool)
    modifies store, store.storage
    ensures store.State() == FoldResult(old(store.State()), data, now)
    ensures store.storage.items == if fault then old(store.storage.items)
                                   else old(store.storage.items)[HISTORY_KEY := Serialized(store.detectionHistory)]
  {
    var prediction := Normalize(data, now);
    store.SetCurrentPrediction(Some(prediction));
    store.AddToHistory(ToHistoryEntry(prediction), fault);
  }

  // ---------------------------------------------------------------------------
  // The demo classifier

  datatype DemoRow = DemoRow(kind: string, confidence: real, tank: real, pedestrian: real, lightVehicle: real)

  /** The fixed table of `simulatePrediction`. */
  const DEMO_PREDICTIONS: seq<DemoRow> := [
    DemoRow("tank", 0.89, 0.89, 0.07, 0.04),
    DemoRow("pedestrian", 0.76, 0.15, 0.76, 0.09),
    DemoRow("light_vehicle", 0.82, 0.12, 0.06, 0.82)
  ]

  /** The row's score for a class name, if it is one of the three. */
  function ScoreOf(row: DemoRow, kind: string): Option<real>
  {
    if kind == "tank" then Some(row.tank)
    else if kind == "pedestrian" then Some(row.pedestrian)
    else if kind == "light_vehicle" then Some(row.lightVehicle)
    else None
  }

  /**
   * A consistent row: its class is one of the three, its confidence is that
   * class's score and strictly the largest, and the scores sum to 1.
   */
  predicate ConsistentRow(row: DemoRow)
  {
    && ScoreOf(row, row.kind) == Some(row.confidence)
    && row.confidence > 0.0
    && (forall k :: k in ["tank", "pedestrian", "light_vehicle"] && k != row.kind ==>
          ScoreOf(row, k).Some? && ScoreOf(row, k).value < row.confidence)
    && row.tank + row.pedestrian + row.lightVehicle == 1.0
  }

  lemma DemoTableConsistent()
    ensures |DEMO_PREDICTIONS| == 3
    ensures forall i :: 0 <= i < |DEMO_PREDICTIONS| ==> ConsistentRow(DEMO_PREDICTIONS[i])
  {
  }

  /** `{...result, timestamp, processingTime, audioDuration: '3.0s'}`. */
  function SimulatedData(row: DemoRow, timestamp: string, processingTime: string): (d: PredictionData)
    ensures d.kind == Some(row.kind)
    ensures ConsistentRow(row) ==> d.confidence == ScoreOf(row, row.kind)
    ensures d.audioDuration == Some("3.0s")
  {
    PredictionData(Some(row.kind), Some(row.confidence), Some(row.tank), Some(row.pedestrian),
                   Some(row.lightVehicle), Some(timestamp), Some(processingTime), Some("3.0s"))
  }

  /**
   * A demo result with non-empty generated texts is already in normal form:
   * none of `handlePredictionResult`'s defaults applies, at any clock text.
   */
  lemma SimulatedDataNeedsNoDefaults(row: DemoRow, timestamp: string, processingTime: string, now: string)
    requires timestamp != "" && processingTime != ""
    ensures Normalize(SimulatedData(row, timestamp, processingTime), now) ==
            Prediction(Some(row.kind), Some(row.confidence), row.tank, row.pedestrian, row.lightVehicle,
                       timestamp, processingTime, "3.0s")
  {
  }

  /** What `simulatePrediction` does before its 1.5 s timer: raise `isProcessing`. */
  method SimulatePredictionBegin(store: AudioStore)
    modifies store
    ensures store.State() == old(store.State()).(isProcessing := true)
  {
    store.SetIsProcessing(true);
  }

  /**
   * The body of the 1.5 s timer: the row picked by `Math.random` is `choice`,
   * `timestamp` and `processingTime` are the generated texts, `now` the
   * clock text `handlePredictionResult` falls back on. Returns the value the
   * promise resolves with.
   */
  method SimulatePredictionComplete(store: AudioStore, choice: nat, timestamp: string,
                                    processingTime: string, now: string, fault: bool)
    returns (resolved: PredictionData)
    requires choice < |DEMO_PREDICTIONS|
    modifies store, store.storage
    ensures resolved == SimulatedData(DEMO_PREDICTIONS[choice], timestamp, processingTime)
    ensures store.State() == FoldResult(old(store.State()), resolved, now).(isProcessing := false)
    ensures store.storage.items == if fault then old(store.storage.items)
                                   else old(store.storage.items)[HISTORY_KEY := Serialized(store.detectionHistory)]
  {
    resolved := SimulatedData(DEMO_PREDICTIONS[choice], timestamp, processingTime);
    HandlePredictionResult(store, resolved, now, fault);
    store.SetIsProcessing(false);
  }

  /**
   * The tank row on a fresh store: the prediction carries its three scores,
   * the history holds one entry of class tank, confidence 0.89 and the same
   * timestamp, and `isProcessing` is true during and false after.
   */
  method TankScenario(timestamp: string, processingTime: string, now: string)
    returns (during: bool, current: Option<Prediction>, history: seq<HistoryEntry>, after: bool)
    requires timestamp != "" && processingTime != ""
    ensures during && !after
    ensures current == Some(Prediction(Some("tank"), Some(0.89), 0.89, 0.07, 0.04,
                                       timestamp, processingTime, "3.0s"))
    ensures history == [HistoryEntry(Some("tank"), Some(0.89), timestamp)]
  {
    var storage := new LocalStorage();
    var browser := new Browser();
    var store := new AudioStore(storage, browser);
    SimulatePredictionBegin(store);
    during := store.isProcessing;
    var _ := SimulatePredictionComplete(store, 0, timestamp, processingTime, now, false);
    current, history, after := store.currentPrediction, store.detectionHistory, store.isProcessing;
  }
}
