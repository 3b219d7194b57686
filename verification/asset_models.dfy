/** Asset health (src/digital_twin/asset_models.py): a transformer health
    model scoring the latest sensor sample with two fixed threshold bands, and
    the asset manager that routes telemetry to registered models. */
module AssetModels {

  import opened Wrappers

  /** A wall-clock reading (`datetime.now()`), supplied by the caller. */
  datatype Instant = Instant(micros: int)

  /** `TransformerHealth`: the latest score and update time, plus the oil
      temperature, vibration and hydrogen limits it declares. */
  datatype TransformerHealth = TransformerHealth(
    assetId: string,
    healthScore: real,
    lastUpdate: Instant,
    maxOilTemp: real,
    maxVib: real,
    maxH2: real)

  /** `TransformerHealth(asset_id)`: full health (the `AssetHealthModel`
      initialiser), stamped `now`, with limits 90 °C, 5 mm/s and 100 ppm. */
  function NewTransformerHealth(assetId: string, now: Instant): (m: TransformerHealth)
    ensures m.assetId == assetId && m.healthScore == 100.0 && m.lastUpdate == now
    ensures m.maxOilTemp == 90.0 && m.maxVib == 5.0 && m.maxH2 == 100.0
  {
    TransformerHealth(assetId, 100.0, now, 90.0, 5.0, 100.0)
  }

  /** The keys of the telemetry dictionaries; `Name` gives each one's spelling. */
  datatype Key = LoadPercent | OilTemp | Vibration | H2Ppm | AssetIdKey | HealthScoreKey | StatusKey {
    function Name(): string {
      match this
      case LoadPercent => "load_percent"
      case OilTemp => "oil_temp"
      case Vibration => "vibration"
      case H2Ppm => "h2_ppm"
      case AssetIdKey => "asset_id"
      case HealthScoreKey => "health_score"
      case StatusKey => "status"
    }
  }

  /** A sensor sample: a dictionary of numeric readings, any of which may be missing. */
  type SensorData = map<Key, real>

  /** `data.get(key, default)`. */
  function Get(data: SensorData, key: Key, default: real): real {
    if key in data then data[key] else default
  }

  const DefaultOilTemp := 40.0
  const DefaultH2 := 10.0

  /** The condition before clamping: 100, minus 20 in the first band, minus 40 more in the second. */
  function RawCondition(temp: real, h2: real): real {
    var condition := 100.0;
    var afterFirst := if temp > 85.0 || h2 > 50.0 then condition - 20.0 else condition;
    if temp > 95.0 || h2 > 100.0 then afterFirst - 40.0 else afterFirst
  }

  function Max(a: real, b: real): real {
    if a >= b then a else b
  }

  /** `max(0, current_condition)`: only three scores are reachable, since
      the second band implies the first. */
  function ConditionScore(temp: real, h2: real): (score: real)
    ensures score == 100.0 || score == 80.0 || score == 40.0
    ensures 0.0 <= score <= 100.0
  {
    Max(0.0, RawCondition(temp, h2))
  }

  /** The clamp `max(0, ·)` never takes effect: the raw condition is at least 40. */
  lemma ClampNeverApplies(temp: real, h2: real)
    ensures RawCondition(temp, h2) >= 40.0
    ensures ConditionScore(temp, h2) == RawCondition(temp, h2)
  {
  }

  /** Independent characterisation of the three scores by band, thresholds strict. */
  lemma ScoreBands(temp: real, h2: real)
    ensures ConditionScore(temp, h2) == 100.0 <==> temp <= 85.0 && h2 <= 50.0
    ensures ConditionScore(temp, h2) == 80.0 <==> (temp > 85.0 || h2 > 50.0) && temp <= 95.0 && h2 <= 100.0
    ensures ConditionScore(temp, h2) == 40.0 <==> temp > 95.0 || h2 > 100.0
  {
  }

  /** Raising the oil temperature or the hydrogen level never raises the score. */
  lemma ScoreAntitone(temp: real, h2: real, temp': real, h2': real)
    requires temp <= temp' && h2 <= h2'
    ensures ConditionScore(temp', h2') <= ConditionScore(temp, h2)
  {
  }

  const GoodStatus := "Good"
  const CriticalStatus := "Critical"

  /** The label `update` reports with a score. */
  function StatusLabel(score: real): (tag: string)
    ensures tag == CriticalStatus <==> score < 40.0
    ensures tag == GoodStatus <==> score >= 40.0
  {
    if score < 40.0 then CriticalStatus else GoodStatus
  }

  /** The "Critical" label is unreachable: the lowest reachable score is 40, which is not below 40. */
  lemma NeverCritical(temp: real, h2: real)
    ensures StatusLabel(ConditionScore(temp, h2)) == GoodStatus
  {
  }

  /** The dictionary `update` returns. */
  datatype HealthRecord = HealthRecord(assetId: string, healthScore: real, status: string)

  /** The model after an update, and the record it returns. */
  datatype Updated = Updated(model: TransformerHealth, record: HealthRecord)

  /** `TransformerHealth.update(sensor_data)`: rescores from scratch on the
      oil temperature (default 40) and hydrogen (default 10); the load,
      vibration and previous score do not enter the score. */
  function Update(m: TransformerHealth, data: SensorData, now: Instant): (u: Updated)
    ensures u.record.assetId == m.assetId
    ensures u.model == m.(healthScore := u.record.healthScore, lastUpdate := now)
    ensures u.record.healthScore == 100.0 || u.record.healthScore == 80.0 || u.record.healthScore == 40.0
    ensures var temp, h2 := Get(data, OilTemp, DefaultOilTemp), Get(data, H2Ppm, DefaultH2);
      && (u.record.healthScore == 100.0 <==> temp <= 85.0 && h2 <= 50.0)
      && (u.record.healthScore == 80.0 <==> (temp > 85.0 || h2 > 50.0) && temp <= 95.0 && h2 <= 100.0)
      && (u.record.healthScore == 40.0 <==> temp > 95.0 || h2 > 100.0)
    ensures u.record.status == GoodStatus
  {
    var temp := Get(data, OilTemp, DefaultOilTemp);
    var h2 := Get(data, H2Ppm, DefaultH2);
    var score := ConditionScore(temp, h2);
    ScoreBands(temp, h2);
    NeverCritical(temp, h2);
    Updated(m.(healthScore := score, lastUpdate := now), HealthRecord(m.assetId, score, StatusLabel(score)))
  }

  /** Two updates agree whenever the models share an id and the samples share
      oil temperature and hydrogen (after defaults), whatever else differs. */
  lemma UpdateDependsOnlyOnTempAndH2(m1: TransformerHealth, m2: TransformerHealth, d1: SensorData, d2: SensorData, now1: Instant, now2: Instant)
    requires m1.assetId == m2.assetId
    requires Get(d1, OilTemp, DefaultOilTemp) == Get(d2, OilTemp, DefaultOilTemp)
    requires Get(d1, H2Ppm, DefaultH2) == Get(d2, H2Ppm, DefaultH2)
    ensures Update(m1, d1, now1).record == Update(m2, d2, now2).record
  {
  }

  /** A sample with neither oil temperature nor hydrogen scores full health. */
  lemma MissingReadingsGiveFullHealth(m: TransformerHealth, data: SensorData, now: Instant)
    requires OilTemp !in data && H2Ppm !in data
    ensures Update(m, data, now).record.healthScore == 100.0
  {
  }

  /** The two samples of tests/test_twin.py: a healthy one scores 100 and is
      "Good"; one past both bands scores 40, below 50, and is still "Good". */
  lemma HealthExamples(m: TransformerHealth, now: Instant)
    ensures var r := Update(m, map[LoadPercent := 50.0, OilTemp := 60.0, H2Ppm := 10.0], now).record;
      r.healthScore == 100.0 && r.status == GoodStatus
    ensures var r := Update(m, map[LoadPercent := 120.0, OilTemp := 110.0, H2Ppm := 200.0], now).record;
      r.healthScore == 40.0 && r.healthScore < 50.0 && r.status == GoodStatus
  {
    var good := map[LoadPercent := 50.0, OilTemp := 60.0, H2Ppm := 10.0];
    var bad := map[LoadPercent := 120.0, OilTemp := 110.0, H2Ppm := 200.0];
    assert Get(good, OilTemp, DefaultOilTemp) == 60.0 && Get(good, H2Ppm, DefaultH2) == 10.0;
    assert Get(bad, OilTemp, DefaultOilTemp) == 110.0 && Get(bad, H2Ppm, DefaultH2) == 200.0;
  }

  // ------------------------------------------------------------ asset manager

  const T1AssetId := "T1_Transformer"

  datatype AssetManager = AssetManager(assets: map<string, TransformerHealth>)

  /** Every registered model carries the id it is registered under. */
  predicate Registered(m: AssetManager) {
    forall k :: k in m.assets ==> m.assets[k].assetId == k
  }

  /** `AssetManager()`: one transformer model, registered as "T1_Transformer". */
  function NewAssetManager(now: Instant): (m: AssetManager)
    ensures m.assets.Keys == {T1AssetId}
    ensures Registered(m) && m.assets[T1AssetId].healthScore == 100.0
  {
    AssetManager(map[T1AssetId := NewTransformerHealth(T1AssetId, now)])
  }

  datatype Processed = Processed(manager: AssetManager, record: Option<HealthRecord>)

  /** `process_telemetry(asset_id, data)`: updates the registered model, or
      returns None and changes nothing when the id is not registered. */
  function ProcessTelemetry(m: AssetManager, id: string, data: SensorData, now: Instant): (p: Processed)
    ensures p.record.None? <==> id !in m.assets
    ensures id !in m.assets ==> p.manager == m
    ensures p.manager.assets.Keys == m.assets.Keys
    ensures forall k :: k in m.assets && k != id ==> p.manager.assets[k] == m.assets[k]
    ensures id in m.assets ==> p.record == Some(Update(m.assets[id], data, now).record)
    ensures id in m.assets ==> p.manager.assets[id] == Update(m.assets[id], data, now).model
    ensures Registered(m) ==> Registered(p.manager)
    ensures Registered(m) && p.record.Some? ==> p.record.value.assetId == id
  {
    if id in m.assets then
      var u := Update(m.assets[id], data, now);
      Processed(AssetManager(m.assets[id := u.model]), Some(u.record))
    else
      Processed(m, None)
  }
}
