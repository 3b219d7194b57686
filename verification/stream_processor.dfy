/** The telemetry loop (src/ingestion/stream_processor.py): each iteration
    ticks the twin, reads its status, synthesises transformer sensor readings
    from the loading, updates the T1 health model and assembles a payload for
    the optional subscriber. Random draws, the clock and the solver's T1
    reading arrive as explicit samples, one per iteration. */
module StreamProcessor {

  import opened Wrappers
  import opened Topology
  import opened GridModel
  import opened AssetModels

  /** A JSON value of the payload. */
  datatype Value = Num(n: real) | Str(s: string)

  type Dict = map<Key, Value>

  /** What the environment supplies to one iteration. */
  datatype Samples = Samples(
    loadNoise: seq<real>,  // one `uniform(0.8, 1.2)` per load, drawn inside `tick`
    tempNoise: real,       // `uniform(-2, 2)` added to the oil temperature
    vibration: real,       // `uniform(0.1, 1.2)`
    h2: real,              // `uniform(5, 15)`
    t1: Option<T1Row>,     // what the status read finds for T1 after this tick
    updatedAt: Instant,    // the `datetime.now()` read inside the health update
    sentAt: Instant)       // the later `datetime.now()` read for the payload's timestamp

  /** The ranges the source's uniform draws stay in. */
  predicate SamplesInRange(s: Samples, loadCount: nat) {
    && |s.loadNoise| == loadCount && NoiseInRange(s.loadNoise)
    && -2.0 <= s.tempNoise <= 2.0
    && 0.1 <= s.vibration <= 1.2
    && 5.0 <= s.h2 <= 15.0
  }

  /** The twin and the asset manager the loop drives. */
  datatype World = World(twin: Twin, assets: AssetManager)

  function NewWorld(now: Instant): World {
    World(NewTwin(), NewAssetManager(now))
  }

  /** The module-level singletons start Alpha-shaped, with T1 registered under its own id. */
  lemma NewWorldHealthy(now: Instant)
    ensures AlphaShaped(NewWorld(now).twin)
    ensures Healthy(NewWorld(now))
  {
  }

  /** The frame pushed to the subscriber. */
  datatype Payload = Payload(timestamp: Instant, grid: SystemStatus, assets: map<string, Dict>)

  const SensorKeys: set<Key> := {LoadPercent, OilTemp, Vibration, H2Ppm}
  const HealthKeys: set<Key> := {AssetIdKey, HealthScoreKey, StatusKey}

  /** Oil temperature follows loading: 40 °C plus half the loading percentage, plus noise. */
  function OilTemperature(loading: real, noise: real): real {
    40.0 + loading * 0.5 + noise
  }

  function Numeric(d: SensorData): (r: Dict)
    ensures r.Keys == d.Keys
    ensures forall k :: k in d ==> r[k] == Num(d[k])
  {
    map k | k in d :: Num(d[k])
  }

  function HealthDict(h: HealthRecord): (r: Dict)
    ensures r.Keys == HealthKeys
  {
    map[AssetIdKey := Str(h.assetId), HealthScoreKey := Num(h.healthScore), StatusKey := Str(h.status)]
  }

  /** One pass of the loop body: either a frame was assembled, or the health
      update returned None and merging it raised, ending the loop after the tick. */
  datatype Iteration =
    | Emitted(world: World, grid: SystemStatus, sensors: SensorData, health: HealthRecord, payload: Payload)
    | Failed(world: World)

  /** One iteration of `start_stream`'s loop. */
  function Iterate(w: World, s: Samples): (r: Iteration)
    requires |s.loadNoise| == |w.twin.network.loads|
    ensures r.world.twin == Tick(w.twin, s.loadNoise)
    ensures r.Failed? <==> T1AssetId !in w.assets.assets
    ensures r.Failed? ==> r.world.assets == w.assets
    ensures r.Emitted? ==> r.grid == Status(r.world.twin, s.t1) && r.payload.grid == r.grid
    ensures r.Emitted? ==> r.payload.timestamp == s.sentAt
    ensures r.Emitted? ==> var p := ProcessTelemetry(w.assets, T1AssetId, r.sensors, s.updatedAt);
      r.world.assets == p.manager && p.record == Some(r.health)
  {
    var twin := Tick(w.twin, s.loadNoise);
    var grid := Status(twin, s.t1);
    var sensors := SensorReadings(grid.transformerLoadingPercent, s);
    var p := ProcessTelemetry(w.assets, T1AssetId, sensors, s.updatedAt);
    match p.record
    case None => Failed(World(twin, p.manager))
    case Some(health) =>
      Emitted(World(twin, p.manager), grid, sensors, health, Payload(s.sentAt, grid, map[T1AssetId := AssetEntry(sensors, health)]))
  }

  /** `asset_data`: the loading the status reported, and the synthesised
      sensors, under exactly the four sensor keys. */
  function SensorReadings(load: real, s: Samples): (d: SensorData)
    ensures d.Keys == SensorKeys
    ensures d[LoadPercent] == load
    ensures d[OilTemp] == OilTemperature(load, s.tempNoise)
    ensures d[Vibration] == s.vibration && d[H2Ppm] == s.h2
  {
    map[LoadPercent := load,
        OilTemp := OilTemperature(load, s.tempNoise),
        Vibration := s.vibration,
        H2Ppm := s.h2]
  }

  /** `{**asset_data, **health_status}`: every key of either side, the health
      record winning on a shared key. */
  function AssetEntry(sensors: SensorData, health: HealthRecord): (e: Dict)
    ensures e.Keys == sensors.Keys + HealthKeys
    ensures forall k :: k in sensors && k !in HealthKeys ==> e[k] == Num(sensors[k])
    ensures e[AssetIdKey] == Str(health.assetId)
    ensures e[HealthScoreKey] == Num(health.healthScore)
    ensures e[StatusKey] == Str(health.status)
  {
    Numeric(sensors) + HealthDict(health)
  }

  /** The sensors feed the health model the status's loading; the payload
      carries one entry, for T1, holding every sensor reading and every
      health field unchanged. */
  lemma IterationContents(w: World, s: Samples)
    requires |s.loadNoise| == |w.twin.network.loads|
    ensures var r := Iterate(w, s);
      r.Emitted? ==>
        && r.sensors.Keys == SensorKeys
        && r.sensors[LoadPercent] == r.grid.transformerLoadingPercent
        && r.sensors[OilTemp] == OilTemperature(r.grid.transformerLoadingPercent, s.tempNoise)
        && r.sensors[Vibration] == s.vibration && r.sensors[H2Ppm] == s.h2
        && r.payload.assets.Keys == {T1AssetId}
        && r.payload.assets[T1AssetId].Keys == SensorKeys + HealthKeys
        && (forall k :: k in SensorKeys ==> r.payload.assets[T1AssetId][k] == Num(r.sensors[k]))
        && r.payload.assets[T1AssetId][AssetIdKey] == Str(r.health.assetId)
        && r.payload.assets[T1AssetId][HealthScoreKey] == Num(r.health.healthScore)
        && r.payload.assets[T1AssetId][StatusKey] == Str(r.health.status)
  {
    assert SensorKeys !! HealthKeys;
  }

  /** With in-range draws and T1 registered, the iteration always emits; oil
      temperature lies within 2 °C of 40 + L/2; hydrogen stays below both gas
      thresholds, so the score follows the temperature bands alone. */
  lemma IterationSensorBounds(w: World, s: Samples)
    requires SamplesInRange(s, |w.twin.network.loads|)
    requires T1AssetId in w.assets.assets
    ensures var r := Iterate(w, s);
      && r.Emitted?
      && var load := r.grid.transformerLoadingPercent;
      && 38.0 + 0.5 * load <= r.sensors[OilTemp] <= 42.0 + 0.5 * load
      && 0.1 <= r.sensors[Vibration] <= 1.2
      && 5.0 <= r.sensors[H2Ppm] <= 15.0
      && r.health.healthScore == (if r.sensors[OilTemp] <= 85.0 then 100.0
                                  else if r.sensors[OilTemp] <= 95.0 then 80.0
                                  else 40.0)
  {
    var r := Iterate(w, s);
    IterationContents(w, s);
    var data := r.sensors;
    assert Get(data, OilTemp, DefaultOilTemp) == data[OilTemp];
    assert Get(data, H2Ppm, DefaultH2) == data[H2Ppm];
  }

  /** When the T1 row is missing the loading is the 42% placeholder, so the
      oil temperature lies in [59, 63] and the transformer scores full health. */
  lemma FallbackIterationFullHealth(w: World, s: Samples)
    requires SamplesInRange(s, |w.twin.network.loads|)
    requires T1AssetId in w.assets.assets
    requires s.t1.None?
    ensures var r := Iterate(w, s);
      && r.Emitted?
      && r.grid.transformerLoadingPercent == 42.0 && r.grid.alerts == []
      && 59.0 <= r.sensors[OilTemp] <= 63.0
      && r.health.healthScore == 100.0 && r.health.status == GoodStatus
  {
    IterationSensorBounds(w, s);
  }

  /** As written, the status read never finds T1 (Substation Alpha has no
      links), so every iteration of a reachable world scores full health. */
  lemma AsWrittenIterationFullHealth(w: World, s: Samples, solvedP0: Option<real>)
    requires AlphaShaped(w.twin)
    requires SamplesInRange(s, |w.twin.network.loads|)
    requires T1AssetId in w.assets.assets
    requires s.t1 == LinkRowLookup(Tick(w.twin, s.loadNoise).network, solvedP0)
    ensures Iterate(w, s).Emitted? && Iterate(w, s).health.healthScore == 100.0
  {
    TickPreservesAlphaShape(w.twin, s.loadNoise);
    AsWrittenStatusIsFallback(Tick(w.twin, s.loadNoise), solvedP0);
    FallbackIterationFullHealth(w, s);
  }

  // ---------------------------------------------------------------- lifecycle

  /** `StreamMock`: only the `running` flag. */
  datatype StreamMock = StreamMock(running: bool)

  function NewStreamMock(): (m: StreamMock)
    ensures !m.running
  {
    StreamMock(false)
  }

  /** `stop()`: clears the flag; the loop sees it only at its next check. */
  function Stop(m: StreamMock): (r: StreamMock)
    ensures !r.running
  {
    m.(running := false)
  }

  /** One pass of the loop as seen from outside: its samples, and whether
      `stop()` was called while it was in flight (including its one-second sleep). */
  datatype Round = Round(samples: Samples, stopRequested: bool)

  predicate RoundsFit(rounds: seq<Round>, loadCount: nat) {
    forall i :: 0 <= i < |rounds| ==> |rounds[i].samples.loadNoise| == loadCount
  }

  /** The loop's outcome over a finite window: final state, every assembled
      frame, the frames handed to the subscriber, and whether it ended by raising. */
  datatype RunResult = RunResult(world: World, stream: StreamMock, frames: seq<Payload>, delivered: seq<Payload>, crashed: bool)

  /** Whether the loop can never fail: T1 is registered under its own id. */
  predicate Healthy(w: World) {
    T1AssetId in w.assets.assets && Registered(w.assets)
  }

  /** `while self.running:` over the given rounds. The flag is tested only at
      the top, so the round in which `stop()` arrives still completes. */
  function RunFrom(w: World, m: StreamMock, rounds: seq<Round>, subscribed: bool): (r: RunResult)
    requires RoundsFit(rounds, |w.twin.network.loads|)
    decreases |rounds|
    ensures !m.running ==> r.frames == [] && r.world == w && r.stream == m
    ensures r.delivered == (if subscribed then r.frames else [])
    ensures |r.frames| <= |rounds|
  {
    if !m.running || rounds == [] then
      RunResult(w, m, [], [], false)
    else
      var it := Iterate(w, rounds[0].samples);
      match it
      case Failed(w') => RunResult(w', m, [], [], true)
      case Emitted(w', grid, _, _, payload) =>
        var m' := if rounds[0].stopRequested then Stop(m) else m;
        var rest := RunFrom(w', m', rounds[1..], subscribed);
        var frames := [payload] + rest.frames;
        RunResult(rest.world, rest.stream, frames,
                  (if subscribed then [payload] else []) + rest.delivered, rest.crashed)
  }

  /** An iteration of a healthy world emits and leaves it healthy, one step later. */
  lemma IterateKeepsHealthy(w: World, s: Samples)
    requires Healthy(w) && |s.loadNoise| == |w.twin.network.loads|
    ensures var r := Iterate(w, s);
      && r.Emitted? && Healthy(r.world)
      && r.world.twin.timeStep == w.twin.timeStep + 1
      && |r.world.twin.network.loads| == |w.twin.network.loads|
  {
  }

  /** One unrolling of the loop from any running state with rounds left: a
      failed iteration ends it with no frame; an emitted one contributes its
      payload, stamped one step after the twin it started from, ahead of the
      rest of the run. */
  lemma RunFromStep(w: World, m: StreamMock, rounds: seq<Round>, subscribed: bool)
    requires RoundsFit(rounds, |w.twin.network.loads|)
    requires m.running && rounds != []
    ensures var it := Iterate(w, rounds[0].samples);
      var m' := if rounds[0].stopRequested then Stop(m) else m;
      var r := RunFrom(w, m, rounds, subscribed);
      && it.world.twin.timeStep == w.twin.timeStep + 1
      && (it.Failed? ==> r.frames == [])
      && (it.Emitted? ==>
            && it.payload.grid.timestamp == w.twin.timeStep + 1
            && RoundsFit(rounds[1..], |it.world.twin.network.loads|)
            && r.frames == [it.payload] + RunFrom(it.world, m', rounds[1..], subscribed).frames)
  {
  }

  /** Frames stamped consecutively from `t`. */
  predicate StampedFrom(frames: seq<Payload>, t: int) {
    forall i :: 0 <= i < |frames| ==> frames[i].grid.timestamp == t + i + 1
  }

  /** A frame stamped `t + 1` ahead of frames stamped from `t + 1` gives frames stamped from `t`. */
  lemma StampedFromConsecutive(p: Payload, rest: seq<Payload>, t: int)
    requires p.grid.timestamp == t + 1 && StampedFrom(rest, t + 1)
    ensures StampedFrom([p] + rest, t)
  {
    var frames := [p] + rest;
    forall i | 0 < i < |frames| ensures frames[i].grid.timestamp == t + i + 1 {
      assert frames[i] == rest[i - 1];
    }
  }

  /** Frame i carries the status of the twin after its (i+1)-th tick. */
  lemma {:induction false} RunFromTimestamps(w: World, m: StreamMock, rounds: seq<Round>, subscribed: bool)
    requires RoundsFit(rounds, |w.twin.network.loads|)
    decreases |rounds|
    ensures StampedFrom(RunFrom(w, m, rounds, subscribed).frames, w.twin.timeStep)
  {
    if m.running && rounds != [] {
      RunFromStep(w, m, rounds, subscribed);
      var it := Iterate(w, rounds[0].samples);
      if it.Emitted? {
        var m' := if rounds[0].stopRequested then Stop(m) else m;
        RunFromTimestamps(it.world, m', rounds[1..], subscribed);
        StampedFromConsecutive(it.payload, RunFrom(it.world, m', rounds[1..], subscribed).frames, w.twin.timeStep);
      }
    }
  }

  /** Once a round has seen `stop()`, no later round produces a frame: every
      frame but the last comes from a round without a stop request. */
  lemma {:induction false} RunFromNoFrameAfterStop(w: World, m: StreamMock, rounds: seq<Round>, subscribed: bool)
    requires RoundsFit(rounds, |w.twin.network.loads|)
    decreases |rounds|
    ensures var r := RunFrom(w, m, rounds, subscribed);
      forall j :: 0 <= j < |r.frames| - 1 ==> !rounds[j].stopRequested
  {
    if m.running && rounds != [] {
      RunFromStep(w, m, rounds, subscribed);
      var it := Iterate(w, rounds[0].samples);
      if it.Emitted? {
        var m' := if rounds[0].stopRequested then Stop(m) else m;
        RunFromNoFrameAfterStop(it.world, m', rounds[1..], subscribed);
        var rest := RunFrom(it.world, m', rounds[1..], subscribed);
        var frames := RunFrom(w, m, rounds, subscribed).frames;
        if rounds[0].stopRequested {
          assert !m'.running;
          assert |frames| == 1;
        }
        forall j | 0 < j < |frames| - 1 ensures !rounds[j].stopRequested {
          assert rounds[j] == rounds[1..][j - 1];
        }
      }
    }
  }

  /** One unrolling of the loop from a healthy, running state with rounds left. */
  lemma RunFromUnfold(w: World, m: StreamMock, rounds: seq<Round>, subscribed: bool)
    requires RoundsFit(rounds, |w.twin.network.loads|) && Healthy(w)
    requires m.running && rounds != []
    ensures var it := Iterate(w, rounds[0].samples);
      var m' := if rounds[0].stopRequested then Stop(m) else m;
      && it.Emitted? && Healthy(it.world)
      && it.world.twin.timeStep == w.twin.timeStep + 1
      && RoundsFit(rounds[1..], |it.world.twin.network.loads|)
      && var rest := RunFrom(it.world, m', rounds[1..], subscribed);
      && var r := RunFrom(w, m, rounds, subscribed);
      && r.world == rest.world && r.stream == rest.stream && r.crashed == rest.crashed
      && r.frames == [it.payload] + rest.frames
  {
    IterateKeepsHealthy(w, rounds[0].samples);
  }

  /** From a healthy world the loop never raises, stays healthy, and advances
      the twin exactly once per emitted frame. */
  lemma {:induction false} RunFromHealthy(w: World, m: StreamMock, rounds: seq<Round>, subscribed: bool)
    requires RoundsFit(rounds, |w.twin.network.loads|) && Healthy(w)
    decreases |rounds|
    ensures var r := RunFrom(w, m, rounds, subscribed);
      && !r.crashed && Healthy(r.world)
      && r.world.twin.timeStep == w.twin.timeStep + |r.frames|
  {
    if m.running && rounds != [] {
      RunFromUnfold(w, m, rounds, subscribed);
      var it := Iterate(w, rounds[0].samples);
      var m' := if rounds[0].stopRequested then Stop(m) else m;
      RunFromHealthy(it.world, m', rounds[1..], subscribed);
    }
  }

  /** Whether some round saw `stop()`. */
  predicate StopSeen(rounds: seq<Round>) {
    exists j :: 0 <= j < |rounds| && rounds[j].stopRequested
  }

  /** A stop is seen in the first round or in one of the rest. */
  lemma StopSeenCons(rounds: seq<Round>)
    requires rounds != []
    ensures StopSeen(rounds) <==> rounds[0].stopRequested || StopSeen(rounds[1..])
  {
    if StopSeen(rounds) && !rounds[0].stopRequested {
      var j :| 0 <= j < |rounds| && rounds[j].stopRequested;
      assert rounds[1..][j - 1] == rounds[j];
    }
    if StopSeen(rounds[1..]) {
      var j :| 0 <= j < |rounds[1..]| && rounds[1..][j].stopRequested;
      assert rounds[j + 1] == rounds[1..][j];
    }
  }

  /** From a healthy, running state the loop emits one frame per round until
      the round in which `stop()` arrived, that one included. */
  lemma {:induction false} RunFromStops(w: World, m: StreamMock, rounds: seq<Round>, subscribed: bool)
    requires RoundsFit(rounds, |w.twin.network.loads|) && Healthy(w)
    requires m.running
    decreases |rounds|
    ensures var r := RunFrom(w, m, rounds, subscribed);
      |r.frames| == |rounds| || (0 < |r.frames| && rounds[|r.frames| - 1].stopRequested)
  {
    if rounds != [] {
      RunFromUnfold(w, m, rounds, subscribed);
      if !rounds[0].stopRequested {
        var it := Iterate(w, rounds[0].samples);
        RunFromStops(it.world, m, rounds[1..], subscribed);
        var rest := RunFrom(it.world, m, rounds[1..], subscribed);
        if 0 < |rest.frames| {
          assert rounds[1..][|rest.frames| - 1] == rounds[|rest.frames|];
        }
      }
    }
  }

  /** From a healthy state the flag ends cleared exactly when the loop was not
      running to begin with or some round saw a stop. */
  lemma {:induction false} RunFromFlag(w: World, m: StreamMock, rounds: seq<Round>, subscribed: bool)
    requires RoundsFit(rounds, |w.twin.network.loads|) && Healthy(w)
    decreases |rounds|
    ensures RunFrom(w, m, rounds, subscribed).stream.running <==> m.running && !StopSeen(rounds)
  {
    if m.running && rounds != [] {
      RunFromUnfold(w, m, rounds, subscribed);
      StopSeenCons(rounds);
      var it := Iterate(w, rounds[0].samples);
      var m' := if rounds[0].stopRequested then Stop(m) else m;
      RunFromFlag(it.world, m', rounds[1..], subscribed);
    }
  }

  /** `start_stream(callback)`: sets the flag unconditionally, then loops. */
  function StartStream(m: StreamMock, w: World, rounds: seq<Round>, subscribed: bool): (r: RunResult)
    requires RoundsFit(rounds, |w.twin.network.loads|)
    ensures Healthy(w) ==> !r.crashed
    ensures Healthy(w) ==> |r.frames| == |rounds| || (0 < |r.frames| <= |rounds| && rounds[|r.frames| - 1].stopRequested)
    ensures Healthy(w) ==> (r.stream.running <==> !StopSeen(rounds))
  {
    var started := m.(running := true);
    var r := RunFrom(w, started, rounds, subscribed);
    if Healthy(w) then
      RunFromHealthy(w, started, rounds, subscribed);
      RunFromStops(w, started, rounds, subscribed);
      RunFromFlag(w, started, rounds, subscribed);
      r
    else
      r
  }
}
