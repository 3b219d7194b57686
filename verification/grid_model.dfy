/** The network twin (src/digital_twin/grid_model.py): a Substation Alpha
    network plus a simulated-hour counter. `tick` rewrites every load from a
    diurnal profile, `status` classifies T1's loading, `injectAnomaly` forces
    an industrial overload. The linear power flow solver is not modelled:
    its result for T1 is an explicit input of `Status`. */
module GridModel {

  import opened Wrappers
  import opened Text
  import opened Topology

  // --------------------------------------------------------------- load profile

  /** Relative demand for each of the twelve simulated hours of the cycle. */
  const BaseLoadProfile: seq<real> := [0.4, 0.3, 0.3, 0.4, 0.6, 0.8, 0.9, 0.9, 0.8, 0.7, 0.5, 0.4]

  /** `base_load_profile[time_step % len(base_load_profile)]`. */
  function ProfileFactor(timeStep: nat): (f: real)
    ensures f in BaseLoadProfile
    ensures 0.3 <= f <= 0.9
  {
    BaseLoadProfile[timeStep % |BaseLoadProfile|]
  }

  /** The profile repeats every twelve steps. */
  lemma ProfilePeriodic(timeStep: nat)
    ensures ProfileFactor(timeStep + 12) == ProfileFactor(timeStep)
  {
    assert (timeStep + 12) % 12 == timeStep % 12;
  }

  /** The base magnitude of a load, chosen by substring tests on its name in
      the order Residential, Commercial, Industrial, each overriding the last. */
  function CategoryBase(name: string): (b: real)
    ensures Contains(name, "Industrial") ==> b == 8.0
    ensures !Contains(name, "Industrial") && Contains(name, "Commercial") ==> b == 4.0
    ensures !Contains(name, "Industrial") && !Contains(name, "Commercial") ==> b == 5.0
  {
    var fallback := 5.0;
    var afterResidential := if Contains(name, "Residential") then 5.0 else fallback;
    var afterCommercial := if Contains(name, "Commercial") then 4.0 else afterResidential;
    if Contains(name, "Industrial") then 8.0 else afterCommercial
  }

  /** Each Alpha load name carries exactly one of the category substrings,
      so each receives its own base: 5, 4 and 8 MW. */
  lemma AlphaLoadCategories()
    ensures Contains(ResidentialLoad, "Residential") && !Contains(ResidentialLoad, "Commercial") && !Contains(ResidentialLoad, "Industrial")
    ensures !Contains(CommercialLoad, "Residential") && Contains(CommercialLoad, "Commercial") && !Contains(CommercialLoad, "Industrial")
    ensures !Contains(IndustrialLoad, "Residential") && !Contains(IndustrialLoad, "Commercial") && Contains(IndustrialLoad, "Industrial")
    ensures CategoryBase(ResidentialLoad) == 5.0 && CategoryBase(CommercialLoad) == 4.0 && CategoryBase(IndustrialLoad) == 8.0
  {
    ResidentialCategory();
    CommercialCategory();
    IndustrialCategory();
  }

  lemma ResidentialCategory()
    ensures Contains(ResidentialLoad, "Residential") && !Contains(ResidentialLoad, "Commercial") && !Contains(ResidentialLoad, "Industrial")
  {
    ContainsWitness(ResidentialLoad, "Residential", 0, 5);
  }

  lemma CommercialCategory()
    ensures !Contains(CommercialLoad, "Residential") && Contains(CommercialLoad, "Commercial") && !Contains(CommercialLoad, "Industrial")
  {
    ContainsWitness(CommercialLoad, "Commercial", 0, 5);
  }

  lemma IndustrialCategory()
    ensures !Contains(IndustrialLoad, "Residential") && !Contains(IndustrialLoad, "Commercial") && Contains(IndustrialLoad, "Industrial")
  {
    ContainsWitness(IndustrialLoad, "Industrial", 0, 5);
  }

  /** The noise `random.uniform(0.8, 1.2)` draws for each load. */
  predicate NoiseInRange(noise: seq<real>) {
    forall i :: 0 <= i < |noise| ==> 0.8 <= noise[i] <= 1.2
  }

  /** A redrawn setpoint: base × profile factor × noise. */
  function Scaled(base: real, factor: real, noise: real): real {
    base * factor * noise
  }

  /** Rewrites every load's setpoint to base × profile × noise, keeping its name and bus. */
  function RescaleLoads(loads: seq<Load>, factor: real, noise: seq<real>): (r: seq<Load>)
    requires |noise| == |loads|
    ensures |r| == |loads|
    ensures forall i :: 0 <= i < |loads| ==>
      r[i].name == loads[i].name && r[i].bus == loads[i].bus
      && r[i].pSet == Scaled(CategoryBase(loads[i].name), factor, noise[i])
  {
    seq(|loads|, i requires 0 <= i < |loads| => loads[i].(pSet := Scaled(CategoryBase(loads[i].name), factor, noise[i])))
  }

  /** base × profile × noise lies within [0.24·base, 1.08·base]. */
  lemma ScaledSetpointBounds(base: real, factor: real, noise: real)
    requires base >= 0.0 && 0.3 <= factor <= 0.9 && 0.8 <= noise <= 1.2
    ensures 0.24 * base <= Scaled(base, factor, noise) <= 1.08 * base
  {
    assert 0.24 <= factor * noise <= 1.08 by {
      assert factor * noise >= 0.3 * noise;
      assert factor * noise <= 0.9 * noise;
    }
    assert base * factor * noise == base * (factor * noise);
  }

  // ----------------------------------------------------------------- the twin

  /** The twin's state: the network (with its current load setpoints) and the step counter. */
  datatype Twin = Twin(network: Network, timeStep: nat)

  /** `NetworkTwin()`: Substation Alpha at step 0 (the initial solve has no modelled effect). */
  function NewTwin(): (tw: Twin)
    ensures tw.timeStep == 0 && AlphaShaped(tw)
    ensures TotalLoad(tw.network.loads) == 17.0
  {
    Twin(SubstationAlpha(), 0)
  }

  /** `tick()`: advance one simulated hour and redraw every load; one noise value per load.
      A solver exception is swallowed, so the step always completes. */
  function Tick(tw: Twin, noise: seq<real>): (r: Twin)
    requires |noise| == |tw.network.loads|
    ensures r.timeStep == tw.timeStep + 1
    ensures r.network.buses == tw.network.buses && r.network.generators == tw.network.generators
    ensures r.network.transformers == tw.network.transformers && r.network.lines == tw.network.lines
    ensures r.network.links == tw.network.links
    ensures |r.network.loads| == |tw.network.loads|
    ensures forall i :: 0 <= i < |tw.network.loads| ==>
      var prev := tw.network.loads[i];
      r.network.loads[i].name == prev.name && r.network.loads[i].bus == prev.bus
      && r.network.loads[i].pSet == Scaled(CategoryBase(prev.name), ProfileFactor(tw.timeStep + 1), noise[i])
  {
    var step := tw.timeStep + 1;
    Twin(tw.network.(loads := RescaleLoads(tw.network.loads, ProfileFactor(step), noise)), step)
  }

  /** With in-range noise every new setpoint is non-negative and lies within
      [0.24·base, 1.08·base] of its category base. */
  lemma TickSetpointBounds(tw: Twin, noise: seq<real>)
    requires |noise| == |tw.network.loads| && NoiseInRange(noise)
    ensures var r := Tick(tw, noise);
      && SetpointsNonNegative(r.network.loads)
      && forall i :: 0 <= i < |r.network.loads| ==>
           0.24 * CategoryBase(r.network.loads[i].name) <= r.network.loads[i].pSet
           && r.network.loads[i].pSet <= 1.08 * CategoryBase(r.network.loads[i].name)
  {
    var r := Tick(tw, noise);
    forall i | 0 <= i < |r.network.loads|
      ensures 0.24 * CategoryBase(r.network.loads[i].name) <= r.network.loads[i].pSet
                 <= 1.08 * CategoryBase(r.network.loads[i].name)
    {
      ScaledSetpointBounds(CategoryBase(tw.network.loads[i].name), ProfileFactor(tw.timeStep + 1), noise[i]);
    }
  }

  // ------------------------------------------------------------------- status

  const CriticalAlert := "CRITICAL: Transformer T1 Overload Risk"
  const WarningAlert := "WARNING: Transformer T1 High Load"
  /** Reported when the T1 row cannot be read. */
  const FallbackLoading := 42.0

  /** What the status read finds for T1: its flow `p0` at bus0 and its rating. */
  datatype T1Row = T1Row(p0: real, rating: Rating)

  datatype SystemStatus = SystemStatus(
    timestamp: int,
    totalLoadMw: real,
    transformerLoadingPercent: real,
    alerts: seq<string>)

  function Abs(x: real): real {
    if x < 0.0 then -x else x
  }

  /** `abs(p0) / rating * 100`: the flow as a percentage of the rating. */
  function LoadingPercent(row: T1Row): (l: real)
    ensures l >= 0.0
    ensures l * row.rating == Abs(row.p0) * 100.0
  {
    Abs(row.p0) / row.rating * 100.0
  }

  /** `get_system_status()`: a pure read. `t1` is the T1 row, or None when the
      lookup raised, in which case the placeholder 42.0 is reported with no alert. */
  function Status(tw: Twin, t1: Option<T1Row>): (s: SystemStatus)
    ensures s.timestamp == tw.timeStep
    ensures s.totalLoadMw == TotalLoad(tw.network.loads)
    ensures |s.alerts| <= 1
    ensures t1.None? ==> s.transformerLoadingPercent == FallbackLoading && s.alerts == []
    ensures t1.Some? ==> s.transformerLoadingPercent * t1.value.rating == Abs(t1.value.p0) * 100.0
    ensures t1.Some? ==> (CriticalAlert in s.alerts <==> s.transformerLoadingPercent > 90.0)
    ensures t1.Some? ==> (WarningAlert in s.alerts <==> 80.0 < s.transformerLoadingPercent <= 90.0)
  {
    var base := SystemStatus(tw.timeStep, TotalLoad(tw.network.loads), 0.0, []);
    match t1
    case None => base.(transformerLoadingPercent := FallbackLoading)
    case Some(row) =>
      var loading := LoadingPercent(row);
      var alerts := if loading > 90.0 then [CriticalAlert]
                    else if loading > 80.0 then [WarningAlert]
                    else [];
      base.(transformerLoadingPercent := loading, alerts := alerts)
  }

  /** The conceptual states of the twin, classified from loading alone. */
  datatype LoadState = Steady | Warning | Critical

  function Classify(loading: real): LoadState {
    if loading <= 80.0 then Steady else if loading <= 90.0 then Warning else Critical
  }

  /** The alert list is exactly the classification of the reported loading:
      none when Steady (or the row is missing), one warning, or one critical alert. */
  lemma StatusAlertsMatchClassification(tw: Twin, t1: Option<T1Row>)
    ensures var s := Status(tw, t1);
      && (s.alerts == [] <==> t1.None? || Classify(s.transformerLoadingPercent) == Steady)
      && (s.alerts == [WarningAlert] <==> t1.Some? && Classify(s.transformerLoadingPercent) == Warning)
      && (s.alerts == [CriticalAlert] <==> t1.Some? && Classify(s.transformerLoadingPercent) == Critical)
  {
    assert CriticalAlert != WarningAlert by { assert CriticalAlert[0] != WarningAlert[0]; }
  }

  // ---------------------------------------------------------------- anomalies

  predicate HasLoad(loads: seq<Load>, name: string) {
    exists i :: 0 <= i < |loads| && loads[i].name == name
  }

  /** Overwrites the setpoint of every row labelled `name`. */
  function Overwrite(loads: seq<Load>, name: string, v: real): (r: seq<Load>)
    ensures |r| == |loads|
    ensures forall i :: 0 <= i < |loads| ==>
      r[i].name == loads[i].name && r[i].bus == loads[i].bus
      && r[i].pSet == (if loads[i].name == name then v else loads[i].pSet)
  {
    if loads == [] then []
    else [if loads[0].name == name then loads[0].(pSet := v) else loads[0]] + Overwrite(loads[1..], name, v)
  }

  /** pandas `loads.at[name, "p_set"] = v`: overwrites the labelled row, or,
      when no row has that label, enlarges the table with a new row that has
      no bus (the empty name stands for pandas' missing value). */
  function SetSetpoint(loads: seq<Load>, name: string, v: real): (r: seq<Load>)
    ensures HasLoad(r, name)
    ensures forall i :: 0 <= i < |r| && r[i].name == name ==> r[i].pSet == v
    ensures HasLoad(loads, name) ==> |r| == |loads|
    ensures !HasLoad(loads, name) ==> |r| == |loads| + 1 && r[|loads|] == Load(name, "", v)
    ensures forall i :: 0 <= i < |loads| ==>
      r[i].name == loads[i].name && r[i].bus == loads[i].bus
      && r[i].pSet == (if loads[i].name == name then v else loads[i].pSet)
  {
    if HasLoad(loads, name) then Overwrite(loads, name, v)
    else
      var r := loads + [Load(name, "", v)];
      assert r[|loads|].name == name;
      r
  }

  /** `inject_anomaly(kind)`: "overload" pins Load_Industrial to 25 MW (the
      re-solve has no modelled effect); any other kind changes nothing. */
  function InjectAnomaly(tw: Twin, kind: string): (r: Twin)
    ensures r.timeStep == tw.timeStep
    ensures r.network == tw.network.(loads := r.network.loads)
    ensures kind != "overload" ==> r == tw
    ensures kind == "overload" && HasLoad(tw.network.loads, IndustrialLoad) ==>
      |r.network.loads| == |tw.network.loads|
      && forall i :: 0 <= i < |tw.network.loads| ==>
        var prev := tw.network.loads[i];
        r.network.loads[i].name == prev.name && r.network.loads[i].bus == prev.bus
        && r.network.loads[i].pSet == (if prev.name == IndustrialLoad then 25.0 else prev.pSet)
  {
    if kind == "overload" then
      tw.(network := tw.network.(loads := SetSetpoint(tw.network.loads, IndustrialLoad, 25.0)))
    else tw
  }

  lemma {:induction false} TotalLoadAppend(loads: seq<Load>, x: Load)
    ensures TotalLoad(loads + [x]) == TotalLoad(loads) + x.pSet
  {
    if loads != [] {
      assert (loads + [x])[1..] == loads[1..] + [x];
      TotalLoadAppend(loads[1..], x);
    }
  }

  /** Raising the setpoints of the rows labelled `name` never lowers the total,
      and strictly raises it when such a row exists. */
  lemma {:induction false} OverwriteRaisesTotal(loads: seq<Load>, name: string, v: real)
    requires forall i :: 0 <= i < |loads| && loads[i].name == name ==> loads[i].pSet < v
    ensures TotalLoad(Overwrite(loads, name, v)) >= TotalLoad(loads)
    ensures HasLoad(loads, name) ==> TotalLoad(Overwrite(loads, name, v)) > TotalLoad(loads)
  {
    if loads != [] {
      var r := Overwrite(loads, name, v);
      assert r[1..] == Overwrite(loads[1..], name, v);
      OverwriteRaisesTotal(loads[1..], name, v);
      if HasLoad(loads, name) && loads[0].name != name {
        var i :| 0 <= i < |loads| && loads[i].name == name;
        assert loads[1..][i - 1].name == name;
      }
    }
  }

  /** Forcing a setpoint above every current value of that label strictly raises total demand. */
  lemma SetSetpointRaisesTotal(loads: seq<Load>, name: string, v: real)
    requires v > 0.0
    requires forall i :: 0 <= i < |loads| && loads[i].name == name ==> loads[i].pSet < v
    ensures TotalLoad(SetSetpoint(loads, name, v)) > TotalLoad(loads)
  {
    if HasLoad(loads, name) {
      OverwriteRaisesTotal(loads, name, v);
    } else {
      TotalLoadAppend(loads, Load(name, "", v));
    }
  }

  // ------------------------------------------------------- reachable twins

  /** The twin still has Substation Alpha's topology and load rows; only the
      setpoints may differ. Every twin built by NewTwin, Tick and InjectAnomaly is. */
  predicate AlphaShaped(tw: Twin) {
    var a := SubstationAlpha();
    && tw.network.buses == a.buses && tw.network.generators == a.generators
    && tw.network.transformers == a.transformers && tw.network.lines == a.lines
    && tw.network.links == a.links
    && |tw.network.loads| == |a.loads|
    && forall i :: 0 <= i < |a.loads| ==>
         tw.network.loads[i].name == a.loads[i].name && tw.network.loads[i].bus == a.loads[i].bus
  }

  lemma TickPreservesAlphaShape(tw: Twin, noise: seq<real>)
    requires AlphaShaped(tw) && |noise| == |tw.network.loads|
    ensures AlphaShaped(Tick(tw, noise))
  {
  }

  lemma InjectPreservesAlphaShape(tw: Twin, kind: string)
    requires AlphaShaped(tw)
    ensures AlphaShaped(InjectAnomaly(tw, kind))
  {
    assert tw.network.loads[2].name == IndustrialLoad;
  }

  // ------------------------------------------------------------ T1 lookups

  /** As written: the status reads `links.p0` and `links.p_nom` for
      "T1_Transformer". `solvedP0` is the solver's flow column, None when
      the solve left none. The row exists only if a link has that name. */
  function LinkRowLookup(n: Network, solvedP0: Option<real>): (r: Option<T1Row>)
    ensures r.Some? <==> solvedP0.Some? && exists k :: k in n.links && k.name == T1Name
    ensures r.Some? ==> r.value.p0 == solvedP0.value
    ensures r.Some? ==> exists k :: k in n.links && k.name == T1Name && k.pNom == r.value.rating
  {
    match Find(n.links, (k: Link) => k.name, T1Name)
    case None => None
    case Some(k) => if solvedP0.Some? then Some(T1Row(solvedP0.value, k.pNom)) else None
  }

  /** Corrected: T1 is declared as a transformer, so its row and its `s_nom`
      rating belong to the transformers table. */
  function TransformerRowLookup(n: Network, solvedP0: Option<real>): (r: Option<T1Row>)
    ensures r.Some? <==> solvedP0.Some? && exists t :: t in n.transformers && t.name == T1Name
    ensures r.Some? ==> r.value.p0 == solvedP0.value
    ensures r.Some? ==> exists t :: t in n.transformers && t.name == T1Name && t.sNom == r.value.rating
  {
    match Find(n.transformers, (t: Transformer) => t.name, T1Name)
    case None => None
    case Some(t) => if solvedP0.Some? then Some(T1Row(solvedP0.value, t.sNom)) else None
  }

  /** The flow a lossless linear power flow puts through T1 in Substation Alpha:
      every load sits downstream of T1 and the slack feeds them all through it. */
  function LosslessT1Flow(n: Network): real {
    TotalLoad(n.loads)
  }

  /** As written, every reachable twin reports the 42% placeholder and no alert,
      whatever the solver computed: Substation Alpha declares no links. */
  lemma AsWrittenStatusIsFallback(tw: Twin, solvedP0: Option<real>)
    requires AlphaShaped(tw)
    ensures LinkRowLookup(tw.network, solvedP0).None?
    ensures Status(tw, LinkRowLookup(tw.network, solvedP0)).transformerLoadingPercent == FallbackLoading
    ensures Status(tw, LinkRowLookup(tw.network, solvedP0)).alerts == []
  {
  }

  /** From the initial twin, an injected overload leaves 5, 4 and 25 MW: 34 MW in all. */
  lemma InjectedInitialLoads()
    ensures var tw := InjectAnomaly(NewTwin(), "overload");
      && AlphaShaped(tw)
      && [tw.network.loads[0].pSet, tw.network.loads[1].pSet, tw.network.loads[2].pSet] == [5.0, 4.0, 25.0]
      && TotalLoad(tw.network.loads) == 34.0
  {
    var tw := InjectAnomaly(NewTwin(), "overload");
    InjectPreservesAlphaShape(NewTwin(), "overload");
    assert tw.network.loads[0].name != IndustrialLoad by { assert ResidentialLoad[5] != IndustrialLoad[5]; }
    assert tw.network.loads[1].name != IndustrialLoad by { assert CommercialLoad[5] != IndustrialLoad[5]; }
  }

  /** Counterexample: an injected overload from the initial twin puts 34 MW
      through T1, 85% of its 40 MVA rating, yet as written no warning appears. */
  lemma AsWrittenOverloadUnseen()
    ensures var tw := InjectAnomaly(NewTwin(), "overload");
      && LosslessT1Flow(tw.network) == 34.0
      && Status(tw, LinkRowLookup(tw.network, Some(LosslessT1Flow(tw.network)))).transformerLoadingPercent == 42.0
      && Status(tw, LinkRowLookup(tw.network, Some(LosslessT1Flow(tw.network)))).alerts == []
  {
    var tw := InjectAnomaly(NewTwin(), "overload");
    InjectedInitialLoads();
    AsWrittenStatusIsFallback(tw, Some(LosslessT1Flow(tw.network)));
  }

  /** Corrected, the same overload reads 85% and raises exactly the warning. */
  lemma CorrectedOverloadWarns()
    ensures var tw := InjectAnomaly(NewTwin(), "overload");
      var s := Status(tw, TransformerRowLookup(tw.network, Some(LosslessT1Flow(tw.network))));
      s.transformerLoadingPercent == 85.0 && s.alerts == [WarningAlert]
  {
    var tw := InjectAnomaly(NewTwin(), "overload");
    InjectedInitialLoads();
    var row := TransformerRowLookup(tw.network, Some(34.0));
    assert row == Some(T1Row(34.0, 40.0));
  }

  /** Corrected, the loading read from a lossless solve of an Alpha-shaped twin. */
  function CorrectedLoading(tw: Twin): (l: real)
    requires AlphaShaped(tw)
    ensures l * 40.0 == Abs(TotalLoad(tw.network.loads)) * 100.0
  {
    var row := TransformerRowLookup(tw.network, Some(LosslessT1Flow(tw.network)));
    assert tw.network.transformers[0] in tw.network.transformers;
    Status(tw, row).transformerLoadingPercent
  }

  /** Corrected, an injected overload strictly raises T1's loading whenever the
      industrial load was below 25 MW and no setpoint was negative. */
  lemma CorrectedInjectRaisesLoading(tw: Twin)
    requires AlphaShaped(tw) && SetpointsNonNegative(tw.network.loads)
    requires forall i :: 0 <= i < |tw.network.loads| && tw.network.loads[i].name == IndustrialLoad ==>
      tw.network.loads[i].pSet < 25.0
    ensures AlphaShaped(InjectAnomaly(tw, "overload"))
    ensures CorrectedLoading(InjectAnomaly(tw, "overload")) > CorrectedLoading(tw)
  {
    var after := InjectAnomaly(tw, "overload");
    InjectPreservesAlphaShape(tw, "overload");
    SetSetpointRaisesTotal(tw.network.loads, IndustrialLoad, 25.0);
    assert TotalLoad(after.network.loads) > TotalLoad(tw.network.loads) >= 0.0;
  }

  /** After any tick with in-range noise, an injected overload strictly raises
      the corrected loading: the industrial load is then at most 8.64 MW. */
  lemma CorrectedTickThenInjectRaisesLoading(tw: Twin, noise: seq<real>)
    requires AlphaShaped(tw) && |noise| == |tw.network.loads| && NoiseInRange(noise)
    ensures AlphaShaped(Tick(tw, noise))
    ensures AlphaShaped(InjectAnomaly(Tick(tw, noise), "overload"))
    ensures CorrectedLoading(InjectAnomaly(Tick(tw, noise), "overload")) > CorrectedLoading(Tick(tw, noise))
  {
    var t := Tick(tw, noise);
    TickPreservesAlphaShape(tw, noise);
    TickSetpointBounds(tw, noise);
    IndustrialCategory();
    forall i | 0 <= i < |t.network.loads| && t.network.loads[i].name == IndustrialLoad
      ensures t.network.loads[i].pSet < 25.0
    {
      assert CategoryBase(t.network.loads[i].name) == 8.0;
    }
    CorrectedInjectRaisesLoading(t);
  }
}
