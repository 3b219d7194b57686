/** The static description of Substation Alpha as a PyPSA network: buses,
    the external-grid slack generator, transformer T1, three feeder lines and
    three loads (src/digital_twin/station_scenario.py). */
module Topology {

  import opened Wrappers

  /** A strictly positive nominal rating (MVA or MW): loading percentages divide by it. */
  type Rating = r: real | r > 0.0 witness 1.0

  /** PyPSA's generator control modes; the scenario uses only Slack. */
  datatype Control = PQ | PV | Slack

  datatype Bus = Bus(name: string, vNom: real)
  datatype Generator = Generator(name: string, bus: string, pNom: real, control: Control)
  datatype Transformer = Transformer(name: string, bus0: string, bus1: string, sNom: Rating, x: real, r: real)
  datatype Line = Line(name: string, bus0: string, bus1: string, x: real, r: real, sNom: real, length: real)
  /** A PyPSA controllable link; the scenario declares none. */
  datatype Link = Link(name: string, bus0: string, bus1: string, pNom: Rating)
  /** A static load; `pSet` is the active-power setpoint in MW, rewritten every tick. */
  datatype Load = Load(name: string, bus: string, pSet: real)

  /** One PyPSA network: a component table per kind, rows in insertion order. */
  datatype Network = Network(
    buses: seq<Bus>,
    generators: seq<Generator>,
    transformers: seq<Transformer>,
    lines: seq<Line>,
    links: seq<Link>,
    loads: seq<Load>)

  // ---------------------------------------------------------------- integrity

  predicate HasBus(n: Network, b: string) {
    exists i :: 0 <= i < |n.buses| && n.buses[i].name == b
  }

  predicate DistinctBusNames(n: Network) {
    forall i, j :: 0 <= i < j < |n.buses| ==> n.buses[i].name != n.buses[j].name
  }

  predicate DistinctLoadNames(loads: seq<Load>) {
    forall i, j :: 0 <= i < j < |loads| ==> loads[i].name != loads[j].name
  }

  /** Every edge and every attached component names a declared bus. */
  predicate ReferencesDeclaredBuses(n: Network) {
    && (forall g :: g in n.generators ==> HasBus(n, g.bus))
    && (forall t :: t in n.transformers ==> HasBus(n, t.bus0) && HasBus(n, t.bus1))
    && (forall l :: l in n.lines ==> HasBus(n, l.bus0) && HasBus(n, l.bus1))
    && (forall k :: k in n.links ==> HasBus(n, k.bus0) && HasBus(n, k.bus1))
    && (forall d :: d in n.loads ==> HasBus(n, d.bus))
  }

  /** Exactly one generator is the slack (reference) machine. */
  predicate ExactlyOneSlack(n: Network) {
    exists k :: 0 <= k < |n.generators| && n.generators[k].control == Slack
      && forall j :: 0 <= j < |n.generators| && j != k ==> n.generators[j].control != Slack
  }

  predicate SetpointsNonNegative(loads: seq<Load>) {
    forall i :: 0 <= i < |loads| ==> loads[i].pSet >= 0.0
  }

  /** Referential integrity of a network, together with non-negative load setpoints. */
  predicate WellFormed(n: Network) {
    && DistinctBusNames(n)
    && DistinctLoadNames(n.loads)
    && ReferencesDeclaredBuses(n)
    && ExactlyOneSlack(n)
    && SetpointsNonNegative(n.loads)
  }

  /** `network.loads.p_set.sum()`. */
  function TotalLoad(loads: seq<Load>): (r: real)
    ensures SetpointsNonNegative(loads) ==> r >= 0.0
  {
    if loads == [] then 0.0 else loads[0].pSet + TotalLoad(loads[1..])
  }

  /** `df.loc[name]` on a component table: the first row with that name, if any. */
  function Find<T>(rows: seq<T>, nameOf: T -> string, name: string): (r: Option<T>)
    ensures r.Some? ==> r.value in rows && nameOf(r.value) == name
    ensures r.None? ==> forall x :: x in rows ==> nameOf(x) != name
  {
    if rows == [] then None
    else if nameOf(rows[0]) == name then Some(rows[0])
    else Find(rows[1..], nameOf, name)
  }

  // ---------------------------------------------------------- Substation Alpha

  const HvBus := "HV_Grid_Bus"
  const MvBus := "MV_Station_Bus"
  const Feeder1End := "Feeder_1_End"
  const Feeder2End := "Feeder_2_End"
  const Feeder3End := "Feeder_3_End"
  const T1Name := "T1_Transformer"
  const ResidentialLoad := "Load_Residential"
  const CommercialLoad := "Load_Commercial"
  const IndustrialLoad := "Load_Industrial"

  /** `create_substation_alpha()`: 110 kV grid bus, 20 kV station bus, three
      20 kV feeder ends, the slack external grid, T1 (40 MVA) and the feeders. */
  function SubstationAlpha(): (n: Network)
    ensures |n.buses| == 5 && |n.loads| == 3
    ensures TotalLoad(n.loads) == 17.0
    ensures n.links == [] && |n.transformers| == 1 && n.transformers[0].name == T1Name
  {
    var loads := [Load(ResidentialLoad, Feeder1End, 5.0),
                  Load(CommercialLoad, Feeder2End, 4.0),
                  Load(IndustrialLoad, Feeder3End, 8.0)];
    assert TotalLoad(loads[2..]) == 8.0;
    assert TotalLoad(loads[1..]) == 12.0;
    Network(
      [Bus(HvBus, 110.0), Bus(MvBus, 20.0),
       Bus(Feeder1End, 20.0), Bus(Feeder2End, 20.0), Bus(Feeder3End, 20.0)],
      [Generator("External_Grid", HvBus, 100.0, Slack)],
      [Transformer(T1Name, HvBus, MvBus, 40.0, 0.1, 0.01)],
      [Line("Feeder_1_Res", MvBus, Feeder1End, 0.1, 0.05, 10.0, 5.0),
       Line("Feeder_2_Comm", MvBus, Feeder2End, 0.1, 0.05, 10.0, 3.0),
       Line("Feeder_3_Ind", MvBus, Feeder3End, 0.1, 0.05, 15.0, 8.0)],
      [],
      loads)
  }

  /** The five bus names are pairwise distinct, and so are the three load names. */
  lemma AlphaDistinctNames()
    ensures DistinctBusNames(SubstationAlpha())
    ensures DistinctLoadNames(SubstationAlpha().loads)
  {
    var n := SubstationAlpha();
    var names := [HvBus, MvBus, Feeder1End, Feeder2End, Feeder3End];
    assert forall i :: 0 <= i < 5 ==> n.buses[i].name == names[i];
    assert HvBus[0] == 'H' && MvBus[0] == 'M' && Feeder1End[0] == 'F';
    assert Feeder1End[7] == '1' && Feeder2End[7] == '2' && Feeder3End[7] == '3';
    assert ResidentialLoad[5] == 'R' && CommercialLoad[5] == 'C' && IndustrialLoad[5] == 'I';
  }

  /** Every component of Substation Alpha hangs off one of its five buses. */
  lemma AlphaReferencesDeclaredBuses()
    ensures ReferencesDeclaredBuses(SubstationAlpha())
  {
    var n := SubstationAlpha();
    assert HasBus(n, HvBus) by { assert n.buses[0].name == HvBus; }
    assert HasBus(n, MvBus) by { assert n.buses[1].name == MvBus; }
    assert HasBus(n, Feeder1End) by { assert n.buses[2].name == Feeder1End; }
    assert HasBus(n, Feeder2End) by { assert n.buses[3].name == Feeder2End; }
    assert HasBus(n, Feeder3End) by { assert n.buses[4].name == Feeder3End; }
  }

  /** Substation Alpha is well formed, over five buses. */
  lemma AlphaWellFormed()
    ensures WellFormed(SubstationAlpha())
    ensures |SubstationAlpha().buses| == 5
  {
    AlphaDistinctNames();
    AlphaReferencesDeclaredBuses();
    AlphaSlackAndTransformer();
  }

  /** The single generator is the slack on the HV bus; T1 joins HV to MV at 40 MVA. */
  lemma AlphaSlackAndTransformer()
    ensures var n := SubstationAlpha();
      && |n.generators| == 1 && n.generators[0].control == Slack && n.generators[0].bus == HvBus
      && |n.transformers| == 1 && n.transformers[0].name == T1Name
      && n.transformers[0].bus0 == HvBus && n.transformers[0].bus1 == MvBus
      && n.transformers[0].sNom == 40.0
      && n.links == []
    ensures ExactlyOneSlack(SubstationAlpha())
  {
    assert SubstationAlpha().generators[0].control == Slack;
  }

  /** All feeders leave the station bus towards distinct feeder ends, rated 10/10/15. */
  lemma AlphaFeeders()
    ensures var n := SubstationAlpha();
      && |n.lines| == 3
      && (forall l :: l in n.lines ==> l.bus0 == MvBus && HasBus(n, l.bus1) && l.bus1 != MvBus)
      && (forall i, j :: 0 <= i < j < |n.lines| ==> n.lines[i].bus1 != n.lines[j].bus1)
      && [n.lines[0].sNom, n.lines[1].sNom, n.lines[2].sNom] == [10.0, 10.0, 15.0]
  {
    var n := SubstationAlpha();
    assert HasBus(n, Feeder1End) by { assert n.buses[2].name == Feeder1End; }
    assert HasBus(n, Feeder2End) by { assert n.buses[3].name == Feeder2End; }
    assert HasBus(n, Feeder3End) by { assert n.buses[4].name == Feeder3End; }
  }

  /** Base setpoints are 5, 4 and 8 MW, 17 MW in all. */
  lemma AlphaLoads()
    ensures var n := SubstationAlpha();
      && |n.loads| == 3
      && [n.loads[0].pSet, n.loads[1].pSet, n.loads[2].pSet] == [5.0, 4.0, 8.0]
      && TotalLoad(n.loads) == 17.0
  {
  }
}
