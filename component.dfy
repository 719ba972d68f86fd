/**
 * The farming component: creates the farmers, decision makers and lobby
 * groups of a world, and steps them forward, one tick at a time, in three
 * ordered passes. Calls into agent code outside this model (a farmer's
 * constructor, `init_neighbourhood` and `update`, and the per-tick step of
 * the world-level agents) are recorded as events in a trace.
 */
module FarmingComponent {
  import opened Agents
  import opened Sequences
  import opened Sorting
  import opened LobbyGroups
  import opened DecisionMakers

  const DefaultDecisionMakers: int := 3
  const DefaultLobbyGroups: int := 2

  /** The optional settings of the coupled configuration. */
  datatype CoupledConfig = CoupledConfig(numDecisionMakers: Option<int>, numLobbyGroups: Option<int>)

  /** A step of the initialisation, in the order it is taken. */
  datatype InitEvent =
    | CreateFarmer(cell: Cell)
    | InitNeighbourhood(farmer: Farmer)
    | CreateLobbyGroup(group: LobbyGroup)
    | InitWorldAttributes(group: LobbyGroup)

  /** A call of an agent's per-tick update. */
  datatype UpdateEvent =
    | UpdateFarmer(farmer: Farmer, t: int)
    | UpdateDecisionMaker(decisionMaker: DecisionMaker, t: int)
    | UpdateLobbyGroup(group: LobbyGroup, t: int)

  /** The number of agents `range(n)` creates: none for a negative setting. */
  function RangeLength(n: int): nat
  {
    if n < 0 then 0 else n
  }

  /** How many agents a setting asks for, `default` when the setting is absent. */
  function AgentCount(setting: Option<int>, default: int): (n: nat)
    ensures setting == None ==> n == RangeLength(default)
    ensures setting.Some? && setting.value >= 0 ==> n == setting.value
    ensures setting.Some? && setting.value < 0 ==> n == 0
  {
    match setting
    case Some(k) => RangeLength(k)
    case None => RangeLength(default)
  }

  predicate IsCropped(c: Cell)
  {
    c.croplandFraction != 0.0
  }

  /** The cells that get a farmer, in cell order. */
  function CroppedCells(cells: seq<Cell>): (r: seq<Cell>)
    ensures |r| <= |cells|
    ensures forall i :: 0 <= i < |r| ==> r[i].croplandFraction != 0.0
  {
    Filter(cells, IsCropped)
  }

  /** Every cell with nonzero cropland occurs as often as in `cells`; no other cell occurs. */
  lemma CroppedCellsExactly(cells: seq<Cell>, c: Cell)
    ensures multiset(CroppedCells(cells))[c]
         == if c.croplandFraction != 0.0 then multiset(cells)[c] else 0
    ensures c in CroppedCells(cells) <==> c in cells && c.croplandFraction != 0.0
  {
    FilterMultiplicity(cells, IsCropped, c);
    FilterMembership(cells, IsCropped, c);
  }

  /** Adding one cell at the end adds its farmer cell when it is cropped. */
  lemma CroppedCellsSnoc(cells: seq<Cell>, c: Cell)
    ensures CroppedCells(cells + [c]) == CroppedCells(cells) + if IsCropped(c) then [c] else []
  {
    FilterConcat(cells, [c], IsCropped);
    assert [c][1..] == [];
  }

  function HarvestDate(f: Farmer): real { f.avgHdate }

  function DecisionMakerOrder(dm: DecisionMaker): real { dm.decisionMakerId as real }

  function LobbyGroupOrder(g: LobbyGroup): real { g.lobbyGroupId as real }

  function CreationEvent(c: Cell): InitEvent { CreateFarmer(c) }

  function NeighbourhoodEvent(f: Farmer): InitEvent { InitNeighbourhood(f) }

  /**
   * The calls `init_farmers` makes: one farmer construction per cropped
   * cell, then `init_neighbourhood` on each farmer in harvest-date order.
   */
  function InitFarmersTrace(cells: seq<Cell>, newFarmer: Cell -> Farmer): (r: seq<InitEvent>)
    ensures |r| == 2 * |CroppedCells(cells)|
  {
    var created := Map(CroppedCells(cells), newFarmer);
    Map(CroppedCells(cells), CreationEvent) + Map(SortByKey(created, HarvestDate), NeighbourhoodEvent)
  }

  /**
   * In `init_farmers`, every farmer is constructed before any neighbourhood
   * is formed, and the neighbourhoods are formed once per created farmer, in
   * a stable harvest-date order.
   */
  lemma InitFarmersOrder(cells: seq<Cell>, newFarmer: Cell -> Farmer)
    ensures var cropped := CroppedCells(cells);
      var created := Map(cropped, newFarmer);
      var sorted := SortByKey(created, HarvestDate);
      var trace := InitFarmersTrace(cells, newFarmer);
      && |trace| == 2 * |cropped|
      && (forall i :: 0 <= i < |cropped| ==> trace[i] == CreateFarmer(cropped[i]))
      && (forall i :: 0 <= i < |sorted| ==> trace[|cropped| + i] == InitNeighbourhood(sorted[i]))
      && (forall i, j :: 0 <= i < j < |trace| && trace[i].InitNeighbourhood? ==> trace[j].InitNeighbourhood?)
      && IsStableSortOf(sorted, created, HarvestDate)
  {
    var cropped := CroppedCells(cells);
    var created := Map(cropped, newFarmer);
    var sorted := SortByKey(created, HarvestDate);
    SortByKeyIsStable(created, HarvestDate);
    var trace := InitFarmersTrace(cells, newFarmer);
    assert forall i :: 0 <= i < |cropped| ==> trace[i] == CreateFarmer(cropped[i]);
  }

  function FarmerStep(t: int): Farmer -> UpdateEvent
  {
    f => UpdateFarmer(f, t)
  }

  function DecisionMakerStep(t: int): DecisionMaker -> UpdateEvent
  {
    (dm: DecisionMaker) => UpdateDecisionMaker(dm, t)
  }

  function LobbyGroupStep(t: int): LobbyGroup -> UpdateEvent
  {
    (g: LobbyGroup) => UpdateLobbyGroup(g, t)
  }

  /**
   * The calls one tick makes: the farmers by harvest date, then the
   * decision makers by id, then the lobby groups by id.
   */
  function UpdateTrace(farmers: seq<Farmer>, decisionMakers: seq<DecisionMaker>,
                       lobbyGroups: seq<LobbyGroup>, t: int): (r: seq<UpdateEvent>)
    ensures |r| == |farmers| + |decisionMakers| + |lobbyGroups|
  {
    Map(SortByKey(farmers, HarvestDate), FarmerStep(t))
    + Map(SortByKey(decisionMakers, DecisionMakerOrder), DecisionMakerStep(t))
    + Map(SortByKey(lobbyGroups, LobbyGroupOrder), LobbyGroupStep(t))
  }

  /** The pass an update call belongs to. */
  function Pass(e: UpdateEvent): nat
  {
    match e
    case UpdateFarmer(_, _) => 0
    case UpdateDecisionMaker(_, _) => 1
    case UpdateLobbyGroup(_, _) => 2
  }

  /** The update calls of one tick, pass by pass, at their offsets. */
  lemma UpdateTraceOffsets(farmers: seq<Farmer>, decisionMakers: seq<DecisionMaker>,
                           lobbyGroups: seq<LobbyGroup>, t: int)
    ensures var trace := UpdateTrace(farmers, decisionMakers, lobbyGroups, t);
      var nf, nd := |farmers|, |decisionMakers|;
      && |trace| == nf + nd + |lobbyGroups|
      && (forall i :: 0 <= i < nf ==> trace[i] == UpdateFarmer(SortByKey(farmers, HarvestDate)[i], t))
      && (forall i :: 0 <= i < nd ==>
            trace[nf + i] == UpdateDecisionMaker(SortByKey(decisionMakers, DecisionMakerOrder)[i], t))
      && (forall i :: 0 <= i < |lobbyGroups| ==>
            trace[nf + nd + i] == UpdateLobbyGroup(SortByKey(lobbyGroups, LobbyGroupOrder)[i], t))
  {
    var a := Map(SortByKey(farmers, HarvestDate), FarmerStep(t));
    var b := Map(SortByKey(decisionMakers, DecisionMakerOrder), DecisionMakerStep(t));
    var c := Map(SortByKey(lobbyGroups, LobbyGroupOrder), LobbyGroupStep(t));
    assert UpdateTrace(farmers, decisionMakers, lobbyGroups, t) == a + b + c;
    assert forall i :: 0 <= i < |b| ==> (a + b + c)[|a| + i] == b[i];
    assert forall i :: 0 <= i < |c| ==> (a + b + c)[|a| + |b| + i] == c[i];
  }

  /**
   * The update calls of one tick, pass by pass, each pass in what a stable
   * sort by its key returns.
   */
  lemma UpdateTraceLayout(farmers: seq<Farmer>, decisionMakers: seq<DecisionMaker>,
                          lobbyGroups: seq<LobbyGroup>, t: int)
    ensures var trace := UpdateTrace(farmers, decisionMakers, lobbyGroups, t);
      var nf, nd := |farmers|, |decisionMakers|;
      && |trace| == nf + nd + |lobbyGroups|
      && (forall i :: 0 <= i < nf ==> trace[i] == UpdateFarmer(SortByKey(farmers, HarvestDate)[i], t))
      && (forall i :: 0 <= i < nd ==>
            trace[nf + i] == UpdateDecisionMaker(SortByKey(decisionMakers, DecisionMakerOrder)[i], t))
      && (forall i :: 0 <= i < |lobbyGroups| ==>
            trace[nf + nd + i] == UpdateLobbyGroup(SortByKey(lobbyGroups, LobbyGroupOrder)[i], t))
    ensures IsStableSortOf(SortByKey(farmers, HarvestDate), farmers, HarvestDate)
    ensures IsStableSortOf(SortByKey(decisionMakers, DecisionMakerOrder), decisionMakers, DecisionMakerOrder)
    ensures IsStableSortOf(SortByKey(lobbyGroups, LobbyGroupOrder), lobbyGroups, LobbyGroupOrder)
  {
    UpdateTraceOffsets(farmers, decisionMakers, lobbyGroups, t);
    SortByKeyIsStable(farmers, HarvestDate);
    SortByKeyIsStable(decisionMakers, DecisionMakerOrder);
    SortByKeyIsStable(lobbyGroups, LobbyGroupOrder);
  }

  /**
   * In one tick, every farmer is updated before any decision maker and
   * every decision maker before any lobby group, all at time `t`.
   */
  lemma UpdatePassesInOrder(farmers: seq<Farmer>, decisionMakers: seq<DecisionMaker>,
                            lobbyGroups: seq<LobbyGroup>, t: int)
    ensures var trace := UpdateTrace(farmers, decisionMakers, lobbyGroups, t);
      && (forall i, j :: 0 <= i < j < |trace| ==> Pass(trace[i]) <= Pass(trace[j]))
      && (forall i :: 0 <= i < |trace| ==> trace[i].t == t)
  {
    UpdateTraceOffsets(farmers, decisionMakers, lobbyGroups, t);
    var trace := UpdateTrace(farmers, decisionMakers, lobbyGroups, t);
    var nf, nd := |farmers|, |decisionMakers|;
    forall i | 0 <= i < |trace|
      ensures Pass(trace[i]) == (if i < nf then 0 else if i < nf + nd then 1 else 2)
      ensures trace[i].t == t
    {
      if i < nf {
      } else if i < nf + nd {
        assert trace[nf + (i - nf)] == trace[i];
      } else {
        assert trace[nf + nd + (i - nf - nd)] == trace[i];
      }
    }
  }

  /** The farming component of a model, with its world and configuration. */
  class Component {
    const world: World
    const config: CoupledConfig

    constructor (world: World, config: CoupledConfig)
      ensures this.world == world && this.config == config
    {
      this.world := world;
      this.config := config;
    }

    /**
     * Creates one farmer per cell with nonzero cropland, with the farmer
     * constructor `newFarmer`, then forms the farmers' neighbourhoods in
     * harvest-date order.
     */
    method InitFarmers(newFarmer: Cell -> Farmer) returns (farmers: seq<Farmer>, trace: seq<InitEvent>)
      ensures farmers == Map(CroppedCells(world.cells), newFarmer)
      ensures trace == InitFarmersTrace(world.cells, newFarmer)
    {
      farmers := [];
      trace := [];
      var cells := world.cells;
      for i := 0 to |cells|
        invariant farmers == Map(CroppedCells(cells[..i]), newFarmer)
        invariant trace == Map(CroppedCells(cells[..i]), CreationEvent)
      {
        assert cells[..i + 1] == cells[..i] + [cells[i]];
        CroppedCellsSnoc(cells[..i], cells[i]);
        if cells[i].croplandFraction == 0.0 {
          continue;
        }
        MapAppend(CroppedCells(cells[..i]), cells[i], newFarmer);
        MapAppend(CroppedCells(cells[..i]), cells[i], CreationEvent);
        var farmer := newFarmer(cells[i]);
        farmers := farmers + [farmer];
        trace := trace + [CreateFarmer(cells[i])];
      }
      assert cells[..|cells|] == cells;
      var created := trace;
      var sorted := SortByKey(farmers, HarvestDate);
      for j := 0 to |sorted|
        invariant trace == created + Map(sorted[..j], NeighbourhoodEvent)
      {
        MapSnoc(sorted, j, NeighbourhoodEvent);
        trace := trace + [InitNeighbourhood(sorted[j])];
      }
      assert sorted[..|sorted|] == sorted;
    }

    /**
     * Creates the configured number of decision makers (3 by default) in
     * the component's world, numbering them from `firstId`.
     */
    method InitDecisionMakers(firstId: int) returns (decisionMakers: seq<DecisionMaker>)
      ensures |decisionMakers| == AgentCount(config.numDecisionMakers, DefaultDecisionMakers)
      ensures forall i :: 0 <= i < |decisionMakers| ==>
        && fresh(decisionMakers[i])
        && decisionMakers[i].world == world
        && decisionMakers[i].decisionMakerId == firstId + i
        && decisionMakers[i].allCells == world.cells
        && decisionMakers[i].beliefValue == 0.0
    {
      var count := AgentCount(config.numDecisionMakers, DefaultDecisionMakers);
      decisionMakers := [];
      for i := 0 to count
        invariant |decisionMakers| == i
        invariant forall k :: 0 <= k < i ==>
          && fresh(decisionMakers[k])
          && decisionMakers[k].world == world
          && decisionMakers[k].decisionMakerId == firstId + k
          && decisionMakers[k].allCells == world.cells
          && decisionMakers[k].beliefValue == 0.0
      {
        var dm := new DecisionMaker(world, firstId + i);
        decisionMakers := decisionMakers + [dm];
      }
    }

    /**
     * Creates the configured number of lobby groups (2 by default) in the
     * component's world, numbering them from `firstId`, and initialises the
     * world attributes of each right after creating it.
     */
    method InitLobbyGroups(firstId: int) returns (groups: seq<LobbyGroup>, trace: seq<InitEvent>)
      ensures |groups| == AgentCount(config.numLobbyGroups, DefaultLobbyGroups)
      ensures forall i :: 0 <= i < |groups| ==>
        && fresh(groups[i])
        && groups[i].world == world
        && groups[i].aftType == None
        && groups[i].lobbyGroupId == firstId + i
        && groups[i].allCells == Some(world.cells)
        && groups[i].farmers == []
        && groups[i].agreement == 1.0
        && groups[i].beliefValue == 0.0
      ensures |trace| == 2 * |groups|
      ensures forall i :: 0 <= i < |groups| ==>
        trace[2 * i] == CreateLobbyGroup(groups[i]) && trace[2 * i + 1] == InitWorldAttributes(groups[i])
    {
      var count := AgentCount(config.numLobbyGroups, DefaultLobbyGroups);
      groups := [];
      trace := [];
      for i := 0 to count
        invariant |groups| == i && |trace| == 2 * i
        invariant forall k :: 0 <= k < i ==>
          && fresh(groups[k])
          && groups[k].world == world
          && groups[k].aftType == None
          && groups[k].lobbyGroupId == firstId + k
          && groups[k].allCells == Some(world.cells)
          && groups[k].farmers == []
          && groups[k].agreement == 1.0
          && groups[k].beliefValue == 0.0
        invariant forall k :: 0 <= k < i ==>
          trace[2 * k] == CreateLobbyGroup(groups[k]) && trace[2 * k + 1] == InitWorldAttributes(groups[k])
      {
        var group := new LobbyGroup(world, None, firstId + i);
        trace := trace + [CreateLobbyGroup(group)];
        group.InitWorldAttributes();
        trace := trace + [InitWorldAttributes(group)];
        groups := groups + [group];
      }
    }

    /**
     * One tick. `decisionMakers` and `lobbyGroups` are the world's
     * registered decision makers and lobby groups. Farmers' updates are
     * recorded; the decision makers' and lobby groups' updates are made, and
     * recorded too.
     */
    method Update(t: int, decisionMakers: seq<DecisionMaker>, lobbyGroups: seq<LobbyGroup>)
      returns (trace: seq<UpdateEvent>)
      modifies lobbyGroups
      ensures trace == UpdateTrace(world.farmers, decisionMakers, lobbyGroups, t)
      ensures forall g | g in lobbyGroups :: g.Refreshed()
      ensures forall g | g in lobbyGroups && g.world == null :: g.farmers == old(g.farmers)
      ensures forall g | g in lobbyGroups :: g.allCells == old(g.allCells) && g.beliefValue == old(g.beliefValue)
    {
      trace := [];
      var farmersSorted := SortByKey(world.farmers, HarvestDate);
      for i := 0 to |farmersSorted|
        invariant trace == Map(farmersSorted[..i], FarmerStep(t))
        modifies {}
      {
        MapSnoc(farmersSorted, i, FarmerStep(t));
        trace := trace + [UpdateFarmer(farmersSorted[i], t)];
      }
      assert farmersSorted[..|farmersSorted|] == farmersSorted;
      var farmerPass := trace;

      var decisionMakersSorted := SortByKey(decisionMakers, DecisionMakerOrder);
      for i := 0 to |decisionMakersSorted|
        invariant trace == farmerPass + Map(decisionMakersSorted[..i], DecisionMakerStep(t))
        modifies {}
      {
        MapSnoc(decisionMakersSorted, i, DecisionMakerStep(t));
        decisionMakersSorted[i].Update(t);
        trace := trace + [UpdateDecisionMaker(decisionMakersSorted[i], t)];
      }
      assert decisionMakersSorted[..|decisionMakersSorted|] == decisionMakersSorted;

      var lobbyGroupPass := UpdateLobbyGroups(t, lobbyGroups);
      trace := trace + lobbyGroupPass;
    }

    /**
     * The lobby-group pass of a tick: updates the groups in order of their
     * ids.
     */
    method UpdateLobbyGroups(t: int, lobbyGroups: seq<LobbyGroup>) returns (pass: seq<UpdateEvent>)
      modifies lobbyGroups
      ensures pass == Map(SortByKey(lobbyGroups, LobbyGroupOrder), LobbyGroupStep(t))
      ensures forall g | g in lobbyGroups :: g.Refreshed()
      ensures forall g | g in lobbyGroups && g.world == null :: g.farmers == old(g.farmers)
      ensures forall g | g in lobbyGroups :: g.allCells == old(g.allCells) && g.beliefValue == old(g.beliefValue)
    {
      var sorted := SortByKey(lobbyGroups, LobbyGroupOrder);
      SortByKeyMultiset(lobbyGroups, LobbyGroupOrder);
      forall k | 0 <= k < |sorted|
        ensures sorted[k] in lobbyGroups
      {
        assert sorted[k] in multiset(sorted);
      }
      pass := UpdateEach(t, sorted);
      forall g | g in lobbyGroups
        ensures g in sorted
      {
        assert g in multiset(lobbyGroups);
      }
    }

    /** Updates `groups` one after another, in the order given. */
    method UpdateEach(t: int, groups: seq<LobbyGroup>) returns (pass: seq<UpdateEvent>)
      modifies groups
      ensures pass == Map(groups, LobbyGroupStep(t))
      ensures forall g | g in groups :: g.Refreshed()
      ensures forall g | g in groups && g.world == null :: g.farmers == old(g.farmers)
      ensures forall g | g in groups :: g.allCells == old(g.allCells) && g.beliefValue == old(g.beliefValue)
    {
      pass := [];
      for i := 0 to |groups|
        invariant pass == Map(groups[..i], LobbyGroupStep(t))
        invariant forall g | g in groups[..i] :: g.Refreshed()
        invariant forall g | g in groups && g.world == null :: g.farmers == old(g.farmers)
        invariant forall g | g in groups :: g.allCells == old(g.allCells) && g.beliefValue == old(g.beliefValue)
      {
        MapSnoc(groups, i, LobbyGroupStep(t));
        var group := groups[i];
        assert groups[..i + 1] == groups[..i] + [group];
        group.Update(t);
        pass := pass + [UpdateLobbyGroup(group, t)];
      }
      assert groups[..|groups|] == groups;
    }
  }
}

