/**
 * World-level decision makers and the two world averages they read: the
 * mean crop yield and the mean topsoil carbon over the cells where that
 * output is strictly positive, with a small positive default otherwise.
 */
module DecisionMakers {
  import opened Agents
  import opened Sequences

  /** The value returned when no cell qualifies. */
  const Epsilon: real := 0.001

  function Sum(xs: seq<real>): real
  {
    if xs == [] then 0.0 else xs[0] + Sum(xs[1..])
  }

  predicate IsPositive(x: real)
  {
    x > 0.0
  }

  /**
   * The arithmetic mean of the strictly positive entries of `values`, or
   * Epsilon when there is none. Either way the result is strictly positive.
   */
  function PositiveAverage(values: seq<real>): (r: real)
    ensures r > 0.0
  {
    var qualifying := Filter(values, IsPositive);
    if qualifying == [] then Epsilon
    else
      MeanBetweenExtremes(qualifying);
      assert IsPositive(Least(qualifying));
      Sum(qualifying) / |qualifying| as real
  }

  /** The smallest entry of a non-empty sequence. */
  function Least(xs: seq<real>): (m: real)
    requires xs != []
    ensures m in xs && forall i :: 0 <= i < |xs| ==> m <= xs[i]
  {
    if |xs| == 1 then xs[0]
    else
      var rest := Least(xs[1..]);
      assert forall i :: 1 <= i < |xs| ==> xs[i] == xs[1..][i - 1];
      if xs[0] <= rest then xs[0] else rest
  }

  /** The largest entry of a non-empty sequence. */
  function Greatest(xs: seq<real>): (m: real)
    requires xs != []
    ensures m in xs && forall i :: 0 <= i < |xs| ==> xs[i] <= m
  {
    if |xs| == 1 then xs[0]
    else
      var rest := Greatest(xs[1..]);
      assert forall i :: 1 <= i < |xs| ==> xs[i] == xs[1..][i - 1];
      if xs[0] >= rest then xs[0] else rest
  }

  lemma {:induction false} SumBounds(xs: seq<real>, lo: real, hi: real)
    requires forall i :: 0 <= i < |xs| ==> lo <= xs[i] <= hi
    ensures |xs| as real * lo <= Sum(xs) <= |xs| as real * hi
  {
    if xs != [] {
      SumBounds(xs[1..], lo, hi);
      assert |xs| as real * lo == (|xs| - 1) as real * lo + lo;
      assert |xs| as real * hi == (|xs| - 1) as real * hi + hi;
    }
  }

  lemma QuotientBounds(total: real, n: real, lo: real, hi: real)
    requires n > 0.0 && n * lo <= total <= n * hi
    ensures lo <= total / n <= hi
  {
    var q := total / n;
    assert q * n == total;
  }

  /** A mean lies within any bounds on the entries. */
  lemma MeanWithin(xs: seq<real>, lo: real, hi: real)
    requires xs != []
    requires forall i :: 0 <= i < |xs| ==> lo <= xs[i] <= hi
    ensures lo <= Sum(xs) / |xs| as real <= hi
  {
    var total := Sum(xs);
    SumBounds(xs, lo, hi);
    QuotientBounds(total, |xs| as real, lo, hi);
  }

  /** A mean lies between the smallest and the largest entry. */
  lemma MeanBetweenExtremes(xs: seq<real>)
    requires xs != []
    ensures Least(xs) <= Sum(xs) / |xs| as real <= Greatest(xs)
  {
    MeanWithin(xs, Least(xs), Greatest(xs));
  }

  /**
   * When some entry is positive, the average lies between the smallest and
   * the largest positive entry; in particular it is positive.
   */
  lemma PositiveAverageBetween(values: seq<real>)
    requires exists i :: 0 <= i < |values| && values[i] > 0.0
    ensures var q := Filter(values, IsPositive);
      q != [] && Least(q) <= PositiveAverage(values) <= Greatest(q)
  {
    var i :| 0 <= i < |values| && values[i] > 0.0;
    FilterMembership(values, IsPositive, values[i]);
    MeanBetweenExtremes(Filter(values, IsPositive));
  }

  /** Without a positive entry, including for no entries, the average is Epsilon. */
  lemma PositiveAverageDefault(values: seq<real>)
    requires forall i :: 0 <= i < |values| ==> values[i] <= 0.0
    ensures PositiveAverage(values) == Epsilon
  {
    FilterNone(values, IsPositive);
  }

  /**
   * A non-positive entry is excluded, not counted as zero: inserting one
   * anywhere leaves the average unchanged.
   */
  lemma NonPositiveExcluded(before: seq<real>, x: real, after: seq<real>)
    requires x <= 0.0
    ensures PositiveAverage(before + [x] + after) == PositiveAverage(before + after)
  {
    FilterConcat(before + [x], after, IsPositive);
    FilterConcat(before, [x], IsPositive);
    FilterConcat(before, after, IsPositive);
    assert Filter([x], IsPositive) == [] by {
      assert [x][1..] == [];
    }
    assert Filter(before + [x], IsPositive) == Filter(before, IsPositive);
  }

  function CellHarvest(c: Cell): real { c.meanHarvest }

  function CellTopsoilCarbon(c: Cell): real { c.topsoilCarbon }

  /** Read from cells, the average is Epsilon when no cell has a positive value. */
  lemma CellAverageDefault(cells: seq<Cell>, output: Cell -> real)
    requires forall i :: 0 <= i < |cells| ==> output(cells[i]) <= 0.0
    ensures PositiveAverage(Map(cells, output)) == Epsilon
  {
    PositiveAverageDefault(Map(cells, output));
  }

  /** When some value is positive, two positive values bound the average. */
  lemma PositiveAverageWitnesses(values: seq<real>) returns (i: nat, j: nat)
    requires exists k :: 0 <= k < |values| && values[k] > 0.0
    ensures i < |values| && 0.0 < values[i] <= PositiveAverage(values)
    ensures j < |values| && 0.0 < PositiveAverage(values) <= values[j]
  {
    PositiveAverageBetween(values);
    var q := Filter(values, IsPositive);
    var lo, hi := Least(q), Greatest(q);
    FilterMembership(values, IsPositive, lo);
    FilterMembership(values, IsPositive, hi);
    i :| 0 <= i < |values| && values[i] == lo;
    j :| 0 <= j < |values| && values[j] == hi;
  }

  /**
   * Read from cells, the average lies between the values of two cells whose
   * value is positive.
   */
  lemma CellAverageBetween(cells: seq<Cell>, output: Cell -> real)
    requires exists i :: 0 <= i < |cells| && output(cells[i]) > 0.0
    ensures exists i :: 0 <= i < |cells| && 0.0 < output(cells[i]) <= PositiveAverage(Map(cells, output))
    ensures exists j :: 0 <= j < |cells| && 0.0 < PositiveAverage(Map(cells, output)) <= output(cells[j])
  {
    var values := Map(cells, output);
    var k :| 0 <= k < |cells| && output(cells[k]) > 0.0;
    assert values[k] > 0.0;
    var i, j := PositiveAverageWitnesses(values);
    var average := PositiveAverage(values);
    assert values[i] == output(cells[i]) && values[j] == output(cells[j]);
    assert 0 <= i < |cells| && 0.0 < output(cells[i]) <= average;
    assert 0 <= j < |cells| && 0.0 < average <= output(cells[j]);
  }

  class DecisionMaker {
    const decisionMakerId: int
    const world: World
    var allCells: seq<Cell>
    var beliefValue: real

    constructor (world: World, id: int)
      ensures this.world == world && decisionMakerId == id
      ensures allCells == world.cells && beliefValue == 0.0
    {
      this.world := world;
      decisionMakerId := id;
      allCells := world.cells;
      beliefValue := 0.0;
    }

    /** The world's individuals that are decision makers. */
    function DecisionMakers(): (r: set<DecisionMaker>)
      reads world
      ensures forall dm | dm in r :: dm in world.individuals
      ensures forall x: object | x in world.individuals && x is DecisionMaker :: x in r
    {
      set x: object | x in world.individuals && x is DecisionMaker :: x as DecisionMaker
    }

    /** The mean harvest over the cells whose mean harvest is positive. */
    function WorldAverageCropYield(): (r: real)
      reads world
      ensures r > 0.0
      ensures (forall i :: 0 <= i < |world.cells| ==> world.cells[i].meanHarvest <= 0.0) ==> r == Epsilon
      ensures (exists i :: 0 <= i < |world.cells| && world.cells[i].meanHarvest > 0.0) ==>
        (exists i :: 0 <= i < |world.cells| && 0.0 < world.cells[i].meanHarvest <= r) &&
        (exists j :: 0 <= j < |world.cells| && 0.0 < r <= world.cells[j].meanHarvest)
    {
      var values := Map(world.cells, CellHarvest);
      if forall i :: 0 <= i < |world.cells| ==> CellHarvest(world.cells[i]) <= 0.0 then
        CellAverageDefault(world.cells, CellHarvest);
        PositiveAverage(values)
      else
        CellAverageBetween(world.cells, CellHarvest);
        PositiveAverage(values)
    }

    /** The mean first-layer soil carbon over the cells where it is positive. */
    function WorldAverageSoilC(): (r: real)
      reads world
      ensures r > 0.0
      ensures (forall i :: 0 <= i < |world.cells| ==> world.cells[i].topsoilCarbon <= 0.0) ==> r == Epsilon
      ensures (exists i :: 0 <= i < |world.cells| && world.cells[i].topsoilCarbon > 0.0) ==>
        (exists i :: 0 <= i < |world.cells| && 0.0 < world.cells[i].topsoilCarbon <= r) &&
        (exists j :: 0 <= j < |world.cells| && 0.0 < r <= world.cells[j].topsoilCarbon)
    {
      var values := Map(world.cells, CellTopsoilCarbon);
      if forall i :: 0 <= i < |world.cells| ==> CellTopsoilCarbon(world.cells[i]) <= 0.0 then
        CellAverageDefault(world.cells, CellTopsoilCarbon);
        PositiveAverage(values)
      else
        CellAverageBetween(world.cells, CellTopsoilCarbon);
        PositiveAverage(values)
    }

    /** The per-tick step, which changes nothing yet. */
    method Update(t: int)
      ensures allCells == old(allCells) && beliefValue == old(beliefValue)
    {
    }
  }
}
