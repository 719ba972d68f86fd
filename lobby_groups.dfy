/**
 * World-level lobby groups: each gathers the farmers of one AFT and keeps
 * an agreement statistic. Only members with a tillage value take part: the
 * agreement is the count of the more common value, 0 or 1, over the number
 * of those members, and 1 when there are none. A value outside {0, 1}
 * counts toward neither majority.
 */
module LobbyGroups {
  import opened Agents
  import opened Sequences

  /** The membership rule: the farmer's AFT equals the group's AFT type. */
  predicate MatchesAft(aftType: Option<Aft>, f: Farmer)
  {
    aftType == Some(f.aft)
  }

  function AftFilter(aftType: Option<Aft>): Farmer -> bool
  {
    f => MatchesAft(aftType, f)
  }

  /** The farmers of `farmers` whose AFT is `aftType`, in their order. */
  function MembersOf(farmers: seq<Farmer>, aftType: Option<Aft>): (r: seq<Farmer>)
    ensures |r| <= |farmers|
    ensures forall i :: 0 <= i < |r| ==> MatchesAft(aftType, r[i])
  {
    Filter(farmers, AftFilter(aftType))
  }

  /**
   * A farmer belongs to the rebuilt membership exactly when it is in the
   * world and has the group's AFT, and it occurs there as often as in the
   * world.
   */
  lemma MembersOfExactly(farmers: seq<Farmer>, aftType: Option<Aft>, f: Farmer)
    ensures f in MembersOf(farmers, aftType) <==> f in farmers && MatchesAft(aftType, f)
    ensures multiset(MembersOf(farmers, aftType))[f]
         == if MatchesAft(aftType, f) then multiset(farmers)[f] else 0
  {
    FilterMembership(farmers, AftFilter(aftType), f);
    FilterMultiplicity(farmers, AftFilter(aftType), f);
  }

  /** Rebuilding the membership from an already rebuilt membership changes nothing. */
  lemma MembersOfIdempotent(farmers: seq<Farmer>, aftType: Option<Aft>)
    ensures MembersOf(MembersOf(farmers, aftType), aftType) == MembersOf(farmers, aftType)
  {
    FilterIdempotent(farmers, AftFilter(aftType));
  }

  /** A group without an AFT type matches no farmer, so its membership stays empty. */
  lemma UnboundGroupHasNoMembers(farmers: seq<Farmer>)
    ensures MembersOf(farmers, None) == []
  {
    FilterNone(farmers, AftFilter(None));
  }

  /**
   * The two AFT-bound groups split the world's farmers: every farmer is in
   * exactly one of them.
   */
  lemma {:induction false} AftGroupsPartition(farmers: seq<Farmer>)
    ensures multiset(MembersOf(farmers, Some(Traditionalist)))
          + multiset(MembersOf(farmers, Some(Pioneer))) == multiset(farmers)
  {
    if farmers != [] {
      var f, rest := farmers[0], farmers[1..];
      AftGroupsPartition(rest);
      assert farmers == [f] + rest;
      MembersOfCons(f, rest, Some(Traditionalist));
      MembersOfCons(f, rest, Some(Pioneer));
      var t, p := MembersOf(rest, Some(Traditionalist)), MembersOf(rest, Some(Pioneer));
      if f.aft == Traditionalist {
        assert multiset(MembersOf(farmers, Some(Traditionalist))) == multiset{f} + multiset(t) by {
          assert MembersOf(farmers, Some(Traditionalist)) == [f] + t;
        }
        assert MembersOf(farmers, Some(Pioneer)) == p;
      } else {
        assert multiset(MembersOf(farmers, Some(Pioneer))) == multiset{f} + multiset(p) by {
          assert MembersOf(farmers, Some(Pioneer)) == [f] + p;
        }
        assert MembersOf(farmers, Some(Traditionalist)) == t;
      }
      assert multiset(farmers) == multiset{f} + multiset(rest);
    }
  }

  lemma MembersOfCons(f: Farmer, rest: seq<Farmer>, aftType: Option<Aft>)
    ensures MembersOf([f] + rest, aftType)
         == (if MatchesAft(aftType, f) then [f] else []) + MembersOf(rest, aftType)
  {
    assert ([f] + rest)[0] == f && ([f] + rest)[1..] == rest;
  }

  /** The tillage values of the farmers that have one, in member order. */
  function Practices(farmers: seq<Farmer>): (ps: seq<int>)
    ensures |ps| <= |farmers|
  {
    if farmers == [] then []
    else
      (match farmers[0].tillage
       case Some(p) => [p]
       case None => []) + Practices(farmers[1..])
  }

  /** How many entries of `ps` equal `v` (Python's `list.count`). */
  function Count(ps: seq<int>, v: int): (n: nat)
    ensures n <= |ps|
  {
    if ps == [] then 0 else (if ps[0] == v then 1 else 0) + Count(ps[1..], v)
  }

  lemma ScaleCancel(a: real, b: real, c: real)
    requires c > 0.0 && a * c <= b * c
    ensures a <= b
  {
    assert (b - a) * c == b * c - a * c;
  }

  /** Bounds on a quotient `q` of `mr` by `nr`, stated without division. */
  lemma QuotientFacts(mr: real, nr: real, q: real)
    requires nr > 0.0 && 0.0 <= mr <= nr && q * nr == mr
    ensures 0.0 <= q <= 1.0
    ensures q == 1.0 <==> mr == nr
    ensures 2.0 * mr >= nr ==> q >= 0.5
  {
    ScaleCancel(q, 1.0, nr);
    ScaleCancel(0.0, q, nr);
    if mr == nr {
      assert 1.0 * nr == nr;
      assert q * nr == nr;
      assert 1.0 * nr <= q * nr;
      ScaleCancel(1.0, q, nr);
    }
    if 2.0 * mr >= nr {
      ScaleCancel(0.5, q, nr);
    }
  }

  /** Bounds on the fraction `m / n` of two counts. */
  lemma FractionBounds(m: nat, n: nat)
    requires 0 < n && m <= n
    ensures 0.0 <= m as real / n as real <= 1.0
    ensures m as real / n as real == 1.0 <==> m == n
    ensures 2 * m >= n ==> m as real / n as real >= 0.5
  {
    var mr, nr := m as real, n as real;
    var q := mr / nr;
    assert q * nr == mr;
    QuotientFacts(mr, nr, q);
  }

  /**
   * The agreement of a group with these members: 1 when there are no
   * members or none has a tillage value, otherwise the larger of the
   * counts of practice 0 and practice 1 over the number of tillage values.
   */
  function Agreement(farmers: seq<Farmer>): (a: real)
    ensures 0.0 <= a <= 1.0
  {
    if farmers == [] then 1.0
    else
      var practices := Practices(farmers);
      if practices == [] then 1.0
      else
        var count0, count1 := Count(practices, 0), Count(practices, 1);
        var majority := if count0 >= count1 then count0 else count1;
        FractionBounds(majority, |practices|);
        majority as real / |practices| as real
  }

  /** Every tillage value among `farmers` is 0 or 1. */
  predicate BinaryTillage(farmers: seq<Farmer>)
  {
    forall i :: 0 <= i < |farmers| && farmers[i].tillage.Some? ==>
      farmers[i].tillage.value == 0 || farmers[i].tillage.value == 1
  }

  /** All farmers that have a tillage value have the same one. */
  predicate Unanimous(farmers: seq<Farmer>)
  {
    forall i, j ::
      (0 <= i < |farmers| && 0 <= j < |farmers| &&
       farmers[i].tillage.Some? && farmers[j].tillage.Some?) ==>
        farmers[i].tillage == farmers[j].tillage
  }

  /** The practices are exactly the tillage values present among the farmers. */
  lemma {:induction false} PracticesMembership(farmers: seq<Farmer>, p: int)
    ensures p in Practices(farmers) <==>
      exists i :: 0 <= i < |farmers| && farmers[i].tillage == Some(p)
  {
    if farmers != [] {
      var rest := farmers[1..];
      PracticesMembership(rest, p);
      var head := match farmers[0].tillage case Some(q) => [q] case None => [];
      assert Practices(farmers) == head + Practices(rest);
      assert p in head <==> farmers[0].tillage == Some(p);
      if exists i :: 0 <= i < |farmers| && farmers[i].tillage == Some(p) {
        var i :| 0 <= i < |farmers| && farmers[i].tillage == Some(p);
        if i > 0 {
          assert rest[i - 1].tillage == Some(p);
        }
      }
      if exists i :: 0 <= i < |rest| && rest[i].tillage == Some(p) {
        var i :| 0 <= i < |rest| && rest[i].tillage == Some(p);
        assert farmers[i + 1].tillage == Some(p);
      }
    }
  }

  /** There are no practices exactly when no farmer has a tillage value. */
  lemma {:induction false} NoPracticesIff(farmers: seq<Farmer>)
    ensures Practices(farmers) == [] <==> forall i :: 0 <= i < |farmers| ==> farmers[i].tillage.None?
  {
    if farmers != [] {
      NoPracticesIff(farmers[1..]);
      if farmers[0].tillage.None? {
        assert forall i :: 1 <= i < |farmers| ==> farmers[i] == farmers[1..][i - 1];
      }
    }
  }

  lemma {:induction false} CountOfBinary(ps: seq<int>)
    requires forall i :: 0 <= i < |ps| ==> ps[i] == 0 || ps[i] == 1
    ensures Count(ps, 0) + Count(ps, 1) == |ps|
  {
    if ps != [] {
      CountOfBinary(ps[1..]);
    }
  }

  lemma {:induction false} CountIsLength(ps: seq<int>, v: int)
    ensures Count(ps, v) == |ps| <==> forall i :: 0 <= i < |ps| ==> ps[i] == v
  {
    if ps != [] {
      CountIsLength(ps[1..], v);
      assert forall i :: 1 <= i < |ps| ==> ps[i] == ps[1..][i - 1];
    }
  }

  lemma PracticesBinary(farmers: seq<Farmer>)
    requires BinaryTillage(farmers)
    ensures forall i :: 0 <= i < |Practices(farmers)| ==>
      Practices(farmers)[i] == 0 || Practices(farmers)[i] == 1
  {
    forall i | 0 <= i < |Practices(farmers)|
      ensures Practices(farmers)[i] == 0 || Practices(farmers)[i] == 1
    {
      PracticesMembership(farmers, Practices(farmers)[i]);
    }
  }

  /** With no members, or only members without a tillage value, agreement is 1. */
  lemma AgreementDefault(farmers: seq<Farmer>)
    requires forall i :: 0 <= i < |farmers| ==> farmers[i].tillage.None?
    ensures Agreement(farmers) == 1.0
  {
    NoPracticesIff(farmers);
  }

  /** Tillage values 0, 0 and 1 give an agreement of 2/3. */
  lemma AgreementTwoOfThree(a: Farmer, b: Farmer, c: Farmer)
    requires a.tillage == Some(0) && b.tillage == Some(0) && c.tillage == Some(1)
    ensures Agreement([a, b, c]) == 2.0 / 3.0
  {
    var fs := [a, b, c];
    assert fs[1..] == [b, c] && [b, c][1..] == [c] && [c][1..] == [];
    assert Practices([c]) == [1] + Practices([]);
    assert Practices([b, c]) == [0] + Practices([c]);
    assert Practices(fs) == [0] + Practices([b, c]);
    assert Practices(fs) == [0, 0, 1];
    var ps := [0, 0, 1];
    assert ps[1..] == [0, 1] && [0, 1][1..] == [1] && [1][1..] == [];
    assert Count(ps, 0) == 2 && Count(ps, 1) == 1;
    FractionBounds(2, 3);
  }

  /**
   * A tillage value other than 0 and 1 is counted among the practices but
   * in neither majority count, so a single such member gives agreement 0.
   */
  lemma AgreementOutsideBinary(a: Farmer, v: int)
    requires a.tillage == Some(v) && v != 0 && v != 1
    ensures Agreement([a]) == 0.0
  {
    assert [a][1..] == [];
    assert Practices([a]) == [v] + Practices([]);
    assert [v][1..] == [];
    assert Count([v], 0) == 0 && Count([v], 1) == 0;
  }

  /** When every tillage value is 0 or 1, the majority is at least half. */
  lemma AgreementAtLeastHalf(farmers: seq<Farmer>)
    requires BinaryTillage(farmers)
    ensures 0.5 <= Agreement(farmers) <= 1.0
  {
    var ps := Practices(farmers);
    if farmers != [] && ps != [] {
      PracticesBinary(farmers);
      CountOfBinary(ps);
      var count0, count1 := Count(ps, 0), Count(ps, 1);
      var majority := if count0 >= count1 then count0 else count1;
      assert 2 * majority >= |ps|;
      FractionBounds(majority, |ps|);
      assert Agreement(farmers) == majority as real / |ps| as real;
    }
  }

  /** If the members with a value agree, all practices equal the first one. */
  lemma UnanimousPractices(farmers: seq<Farmer>)
    requires Unanimous(farmers) && Practices(farmers) != []
    ensures Count(Practices(farmers), Practices(farmers)[0]) == |Practices(farmers)|
  {
    var ps := Practices(farmers);
    PracticesMembership(farmers, ps[0]);
    forall k | 0 <= k < |ps|
      ensures ps[k] == ps[0]
    {
      PracticesMembership(farmers, ps[k]);
    }
    CountIsLength(ps, ps[0]);
  }

  /** If every practice is `v`, the members with a value agree. */
  lemma UniformPracticesUnanimous(farmers: seq<Farmer>, v: int)
    requires Count(Practices(farmers), v) == |Practices(farmers)|
    ensures Unanimous(farmers)
  {
    var ps := Practices(farmers);
    CountIsLength(ps, v);
    forall i, j | 0 <= i < |farmers| && 0 <= j < |farmers| &&
                  farmers[i].tillage.Some? && farmers[j].tillage.Some?
      ensures farmers[i].tillage == farmers[j].tillage
    {
      PracticesMembership(farmers, farmers[i].tillage.value);
      PracticesMembership(farmers, farmers[j].tillage.value);
    }
  }

  /** With binary tillage, agreement is 1 exactly when the members that have a value agree. */
  lemma AgreementFullIffUnanimous(farmers: seq<Farmer>)
    requires BinaryTillage(farmers)
    ensures Agreement(farmers) == 1.0 <==> Unanimous(farmers)
  {
    var ps := Practices(farmers);
    if ps == [] {
      NoPracticesIff(farmers);
    } else {
      var n := |ps|;
      var count0, count1 := Count(ps, 0), Count(ps, 1);
      var majority := if count0 >= count1 then count0 else count1;
      assert Agreement(farmers) == majority as real / n as real;
      FractionBounds(majority, n);
      if Unanimous(farmers) {
        PracticesBinary(farmers);
        UnanimousPractices(farmers);
        assert count0 == n || count1 == n;
      }
      if majority == n {
        UniformPracticesUnanimous(farmers, if count0 == n then 0 else 1);
      }
    }
  }

  /**
   * A lobby group. `world` is the context it was created in (null when it
   * was created without one); `aftType` is None for a group created without
   * an AFT type.
   */
  class LobbyGroup {
    const lobbyGroupId: int
    const aftType: Option<Aft>
    const world: World?
    var allCells: Option<seq<Cell>>
    var beliefValue: real
    var farmers: seq<Farmer>
    var agreement: real

    /** Every member has the group's AFT. */
    ghost predicate Valid()
      reads this
    {
      forall i :: 0 <= i < |farmers| ==> MatchesAft(aftType, farmers[i])
    }

    constructor (world: World?, aftType: Option<Aft>, id: int)
      ensures this.world == world && this.aftType == aftType && lobbyGroupId == id
      ensures allCells == (if world != null then Some(world.cells) else None)
      ensures beliefValue == 0.0 && farmers == [] && agreement == 1.0
      ensures Valid()
    {
      this.world := world;
      this.aftType := aftType;
      lobbyGroupId := id;
      allCells := if world != null then Some(world.cells) else None;
      beliefValue := 0.0;
      farmers := [];
      agreement := 1.0;
    }

    /** Takes the world's cells once a world is available. */
    method InitWorldAttributes()
      modifies this`allCells
      ensures allCells == if world != null then Some(world.cells) else old(allCells)
    {
      if world != null {
        allCells := Some(world.cells);
      }
    }

    method AddFarmer(farmer: Farmer) returns (added: bool)
      modifies this`farmers
      ensures added <==> MatchesAft(aftType, farmer)
      ensures farmers == if added then old(farmers) + [farmer] else old(farmers)
      ensures old(Valid()) ==> Valid()
    {
      if aftType == Some(farmer.aft) {
        farmers := farmers + [farmer];
        return true;
      }
      return false;
    }

    /** Removes the first occurrence of `farmer`, whatever its AFT. */
    method RemoveFarmer(farmer: Farmer) returns (removed: bool)
      modifies this`farmers
      ensures removed <==> farmer in old(farmers)
      ensures removed ==> |farmers| == |old(farmers)| - 1
      ensures removed ==>
        exists i :: (0 <= i < |old(farmers)| && old(farmers)[i] == farmer &&
                     farmer !in old(farmers)[..i] &&
                     farmers == old(farmers)[..i] + old(farmers)[i + 1..])
      ensures !removed ==> farmers == old(farmers)
      ensures old(Valid()) ==> Valid()
    {
      if farmer in farmers {
        ghost var before := farmers;
        ghost var wasValid := Valid();
        RemoveFirstSplits(before, farmer);
        RemoveFirstMultiset(before, farmer);
        farmers := RemoveFirst(farmers, farmer);
        if wasValid {
          forall k | 0 <= k < |farmers|
            ensures MatchesAft(aftType, farmers[k])
          {
            assert farmers[k] in multiset(before);
            var j :| 0 <= j < |before| && before[j] == farmers[k];
          }
        }
        return true;
      }
      return false;
    }

    /**
     * The state one tick leaves: with a world, the members are the world's
     * farmers of the group's AFT; the agreement is that of the members.
     */
    ghost predicate Refreshed()
      reads this, world
    {
      && (world != null ==> farmers == MembersOf(world.farmers, aftType))
      && agreement == Agreement(farmers)
    }

    function FarmerCount(): (n: nat)
      reads this
      ensures n == |farmers|
    {
      |farmers|
    }

    /** Rebuilds the membership from the world's current farmers. */
    method UpdateFarmers()
      modifies this`farmers
      ensures world == null ==> farmers == old(farmers)
      ensures world != null ==> farmers == MembersOf(world.farmers, aftType) && Valid()
    {
      if world == null {
        return;
      }
      farmers := [];
      var all := world.farmers;
      for i := 0 to |all|
        invariant farmers == MembersOf(all[..i], aftType)
      {
        FilterConcat(all[..i], [all[i]], AftFilter(aftType));
        assert all[..i + 1] == all[..i] + [all[i]];
        if aftType == Some(all[i].aft) {
          farmers := farmers + [all[i]];
        }
      }
      assert all[..|all|] == all;
    }

    /** One tick: rebuild the membership, then recompute the agreement. */
    method Update(t: int)
      modifies this`farmers, this`agreement
      ensures world == null ==> farmers == old(farmers)
      ensures world != null ==> farmers == MembersOf(world.farmers, aftType) && Valid()
      ensures agreement == Agreement(farmers)
      ensures Refreshed()
    {
      UpdateFarmers();
      if farmers == [] {
        agreement := 1.0;
      } else {
        var practices := Practices(farmers);
        if practices == [] {
          agreement := 1.0;
        } else {
          var count0 := Count(practices, 0);
          var count1 := Count(practices, 1);
          var majority := if count0 >= count1 then count0 else count1;
          agreement := majority as real / |practices| as real;
        }
      }
    }
  }

  /** Updating the membership twice leaves the same members as updating it once. */
  method UpdateFarmersTwice(g: LobbyGroup)
    modifies g`farmers
    ensures g.world != null ==> g.farmers == MembersOf(g.world.farmers, g.aftType)
    ensures g.world == null ==> g.farmers == old(g.farmers)
  {
    g.UpdateFarmers();
    ghost var once := g.farmers;
    g.UpdateFarmers();
    assert g.farmers == once;
  }
}
