/** The search of `KakuroBoard` (KakuroSolver.py): copying the network,
    propagating, and branching on the blank with the fewest candidates. A
    solution is the list of digits of the blanks, indexed by id. */
module Solver {
  import opened Configurations
  import opened Domains
  import opened Tiles
  import opened Network
  import opened Propagation

  /** `sorted([(len(d), id) ... if len(d) > 1])[0][1]` over candidate lists
      indexed by id: the blank with the fewest candidates among those with
      more than one, the lowest id on a tie; `None` where that list is
      empty. */
  function BranchTile(doms: seq<seq<int>>): (r: Option<nat>)
    ensures r.Some? ==> r.value < |doms| && |doms[r.value]| > 1
    ensures r.Some? ==> forall i :: 0 <= i < |doms| && |doms[i]| > 1 ==>
              |doms[r.value]| < |doms[i]| || (|doms[r.value]| == |doms[i]| && r.value <= i)
    ensures r.None? <==> forall i :: 0 <= i < |doms| ==> |doms[i]| <= 1
  {
    if doms == [] then None
    else
      var last := |doms| - 1;
      var r := BranchTile(doms[..last]);
      if |doms[last]| <= 1 then r
      else if r.None? || |doms[last]| < |doms[r.value]| then Some(last)
      else r
  }

  /** With one candidate per blank, the only supported assignment is the
      blanks' digits. */
  lemma SingletonSupportIsDigits(a: seq<int>, tiles: seq<Blank>, sums: seq<Sum>)
    requires forall i :: 0 <= i < |tiles| ==> |tiles[i].possibleValues| == 1
    requires Supported(a, tiles, sums)
    ensures a == Digits(tiles)
  {
    forall i | 0 <= i < |a| ensures a[i] == Digits(tiles)[i] {
      var x := a[i];
      assert x in DomainsOf(tiles)[i];
    }
  }

  /** Binding a blank to the digit an assignment gives it keeps that
      assignment supported. */
  lemma BindKeepsSupport(a: seq<int>, doms: seq<seq<int>>, runs: seq<seq<nat>>, cfgs: seq<seq<seq<int>>>,
                         b: nat, v: int)
    requires b < |doms| && SupportedBy(a, doms, runs, cfgs) && a[b] == v
    ensures SupportedBy(a, doms[b := [v]], runs, cfgs)
  {
  }

  /** Binding a blank with several candidates to one of them lowers the
      weight of the candidate lists. */
  lemma BindWeighsLess(doms: seq<seq<int>>, b: nat, v: int)
    requires b < |doms| && |doms[b]| > 1
    ensures Weight(doms[b := [v]]) < Weight(doms)
  {
    WeightUpdate(doms, b, [v]);
  }

  /** `cTiles`, numbered by position, and `cSums`, with the same runs over
      them, copy the blanks of `tiles` and the first sums of `sums`. */
  ghost predicate CopiesRuns(tiles: seq<Blank>, sums: seq<Sum>, cTiles: seq<Blank>, cSums: seq<Sum>)
  {
    && |cTiles| == |tiles| && (forall i :: 0 <= i < |cTiles| ==> cTiles[i].id == i)
    && |cSums| <= |sums|
    && (forall j :: 0 <= j < |cSums| ==> |cSums[j].tileList| == |sums[j].tileList|)
    && (forall j, k :: 0 <= j < |cSums| && 0 <= k < |sums[j].tileList| ==>
          sums[j].tileList[k].id < |cTiles| && cSums[j].tileList[k] == cTiles[sums[j].tileList[k].id])
  }

  /** A copied run has no member twice. */
  lemma CopiedRunDistinct(tiles: seq<Blank>, sums: seq<Sum>, cTiles: seq<Blank>, cSums: seq<Sum>, j: nat)
    requires Shaped(tiles, sums) && CopiesRuns(tiles, sums, cTiles, cSums) && j < |cSums|
    ensures NoDuplicates(cSums[j].tileList)
  {
    var c := cSums[j];
    forall k, l | 0 <= k < l < |c.tileList| ensures c.tileList[k] != c.tileList[l] {
      var u, w := sums[j].tileList[k], sums[j].tileList[l];
      assert sums[j] in sums && u in sums[j].tileList && w in sums[j].tileList;
      assert u != w;
      assert cTiles[u.id].id == u.id && cTiles[w.id].id == w.id;
    }
  }

  /** A member of a copied run is the copy of the blank it stands for. */
  lemma CopiedMember(tiles: seq<Blank>, sums: seq<Sum>, cTiles: seq<Blank>, cSums: seq<Sum>, j: nat, k: nat)
    requires Shaped(tiles, sums) && CopiesRuns(tiles, sums, cTiles, cSums)
    requires j < |cSums| && k < |sums[j].tileList|
    ensures cSums[j].tileList[k].id < |cTiles| && cTiles[cSums[j].tileList[k].id] == cSums[j].tileList[k]
    ensures tiles[cSums[j].tileList[k].id] == sums[j].tileList[k]
  {
    var u := sums[j].tileList[k];
    assert sums[j] in sums && u in sums[j].tileList;
    assert cTiles[u.id].id == u.id;
  }

  /** Copies of blanks, numbered by position, and of sums over them keep
      the links of the network they copy. */
  lemma CopyLinked(tiles: seq<Blank>, sums: seq<Sum>, cTiles: seq<Blank>, cSums: seq<Sum>)
    requires Shaped(tiles, sums) && CopiesRuns(tiles, sums, cTiles, cSums) && NoDuplicates(cSums)
    requires |cSums| == |sums|
    requires forall i, j :: 0 <= i < |tiles| && 0 <= j < |sums| ==>
               (cSums[j] in cTiles[i].sums <==> tiles[i] in sums[j].tileList)
    requires forall i, c :: 0 <= i < |cTiles| && c in cTiles[i].sums ==> c in cSums
    ensures Linked(cTiles, cSums)
  {
    forall c | c in cSums ensures NoDuplicates(c.tileList) {
      CopiedRunDistinct(tiles, sums, cTiles, cSums, IndexOf(cSums, c));
    }
    forall c, t | c in cSums && t in c.tileList ensures t.id < |cTiles| && cTiles[t.id] == t {
      CopiedMember(tiles, sums, cTiles, cSums, IndexOf(cSums, c), IndexOf(c.tileList, t));
    }
    forall i, c | 0 <= i < |cTiles| && c in cSums && cTiles[i] in c.tileList ensures c in cTiles[i].sums {
      var j, k := IndexOf(cSums, c), IndexOf(c.tileList, cTiles[i]);
      CopiedMember(tiles, sums, cTiles, cSums, j, k);
      assert sums[j].tileList[k] in sums[j].tileList;
    }
    forall i, c | 0 <= i < |cTiles| && c in cTiles[i].sums ensures c in cSums && cTiles[i] in c.tileList {
      var j := IndexOf(cSums, c);
      assert tiles[i] in sums[j].tileList;
      var k := IndexOf(sums[j].tileList, tiles[i]);
      CopiedMember(tiles, sums, cTiles, cSums, j, k);
      assert c.tileList[k] == cTiles[i];
    }
  }

  /** The copies, in order, whose originals (the sums at the same
      positions of `originals`) have `t` as a member. */
  ghost function RunsThrough(copies: seq<Sum>, originals: seq<Sum>, t: Blank): seq<Sum>
    requires |copies| <= |originals|
  {
    if copies == [] then []
    else
      var n := |copies| - 1;
      RunsThrough(copies[..n], originals, t) + if t in originals[n].tileList then [copies[n]] else []
  }

  /** A copy is listed exactly when its original has `t` as a member. */
  lemma {:induction false} RunsThroughHas(copies: seq<Sum>, originals: seq<Sum>, t: Blank)
    requires |copies| <= |originals| && NoDuplicates(copies)
    ensures forall c :: c in RunsThrough(copies, originals, t) ==> c in copies
    ensures forall m :: 0 <= m < |copies| ==> (copies[m] in RunsThrough(copies, originals, t) <==> t in originals[m].tileList)
  {
    if copies != [] {
      var n := |copies| - 1;
      RunsThroughHas(copies[..n], originals, t);
      assert forall m :: 0 <= m < n ==> copies[..n][m] == copies[m] && copies[m] != copies[n];
    }
  }

  /** Appending the next copy extends the list of copies through `t`. */
  lemma RunsThroughAppend(copies: seq<Sum>, originals: seq<Sum>, c: Sum, t: Blank)
    requires |copies| < |originals|
    ensures RunsThrough(copies + [c], originals, t)
            == RunsThrough(copies, originals, t) + if t in originals[|copies|].tileList then [c] else []
  {
    assert (copies + [c])[..|copies|] == copies;
  }

  /** Appending the copy of the next sum keeps the runs copied. */
  lemma CopiesRunsAppend(tiles: seq<Blank>, sums: seq<Sum>, cTiles: seq<Blank>, cSums: seq<Sum>, c: Sum)
    requires CopiesRuns(tiles, sums, cTiles, cSums) && |cSums| < |sums|
    requires |c.tileList| == |sums[|cSums|].tileList|
    requires forall k :: 0 <= k < |c.tileList| ==>
               sums[|cSums|].tileList[k].id < |cTiles| && c.tileList[k] == cTiles[sums[|cSums|].tileList[k].id]
    ensures CopiesRuns(tiles, sums, cTiles, cSums + [c])
  {
  }

  /** The copied runs have the ids of the runs they copy. */
  lemma CopiedIds(tiles: seq<Blank>, sums: seq<Sum>, cTiles: seq<Blank>, cSums: seq<Sum>)
    requires CopiesRuns(tiles, sums, cTiles, cSums) && |cSums| == |sums|
    ensures RunIds(cSums) == RunIds(sums)
  {
    forall j | 0 <= j < |sums| ensures Ids(cSums[j].tileList) == Ids(sums[j].tileList) {
      forall k | 0 <= k < |sums[j].tileList| ensures cSums[j].tileList[k].id == sums[j].tileList[k].id {
        assert cTiles[sums[j].tileList[k].id].id == sums[j].tileList[k].id;
      }
    }
  }

  /** `[tile.deepcopy() for tile in tiles]` */
  method CopyTiles(tiles: seq<Blank>) returns (cTiles: seq<Blank>)
    ensures |cTiles| == |tiles|
    ensures forall i :: 0 <= i < |tiles| ==> fresh(cTiles[i]) && cTiles[i].sums == []
    ensures forall i :: 0 <= i < |tiles| ==> cTiles[i].id == tiles[i].id && cTiles[i].possibleValues == tiles[i].possibleValues
  {
    cTiles := [];
    for i := 0 to |tiles|
      invariant |cTiles| == i
      invariant forall k :: 0 <= k < i ==> fresh(cTiles[k]) && cTiles[k].sums == []
      invariant forall k :: 0 <= k < i ==> cTiles[k].id == tiles[k].id && cTiles[k].possibleValues == tiles[k].possibleValues
    {
      var copy := tiles[i].DeepCopy();
      cTiles := cTiles + [copy];
    }
  }


  /** The first sums of `sums` are copied into `cSums`: same clue, same
      configurations. */
  ghost predicate SameConfigs(sums: seq<Sum>, cSums: seq<Sum>)
    reads sums`configurations, cSums`configurations
  {
    && |cSums| <= |sums|
    && forall m :: 0 <= m < |cSums| ==>
         cSums[m].value == sums[m].value && cSums[m].configurations == sums[m].configurations && cSums[m].Valid()
  }

  /** Appending an element not yet present keeps a list free of duplicates. */
  lemma NoDuplicatesAppend<T>(s: seq<T>, x: T)
    requires NoDuplicates(s) && x !in s
    ensures NoDuplicates(s + [x])
  {
  }

  /** Appending the copy of the next sum keeps the sums copied. */
  lemma SameConfigsAppend(sums: seq<Sum>, cSums: seq<Sum>, copy: Sum)
    requires SameConfigs(sums, cSums) && |cSums| < |sums|
    requires copy.value == sums[|cSums|].value && copy.configurations == sums[|cSums|].configurations && copy.Valid()
    ensures SameConfigs(sums, cSums + [copy])
  {
  }

  /** The copy of a sum has as members exactly the copies of its members. */
  lemma CopiedMembership(tiles: seq<Blank>, s: Sum, cTiles: seq<Blank>, copy: Sum)
    requires |cTiles| == |tiles| && forall i :: 0 <= i < |cTiles| ==> cTiles[i].id == i && tiles[i].id == i
    requires forall t :: t in s.tileList ==> t.id < |tiles| && tiles[t.id] == t
    requires |copy.tileList| == |s.tileList|
    requires forall k :: 0 <= k < |s.tileList| ==> copy.tileList[k] == cTiles[s.tileList[k].id]
    ensures forall i :: 0 <= i < |tiles| ==> (cTiles[i] in copy.tileList <==> tiles[i] in s.tileList)
  {
    forall i | 0 <= i < |tiles| ensures cTiles[i] in copy.tileList <==> tiles[i] in s.tileList {
      if cTiles[i] in copy.tileList {
        var k := IndexOf(copy.tileList, cTiles[i]);
        assert s.tileList[k] in s.tileList;
      }
      if tiles[i] in s.tileList {
        var k := IndexOf(s.tileList, tiles[i]);
        assert copy.tileList[k] == cTiles[i];
      }
    }
  }

  /** `[sum.deepcopy(cTiles) for sum in sums]`: each copy registers with the
      copies of its members. */
  method CopySums(ghost tiles: seq<Blank>, sums: seq<Sum>, cTiles: seq<Blank>) returns (cSums: seq<Sum>)
    requires Shaped(tiles, sums) && AllValid(sums)
    requires |cTiles| == |tiles| && forall i :: 0 <= i < |cTiles| ==> cTiles[i].id == i
    requires forall i :: 0 <= i < |cTiles| ==> cTiles[i].sums == []
    modifies cTiles`sums
    ensures |cSums| == |sums| && forall j :: 0 <= j < |cSums| ==> fresh(cSums[j])
    ensures CopiedSoFar(tiles, sums, cTiles, cSums)
  {
    cSums := [];
    for j := 0 to |sums|
      invariant |cSums| == j && forall k :: 0 <= k < j ==> fresh(cSums[k])
      invariant CopiedSoFar(tiles, sums, cTiles, cSums)
    {
      var next := CopyNextSum(tiles, sums, cTiles, cSums);
      cSums := next;
    }
  }

  /** The state after copying the first `|cSums|` sums: the copies are
      distinct, keep the clues, configurations and runs of their originals,
      and each copied blank records the copies through it. */
  ghost predicate CopiedSoFar(tiles: seq<Blank>, sums: seq<Sum>, cTiles: seq<Blank>, cSums: seq<Sum>)
    reads cTiles`sums, sums`configurations, cSums`configurations
  {
    && NoDuplicates(cSums) && SameConfigs(sums, cSums) && CopiesRuns(tiles, sums, cTiles, cSums)
    && forall i :: 0 <= i < |tiles| ==> cTiles[i].sums == RunsThrough(cSums, sums, tiles[i])
  }

  /** Once every sum is copied, the copies form a network of their own with
      the runs and configurations of the original. */
  lemma CopiedNetwork(tiles: seq<Blank>, sums: seq<Sum>, cTiles: seq<Blank>, cSums: seq<Sum>)
    requires Shaped(tiles, sums) && |cSums| == |sums| && CopiedSoFar(tiles, sums, cTiles, cSums)
    ensures Board(cTiles, cSums)
    ensures RunIds(cSums) == RunIds(sums) && Configs(cSums) == Configs(sums)
    ensures forall j :: 0 <= j < |sums| ==> cSums[j].value == sums[j].value
  {
    CopiedConfigs(sums, cSums);
    CopiedLinks(tiles, sums, cTiles, cSums);
    CopiedIds(tiles, sums, cTiles, cSums);
  }

  /** One step of the comprehension: `sums[|cSums|].deepcopy(cTiles)`
      appended to the copies made so far. */
  method CopyNextSum(ghost tiles: seq<Blank>, sums: seq<Sum>, cTiles: seq<Blank>, cSums: seq<Sum>)
      returns (next: seq<Sum>)
    requires Numbered(tiles, sums) && AllValid(sums) && |cSums| < |sums|
    requires |cTiles| == |tiles| && forall i :: 0 <= i < |cTiles| ==> cTiles[i].id == i && tiles[i].id == i
    requires CopiedSoFar(tiles, sums, cTiles, cSums)
    modifies cTiles`sums
    ensures |next| == |cSums| + 1 && next == cSums + [next[|cSums|]] && fresh(next[|cSums|])
    ensures CopiedSoFar(tiles, sums, cTiles, next)
  {
    var s := sums[|cSums|];
    assert s in sums;
    var copy := s.DeepCopy(cTiles);
    assert copy !in cSums;
    NoDuplicatesAppend(cSums, copy);
    assert SameConfigs(sums, cSums);
    SameConfigsAppend(sums, cSums, copy);
    CopiedMembership(tiles, s, cTiles, copy);
    CopiesRunsAppend(tiles, sums, cTiles, cSums, copy);
    forall i | 0 <= i < |tiles|
      ensures cTiles[i].sums == RunsThrough(cSums + [copy], sums, tiles[i])
    {
      RunsThroughAppend(cSums, sums, copy, tiles[i]);
    }
    next := cSums + [copy];
  }

  /** `KakuroBoard._mycopy`: fresh copies of the blanks, then of the sums
      over those copies; the copy is a network of its own with the same
      candidates, runs and configurations. */
  method MyCopy(tiles: seq<Blank>, sums: seq<Sum>) returns (cTiles: seq<Blank>, cSums: seq<Sum>)
    requires Board(tiles, sums)
    ensures Board(cTiles, cSums)
    ensures DomainsOf(cTiles) == DomainsOf(tiles)
    ensures RunIds(cSums) == RunIds(sums) && Configs(cSums) == Configs(sums)
    ensures |cSums| == |sums| && forall j :: 0 <= j < |sums| ==> cSums[j].value == sums[j].value
    ensures forall i :: 0 <= i < |cTiles| ==> fresh(cTiles[i])
    ensures forall j :: 0 <= j < |cSums| ==> fresh(cSums[j])
  {
    ghost var doms := DomainsOf(tiles);
    cTiles := CopyTiles(tiles);
    cSums := CopySums(tiles, sums, cTiles);
    CopiedNetwork(tiles, sums, cTiles, cSums);
    DomainsUnchanged(cTiles, doms);
  }

  /** The copied sums have the configurations of the sums they copy. */
  lemma CopiedConfigs(sums: seq<Sum>, cSums: seq<Sum>)
    requires SameConfigs(sums, cSums) && |cSums| == |sums|
    ensures Configs(cSums) == Configs(sums) && AllValid(cSums)
  {
    assert forall j :: 0 <= j < |sums| ==> Configs(cSums)[j] == Configs(sums)[j];
  }

  /** The copies registered with one another are linked as the originals. */
  lemma CopiedLinks(tiles: seq<Blank>, sums: seq<Sum>, cTiles: seq<Blank>, cSums: seq<Sum>)
    requires Shaped(tiles, sums) && CopiesRuns(tiles, sums, cTiles, cSums)
    requires |cSums| == |sums| && NoDuplicates(cSums)
    requires forall i :: 0 <= i < |tiles| ==> cTiles[i].sums == RunsThrough(cSums, sums, tiles[i])
    ensures Linked(cTiles, cSums)
  {
    forall i | 0 <= i < |tiles| ensures forall c :: c in cTiles[i].sums ==> c in cSums
      ensures forall j :: 0 <= j < |sums| ==> (cSums[j] in cTiles[i].sums <==> tiles[i] in sums[j].tileList)
    {
      RunsThroughHas(cSums, sums, tiles[i]);
    }
    CopyLinked(tiles, sums, cTiles, cSums);
  }

  /** Every arc between a blank and one of its sums is consistent: the
      state `_propagate` leaves behind when it succeeds. */
  ghost predicate Settled(tiles: seq<Blank>, sums: seq<Sum>)
    reads tiles`sums, tiles`possibleValues, sums`configurations
  {
    forall i, c :: 0 <= i < |tiles| && c in tiles[i].sums && c in sums ==> ArcConsistent(tiles[i], c)
  }

  /** Once every blank has one candidate and every arc is consistent, the
      digits those candidates spell are the only supported assignment. */
  lemma SolvedNode(tiles: seq<Blank>, sums: seq<Sum>)
    requires Board(tiles, sums) && Settled(tiles, sums)
    requires forall t :: t in tiles ==> |t.possibleValues| == 1
    ensures Supported(Digits(tiles), tiles, sums)
    ensures forall a :: Supported(a, tiles, sums) ==> a == Digits(tiles)
  {
    assert forall i :: 0 <= i < |tiles| ==> |tiles[i].possibleValues| == 1;
    SingletonsSupported(tiles, sums);
    forall a | Supported(a, tiles, sums) ensures a == Digits(tiles) {
      SingletonSupportIsDigits(a, tiles, sums);
    }
  }

  /** `all([len(sum.configurations) > 1 for sum in sums])`: the check
      after propagation that gives the node up. */
  predicate Stuck(sums: seq<Sum>)
    reads sums`configurations
  {
    forall c | c in sums :: |c.configurations| > 1
  }

  /** `all([len(tile.possibleValues) == 1 for tile in tiles])` */
  predicate Solved(tiles: seq<Blank>)
    reads tiles`possibleValues
  {
    forall t | t in tiles :: |t.possibleValues| == 1
  }

  /** When no blank has several candidates although not every blank has
      exactly one, some blank has none, so nothing is supported. */
  lemma EmptiedNode(tiles: seq<Blank>, sums: seq<Sum>)
    requires !Solved(tiles) && BranchTile(DomainsOf(tiles)).None?
    ensures forall a :: !Supported(a, tiles, sums)
  {
    var t :| t in tiles && |t.possibleValues| != 1;
    var i := IndexOf(tiles, t);
    assert DomainsOf(tiles)[i] == [];
  }

  /** `_solve`: propagates, then searches the propagated network.
      `asWritten` selects the search as written, with the stall check and
      the `IndexError`; without it the search is the corrected one, which
      finds every supported assignment. */
  method SolveNode(tiles: seq<Blank>, sums: seq<Sum>, asWritten: bool) returns (sols: seq<seq<int>>, crashed: bool, ghost stalled: bool)
    requires Board(tiles, sums)
    modifies tiles`possibleValues, sums`configurations
    decreases Measure(tiles, sums), 3
    ensures forall s :: s in sols ==> old(Supported(s, tiles, sums))
    ensures forall a :: old(Supported(a, tiles, sums)) ==> a in sols || crashed || stalled
    ensures !asWritten ==> !crashed && !stalled
    ensures NoDuplicates(sols)
  {
    var ok := Propagate(tiles, sums);
    if !ok {
      return [], false, false;
    }
    sols, crashed, stalled := SearchNode(tiles, sums, asWritten);
  }

  /** `self._solve(*KakuroBoard._mycopy(tiles, sums))`: the search runs on
      a copy, so the network it is given is left as it was. */
  method SolveCopy(tiles: seq<Blank>, sums: seq<Sum>, asWritten: bool) returns (sols: seq<seq<int>>, crashed: bool, ghost stalled: bool)
    requires Board(tiles, sums)
    ensures forall s :: s in sols ==> Supported(s, tiles, sums)
    ensures forall a :: Supported(a, tiles, sums) ==> a in sols || crashed || stalled
    ensures !asWritten ==> !crashed && !stalled
    ensures NoDuplicates(sols)
  {
    ghost var doms, cfgs := DomainsOf(tiles), Configs(sums);
    var cTiles, cSums := MyCopy(tiles, sums);
    sols, crashed, stalled := SolveNode(cTiles, cSums, asWritten);
    DomainsUnchanged(tiles, doms);
    ConfigsUnchanged(sums, cfgs);
  }

  /** The rest of `_solve` once propagation has succeeded: give up when
      every sum has several configurations left (only as written), yield
      the digits once every blank has one candidate, and otherwise branch
      on the blank with the fewest candidates (lowest id first). As
      written, `crashed` is the `IndexError` of `branchingTiles[0]` (no
      blank left with several candidates although not every blank has
      exactly one), which ends the whole search; the corrected search
      yields nothing there. `stalled` records that some node of the search
      gave up at the stall check. */
  method SearchNode(tiles: seq<Blank>, sums: seq<Sum>, asWritten: bool) returns (sols: seq<seq<int>>, crashed: bool, ghost stalled: bool)
    requires Board(tiles, sums) && Settled(tiles, sums) && AllAscending(DomainsOf(tiles))
    decreases Measure(tiles, sums), 2
    ensures forall s :: s in sols ==> Supported(s, tiles, sums)
    ensures forall a :: Supported(a, tiles, sums) ==> a in sols || crashed || stalled
    ensures !asWritten ==> !crashed && !stalled
    ensures NoDuplicates(sols)
    ensures asWritten && Stuck(sums) ==> sols == [] && stalled && !crashed
    ensures (!asWritten || !Stuck(sums)) && Solved(tiles) ==> sols == [Digits(tiles)] && !crashed && !stalled
    ensures asWritten && !Stuck(sums) && !Solved(tiles) && BranchTile(DomainsOf(tiles)).None? ==>
              sols == [] && crashed && !stalled
  {
    if asWritten && Stuck(sums) {
      return [], false, true;
    }
    if Solved(tiles) {
      SolvedNode(tiles, sums);
      return [Digits(tiles)], false, false;
    }
    var branch := BranchTile(DomainsOf(tiles));
    if branch.None? {
      if asWritten {
        return [], true, false;
      }
      EmptiedNode(tiles, sums);
      return [], false, false;
    }
    sols, crashed, stalled := TryCandidates(tiles, sums, branch.value, asWritten);
  }

  /** The loop over the branching blank's candidates: each is tried on its
      own copy of the network, in the order of its candidate list, until a
      branch crashes. */
  method TryCandidates(tiles: seq<Blank>, sums: seq<Sum>, b: nat, asWritten: bool)
    returns (sols: seq<seq<int>>, crashed: bool, ghost stalled: bool)
    requires Board(tiles, sums) && b < |tiles| && |tiles[b].possibleValues| > 1
    requires StrictlyIncreasing(tiles[b].possibleValues)
    decreases Measure(tiles, sums), 1
    ensures forall s :: s in sols ==> Supported(s, tiles, sums)
    ensures forall a :: Supported(a, tiles, sums) ==> a in sols || crashed || stalled
    ensures !asWritten ==> !crashed && !stalled
    ensures NoDuplicates(sols)
    ensures forall s :: s in sols ==> |s| == |tiles| && s[b] in tiles[b].possibleValues
    ensures forall i, j :: 0 <= i < j < |sols| ==> sols[i][b] <= sols[j][b]
  {
    ghost var doms, runs, cfgs := DomainsOf(tiles), RunIds(sums), Configs(sums);
    var values := tiles[b].possibleValues;
    sols, crashed, stalled := [], false, false;
    var k := 0;
    while k < |values|
      invariant k <= |values|
      invariant Board(tiles, sums)
      invariant doms == DomainsOf(tiles) && runs == RunIds(sums) && cfgs == Configs(sums)
      invariant !asWritten ==> !stalled
      invariant forall s :: s in sols ==> SupportedBy(s, doms, runs, cfgs)
      invariant Grouped(sols, values, b, k)
      invariant forall m, a :: 0 <= m < k && SupportedBy(a, doms, runs, cfgs) && a[b] == values[m] ==> a in sols || stalled
    {
      var found, failed, st := Branch(tiles, sums, b, values[k], asWritten, doms, runs, cfgs);
      Gather(sols, found, values, b, k);
      CoverStep(sols, found, doms, runs, cfgs, values, b, k, stalled, st, failed);
      sols := sols + found;
      stalled := stalled || st;
      if failed {
        return sols, true, stalled;
      }
      k := k + 1;
    }
    forall a | SupportedBy(a, doms, runs, cfgs) ensures a in sols || stalled {
      assert a[b] in doms[b];
      var m := IndexOf(values, a[b]);
    }
  }

  /** The assignments collected from the first `k` candidates of blank `b`
      (the ascending list `values`): no assignment twice, each giving `b` a
      digit below the `k`-th candidate, in the order of those digits. */
  ghost predicate Grouped(sols: seq<seq<int>>, values: seq<int>, b: nat, k: nat)
  {
    && NoDuplicates(sols)
    && (forall s :: s in sols ==> b < |s| && (k < |values| ==> s[b] < values[k]))
    && (forall i, j :: 0 <= i < j < |sols| ==> sols[i][b] <= sols[j][b])
  }

  /** Appending the assignments found for the `k`-th candidate of blank `b`
      keeps the collection grouped. */
  lemma Gather(sols: seq<seq<int>>, found: seq<seq<int>>, values: seq<int>, b: nat, k: nat)
    requires k < |values| && StrictlyIncreasing(values)
    requires Grouped(sols, values, b, k) && NoDuplicates(found)
    requires forall s :: s in found ==> b < |s| && s[b] == values[k]
    ensures Grouped(sols + found, values, b, k + 1)
  {
    var all := sols + found;
    forall i, j | 0 <= i < j < |all| ensures all[i] != all[j] && all[i][b] <= all[j][b] {
      if i < |sols| && j >= |sols| {
        assert all[i] in sols && all[j] in found;
      } else if i >= |sols| {
        assert all[i] in found && all[j] in found;
      }
    }
    forall s | s in all ensures b < |s| && (k + 1 < |values| ==> s[b] < values[k + 1]) {
      if s in found {
      } else {
        assert s in sols;
      }
    }
  }

  /** Unless the `k`-th candidate's branch crashed, every supported
      assignment giving `b` one of the first `k + 1` candidates has been
      collected, or some branch stalled. */
  lemma CoverStep(sols: seq<seq<int>>, found: seq<seq<int>>, doms: seq<seq<int>>, runs: seq<seq<nat>>,
                  cfgs: seq<seq<seq<int>>>, values: seq<int>, b: nat, k: nat, stalled: bool, st: bool, failed: bool)
    requires b < |doms| && k < |values|
    requires forall m, a :: 0 <= m < k && SupportedBy(a, doms, runs, cfgs) && a[b] == values[m] ==> a in sols || stalled
    requires forall a :: SupportedBy(a, doms, runs, cfgs) && a[b] == values[k] ==> a in found || failed || st
    ensures !failed ==> forall m, a :: 0 <= m < k + 1 && SupportedBy(a, doms, runs, cfgs) && a[b] == values[m] ==>
              a in sols + found || stalled || st
  {
  }

  /** One candidate `v` of blank `b`: a fresh copy of the network with `b`
      bound to `v`, searched recursively. `doms`, `runs` and `cfgs` are the
      network's state, which the copy leaves untouched. */
  method Branch(tiles: seq<Blank>, sums: seq<Sum>, b: nat, v: int, asWritten: bool,
                ghost doms: seq<seq<int>>, ghost runs: seq<seq<nat>>, ghost cfgs: seq<seq<seq<int>>>)
    returns (found: seq<seq<int>>, crashed: bool, ghost stalled: bool)
    requires Board(tiles, sums) && b < |tiles| && |tiles[b].possibleValues| > 1 && v in tiles[b].possibleValues
    requires doms == DomainsOf(tiles) && runs == RunIds(sums) && cfgs == Configs(sums)
    decreases Measure(tiles, sums), 0
    ensures forall s :: s in found ==> SupportedBy(s, doms, runs, cfgs)
    ensures forall a :: SupportedBy(a, doms, runs, cfgs) && a[b] == v ==> a in found || crashed || stalled
    ensures !asWritten ==> !crashed && !stalled
    ensures forall s :: s in found ==> |s| == |doms| && s[b] == v
    ensures NoDuplicates(found)
  {
    var cTiles, cSums := Bind(tiles, sums, b, v);
    BindWeighsLess(doms, b, v);
    forall a | SupportedBy(a, doms, runs, cfgs) && a[b] == v ensures SupportedBy(a, doms[b := [v]], runs, cfgs) {
      BindKeepsSupport(a, doms, runs, cfgs, b, v);
    }
    found, crashed, stalled := SolveNode(cTiles, cSums, asWritten);
    forall s | s in found ensures SupportedBy(s, doms, runs, cfgs) && |s| == |doms| && s[b] == v {
      BindNarrowsSupport(s, doms, runs, cfgs, b, v);
    }
  }

  /** The body of the branching loop before the recursive call: a copy of
      the network (`_mycopy`) whose blank `b` is bound to `v`. */
  method Bind(tiles: seq<Blank>, sums: seq<Sum>, b: nat, v: int) returns (cTiles: seq<Blank>, cSums: seq<Sum>)
    requires Board(tiles, sums) && b < |tiles| && |tiles[b].possibleValues| > 1 && v in tiles[b].possibleValues
    ensures Board(cTiles, cSums)
    ensures DomainsOf(cTiles) == DomainsOf(tiles)[b := [v]]
    ensures RunIds(cSums) == RunIds(sums) && Configs(cSums) == Configs(sums)
    ensures forall i :: 0 <= i < |cTiles| ==> fresh(cTiles[i])
    ensures forall j :: 0 <= j < |cSums| ==> fresh(cSums[j])
  {
    ghost var doms := DomainsOf(tiles);
    cTiles, cSums := MyCopy(tiles, sums);
    var _ := cTiles[b].SetValue(v);
    DomainsAfterUpdate(cTiles, doms, b, [v]);
  }
}
