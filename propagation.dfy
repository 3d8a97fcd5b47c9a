/** The propagation phase of `KakuroBoard._solve` (KakuroSolver.py): node
    consistency, then the generalised arc consistency worklist over pairs of
    a blank and one of its sums. Propagation only removes candidates and
    configurations that no assignment of the network can use, so the set of
    supported assignments never changes. */
module Propagation {
  import opened Configurations
  import opened Domains
  import opened Tiles
  import opened Network

  /** A worklist entry: a blank of the network and one of its sums. */
  ghost predicate IsArc(tiles: seq<Blank>, arc: (Blank, Sum))
    reads tiles`sums
  {
    arc.0.id < |tiles| && tiles[arc.0.id] == arc.0 && arc.1 in arc.0.sums
  }

  /** Every entry of the worklist is an arc of the network. */
  ghost predicate Arcs(tiles: seq<Blank>, worklist: set<(Blank, Sum)>)
    reads tiles`sums
  {
    forall arc :: arc in worklist ==> IsArc(tiles, arc)
  }

  /** Only one blank's candidate list changed, to `dom`. */
  lemma DomainsAfterUpdate(tiles: seq<Blank>, oldDoms: seq<seq<int>>, i: nat, dom: seq<int>)
    requires |oldDoms| == |tiles| && i < |tiles| && tiles[i].possibleValues == dom
    requires forall k :: 0 <= k < |tiles| && k != i ==> tiles[k].possibleValues == oldDoms[k]
    ensures DomainsOf(tiles) == oldDoms[i := dom]
  {
  }

  /** No blank's candidate list changed. */
  lemma DomainsUnchanged(tiles: seq<Blank>, oldDoms: seq<seq<int>>)
    requires |oldDoms| == |tiles|
    requires forall k :: 0 <= k < |tiles| ==> tiles[k].possibleValues == oldDoms[k]
    ensures DomainsOf(tiles) == oldDoms
  {
  }

  /** Only one sum's configuration list changed, to `cfgs`. */
  lemma ConfigsAfterUpdate(sums: seq<Sum>, oldCfgs: seq<seq<seq<int>>>, j: nat, cfgs: seq<seq<int>>)
    requires |oldCfgs| == |sums| && j < |sums| && sums[j].configurations == cfgs
    requires forall k :: 0 <= k < |sums| && k != j ==> sums[k].configurations == oldCfgs[k]
    ensures Configs(sums) == oldCfgs[j := cfgs]
  {
  }

  /** No sum's configuration list changed. */
  lemma ConfigsUnchanged(sums: seq<Sum>, oldCfgs: seq<seq<seq<int>>>)
    requires |oldCfgs| == |sums|
    requires forall k :: 0 <= k < |sums| ==> sums[k].configurations == oldCfgs[k]
    ensures Configs(sums) == oldCfgs
  {
  }

  /** `t.filterValuesFromSums()` inside the network: it keeps the
      supported assignments and, when it reports a change, lowers the
      measure. */
  method NarrowBlank(ghost tiles: seq<Blank>, ghost sums: seq<Sum>, t: Blank) returns (changed: bool)
    requires Board(tiles, sums) && t.id < |tiles| && tiles[t.id] == t
    modifies t`possibleValues
    ensures forall a :: Supported(a, tiles, sums) <==> old(Supported(a, tiles, sums))
    ensures Measure(tiles, sums) <= old(Measure(tiles, sums))
    ensures changed ==> Measure(tiles, sums) < old(Measure(tiles, sums))
    ensures changed <==> t.possibleValues != old(t.possibleValues)
    ensures StrictlyIncreasing(t.possibleValues)
    ensures forall v :: v in t.possibleValues ==> v in old(t.possibleValues)
    ensures forall v, d :: v in t.possibleValues && d in t.sums ==> v in d.GetValuesForTile(t)
    ensures forall v :: v in t.possibleValues <==> v in old(t.possibleValues) && AllowedBy(v, t.id, RunIds(sums), Configs(sums))
    ensures DomainsOf(tiles) == old(DomainsOf(tiles))[t.id := t.possibleValues]
    ensures Configs(sums) == old(Configs(sums))
  {
    ghost var oldDoms := DomainsOf(tiles);
    ghost var oldDom := t.possibleValues;
    ghost var cfgs := Configs(sums);
    changed := t.FilterValuesFromSums();
    assert Configs(sums) == cfgs;
    DomainsAfterUpdate(tiles, oldDoms, t.id, t.possibleValues);
    NarrowKeepsSupport(tiles, sums, oldDoms, t.id);
    NarrowedWeighsLess(oldDom, ColumnsFor(t.sums, t));
    forall v ensures (forall d :: d in t.sums ==> v in d.GetValuesForTile(t)) <==> AllowedBy(v, t.id, RunIds(sums), Configs(sums)) {
      ColumnsAllow(tiles, sums, t, v);
    }
    WeightUpdate(oldDoms, t.id, t.possibleValues);
  }

  /** `c.filterConfigFromTile(t)` inside the network: it keeps the
      supported assignments and, when it reports a change, lowers the
      measure. */
  method FilterSum(ghost tiles: seq<Blank>, ghost sums: seq<Sum>, t: Blank, c: Sum) returns (changed: bool)
    requires Board(tiles, sums) && IsArc(tiles, (t, c))
    modifies c`configurations
    ensures Board(tiles, sums)
    ensures forall a :: Supported(a, tiles, sums) <==> old(Supported(a, tiles, sums))
    ensures Measure(tiles, sums) <= old(Measure(tiles, sums))
    ensures changed ==> Measure(tiles, sums) < old(Measure(tiles, sums))
    ensures changed <==> c.configurations != old(c.configurations)
    ensures forall cfg :: cfg in c.configurations ==> cfg[IndexOf(c.tileList, t)] in t.possibleValues
    ensures c in sums && Configs(sums) == old(Configs(sums))[IndexOf(sums, c) := c.configurations]
    ensures DomainsOf(tiles) == old(DomainsOf(tiles))
  {
    ghost var oldCfgs := Configs(sums);
    ghost var doms := DomainsOf(tiles);
    ghost var j := IndexOf(sums, c);
    assert forall cfg :: cfg in oldCfgs[j] ==> |cfg| == |c.tileList|;
    changed := c.FilterConfigFromTile(t);
    assert forall k :: 0 <= k < |sums| && k != j ==> sums[k] != c;
    ConfigsAfterUpdate(sums, oldCfgs, j, c.configurations);
    DomainsUnchanged(tiles, doms);
    FilterKeepsSupport(tiles, sums, oldCfgs, j, t);
    ConfigCountUpdate(oldCfgs, j, c.configurations);
  }

  /** `arc_reduce`: narrows the blank's candidates and, only when they did
      not change, filters the sum's configurations (`or` short-circuits). */
  method ArcReduce(ghost tiles: seq<Blank>, ghost sums: seq<Sum>, t: Blank, c: Sum) returns (changed: bool)
    requires Board(tiles, sums) && IsArc(tiles, (t, c))
    modifies t`possibleValues, c`configurations
    ensures Board(tiles, sums)
    ensures forall a :: Supported(a, tiles, sums) <==> old(Supported(a, tiles, sums))
    ensures Measure(tiles, sums) <= old(Measure(tiles, sums))
    ensures changed ==> Measure(tiles, sums) < old(Measure(tiles, sums))
    ensures !changed ==> t.possibleValues == old(t.possibleValues) && c.configurations == old(c.configurations)
    ensures !changed ==> ArcConsistent(t, c)
    ensures StrictlyIncreasing(t.possibleValues)
    ensures DomainsOf(tiles) == old(DomainsOf(tiles))[t.id := t.possibleValues]
    ensures c in sums && Configs(sums) == old(Configs(sums))[IndexOf(sums, c) := c.configurations]
  {
    changed := NarrowBlank(tiles, sums, t);
    if !changed {
      changed := FilterSum(tiles, sums, t, c);
      if !changed {
        assert ArcConsistent(t, c) by {
          forall v | v in t.possibleValues
            ensures exists cfg :: cfg in c.configurations && IndexOf(c.tileList, t) < |cfg| && cfg[IndexOf(c.tileList, t)] == v
          {
            assert v in c.GetValuesForTile(t);
          }
        }
      }
    }
  }

  /** `for x in tiles: x.filterValuesFromSums()`, results ignored. */
  method NodeConsistency(tiles: seq<Blank>, sums: seq<Sum>)
    requires Board(tiles, sums)
    modifies tiles`possibleValues
    ensures Board(tiles, sums)
    ensures forall a :: Supported(a, tiles, sums) <==> old(Supported(a, tiles, sums))
    ensures Measure(tiles, sums) <= old(Measure(tiles, sums))
    ensures forall i, v :: 0 <= i < |tiles| ==>
              (v in tiles[i].possibleValues <==> v in old(tiles[i].possibleValues) && AllowedBy(v, i, RunIds(sums), Configs(sums)))
    ensures forall i :: 0 <= i < |tiles| ==> StrictlyIncreasing(tiles[i].possibleValues)
  {
    ghost var before := DomainsOf(tiles);
    ghost var cfgs := Configs(sums);
    for i := 0 to |tiles|
      invariant Board(tiles, sums)
      invariant forall a :: Supported(a, tiles, sums) <==> old(Supported(a, tiles, sums))
      invariant Measure(tiles, sums) <= old(Measure(tiles, sums))
      invariant Configs(sums) == cfgs
      invariant forall k, v :: 0 <= k < i ==>
                  (v in DomainsOf(tiles)[k] <==> v in before[k] && AllowedBy(v, k, RunIds(sums), cfgs))
      invariant forall k :: 0 <= k < i ==> StrictlyIncreasing(DomainsOf(tiles)[k])
      invariant forall k :: i <= k < |tiles| ==> DomainsOf(tiles)[k] == before[k]
    {
      var _ := NarrowBlank(tiles, sums, tiles[i]);
    }
  }

  /** `worklist.add((x, c))` for every blank `x` and every sum `c` of it. */
  method InitialWorklist(tiles: seq<Blank>) returns (worklist: set<(Blank, Sum)>)
    ensures forall i, c :: 0 <= i < |tiles| && c in tiles[i].sums ==> (tiles[i], c) in worklist
    ensures forall arc :: arc in worklist ==> arc.0 in tiles && arc.1 in arc.0.sums
  {
    worklist := {};
    for i := 0 to |tiles|
      invariant forall k, c :: 0 <= k < i && c in tiles[k].sums ==> (tiles[k], c) in worklist
      invariant forall arc :: arc in worklist ==> arc.0 in tiles && arc.1 in arc.0.sums
    {
      var x := tiles[i];
      for m := 0 to |x.sums|
        invariant forall k, c :: 0 <= k < i && c in tiles[k].sums ==> (tiles[k], c) in worklist
        invariant forall k :: 0 <= k < m ==> (x, x.sums[k]) in worklist
        invariant forall arc :: arc in worklist ==> arc.0 in tiles && arc.1 in arc.0.sums
      {
        worklist := worklist + {(x, x.sums[m])};
      }
    }
  }

  /** `for c in t.sums: for x in c.tileList: worklist.add((x, c))` */
  method Requeue(worklist: set<(Blank, Sum)>, t: Blank) returns (r: set<(Blank, Sum)>)
    ensures forall arc :: arc in r <==> arc in worklist || (arc.1 in t.sums && arc.0 in arc.1.tileList)
  {
    r := worklist;
    for m := 0 to |t.sums|
      invariant forall arc :: arc in r <==> arc in worklist || (arc.1 in t.sums[..m] && arc.0 in arc.1.tileList)
    {
      var c := t.sums[m];
      for k := 0 to |c.tileList|
        invariant forall arc :: arc in r <==>
                    arc in worklist || (arc.1 in t.sums[..m] && arc.0 in arc.1.tileList)
                    || (arc.1 == c && arc.0 in c.tileList[..k])
      {
        assert c.tileList[..k + 1] == c.tileList[..k] + [c.tileList[k]];
        r := r + {(c.tileList[k], c)};
      }
      assert c.tileList[..|c.tileList|] == c.tileList;
      assert t.sums[..m + 1] == t.sums[..m] + [c];
    }
    assert t.sums[..|t.sums|] == t.sums;
  }

  /** Every arc of the network is waiting in the worklist or consistent,
      for candidate lists `doms` and configuration lists `cfgs`; and every
      candidate list is ascending, as node consistency left it. */
  ghost predicate CoveredBy(tiles: seq<Blank>, sums: seq<Sum>, worklist: set<(Blank, Sum)>,
                            doms: seq<seq<int>>, cfgs: seq<seq<seq<int>>>)
    requires |doms| == |tiles| && |cfgs| == |sums|
    reads tiles`sums
  {
    && AllAscending(doms)
    && forall i, j {:trigger Consistent(sums[j].tileList, tiles[i], doms[i], cfgs[j])} ::
         0 <= i < |tiles| && 0 <= j < |sums| && sums[j] in tiles[i].sums ==>
         (tiles[i], sums[j]) in worklist || Consistent(sums[j].tileList, tiles[i], doms[i], cfgs[j])
  }

  /** Every arc of the network is waiting in the worklist or consistent,
      and every candidate list is ascending. */
  ghost predicate Covered(tiles: seq<Blank>, sums: seq<Sum>, worklist: set<(Blank, Sum)>)
    reads tiles`possibleValues, tiles`sums, sums`configurations
  {
    CoveredBy(tiles, sums, worklist, DomainsOf(tiles), Configs(sums))
  }

  /** With nothing left to do, every arc is consistent. */
  lemma CoveredEmpty(tiles: seq<Blank>, sums: seq<Sum>)
    requires Linked(tiles, sums) && Covered(tiles, sums, {})
    ensures forall i, c :: 0 <= i < |tiles| && c in tiles[i].sums ==> ArcConsistent(tiles[i], c)
  {
    forall i, c | 0 <= i < |tiles| && c in tiles[i].sums ensures ArcConsistent(tiles[i], c) {
      assert c in sums;
      var j :| 0 <= j < |sums| && sums[j] == c;
      assert Consistent(sums[j].tileList, tiles[i], DomainsOf(tiles)[i], Configs(sums)[j]);
    }
  }

  /** One iteration of the `while` loop of `_solve`: pops an arc, reduces
      it, and on a change either gives up (the blank has no candidate left)
      or puts back every arc of every sum of the blank. */
  method GacStep(tiles: seq<Blank>, sums: seq<Sum>, worklist: set<(Blank, Sum)>)
      returns (next: set<(Blank, Sum)>, failed: bool)
    requires Board(tiles, sums) && worklist != {}
    requires Arcs(tiles, worklist)
    requires Covered(tiles, sums, worklist)
    modifies tiles`possibleValues, sums`configurations
    ensures Board(tiles, sums)
    ensures forall a :: Supported(a, tiles, sums) <==> old(Supported(a, tiles, sums))
    ensures Measure(tiles, sums) < old(Measure(tiles, sums))
            || (Measure(tiles, sums) == old(Measure(tiles, sums)) && |next| < |worklist|)
    ensures Measure(tiles, sums) == old(Measure(tiles, sums)) ==> next < worklist && |next| == |worklist| - 1
    ensures failed ==> [] in DomainsOf(tiles)
    ensures !failed ==> Arcs(tiles, next) && Covered(tiles, sums, next)
  {
    var arc :| arc in worklist;
    next := worklist - {arc};
    assert Arcs(tiles, next);
    var t, c := arc.0, arc.1;
    ghost var k, j := t.id, IndexOf(sums, c);
    ghost var oldDoms, oldCfgs := DomainsOf(tiles), Configs(sums);
    var changed := ArcReduce(tiles, sums, t, c);
    failed := false;
    if changed {
      if |t.possibleValues| == 0 {
        assert DomainsOf(tiles)[k] == [];
        return next, true;
      }
      next := Requeue(next, t);
    }
    RequeueCovers(tiles, sums, worklist, next, oldDoms, oldCfgs, DomainsOf(tiles), Configs(sums), k, j, changed);
    if changed {
      RequeuedArcs(tiles, sums, worklist, next, t);
    }
  }

  /** The arcs put back for blank `t` are arcs of the network. */
  lemma RequeuedArcs(tiles: seq<Blank>, sums: seq<Sum>, worklist: set<(Blank, Sum)>,
                     next: set<(Blank, Sum)>, t: Blank)
    requires Linked(tiles, sums) && t.id < |tiles| && tiles[t.id] == t && Arcs(tiles, worklist)
    requires forall arc :: arc in next ==> arc in worklist || (arc.1 in t.sums && arc.0 in arc.1.tileList)
    ensures Arcs(tiles, next)
  {
    forall arc | arc in next && arc !in worklist ensures IsArc(tiles, arc) {
      assert arc.1 in sums;
    }
  }

  /** After one arc reduction the worklist still covers every arc that is
      not consistent: only the arcs touching the reduced blank `tiles[k]` or
      sum `sums[j]` can have lost consistency, and on a change exactly
      those were put back. */
  lemma RequeueCovers(tiles: seq<Blank>, sums: seq<Sum>, worklist: set<(Blank, Sum)>,
                      next: set<(Blank, Sum)>, oldDoms: seq<seq<int>>, oldCfgs: seq<seq<seq<int>>>,
                      doms: seq<seq<int>>, cfgs: seq<seq<seq<int>>>, k: nat, j: nat, changed: bool)
    requires Linked(tiles, sums)
    requires |oldDoms| == |doms| == |tiles| && |oldCfgs| == |cfgs| == |sums|
    requires k < |tiles| && j < |sums| && sums[j] in tiles[k].sums
    requires CoveredBy(tiles, sums, worklist, oldDoms, oldCfgs) && (tiles[k], sums[j]) in worklist
    requires doms == oldDoms[k := doms[k]] && cfgs == oldCfgs[j := cfgs[j]]
    requires StrictlyIncreasing(doms[k])
    requires !changed ==> doms[k] == oldDoms[k] && cfgs[j] == oldCfgs[j]
    requires !changed ==> Consistent(sums[j].tileList, tiles[k], doms[k], cfgs[j])
    requires !changed ==> next == worklist - {(tiles[k], sums[j])}
    requires changed ==> forall arc :: arc in next <==>
               arc in worklist - {(tiles[k], sums[j])} || (arc.1 in tiles[k].sums && arc.0 in arc.1.tileList)
    ensures CoveredBy(tiles, sums, next, doms, cfgs)
  {
    forall i, m | 0 <= i < |tiles| && 0 <= m < |sums| && sums[m] in tiles[i].sums
      ensures (tiles[i], sums[m]) in next || Consistent(sums[m].tileList, tiles[i], doms[i], cfgs[m])
    {
      if changed && (i == k || m == j) {
        assert tiles[i] in sums[m].tileList;
        assert sums[m] in tiles[k].sums && tiles[i] in sums[m].tileList;
      } else if i != k || m != j {
        assert tiles[i] != tiles[k] || sums[m] != sums[j];
        assert (tiles[i], sums[m]) in worklist || Consistent(sums[m].tileList, tiles[i], oldDoms[i], oldCfgs[m]);
      }
    }
  }

  /** The `while` loop of `_solve`, run until the worklist is empty or a
      blank has no candidate left. */
  method Gac(tiles: seq<Blank>, sums: seq<Sum>, worklist0: set<(Blank, Sum)>) returns (ok: bool)
    requires Board(tiles, sums)
    requires Arcs(tiles, worklist0)
    requires Covered(tiles, sums, worklist0)
    modifies tiles`possibleValues, sums`configurations
    ensures Board(tiles, sums)
    ensures forall a :: Supported(a, tiles, sums) <==> old(Supported(a, tiles, sums))
    ensures Measure(tiles, sums) <= old(Measure(tiles, sums))
    ensures !ok ==> [] in DomainsOf(tiles)
    ensures ok ==> Covered(tiles, sums, {})
  {
    var worklist := worklist0;
    while worklist != {}
      invariant Board(tiles, sums)
      invariant Arcs(tiles, worklist)
      invariant Covered(tiles, sums, worklist)
      invariant forall a :: Supported(a, tiles, sums) <==> old(Supported(a, tiles, sums))
      invariant Measure(tiles, sums) <= old(Measure(tiles, sums))
      decreases Measure(tiles, sums), |worklist|
    {
      var failed;
      worklist, failed := GacStep(tiles, sums, worklist);
      if failed {
        return false;
      }
    }
    return true;
  }

  /** Node consistency followed by the worklist loop. */
  method Propagate(tiles: seq<Blank>, sums: seq<Sum>) returns (ok: bool)
    requires Board(tiles, sums)
    modifies tiles`possibleValues, sums`configurations
    ensures Board(tiles, sums)
    ensures forall a :: Supported(a, tiles, sums) <==> old(Supported(a, tiles, sums))
    ensures Measure(tiles, sums) <= old(Measure(tiles, sums))
    ensures !ok ==> forall a :: !old(Supported(a, tiles, sums))
    ensures ok ==> forall i, c :: 0 <= i < |tiles| && c in tiles[i].sums ==> ArcConsistent(tiles[i], c)
    ensures ok ==> AllAscending(DomainsOf(tiles))
  {
    NodeConsistency(tiles, sums);
    var worklist := InitialWorklist(tiles);
    forall arc | arc in worklist ensures IsArc(tiles, arc) {
      var k :| 0 <= k < |tiles| && tiles[k] == arc.0;
    }
    ok := Gac(tiles, sums, worklist);
    if ok {
      CoveredEmpty(tiles, sums);
    }
    if !ok {
      forall a ensures !Supported(a, tiles, sums) {
        var i :| 0 <= i < |tiles| && DomainsOf(tiles)[i] == [];
        if |a| == |tiles| {
          var x := a[i];
          assert x !in DomainsOf(tiles)[i];
        }
      }
    }
  }
}
