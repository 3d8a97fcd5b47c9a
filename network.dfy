/** The constraint network `_solve` works on (KakuroSolver.py): the blanks,
    indexed by id, and the sums over them. This module states when the two
    are linked consistently, which digit assignments the current candidate
    lists and configurations still allow, and when an arc (a blank and one
    of its sums) is consistent. */
module Network {
  import opened Configurations
  import opened Domains
  import opened Tiles

  /** Every member of every sum is the blank its id numbers. */
  ghost predicate Numbered(tiles: seq<Blank>, sums: seq<Sum>)
  {
    forall c, t :: c in sums && t in c.tileList ==> t.id < |tiles| && tiles[t.id] == t
  }

  /** What `Linked` says about the blanks and runs alone, not about the
      sums each blank records: it holds however those lists change. */
  ghost predicate Shaped(tiles: seq<Blank>, sums: seq<Sum>)
  {
    && (forall i :: 0 <= i < |tiles| ==> tiles[i].id == i)
    && NoDuplicates(sums)
    && (forall c :: c in sums ==> NoDuplicates(c.tileList))
    && Numbered(tiles, sums)
  }

  /** `tiles[i]._id == i`; every run lists distinct blanks of `tiles`; a
      blank records exactly the sums it belongs to; `sums` lists each sum
      once. */
  ghost predicate Linked(tiles: seq<Blank>, sums: seq<Sum>)
    reads tiles`sums
  {
    && Shaped(tiles, sums)
    && (forall i, c :: 0 <= i < |tiles| && c in sums && tiles[i] in c.tileList ==> c in tiles[i].sums)
    && (forall i, c :: 0 <= i < |tiles| && c in tiles[i].sums ==> c in sums && tiles[i] in c.tileList)
  }

  ghost predicate AllValid(sums: seq<Sum>)
    reads sums`configurations
  {
    forall c :: c in sums ==> c.Valid()
  }

  /** The state `_solve` is called on. */
  ghost predicate Board(tiles: seq<Blank>, sums: seq<Sum>)
    reads tiles`sums, sums`configurations
  {
    Linked(tiles, sums) && AllValid(sums)
  }

  /** The configuration lists of all sums, in order. */
  function Configs(sums: seq<Sum>): (cfgs: seq<seq<seq<int>>>)
    reads sums`configurations
    ensures |cfgs| == |sums|
    ensures forall j :: 0 <= j < |sums| ==> cfgs[j] == sums[j].configurations
  {
    if sums == [] then [] else [sums[0].configurations] + Configs(sums[1..])
  }

  /** The ids of a run's members. */
  function Ids(tileList: seq<Blank>): (ids: seq<nat>)
    ensures |ids| == |tileList|
    ensures forall k :: 0 <= k < |tileList| ==> ids[k] == tileList[k].id
  {
    seq(|tileList|, k requires 0 <= k < |tileList| => tileList[k].id)
  }

  /** The member ids of every run, in order. */
  function RunIds(sums: seq<Sum>): (runs: seq<seq<nat>>)
    ensures |runs| == |sums|
    ensures forall j :: 0 <= j < |sums| ==> runs[j] == Ids(sums[j].tileList)
  {
    seq(|sums|, j requires 0 <= j < |sums| => Ids(sums[j].tileList))
  }

  /** The digits an assignment `a` (indexed by id) gives a run's members. */
  function Pick(a: seq<int>, ids: seq<nat>): (r: seq<int>)
    ensures |r| == |ids|
    ensures forall k :: 0 <= k < |ids| && ids[k] < |a| ==> r[k] == a[ids[k]]
  {
    seq(|ids|, k requires 0 <= k < |ids| => if ids[k] < |a| then a[ids[k]] else 0)
  }

  /** `a` gives every blank one of its candidates and every non-empty run
      one of its remaining configurations. */
  predicate SupportedBy(a: seq<int>, doms: seq<seq<int>>, runs: seq<seq<nat>>, cfgs: seq<seq<seq<int>>>)
  {
    && |a| == |doms|
    && (forall i :: 0 <= i < |a| ==> a[i] in doms[i])
    && (forall j :: 0 <= j < |runs| && j < |cfgs| && runs[j] != [] ==> Pick(a, runs[j]) in cfgs[j])
  }

  /** `a` is still possible in the current state of the network. */
  ghost predicate Supported(a: seq<int>, tiles: seq<Blank>, sums: seq<Sum>)
    reads tiles`possibleValues, sums`configurations
  {
    SupportedBy(a, DomainsOf(tiles), RunIds(sums), Configs(sums))
  }

  /** The arc between blank `t` with candidates `dom` and a run `tileList`
      with configurations `cfgs` is consistent: the candidate list is
      ascending, every candidate occurs in the blank's column, and every
      configuration's entry for the blank is a candidate. */
  ghost predicate Consistent(tileList: seq<Blank>, t: Blank, dom: seq<int>, cfgs: seq<seq<int>>)
  {
    && t in tileList
    && StrictlyIncreasing(dom)
    && (forall v :: v in dom ==>
          exists cfg :: cfg in cfgs && IndexOf(tileList, t) < |cfg| && cfg[IndexOf(tileList, t)] == v)
    && (forall cfg :: cfg in cfgs ==>
          IndexOf(tileList, t) < |cfg| && cfg[IndexOf(tileList, t)] in dom)
  }

  /** The arc between a blank and one of its sums is consistent in the
      current state. */
  ghost predicate ArcConsistent(t: Blank, c: Sum)
    reads t`possibleValues, c`configurations
  {
    Consistent(c.tileList, t, t.possibleValues, c.configurations)
  }

  /** The weight of all candidate lists. */
  ghost function Weight(doms: seq<seq<int>>): nat
  {
    if doms == [] then 0 else DomainWeight(doms[0]) + Weight(doms[1..])
  }

  /** The number of configurations left in all sums. */
  function ConfigCount(cfgs: seq<seq<seq<int>>>): nat
  {
    if cfgs == [] then 0 else |cfgs[0]| + ConfigCount(cfgs[1..])
  }

  /** What propagation can still remove. */
  ghost function Measure(tiles: seq<Blank>, sums: seq<Sum>): nat
    reads tiles`possibleValues, sums`configurations
  {
    Weight(DomainsOf(tiles)) + ConfigCount(Configs(sums))
  }

  lemma {:induction false} WeightUpdate(doms: seq<seq<int>>, i: nat, x: seq<int>)
    requires i < |doms|
    ensures Weight(doms[i := x]) == Weight(doms) - DomainWeight(doms[i]) + DomainWeight(x)
  {
    if i > 0 {
      assert doms[i := x][1..] == doms[1..][i - 1 := x];
      WeightUpdate(doms[1..], i - 1, x);
    }
  }

  lemma {:induction false} ConfigCountUpdate(cfgs: seq<seq<seq<int>>>, j: nat, x: seq<seq<int>>)
    requires j < |cfgs|
    ensures ConfigCount(cfgs[j := x]) == ConfigCount(cfgs) - |cfgs[j]| + |x|
  {
    if j > 0 {
      assert cfgs[j := x][1..] == cfgs[1..][j - 1 := x];
      ConfigCountUpdate(cfgs[1..], j - 1, x);
    }
  }

  /** A blank's entry in a run's configuration is the assignment's digit
      for that blank. */
  lemma PickAtMember(a: seq<int>, tiles: seq<Blank>, sums: seq<Sum>, j: nat, t: Blank)
    requires Shaped(tiles, sums) && |a| == |tiles|
    requires j < |sums| && t in sums[j].tileList
    ensures Pick(a, RunIds(sums)[j])[IndexOf(sums[j].tileList, t)] == a[t.id]
  {
  }

  /** A supported assignment's digit for a member of a sum occurs in the
      member's column of that sum. */
  lemma SupportedInColumn(a: seq<int>, doms: seq<seq<int>>, tiles: seq<Blank>, sums: seq<Sum>, d: Sum, t: Blank)
    requires Board(tiles, sums) && d in sums && t in d.tileList
    requires SupportedBy(a, doms, RunIds(sums), Configs(sums)) && |a| == |tiles|
    ensures a[t.id] in d.GetValuesForTile(t)
  {
    var j := IndexOf(sums, d);
    PickAtMember(a, tiles, sums, j, t);
    assert Pick(a, RunIds(sums)[j]) in d.configurations;
  }

  /** Some remaining configuration of every run through blank `k` gives
      it `v`: `v` is in every column `getValuesForTile` reads for `k`. */
  predicate AllowedBy(v: int, k: nat, runs: seq<seq<nat>>, cfgs: seq<seq<seq<int>>>)
  {
    forall j :: 0 <= j < |runs| && j < |cfgs| && k in runs[j] ==>
      exists cfg :: cfg in cfgs[j] && IndexOf(runs[j], k) < |cfg| && cfg[IndexOf(runs[j], k)] == v
  }

  /** A member's place in its run's id list is its place in the run. */
  lemma IdIndex(tiles: seq<Blank>, sums: seq<Sum>, j: nat, t: Blank)
    requires Linked(tiles, sums) && j < |sums| && t.id < |tiles| && tiles[t.id] == t
    ensures t.id in RunIds(sums)[j] <==> t in sums[j].tileList
    ensures t in sums[j].tileList ==> IndexOf(RunIds(sums)[j], t.id) == IndexOf(sums[j].tileList, t)
  {
    var tl := sums[j].tileList;
    var ids := RunIds(sums)[j];
    if t.id in ids {
      var p := IndexOf(ids, t.id);
      assert tl[p] == tiles[tl[p].id];
      IndexOfUnique(tl, p);
    }
    if t in tl {
      var p := IndexOf(tl, t);
      assert ids[p] == t.id;
    }
  }

  /** The columns of a blank's sums allow `v` exactly when `AllowedBy`
      does. */
  lemma ColumnsAllow(tiles: seq<Blank>, sums: seq<Sum>, t: Blank, v: int)
    requires Board(tiles, sums) && t.id < |tiles| && tiles[t.id] == t
    ensures (forall d :: d in t.sums ==> v in d.GetValuesForTile(t)) <==> AllowedBy(v, t.id, RunIds(sums), Configs(sums))
  {
    var runs, cfgs := RunIds(sums), Configs(sums);
    if forall d :: d in t.sums ==> v in d.GetValuesForTile(t) {
      forall j | 0 <= j < |runs| && j < |cfgs| && t.id in runs[j]
        ensures exists cfg :: cfg in cfgs[j] && IndexOf(runs[j], t.id) < |cfg| && cfg[IndexOf(runs[j], t.id)] == v
      {
        IdIndex(tiles, sums, j, t);
        assert v in sums[j].GetValuesForTile(t);
      }
    }
    if AllowedBy(v, t.id, runs, cfgs) {
      forall d | d in t.sums ensures v in d.GetValuesForTile(t) {
        var j := IndexOf(sums, d);
        IdIndex(tiles, sums, j, t);
      }
    }
  }

  /** Narrowing one candidate list to the values its sums' columns allow
      keeps exactly the assignments that were supported before. */
  lemma NarrowKeepsSupport(tiles: seq<Blank>, sums: seq<Sum>, oldDoms: seq<seq<int>>, i: nat)
    requires Board(tiles, sums)
    requires |oldDoms| == |tiles| && i < |tiles|
    requires forall k :: 0 <= k < |tiles| && k != i ==> tiles[k].possibleValues == oldDoms[k]
    requires forall v :: v in tiles[i].possibleValues ==> v in oldDoms[i]
    requires forall v :: v in oldDoms[i] && (forall d :: d in tiles[i].sums ==> v in d.GetValuesForTile(tiles[i]))
               ==> v in tiles[i].possibleValues
    ensures forall a :: Supported(a, tiles, sums) <==> SupportedBy(a, oldDoms, RunIds(sums), Configs(sums))
  {
    forall a | SupportedBy(a, oldDoms, RunIds(sums), Configs(sums))
      ensures Supported(a, tiles, sums)
    {
      NarrowedSupported(tiles, sums, oldDoms, i, a);
    }
    forall a | Supported(a, tiles, sums)
      ensures SupportedBy(a, oldDoms, RunIds(sums), Configs(sums))
    {
      ShrunkSupported(DomainsOf(tiles), oldDoms, RunIds(sums), Configs(sums), a);
    }
  }

  lemma NarrowedSupported(tiles: seq<Blank>, sums: seq<Sum>, oldDoms: seq<seq<int>>, i: nat, a: seq<int>)
    requires Board(tiles, sums)
    requires |oldDoms| == |tiles| && i < |tiles|
    requires forall k :: 0 <= k < |tiles| && k != i ==> tiles[k].possibleValues == oldDoms[k]
    requires forall v :: v in oldDoms[i] && (forall d :: d in tiles[i].sums ==> v in d.GetValuesForTile(tiles[i]))
               ==> v in tiles[i].possibleValues
    requires SupportedBy(a, oldDoms, RunIds(sums), Configs(sums))
    ensures Supported(a, tiles, sums)
  {
    var t := tiles[i];
    var x := a[i];
    assert t.id == i && x in oldDoms[i];
    forall d | d in t.sums ensures x in d.GetValuesForTile(t) {
      SupportedInColumn(a, oldDoms, tiles, sums, d, t);
    }
    assert x in t.possibleValues;
  }

  /** Shrinking candidate lists loses supported assignments, never gains
      them. */
  lemma ShrunkSupported(doms: seq<seq<int>>, oldDoms: seq<seq<int>>, runs: seq<seq<nat>>,
                        cfgs: seq<seq<seq<int>>>, a: seq<int>)
    requires |doms| == |oldDoms|
    requires forall k, v :: 0 <= k < |doms| && v in doms[k] ==> v in oldDoms[k]
    requires SupportedBy(a, doms, runs, cfgs)
    ensures SupportedBy(a, oldDoms, runs, cfgs)
  {
    forall k | 0 <= k < |a| ensures a[k] in oldDoms[k] {
      var x := a[k];
      assert x in doms[k];
    }
  }

  /** Dropping the configurations a member's candidates exclude keeps
      exactly the assignments that were supported before. */
  lemma FilterKeepsSupport(tiles: seq<Blank>, sums: seq<Sum>, oldCfgs: seq<seq<seq<int>>>, j: nat, t: Blank)
    requires Shaped(tiles, sums)
    requires |oldCfgs| == |sums| && j < |sums| && t in sums[j].tileList
    requires forall cfg :: cfg in oldCfgs[j] ==> |cfg| == |sums[j].tileList|
    requires forall k :: 0 <= k < |sums| && k != j ==> sums[k].configurations == oldCfgs[k]
    requires forall cfg :: cfg in sums[j].configurations <==>
               cfg in oldCfgs[j] && cfg[IndexOf(sums[j].tileList, t)] in t.possibleValues
    ensures forall a :: Supported(a, tiles, sums) <==> SupportedBy(a, DomainsOf(tiles), RunIds(sums), oldCfgs)
  {
    forall a ensures Supported(a, tiles, sums) <==> SupportedBy(a, DomainsOf(tiles), RunIds(sums), oldCfgs) {
      if sums[j].tileList != [] && SupportedBy(a, DomainsOf(tiles), RunIds(sums), oldCfgs) {
        FilteredKeepsPick(tiles, sums, oldCfgs, j, t, a);
      }
      SupportedUnderFilter(a, DomainsOf(tiles), RunIds(sums), oldCfgs, Configs(sums), j);
    }
  }

  /** Shrinking the configuration list of run `j` keeps an assignment
      supported exactly when its configuration of that run survives. */
  lemma SupportedUnderFilter(a: seq<int>, doms: seq<seq<int>>, runs: seq<seq<nat>>,
                             oldCfgs: seq<seq<seq<int>>>, cfgs: seq<seq<seq<int>>>, j: nat)
    requires |cfgs| == |oldCfgs| == |runs| && j < |runs|
    requires forall k :: 0 <= k < |runs| && k != j ==> cfgs[k] == oldCfgs[k]
    requires forall cfg :: cfg in cfgs[j] ==> cfg in oldCfgs[j]
    requires runs[j] != [] && SupportedBy(a, doms, runs, oldCfgs) ==> Pick(a, runs[j]) in cfgs[j]
    ensures SupportedBy(a, doms, runs, cfgs) <==> SupportedBy(a, doms, runs, oldCfgs)
  {
  }

  /** A supported assignment's configuration of the filtered sum survives
      the filter, since its entry for the member is one of its candidates. */
  lemma FilteredKeepsPick(tiles: seq<Blank>, sums: seq<Sum>, oldCfgs: seq<seq<seq<int>>>, j: nat, t: Blank,
                          a: seq<int>)
    requires Shaped(tiles, sums)
    requires |oldCfgs| == |sums| && j < |sums| && t in sums[j].tileList && sums[j].tileList != []
    requires forall cfg :: cfg in oldCfgs[j] ==> |cfg| == |sums[j].tileList|
    requires forall cfg :: cfg in sums[j].configurations <==>
               cfg in oldCfgs[j] && cfg[IndexOf(sums[j].tileList, t)] in t.possibleValues
    requires SupportedBy(a, DomainsOf(tiles), RunIds(sums), oldCfgs)
    ensures Pick(a, RunIds(sums)[j]) in sums[j].configurations
  {
    PickAtMember(a, tiles, sums, j, t);
    var x := a[t.id];
    assert x in DomainsOf(tiles)[t.id];
  }

  /** Binding a blank to one of its candidates keeps only assignments that
      were supported before. */
  lemma BindNarrowsSupport(a: seq<int>, doms: seq<seq<int>>, runs: seq<seq<nat>>, cfgs: seq<seq<seq<int>>>,
                           b: nat, v: int)
    requires b < |doms| && v in doms[b]
    requires SupportedBy(a, doms[b := [v]], runs, cfgs)
    ensures SupportedBy(a, doms, runs, cfgs) && a[b] == v
  {
    assert a[b] in doms[b := [v]][b];
  }

  /** The digits of a board whose blanks all have one candidate left. */
  function Digits(tiles: seq<Blank>): (a: seq<int>)
    reads tiles`possibleValues
    ensures |a| == |tiles|
    ensures forall i :: 0 <= i < |tiles| && tiles[i].possibleValues != [] ==> a[i] == tiles[i].possibleValues[0]
  {
    if tiles == [] then []
    else [if tiles[0].possibleValues != [] then tiles[0].possibleValues[0] else 0] + Digits(tiles[1..])
  }

  /** In a consistent network of single candidates, a configuration's
      entry for a member is that member's digit. */
  lemma EntryForced(tiles: seq<Blank>, sums: seq<Sum>, c: Sum, cfg: seq<int>, k: nat)
    requires Board(tiles, sums) && c in sums && k < |c.tileList| && cfg in c.configurations
    requires forall i :: 0 <= i < |tiles| ==> |tiles[i].possibleValues| == 1
    requires forall i, c :: 0 <= i < |tiles| && c in tiles[i].sums ==> ArcConsistent(tiles[i], c)
    ensures cfg[k] == Digits(tiles)[c.tileList[k].id]
  {
    var u := c.tileList[k];
    assert tiles[u.id] == u && c in u.sums;
    assert ArcConsistent(u, c);
    IndexOfUnique(c.tileList, k);
    assert |u.possibleValues| == 1 && cfg[k] in u.possibleValues;
  }

  /** In a consistent network of single candidates, every configuration of
      a run is the run's digits. */
  lemma ConfigurationIsDigits(tiles: seq<Blank>, sums: seq<Sum>, j: nat, cfg: seq<int>)
    requires Board(tiles, sums) && j < |sums| && cfg in sums[j].configurations
    requires forall i :: 0 <= i < |tiles| ==> |tiles[i].possibleValues| == 1
    requires forall i, c :: 0 <= i < |tiles| && c in tiles[i].sums ==> ArcConsistent(tiles[i], c)
    ensures cfg == Pick(Digits(tiles), RunIds(sums)[j])
  {
    var c := sums[j];
    assert c.Valid();
    forall k | 0 <= k < |c.tileList| ensures cfg[k] == Pick(Digits(tiles), RunIds(sums)[j])[k] {
      EntryForced(tiles, sums, c, cfg, k);
    }
  }

  /** In a consistent network of single candidates, a non-empty run is
      filled by one of its configurations. */
  lemma RunFilled(tiles: seq<Blank>, sums: seq<Sum>, j: nat)
    requires Board(tiles, sums) && j < |sums| && sums[j].tileList != []
    requires forall i :: 0 <= i < |tiles| ==> |tiles[i].possibleValues| == 1
    requires forall i, c :: 0 <= i < |tiles| && c in tiles[i].sums ==> ArcConsistent(tiles[i], c)
    ensures Pick(Digits(tiles), RunIds(sums)[j]) in sums[j].configurations
  {
    var c := sums[j];
    var t := c.tileList[0];
    assert tiles[t.id] == t && c in t.sums;
    assert ArcConsistent(t, c);
    assert t.possibleValues[0] in t.possibleValues;
    assert c.configurations != [];
    ConfigurationIsDigits(tiles, sums, j, c.configurations[0]);
  }

  /** Once every arc is consistent and every blank has one candidate, those
      candidates fill every non-empty run with one of its configurations. */
  lemma SingletonsSupported(tiles: seq<Blank>, sums: seq<Sum>)
    requires Board(tiles, sums)
    requires forall i :: 0 <= i < |tiles| ==> |tiles[i].possibleValues| == 1
    requires forall i, c :: 0 <= i < |tiles| && c in tiles[i].sums ==> ArcConsistent(tiles[i], c)
    ensures Supported(Digits(tiles), tiles, sums)
  {
    var a := Digits(tiles);
    forall j | 0 <= j < |sums| && sums[j].tileList != []
      ensures Pick(a, RunIds(sums)[j]) in sums[j].configurations
    {
      RunFilled(tiles, sums, j);
    }
    forall i | 0 <= i < |a| ensures a[i] in DomainsOf(tiles)[i] {
      assert tiles[i].possibleValues[0] in tiles[i].possibleValues;
    }
  }
}
