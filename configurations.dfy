/** The value-level part of a sum constraint (utils/Sum.py): the recursive
    enumeration of a run's digit configurations (`_findConfiguration`), the
    projection of one member's column (`getValuesForTile`) and the filter that
    drops configurations a member's domain no longer allows
    (`filterConfigFromTile`). */
module Configurations {

  /** Python's `sum` over a list of ints. */
  function Total(s: seq<int>): int
  {
    if s == [] then 0 else s[0] + Total(s[1..])
  }

  /** No digit occurs twice. */
  predicate Distinct(s: seq<int>)
  {
    forall i, j :: 0 <= i < j < |s| ==> s[i] != s[j]
  }

  /** `filter(lambda x: x not in exclude, dom)`, in the order of `dom`. */
  function Without(dom: seq<int>, exclude: seq<int>): (r: seq<int>)
    ensures forall x :: x in r <==> x in dom && x !in exclude
  {
    if dom == [] then []
    else (if dom[0] in exclude then [] else [dom[0]]) + Without(dom[1..], exclude)
  }

  /** Python's `max` of a non-empty list. */
  function MaxOf(s: seq<int>): (m: int)
    requires s != []
    ensures m in s && forall x :: x in s ==> x <= m
  {
    if |s| == 1 then s[0]
    else
      assert s == [s[0]] + s[1..];
      var rest := MaxOf(s[1..]); if s[0] >= rest then s[0] else rest
  }

  /** Python's `min` of a non-empty list. */
  function MinOf(s: seq<int>): (m: int)
    requires s != []
    ensures m in s && forall x :: x in s ==> m <= x
  {
    if |s| == 1 then s[0]
    else
      assert s == [s[0]] + s[1..];
      var rest := MinOf(s[1..]); if s[0] <= rest then s[0] else rest
  }

  /** `valid_tileList`: each remaining member's candidates minus the digits
      already used earlier in the configuration. */
  function Candidates(doms: seq<seq<int>>, exclude: seq<int>): (valid: seq<seq<int>>)
    ensures |valid| == |doms|
    ensures forall k :: 0 <= k < |doms| ==> valid[k] == Without(doms[k], exclude)
    ensures forall k, x :: 0 <= k < |doms| ==> (x in valid[k] <==> x in doms[k] && x !in exclude)
  {
    seq(|doms|, k requires 0 <= k < |doms| => Without(doms[k], exclude))
  }

  /** `[max(valid_tile) for valid_tile in valid_tileList]` */
  function Maxes(valid: seq<seq<int>>): seq<int>
    requires forall k :: 0 <= k < |valid| ==> valid[k] != []
  {
    seq(|valid|, k requires 0 <= k < |valid| && valid[k] != [] => MaxOf(valid[k]))
  }

  /** `[min(valid_tile) for valid_tile in valid_tileList]` */
  function Mins(valid: seq<seq<int>>): seq<int>
    requires forall k :: 0 <= k < |valid| ==> valid[k] != []
  {
    seq(|valid|, k requires 0 <= k < |valid| && valid[k] != [] => MinOf(valid[k]))
  }

  /** `[candidate] + s` for every `s` of a list of configurations. */
  function Prepend(c: int, ss: seq<seq<int>>): seq<seq<int>>
  {
    seq(|ss|, k requires 0 <= k < |ss| => [c] + ss[k])
  }

  /** `Sum._findConfiguration(value, tileList, exclude)`, with the members'
      candidate lists `doms` standing for `tileList`: every digit sequence,
      one entry per member and in member order, that the recursion yields. */
  function FindConfigurations(value: int, doms: seq<seq<int>>, exclude: seq<int>): seq<seq<int>>
    decreases |doms|, 1, 0
  {
    var found := if value == 0 && doms == [] then [[]] else [];
    if doms == [] then found
    else
      var valid := Candidates(doms, exclude);
      if !Viable(value, valid) then []
      else Extend(value, doms, exclude, valid[0])
  }

  /** None of the three early returns of `_findConfiguration` fires: every
      member has a candidate left, the largest candidates reach `value` and
      the smallest do not exceed it. */
  predicate Viable(value: int, valid: seq<seq<int>>)
  {
    && (forall k :: 0 <= k < |valid| ==> valid[k] != [])
    && Total(Maxes(valid)) >= value
    && Total(Mins(valid)) <= value
  }

  /** The loop `for candidate in valid_tileList[0]` of `_findConfiguration`:
      the configurations that start with each candidate, in candidate order. */
  function Extend(value: int, doms: seq<seq<int>>, exclude: seq<int>, cands: seq<int>): seq<seq<int>>
    requires doms != []
    decreases |doms|, 0, |cands|
  {
    if cands == [] then []
    else
      Prepend(cands[0], FindConfigurations(value - cands[0], doms[1..], exclude + [cands[0]]))
      + Extend(value, doms, exclude, cands[1..])
  }

  /** What a configuration of a run is: one entry per member, taken from that
      member's candidates, pairwise distinct, avoiding `exclude`, adding up to
      `value`. */
  ghost predicate IsConfiguration(cfg: seq<int>, value: int, doms: seq<seq<int>>, exclude: seq<int>)
  {
    && |cfg| == |doms|
    && Distinct(cfg)
    && Total(cfg) == value
    && (forall i :: 0 <= i < |cfg| ==> cfg[i] in doms[i] && cfg[i] !in exclude)
  }

  lemma {:induction false} TotalMonotone(a: seq<int>, b: seq<int>)
    requires |a| == |b|
    requires forall k :: 0 <= k < |a| ==> a[k] <= b[k]
    ensures Total(a) <= Total(b)
  {
    if a != [] {
      TotalMonotone(a[1..], b[1..]);
    }
  }

  /** Soundness: everything the enumeration yields is a configuration. */
  lemma {:induction false} FindSound(value: int, doms: seq<seq<int>>, exclude: seq<int>)
    ensures forall cfg :: cfg in FindConfigurations(value, doms, exclude) ==>
              IsConfiguration(cfg, value, doms, exclude)
    decreases |doms|, 1, 0
  {
    if doms != [] {
      var valid := Candidates(doms, exclude);
      if Viable(value, valid) {
        ExtendSound(value, doms, exclude, valid[0]);
      }
    }
  }

  lemma {:induction false} ExtendSound(value: int, doms: seq<seq<int>>, exclude: seq<int>, cands: seq<int>)
    requires doms != []
    requires forall c :: c in cands ==> c in doms[0] && c !in exclude
    ensures forall cfg :: cfg in Extend(value, doms, exclude, cands) ==>
              IsConfiguration(cfg, value, doms, exclude)
    decreases |doms|, 0, |cands|
  {
    if cands != [] {
      var c := cands[0];
      var tails := FindConfigurations(value - c, doms[1..], exclude + [c]);
      FindSound(value - c, doms[1..], exclude + [c]);
      ExtendSound(value, doms, exclude, cands[1..]);
      forall cfg | cfg in Prepend(c, tails)
        ensures IsConfiguration(cfg, value, doms, exclude)
      {
        var k :| 0 <= k < |tails| && cfg == [c] + tails[k];
        var rest := tails[k];
        assert IsConfiguration(rest, value - c, doms[1..], exclude + [c]);
        assert cfg[1..] == rest;
        forall i, j | 0 <= i < j < |cfg| ensures cfg[i] != cfg[j] {
          if i == 0 {
            assert cfg[j] == rest[j - 1] && rest[j - 1] !in exclude + [c];
          } else {
            assert cfg[i] == rest[i - 1] && cfg[j] == rest[j - 1];
          }
        }
        forall i | 0 <= i < |cfg| ensures cfg[i] in doms[i] && cfg[i] !in exclude {
          if i > 0 {
            assert cfg[i] == rest[i - 1] && rest[i - 1] !in exclude + [c];
          }
        }
      }
    }
  }

  /** Dropping the first entry of a configuration leaves a configuration of
      the remaining members, for the clue minus that entry, with the entry
      excluded. */
  lemma RestIsConfiguration(cfg: seq<int>, value: int, doms: seq<seq<int>>, exclude: seq<int>)
    requires doms != []
    requires IsConfiguration(cfg, value, doms, exclude)
    ensures IsConfiguration(cfg[1..], value - cfg[0], doms[1..], exclude + [cfg[0]])
  {
    var c, rest := cfg[0], cfg[1..];
    assert Total(cfg) == c + Total(rest);
    forall i, j | 0 <= i < j < |rest| ensures rest[i] != rest[j] {
      assert rest[i] == cfg[i + 1] && rest[j] == cfg[j + 1];
    }
    forall i | 0 <= i < |rest| ensures rest[i] in doms[1..][i] && rest[i] !in exclude + [c] {
      assert rest[i] == cfg[i + 1] && cfg[0] != cfg[i + 1];
    }
  }

  /** When a configuration exists, none of the three prunes fires. */
  lemma PrunesPass(cfg: seq<int>, value: int, doms: seq<seq<int>>, exclude: seq<int>)
    requires doms != []
    requires IsConfiguration(cfg, value, doms, exclude)
    ensures Viable(value, Candidates(doms, exclude))
    ensures cfg[0] in Candidates(doms, exclude)[0]
  {
    var valid := Candidates(doms, exclude);
    assert forall k :: 0 <= k < |valid| ==> cfg[k] in valid[k];
    TotalMonotone(cfg, Maxes(valid));
    TotalMonotone(Mins(valid), cfg);
  }

  /** Completeness: every configuration is yielded; the empty-candidate and
      the max-sum/min-sum prunes only cut branches that hold none. */
  lemma {:induction false} FindComplete(value: int, doms: seq<seq<int>>, exclude: seq<int>, cfg: seq<int>)
    requires IsConfiguration(cfg, value, doms, exclude)
    ensures cfg in FindConfigurations(value, doms, exclude)
    decreases |doms|
  {
    if doms == [] {
      assert cfg == [];
    } else {
      RestIsConfiguration(cfg, value, doms, exclude);
      FindComplete(value - cfg[0], doms[1..], exclude + [cfg[0]], cfg[1..]);
      ConfigurationStep(cfg, value, doms, exclude);
    }
  }

  /** A configuration whose tail is yielded for the remaining members is
      yielded itself. */
  lemma ConfigurationStep(cfg: seq<int>, value: int, doms: seq<seq<int>>, exclude: seq<int>)
    requires doms != [] && IsConfiguration(cfg, value, doms, exclude)
    requires cfg[1..] in FindConfigurations(value - cfg[0], doms[1..], exclude + [cfg[0]])
    ensures cfg in FindConfigurations(value, doms, exclude)
  {
    var c, rest := cfg[0], cfg[1..];
    assert cfg == [c] + rest;
    PrunesPass(cfg, value, doms, exclude);
    FirstEntryStep(c, rest, value, doms, exclude);
  }

  /** One level of the recursion: when no prune fires, a candidate of the
      first member followed by a configuration yielded for the remaining
      members is yielded itself. */
  lemma FirstEntryStep(c: int, rest: seq<int>, value: int, doms: seq<seq<int>>, exclude: seq<int>)
    requires doms != [] && Viable(value, Candidates(doms, exclude))
    requires c in Candidates(doms, exclude)[0]
    requires rest in FindConfigurations(value - c, doms[1..], exclude + [c])
    ensures [c] + rest in FindConfigurations(value, doms, exclude)
  {
    FindUnfolds(value, doms, exclude);
    ExtendComplete(value, doms, exclude, Candidates(doms, exclude)[0], c, rest);
  }

  /** When no prune fires, the configurations are those built from the first
      member's candidates. */
  lemma FindUnfolds(value: int, doms: seq<seq<int>>, exclude: seq<int>)
    requires doms != []
    requires Viable(value, Candidates(doms, exclude))
    ensures FindConfigurations(value, doms, exclude) == Extend(value, doms, exclude, Candidates(doms, exclude)[0])
  {
  }

  lemma {:induction false} ExtendComplete(value: int, doms: seq<seq<int>>, exclude: seq<int>, cands: seq<int>,
                                          c: int, rest: seq<int>)
    requires doms != []
    requires c in cands
    requires rest in FindConfigurations(value - c, doms[1..], exclude + [c])
    ensures [c] + rest in Extend(value, doms, exclude, cands)
    decreases |cands|
  {
    if cands[0] == c {
      var tails := FindConfigurations(value - c, doms[1..], exclude + [c]);
      var k :| 0 <= k < |tails| && tails[k] == rest;
      assert Prepend(c, tails)[k] == [c] + rest;
    } else {
      ExtendComplete(value, doms, exclude, cands[1..], c, rest);
    }
  }

  /** Soundness and completeness together, for a fresh enumeration. */
  lemma FindExactly(value: int, doms: seq<seq<int>>)
    ensures forall cfg :: cfg in FindConfigurations(value, doms, []) <==> IsConfiguration(cfg, value, doms, [])
  {
    FindSound(value, doms, []);
    forall cfg | IsConfiguration(cfg, value, doms, [])
      ensures cfg in FindConfigurations(value, doms, [])
    {
      FindComplete(value, doms, [], cfg);
    }
  }

  /** A run without members has the single empty configuration when its clue
      is 0 and none otherwise. */
  lemma EmptyRunConfigurations(value: int, exclude: seq<int>)
    ensures FindConfigurations(value, [], exclude) == if value == 0 then [[]] else []
  {
  }

  /** `[config[i] for config in configurations]` */
  function Column(configs: seq<seq<int>>, idx: nat): (r: seq<int>)
    requires forall cfg :: cfg in configs ==> idx < |cfg|
    ensures |r| == |configs|
    ensures forall v :: v in r <==> exists cfg :: cfg in configs && cfg[idx] == v
  {
    var r := seq(|configs|, k requires 0 <= k < |configs| => configs[k][idx]);
    assert forall k :: 0 <= k < |configs| ==> r[k] == configs[k][idx];
    r
  }

  /** `list(filter(lambda x: x[idx] in dom, configurations))` */
  function KeepWhere(configs: seq<seq<int>>, idx: nat, dom: seq<int>): (r: seq<seq<int>>)
    requires forall cfg :: cfg in configs ==> idx < |cfg|
    ensures |r| <= |configs|
    ensures forall cfg :: cfg in r <==> cfg in configs && cfg[idx] in dom
  {
    if configs == [] then []
    else (if configs[0][idx] in dom then [configs[0]] else []) + KeepWhere(configs[1..], idx, dom)
  }

  /** The filter keeps the order of the configurations: it distributes over
      concatenation. */
  lemma {:induction false} KeepWhereAppend(a: seq<seq<int>>, b: seq<seq<int>>, idx: nat, dom: seq<int>)
    requires forall cfg :: cfg in a + b ==> idx < |cfg|
    ensures KeepWhere(a + b, idx, dom) == KeepWhere(a, idx, dom) + KeepWhere(b, idx, dom)
  {
    if a != [] {
      assert (a + b)[1..] == a[1..] + b;
      KeepWhereAppend(a[1..], b, idx, dom);
    } else {
      assert a + b == b;
    }
  }

  /** The filter reports a change exactly when some configuration is dropped:
      the result equals the input iff every entry at `idx` is in `dom`, and it
      is strictly shorter otherwise. */
  lemma {:induction false} KeepWhereChanged(configs: seq<seq<int>>, idx: nat, dom: seq<int>)
    requires forall cfg :: cfg in configs ==> idx < |cfg|
    ensures KeepWhere(configs, idx, dom) == configs <==> forall cfg :: cfg in configs ==> cfg[idx] in dom
    ensures KeepWhere(configs, idx, dom) != configs ==> |KeepWhere(configs, idx, dom)| < |configs|
  {
    if configs != [] {
      KeepWhereChanged(configs[1..], idx, dom);
      assert configs == [configs[0]] + configs[1..];
    }
  }

  /** Filtering twice with the same domain removes nothing more. */
  lemma KeepWhereIdempotent(configs: seq<seq<int>>, idx: nat, dom: seq<int>)
    requires forall cfg :: cfg in configs ==> idx < |cfg|
    ensures KeepWhere(KeepWhere(configs, idx, dom), idx, dom) == KeepWhere(configs, idx, dom)
  {
    KeepWhereChanged(KeepWhere(configs, idx, dom), idx, dom);
  }
}
