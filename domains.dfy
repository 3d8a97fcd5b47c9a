/** The value-level part of a cell's candidate list (utils/KakuroTiles.py,
    `Blank.filterValuesFromSums`): the old candidates that every column of
    the cell's runs still allows, without repetitions. Where Python's
    `list(set(...))` follows the set's hash-table order, the model lists the
    candidates in ascending order. */
module Domains {

  predicate StrictlyIncreasing(s: seq<int>)
  {
    forall i, j :: 0 <= i < j < |s| ==> s[i] < s[j]
  }

  /** Every candidate list of a network is ascending, as node consistency
      leaves them. */
  predicate AllAscending(doms: seq<seq<int>>)
  {
    forall i :: 0 <= i < |doms| ==> StrictlyIncreasing(doms[i])
  }

  /** `v` occurs in every one of the columns. */
  predicate InAll(v: int, cols: seq<seq<int>>)
  {
    forall k :: 0 <= k < |cols| ==> v in cols[k]
  }

  /** The entries of `dom` that every column allows, in their old order. */
  function Keep(dom: seq<int>, cols: seq<seq<int>>): (r: seq<int>)
    ensures forall v :: v in r <==> v in dom && InAll(v, cols)
    ensures |r| <= |dom|
    ensures |r| == |dom| ==> r == dom
  {
    if dom == [] then []
    else
      var rest := Keep(dom[1..], cols);
      assert forall v :: v in dom <==> v == dom[0] || v in dom[1..];
      if InAll(dom[0], cols) then [dom[0]] + rest else rest
  }

  /** Puts `x` into an ascending list, unless it is already there. */
  function Insert(x: int, s: seq<int>): (r: seq<int>)
    requires StrictlyIncreasing(s)
    ensures StrictlyIncreasing(r)
    ensures forall v :: v in r <==> v == x || v in s
    ensures |r| <= |s| + 1
  {
    if s == [] then [x]
    else if x < s[0] then [x] + s
    else if x == s[0] then s
    else
      var rest := Insert(x, s[1..]);
      assert forall v :: v in s <==> v == s[0] || v in s[1..];
      assert forall j :: 0 <= j < |rest| ==> s[0] < rest[j] by {
        forall j | 0 <= j < |rest| ensures s[0] < rest[j] {
          assert rest[j] in rest;
        }
      }
      [s[0]] + rest
  }

  /** `list(set(s))`: the distinct entries of `s`. Python lists them in the
      set's hash-table order; the model fixes ascending order instead. */
  function Ascending(s: seq<int>): (r: seq<int>)
    ensures StrictlyIncreasing(r)
    ensures forall v :: v in r <==> v in s
    ensures |r| <= |s|
  {
    if s == [] then []
    else
      var rest := Ascending(s[1..]);
      assert forall v :: v in s <==> v == s[0] || v in s[1..];
      Insert(s[0], rest)
  }

  /** The new candidate list: `list(reduce(intersection, cols, set(dom)))`. */
  function Narrowed(dom: seq<int>, cols: seq<seq<int>>): (r: seq<int>)
    ensures StrictlyIncreasing(r)
    ensures forall v :: v in r <==> v in dom && InAll(v, cols)
    ensures |r| <= |dom|
  {
    Ascending(Keep(dom, cols))
  }

  /** A list's weight in the propagation measure: its length, plus one while
      it is not yet an ascending list of distinct values. */
  ghost function DomainWeight(dom: seq<int>): nat
  {
    |dom| + if StrictlyIncreasing(dom) then 0 else 1
  }

  /** An ascending list of distinct values is determined by its elements. */
  lemma {:induction false} UniqueAscending(a: seq<int>, b: seq<int>)
    requires StrictlyIncreasing(a) && StrictlyIncreasing(b)
    requires forall v :: v in a <==> v in b
    ensures a == b
  {
    assert a != [] ==> a[0] in a;
    assert b != [] ==> b[0] in b;
    if a != [] && b != [] {
      assert a[0] in b && b[0] in a;
      assert a[0] == b[0];
      assert forall v :: v in a[1..] <==> v in a && v != a[0];
      assert forall v :: v in b[1..] <==> v in b && v != b[0];
      UniqueAscending(a[1..], b[1..]);
      assert a == [a[0]] + a[1..] && b == [b[0]] + b[1..];
    }
  }

  /** Narrowing an ascending list by columns that allow all of it gives the
      same list back. */
  lemma NarrowedStable(dom: seq<int>, cols: seq<seq<int>>)
    requires StrictlyIncreasing(dom)
    requires forall v :: v in dom ==> InAll(v, cols)
    ensures Narrowed(dom, cols) == dom
  {
    UniqueAscending(Narrowed(dom, cols), dom);
  }

  /** A narrowed list that differs from the old one weighs strictly less:
      either it is shorter, or the old list was not yet ascending. */
  lemma NarrowedWeighsLess(dom: seq<int>, cols: seq<seq<int>>)
    ensures Narrowed(dom, cols) != dom ==> |Narrowed(dom, cols)| < DomainWeight(dom)
  {
    var kept := Keep(dom, cols);
    if Narrowed(dom, cols) != dom && StrictlyIncreasing(dom) && |Narrowed(dom, cols)| == |dom| {
      assert kept == dom;
      UniqueAscending(Narrowed(dom, cols), dom);
    }
  }
}
