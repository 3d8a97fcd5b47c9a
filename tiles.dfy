/** The entries of a Kakuro board (utils/KakuroTiles.py) and the sum
    constraint over a run of them (utils/Sum.py): a `Blank` holds its
    candidate list and the sums it belongs to, a `Sum` its clue, its members
    and the configurations still allowed, a `Brick` the clues it carries. */
module Tiles {
  import opened Configurations
  import opened Domains

  datatype Option<T> = None | Some(value: T)

  /** A clue counts only when Python finds it truthy: present and not 0. */
  predicate Truthy(clue: Option<int>)
  {
    clue.Some? && clue.value != 0
  }

  /** The `value` argument of `Blank.__init__`: absent, a list of candidates,
      or a single int. */
  datatype InitialValue = NoValue | Candidates(values: seq<int>) | Single(digit: int)

  /** The outcome of `_setValue`: the value was bound, or `ValueError`. */
  datatype SetOutcome = Bound | ValueError

  /** The candidate list a new blank starts with. */
  function InitialDomain(init: InitialValue): (r: seq<int>)
    ensures init.NoValue? ==> StrictlyIncreasing(r) && forall v :: v in r <==> 1 <= v <= 9
    ensures init.Candidates? ==> r == init.values
    ensures init.Single? ==> r == [init.digit]
  {
    match init
    case NoValue => [1, 2, 3, 4, 5, 6, 7, 8, 9]
    case Candidates(values) => values
    case Single(digit) => [digit]
  }

  /** No element occurs twice. */
  predicate NoDuplicates<T(==)>(s: seq<T>)
  {
    forall i, j :: 0 <= i < j < |s| ==> s[i] != s[j]
  }

  /** `list.index`: the first position of `x`. */
  function IndexOf<T(==)>(s: seq<T>, x: T): (r: nat)
    requires x in s
    ensures r < |s| && s[r] == x && x !in s[..r]
  {
    if s[0] == x then 0
    else
      assert s == [s[0]] + s[1..];
      var r := 1 + IndexOf(s[1..], x);
      assert s[..r] == [s[0]] + s[1..][..r - 1];
      r
  }

  /** In a list without duplicates the first position is the only one. */
  lemma IndexOfUnique<T>(s: seq<T>, k: nat)
    requires NoDuplicates(s) && k < |s|
    ensures IndexOf(s, s[k]) == k
  {
  }

  /** The process-wide counter `Blank.id` that numbers blanks created without
      a `specificId`. */
  class IdCounter {
    var next: nat

    constructor ()
      ensures next == 0
    {
      next := 0;
    }
  }

  /** A square to be filled in. */
  class Blank {
    var possibleValues: seq<int>
    var sums: seq<Sum>
    const id: nat

    /** `Blank(value)`: numbered by the shared counter, which moves on. */
    constructor (init: InitialValue, counter: IdCounter)
      modifies counter
      ensures possibleValues == InitialDomain(init) && sums == []
      ensures id == old(counter.next) && counter.next == old(counter.next) + 1
    {
      possibleValues := InitialDomain(init);
      sums := [];
      id := counter.next;
      new;
      counter.next := counter.next + 1;
    }

    /** `Blank(value, specificId)`: the counter is not touched. */
    constructor WithId(init: InitialValue, specificId: nat)
      ensures possibleValues == InitialDomain(init) && sums == [] && id == specificId
    {
      possibleValues := InitialDomain(init);
      sums := [];
      id := specificId;
    }

    /** `_setValue`: binds the blank to one of its candidates; any other
        value raises `ValueError` and changes nothing. */
    method SetValue(value: int) returns (outcome: SetOutcome)
      modifies this`possibleValues
      ensures outcome == Bound <==> value in old(possibleValues)
      ensures outcome == Bound ==> possibleValues == [value]
      ensures outcome == ValueError ==> possibleValues == old(possibleValues)
    {
      if value in possibleValues {
        possibleValues := [value];
        outcome := Bound;
      } else {
        outcome := ValueError;
      }
    }

    /** `recordSum`: registers a sum once; earlier entries keep their
        places and the list stays free of duplicates. */
    method RecordSum(s: Sum)
      modifies this`sums
      ensures s in sums
      ensures sums == if s in old(sums) then old(sums) else old(sums) + [s]
      ensures NoDuplicates(old(sums)) ==> NoDuplicates(sums)
    {
      if s !in sums {
        sums := sums + [s];
      }
    }

    /** `filterValuesFromSums`: keeps the candidates that every sum of the
        blank still allows, as an ascending list, and reports whether the
        list changed. */
    method FilterValuesFromSums() returns (changed: bool)
      requires forall d :: d in sums ==> this in d.tileList && d.Valid()
      modifies this`possibleValues
      ensures possibleValues == Narrowed(old(possibleValues), ColumnsFor(sums, this))
      ensures StrictlyIncreasing(possibleValues) && |possibleValues| <= |old(possibleValues)|
      ensures forall v :: v in possibleValues <==>
                v in old(possibleValues) && forall d :: d in sums ==> v in d.GetValuesForTile(this)
      ensures changed <==> possibleValues != old(possibleValues)
    {
      var cols := ColumnsFor(sums, this);
      var newPossibleValues := Narrowed(possibleValues, cols);
      forall v | v in newPossibleValues
        ensures forall d :: d in sums ==> v in d.GetValuesForTile(this)
      {
        forall d | d in sums ensures v in d.GetValuesForTile(this) {
          var k := IndexOf(sums, d);
          assert v in cols[k];
        }
      }
      changed := newPossibleValues != possibleValues;
      possibleValues := newPossibleValues;
    }

    /** `deepcopy`: same id, an independent copy of the candidates, and no
        sums yet (the copied sums register themselves). */
    method DeepCopy() returns (copy: Blank)
      ensures fresh(copy)
      ensures copy.id == id && copy.possibleValues == possibleValues && copy.sums == []
    {
      copy := new Blank.WithId(Candidates(possibleValues), id);
    }
  }

  /** `[set(sum.getValuesForTile(t)) for sum in sums]` */
  function ColumnsFor(sums: seq<Sum>, t: Blank): (cols: seq<seq<int>>)
    requires forall d :: d in sums ==> t in d.tileList && d.Valid()
    reads sums`configurations
    ensures |cols| == |sums|
    ensures forall k :: 0 <= k < |sums| ==> cols[k] == sums[k].GetValuesForTile(t)
  {
    if sums == [] then [] else [sums[0].GetValuesForTile(t)] + ColumnsFor(sums[1..], t)
  }

  /** The candidate lists of a run's members, in member order. */
  function DomainsOf(tileList: seq<Blank>): (doms: seq<seq<int>>)
    reads tileList`possibleValues
    ensures |doms| == |tileList|
    ensures forall k :: 0 <= k < |tileList| ==> doms[k] == tileList[k].possibleValues
  {
    if tileList == [] then [] else [tileList[0].possibleValues] + DomainsOf(tileList[1..])
  }

  /** A clue with the run of blanks it constrains. */
  class Sum {
    const value: int
    const tileList: seq<Blank>
    var configurations: seq<seq<int>>

    /** Every configuration has one entry per member, distinct entries, and
        adds up to the clue. */
    ghost predicate Valid()
      reads this`configurations
    {
      forall cfg :: cfg in configurations ==>
        |cfg| == |tileList| && Distinct(cfg) && Total(cfg) == value
    }

    /** `Sum(value, tileList)`: enumerates the configurations over the
        members' current candidates and registers itself with each member. */
    constructor (value: int, tileList: seq<Blank>)
      modifies tileList`sums
      ensures this.value == value && this.tileList == tileList
      ensures configurations == FindConfigurations(value, old(DomainsOf(tileList)), [])
      ensures forall cfg :: cfg in configurations <==> IsConfiguration(cfg, value, old(DomainsOf(tileList)), [])
      ensures Valid()
      ensures forall t :: t in tileList ==> t.sums == old(t.sums) + [this]
    {
      this.value := value;
      this.tileList := tileList;
      configurations := FindConfigurations(value, DomainsOf(tileList), []);
      FindExactly(value, DomainsOf(tileList));
      new;
      RegisterWithMembers();
    }

    /** `Sum(value, tileList, isCopy=True)`: no enumeration; the copier
        fills in the configurations afterwards. */
    constructor Copy(value: int, tileList: seq<Blank>)
      modifies tileList`sums
      ensures this.value == value && this.tileList == tileList && configurations == []
      ensures forall t :: t in tileList ==> t.sums == old(t.sums) + [this]
    {
      this.value := value;
      this.tileList := tileList;
      configurations := [];
      new;
      RegisterWithMembers();
    }

    /** `for tile in tileList: tile.recordSum(self)` for a sum no member
        knows yet. */
    method RegisterWithMembers()
      requires forall t :: t in tileList ==> this !in t.sums
      modifies tileList`sums
      ensures forall t :: t in tileList ==> t.sums == old(t.sums) + [this]
    {
      var k := 0;
      while k < |tileList|
        invariant 0 <= k <= |tileList|
        invariant forall t :: t in tileList[..k] ==> t.sums == old(t.sums) + [this]
        invariant forall t :: t in tileList && t !in tileList[..k] ==> t.sums == old(t.sums)
      {
        var t := tileList[k];
        t.RecordSum(this);
        assert tileList[..k + 1] == tileList[..k] + [t];
        k := k + 1;
      }
      assert tileList[..k] == tileList;
    }

    /** `getValuesForTile`: the member's column, one entry per
        configuration, in order. */
    function GetValuesForTile(t: Blank): (r: seq<int>)
      requires t in tileList && Valid()
      reads this`configurations
      ensures |r| == |configurations|
      ensures forall k :: 0 <= k < |configurations| ==> r[k] == configurations[k][IndexOf(tileList, t)]
      ensures forall v :: v in r <==> exists cfg :: cfg in configurations && cfg[IndexOf(tileList, t)] == v
    {
      Column(configurations, IndexOf(tileList, t))
    }

    /** `filterConfigFromTile`: drops the configurations whose entry for
        the member is no longer a candidate, keeping the order, and reports
        whether any was dropped. */
    method FilterConfigFromTile(t: Blank) returns (changed: bool)
      requires t in tileList && Valid()
      modifies this`configurations
      ensures configurations == KeepWhere(old(configurations), IndexOf(tileList, t), t.possibleValues)
      ensures Valid()
      ensures forall cfg :: cfg in configurations <==>
                cfg in old(configurations) && cfg[IndexOf(tileList, t)] in t.possibleValues
      ensures changed <==> exists cfg :: cfg in old(configurations) && cfg[IndexOf(tileList, t)] !in t.possibleValues
      ensures changed <==> configurations != old(configurations)
      ensures changed ==> |configurations| < |old(configurations)|
    {
      var idx := IndexOf(tileList, t);
      var newConfigurations := KeepWhere(configurations, idx, t.possibleValues);
      KeepWhereChanged(configurations, idx, t.possibleValues);
      changed := newConfigurations != configurations;
      configurations := newConfigurations;
    }

    /** `deepcopy(memo)`: a sum over the members' copies, looked up by id,
        with the configurations copied rather than recomputed. */
    method DeepCopy(memo: seq<Blank>) returns (copy: Sum)
      requires forall t :: t in tileList ==> t.id < |memo|
      requires Valid()
      modifies memo`sums
      ensures fresh(copy)
      ensures copy.value == value && copy.configurations == configurations
      ensures |copy.tileList| == |tileList|
      ensures forall k :: 0 <= k < |tileList| ==> copy.tileList[k] == memo[tileList[k].id]
      ensures copy.Valid()
      ensures forall t :: t in copy.tileList ==> t.sums == old(t.sums) + [copy]
      ensures forall t :: t in memo && t !in copy.tileList ==> t.sums == old(t.sums)
    {
      var copyTiles := seq(|tileList|, k requires 0 <= k < |tileList| => memo[tileList[k].id]);
      copy := new Sum.Copy(value, copyTiles);
      copy.configurations := configurations;
    }
  }

  /** A solid square, possibly carrying a vertical and a horizontal clue. */
  class Brick {
    const verticalSum: Option<int>
    const horizontalSum: Option<int>

    constructor (v: Option<int>, h: Option<int>)
      ensures verticalSum == v && horizontalSum == h
    {
      verticalSum := v;
      horizontalSum := h;
    }

    /** `deepcopy`: a new brick with the same clues. */
    method DeepCopy() returns (copy: Brick)
      ensures fresh(copy)
      ensures copy.verticalSum == verticalSum && copy.horizontalSum == horizontalSum
    {
      copy := new Brick(verticalSum, horizontalSum);
    }
  }
}
