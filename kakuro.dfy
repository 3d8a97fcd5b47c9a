/** The board itself (KakuroSolver.py): a grid of bricks and blanks, the sums
    read off it in reading order, and `solve`, which searches a copy of the
    network and returns the digit assignments it finds. */
module Kakuro {
  import opened Configurations
  import opened Domains
  import opened Tiles
  import opened Network
  import opened Propagation
  import opened Solver

  /** A square of the board: a brick with its clues or a blank. */
  datatype Cell = BrickCell(brick: Brick) | BlankCell(blank: Blank)

  /** All rows have the same length. */
  predicate Rectangular(board: seq<seq<Cell>>)
  {
    forall x :: 0 <= x < |board| ==> |board[x]| == |board[0]|
  }

  /** The members `createSum` collects from `cells`: the blanks before the
      first brick. */
  function RunOf(cells: seq<Cell>): (run: seq<Blank>)
    ensures |run| <= |cells|
    ensures forall k :: 0 <= k < |run| ==> cells[k] == BlankCell(run[k])
    ensures |run| == |cells| || cells[|run|].BrickCell?
  {
    if cells == [] || cells[0].BrickCell? then [] else [cells[0].blank] + RunOf(cells[1..])
  }

  /** `[board[i][y] for i in range(x+1, len(board))]`; the ensures spell
      the comprehension out cell by cell for the lemmas about vertical runs. */
  function Below(board: seq<seq<Cell>>, x: nat, y: nat): (col: seq<Cell>)
    requires Rectangular(board) && x < |board| && y < |board[x]|
    ensures |col| == |board| - x - 1
    ensures forall i :: 0 <= i < |col| ==> col[i] == board[x + 1 + i][y]
  {
    seq(|board| - x - 1, i requires 0 <= i < |board| - x - 1 => board[x + 1 + i][y])
  }

  /** `row[y+1:]`: the cells right of column `y` in row `x`; the ensures
      spell the slice out cell by cell for the lemmas about horizontal runs. */
  function Right(board: seq<seq<Cell>>, x: nat, y: nat): (row: seq<Cell>)
    requires x < |board| && y < |board[x]|
    ensures |row| == |board[x]| - y - 1
    ensures forall i :: 0 <= i < |row| ==> row[i] == board[x][y + 1 + i]
  {
    board[x][y + 1..]
  }

  /** The run a clue opens over `cells`: one when the clue is truthy,
      none otherwise. */
  function ClueRuns(clue: Option<int>, cells: seq<Cell>): seq<(int, seq<Blank>)>
  {
    if Truthy(clue) then [(clue.value, RunOf(cells))] else []
  }

  /** The runs the cell at row `x`, column `y` opens, as (clue, members):
      none for a blank; for a brick the vertical run first, then the
      horizontal one, each only when its clue is truthy. */
  function CellRuns(board: seq<seq<Cell>>, x: nat, y: nat): seq<(int, seq<Blank>)>
    requires Rectangular(board) && x < |board| && y < |board[x]|
  {
    match board[x][y]
    case BlankCell(_) => []
    case BrickCell(brick) =>
      ClueRuns(brick.verticalSum, Below(board, x, y)) + ClueRuns(brick.horizontalSum, Right(board, x, y))
  }

  /** The runs opened by the first `n` cells of row `x`. */
  function RowRuns(board: seq<seq<Cell>>, x: nat, n: nat): seq<(int, seq<Blank>)>
    requires Rectangular(board) && x < |board| && n <= |board[x]|
  {
    if n == 0 then [] else RowRuns(board, x, n - 1) + CellRuns(board, x, n - 1)
  }

  /** The runs opened by the first `x` rows. */
  function RunsBefore(board: seq<seq<Cell>>, x: nat): seq<(int, seq<Blank>)>
    requires Rectangular(board) && x <= |board|
  {
    if x == 0 then [] else RunsBefore(board, x - 1) + RowRuns(board, x - 1, |board[x - 1]|)
  }

  /** Every run of the board, in reading order. */
  function Runs(board: seq<seq<Cell>>): seq<(int, seq<Blank>)>
    requires Rectangular(board)
  {
    RunsBefore(board, |board|)
  }

  /** The blanks among the first `n` cells of `row`. */
  function RowBlanks(row: seq<Cell>, n: nat): seq<Blank>
    requires n <= |row|
  {
    if n == 0 then [] else RowBlanks(row, n - 1) + (if row[n - 1].BlankCell? then [row[n - 1].blank] else [])
  }

  /** The blanks of the first `x` rows, in reading order. */
  function BlanksBefore(board: seq<seq<Cell>>, x: nat): seq<Blank>
    requires x <= |board|
  {
    if x == 0 then [] else BlanksBefore(board, x - 1) + RowBlanks(board[x - 1], |board[x - 1]|)
  }

  /** Every blank of the board, in reading order: `self.tiles`. */
  function Blanks(board: seq<seq<Cell>>): seq<Blank>
  {
    BlanksBefore(board, |board|)
  }

  /** What the constructor expects of a parsed board: rows of one length,
      and blanks numbered `0, 1, ...` in reading order, so that a blank's id
      is its index in `self.tiles`. */
  predicate Parsed(board: seq<seq<Cell>>)
  {
    && Rectangular(board)
    && Indexed(Blanks(board))
  }

  /** The position of the cell at row `x`, column `y` among the blanks, when
      it is one. */
  function BlankIndex(board: seq<seq<Cell>>, x: nat, y: nat): nat
    requires x < |board| && y <= |board[x]|
  {
    |BlanksBefore(board, x)| + |RowBlanks(board[x], y)|
  }

  lemma {:induction false} RowBlanksGrow(row: seq<Cell>, m: nat, n: nat)
    requires m <= n <= |row|
    ensures |RowBlanks(row, m)| <= |RowBlanks(row, n)|
    ensures RowBlanks(row, m) == RowBlanks(row, n)[..|RowBlanks(row, m)|]
    decreases n
  {
    if m < n {
      RowBlanksGrow(row, m, n - 1);
    }
  }

  lemma {:induction false} BlanksBeforeGrow(board: seq<seq<Cell>>, m: nat, n: nat)
    requires m <= n <= |board|
    ensures |BlanksBefore(board, m)| <= |BlanksBefore(board, n)|
    ensures BlanksBefore(board, m) == BlanksBefore(board, n)[..|BlanksBefore(board, m)|]
    decreases n
  {
    if m < n {
      BlanksBeforeGrow(board, m, n - 1);
    }
  }

  /** Later rows never have fewer blanks before them. */
  lemma BlanksBeforeLonger(board: seq<seq<Cell>>, m: nat, n: nat)
    requires m <= n <= |board|
    ensures |BlanksBefore(board, m)| <= |BlanksBefore(board, n)|
  {
    BlanksBeforeGrow(board, m, n);
  }

  /** A blank cell sits at its `BlankIndex` in `Blanks(board)`. */
  lemma BlankAt(board: seq<seq<Cell>>, x: nat, y: nat)
    requires x < |board| && y < |board[x]| && board[x][y].BlankCell?
    ensures BlankIndex(board, x, y) < |BlanksBefore(board, x + 1)| <= |Blanks(board)|
    ensures Blanks(board)[BlankIndex(board, x, y)] == board[x][y].blank
  {
    var row := board[x];
    RowBlankAt(row, y);
    var j := BlankIndex(board, x, y);
    var before := BlanksBefore(board, x + 1);
    assert before == BlanksBefore(board, x) + RowBlanks(row, |row|);
    assert j < |before| && before[j] == row[y].blank;
    BlanksBeforeGrow(board, x + 1, |board|);
    assert Blanks(board)[..|before|][j] == Blanks(board)[j];
  }

  /** Within a row, a blank cell sits at the count of blanks before it. */
  lemma RowBlankAt(row: seq<Cell>, y: nat)
    requires y < |row| && row[y].BlankCell?
    ensures |RowBlanks(row, y)| < |RowBlanks(row, |row|)|
    ensures RowBlanks(row, |row|)[|RowBlanks(row, y)|] == row[y].blank
  {
    assert RowBlanks(row, y + 1) == RowBlanks(row, y) + [row[y].blank];
    RowBlanksGrow(row, y + 1, |row|);
  }

  /** In a parsed board a blank's id is its position among the blanks; in
      particular two cells never share a blank. */
  lemma BlankId(board: seq<seq<Cell>>, x: nat, y: nat)
    requires Parsed(board) && x < |board| && y < |board[x]| && board[x][y].BlankCell?
    ensures board[x][y].blank.id == BlankIndex(board, x, y)
    ensures board[x][y].blank in Blanks(board)
  {
    BlankAt(board, x, y);
  }

  /** Every member of `run` is one of `blanks`. */
  predicate Within(run: seq<Blank>, blanks: seq<Blank>)
  {
    forall k :: 0 <= k < |run| ==> run[k] in blanks
  }

  /** A run read off the board: distinct blanks of the board. */
  predicate Fits(run: seq<Blank>, blanks: seq<Blank>)
  {
    NoDuplicates(run) && Within(run, blanks)
  }

  /** The `k`-th member of a column run is the blank `k + 1` rows below
      the clue. */
  lemma BelowMember(board: seq<seq<Cell>>, x: nat, y: nat, k: nat)
    requires Parsed(board) && x < |board| && y < |board[x]| && k < |RunOf(Below(board, x, y))|
    ensures x + 1 + k < |board| && y < |board[x + 1 + k]|
    ensures board[x + 1 + k][y] == BlankCell(RunOf(Below(board, x, y))[k]) && board[x + 1 + k][y].BlankCell?
    ensures RunOf(Below(board, x, y))[k] in Blanks(board)
    ensures RunOf(Below(board, x, y))[k].id == BlankIndex(board, x + 1 + k, y) < |BlanksBefore(board, x + 2 + k)|
  {
    assert Below(board, x, y)[k] == board[x + 1 + k][y];
    BlankId(board, x + 1 + k, y);
    BlankAt(board, x + 1 + k, y);
  }

  /** The id of the `k`-th member of a column run lies among the ids of
      its row's blanks. */
  lemma BelowRowIds(board: seq<seq<Cell>>, x: nat, y: nat, k: nat)
    requires Parsed(board) && x < |board| && y < |board[x]| && k < |RunOf(Below(board, x, y))|
    ensures x + 2 + k <= |board|
    ensures |BlanksBefore(board, x + 1 + k)| <= RunOf(Below(board, x, y))[k].id < |BlanksBefore(board, x + 2 + k)|
  {
    BelowMember(board, x, y, k);
  }

  /** Blanks whose ids fall in the ranges of successive rows, one blank
      per row, are different blanks. */
  lemma RowsApart(board: seq<seq<Cell>>, x: nat, run: seq<Blank>, k1: nat, k2: nat)
    requires x + 1 + |run| <= |board| && k1 < k2 < |run|
    requires forall k :: 0 <= k < |run| ==>
               |BlanksBefore(board, x + 1 + k)| <= run[k].id < |BlanksBefore(board, x + 2 + k)|
    ensures run[k1] != run[k2]
  {
    BlanksBeforeLonger(board, x + 2 + k1, x + 1 + k2);
  }

  /** The members of a column run are distinct blanks of the board. */
  lemma BelowRun(board: seq<seq<Cell>>, x: nat, y: nat)
    requires Parsed(board) && x < |board| && y < |board[x]|
    ensures Fits(RunOf(Below(board, x, y)), Blanks(board))
  {
    var run := RunOf(Below(board, x, y));
    forall k | 0 <= k < |run| ensures run[k] in Blanks(board) {
      BelowMember(board, x, y, k);
    }
    forall k | 0 <= k < |run|
      ensures |BlanksBefore(board, x + 1 + k)| <= run[k].id < |BlanksBefore(board, x + 2 + k)|
    {
      BelowRowIds(board, x, y, k);
    }
    forall k1, k2 | 0 <= k1 < k2 < |run| ensures run[k1] != run[k2] {
      RowsApart(board, x, run, k1, k2);
    }
  }

  /** The `k`-th member of a row run is the blank `k + 1` columns right of
      the clue. */
  lemma RightMember(board: seq<seq<Cell>>, x: nat, y: nat, k: nat)
    requires Parsed(board) && x < |board| && y < |board[x]| && k < |RunOf(Right(board, x, y))|
    ensures y + 1 + k < |board[x]|
    ensures board[x][y + 1 + k] == BlankCell(RunOf(Right(board, x, y))[k]) && board[x][y + 1 + k].BlankCell?
    ensures RunOf(Right(board, x, y))[k] in Blanks(board)
    ensures RunOf(Right(board, x, y))[k].id == BlankIndex(board, x, y + 1 + k)
  {
    assert Right(board, x, y)[k] == board[x][y + 1 + k];
    BlankId(board, x, y + 1 + k);
  }

  /** The id of the `k`-th member of a row run lies among the ids of
      the blanks up to its column. */
  lemma RightColumnIds(board: seq<seq<Cell>>, x: nat, y: nat, k: nat)
    requires Parsed(board) && x < |board| && y < |board[x]| && k < |RunOf(Right(board, x, y))|
    ensures y + 2 + k <= |board[x]|
    ensures |BlanksBefore(board, x)| + |RowBlanks(board[x], y + 1 + k)| <= RunOf(Right(board, x, y))[k].id
            < |BlanksBefore(board, x)| + |RowBlanks(board[x], y + 2 + k)|
  {
    RightMember(board, x, y, k);
  }

  /** Blanks whose ids fall in the ranges of successive columns of a row,
      one blank per column, are different blanks. */
  lemma ColumnsApart(row: seq<Cell>, base: int, y: nat, run: seq<Blank>, k1: nat, k2: nat)
    requires y + 1 + |run| <= |row| && k1 < k2 < |run|
    requires forall k :: 0 <= k < |run| ==>
               base + |RowBlanks(row, y + 1 + k)| <= run[k].id < base + |RowBlanks(row, y + 2 + k)|
    ensures run[k1] != run[k2]
  {
    RowBlanksGrow(row, y + 2 + k1, y + 1 + k2);
  }

  /** The members of a row run are distinct blanks of the board. */
  lemma RightRun(board: seq<seq<Cell>>, x: nat, y: nat)
    requires Parsed(board) && x < |board| && y < |board[x]|
    ensures Fits(RunOf(Right(board, x, y)), Blanks(board))
  {
    var run := RunOf(Right(board, x, y));
    forall k | 0 <= k < |run| ensures run[k] in Blanks(board) {
      RightMember(board, x, y, k);
    }
    forall k | 0 <= k < |run|
      ensures |BlanksBefore(board, x)| + |RowBlanks(board[x], y + 1 + k)| <= run[k].id
              < |BlanksBefore(board, x)| + |RowBlanks(board[x], y + 2 + k)|
    {
      RightColumnIds(board, x, y, k);
    }
    forall k1, k2 | 0 <= k1 < k2 < |run| ensures run[k1] != run[k2] {
      ColumnsApart(board[x], |BlanksBefore(board, x)|, y, run, k1, k2);
    }
  }

  /** The loop of `createSum`: the blanks of `cells` up to the first
      brick. */
  method CollectRun(cells: seq<Cell>) returns (blocks: seq<Blank>)
    ensures blocks == RunOf(cells)
  {
    blocks := [];
    var k := 0;
    while k < |cells|
      invariant k <= |RunOf(cells)| && blocks == RunOf(cells)[..k]
    {
      if cells[k].BrickCell? {
        break;
      }
      blocks := blocks + [cells[k].blank];
      k := k + 1;
    }
  }

  /** A sum registering with its members appends it to exactly their
      lists. */
  lemma RegisterOnce(blanks: seq<Blank>, before: seq<seq<Sum>>, s: Sum)
    requires |before| == |blanks|
    requires forall i :: 0 <= i < |blanks| && blanks[i] in s.tileList ==> blanks[i].sums == before[i] + [s]
    requires forall i :: 0 <= i < |blanks| && blanks[i] !in s.tileList ==> blanks[i].sums == before[i]
    ensures SumsOf(blanks) == Register(before, blanks, s)
  {
    assert forall i :: 0 <= i < |blanks| ==> SumsOf(blanks)[i] == Register(before, blanks, s)[i];
  }

  /** `createSum`: collects the blanks up to the first brick and makes the
      sum over them, which registers itself with its members. */
  method CreateSum(value: int, cells: seq<Cell>, ghost blanks: seq<Blank>) returns (s: Sum)
    modifies RunOf(cells)`sums
    ensures fresh(s)
    ensures s.value == value && s.tileList == RunOf(cells)
    ensures s.configurations == FindConfigurations(value, old(DomainsOf(RunOf(cells))), []) && s.Valid()
    ensures SumsOf(blanks) == Register(old(SumsOf(blanks)), blanks, s)
    ensures forall i :: 0 <= i < |blanks| ==> blanks[i].possibleValues == old(blanks[i].possibleValues)
  {
    var blocks := CollectRun(cells);
    ghost var before := SumsOf(blanks);
    s := new Sum(value, blocks);
    RegisterOnce(blanks, before, s);
  }


  /** The sums that list `t` among their members, in order. */
  function Through(ss: seq<Sum>, t: Blank): (r: seq<Sum>)
    ensures forall k :: 0 <= k < |r| ==> r[k] in ss && t in r[k].tileList
    ensures forall j :: 0 <= j < |ss| && t in ss[j].tileList ==> ss[j] in r
  {
    if ss == [] then [] else Through(ss[..|ss| - 1], t) + (if t in ss[|ss| - 1].tileList then [ss[|ss| - 1]] else [])
  }

  /** `Through` for each of `blanks`. */
  function Throughs(ss: seq<Sum>, blanks: seq<Blank>): (r: seq<seq<Sum>>)
    ensures |r| == |blanks| && forall i :: 0 <= i < |blanks| ==> r[i] == Through(ss, blanks[i])
  {
    seq(|blanks|, i requires 0 <= i < |blanks| => Through(ss, blanks[i]))
  }

  /** The sums each blank records. */
  ghost function SumsOf(blanks: seq<Blank>): (r: seq<seq<Sum>>)
    reads blanks`sums
    ensures |r| == |blanks| && forall i :: 0 <= i < |blanks| ==> r[i] == blanks[i].sums
  {
    if blanks == [] then [] else SumsOf(blanks[..|blanks| - 1]) + [blanks[|blanks| - 1].sums]
  }

  /** The lists of sums once `s` has registered with its members. */
  function Register(lists: seq<seq<Sum>>, blanks: seq<Blank>, s: Sum): (r: seq<seq<Sum>>)
    requires |lists| == |blanks|
    ensures |r| == |blanks|
    ensures forall i :: 0 <= i < |blanks| ==> r[i] == lists[i] + (if blanks[i] in s.tileList then [s] else [])
  {
    seq(|blanks|, i requires 0 <= i < |blanks| => lists[i] + (if blanks[i] in s.tileList then [s] else []))
  }

  /** Every blank of `blanks` records exactly the sums of `ss` it belongs
      to, in the order they were made. */
  ghost predicate Registered(blanks: seq<Blank>, ss: seq<Sum>)
    reads blanks`sums
  {
    SumsOf(blanks) == Throughs(ss, blanks)
  }

  /** The candidate lists of a run's members, looked up by id in `doms`. */
  function RunDomains(run: seq<Blank>, doms: seq<seq<int>>): (r: seq<seq<int>>)
    ensures |r| == |run|
    ensures forall k :: 0 <= k < |run| && run[k].id < |doms| ==> r[k] == doms[run[k].id]
  {
    Lookup(Ids(run), doms)
  }

  /** The candidate lists of the blanks numbered `ids`. */
  function Lookup(ids: seq<nat>, doms: seq<seq<int>>): (r: seq<seq<int>>)
    ensures |r| == |ids|
    ensures forall k :: 0 <= k < |ids| && ids[k] < |doms| ==> r[k] == doms[ids[k]]
  {
    seq(|ids|, k requires 0 <= k < |ids| => if ids[k] < |doms| then doms[ids[k]] else [])
  }

  /** Blanks numbered by their position in `blanks`. */
  predicate Indexed(blanks: seq<Blank>)
  {
    forall i :: 0 <= i < |blanks| ==> blanks[i].id == i
  }

  /** Looking a member's candidates up by id finds its own. */
  lemma RunDomainsAgree(run: seq<Blank>, blanks: seq<Blank>)
    requires Within(run, blanks) && Indexed(blanks)
    ensures DomainsOf(run) == RunDomains(run, DomainsOf(blanks))
  {
    forall k | 0 <= k < |run| ensures DomainsOf(run)[k] == RunDomains(run, DomainsOf(blanks))[k] {
      var t := run[k];
      var i :| 0 <= i < |blanks| && blanks[i] == t;
    }
  }

  /** `s` is the sum `createSum` makes for `run` = (clue, members): the
      members are distinct blanks of `blanks`, and the configurations are
      every configuration of the clue over the members' candidates `doms`
      (indexed by id). */
  ghost predicate SumOf(s: Sum, run: (int, seq<Blank>), blanks: seq<Blank>, doms: seq<seq<int>>)
    reads s`configurations
  {
    && s.value == run.0
    && s.tileList == run.1
    && NoDuplicates(run.1)
    && Within(run.1, blanks)
    && s.configurations == FindConfigurations(run.0, RunDomains(run.1, doms), [])
    && s.Valid()
  }

  /** `ss` are the sums of `runs`, in order. */
  ghost predicate Built(ss: seq<Sum>, runs: seq<(int, seq<Blank>)>, blanks: seq<Blank>, doms: seq<seq<int>>)
    reads ss`configurations
  {
    |ss| == |runs| && forall j :: 0 <= j < |ss| ==> SumOf(ss[j], runs[j], blanks, doms)
  }

  /** The state of the constructor's scan once the sums `ss` of the runs
      `runs` are made: each sum listed once, each blank registered with
      exactly its sums. */
  ghost predicate Scanned(ss: seq<Sum>, runs: seq<(int, seq<Blank>)>, blanks: seq<Blank>, doms: seq<seq<int>>)
    reads ss`configurations, blanks`sums
  {
    Built(ss, runs, blanks, doms) && NoDuplicates(ss) && Registered(blanks, ss)
  }

  /** A new sum joins the list of a blank exactly when the blank is one of
      its members. */
  lemma ThroughsAppend(ss: seq<Sum>, s: Sum, blanks: seq<Blank>)
    ensures Throughs(ss + [s], blanks) == Register(Throughs(ss, blanks), blanks, s)
  {
    assert (ss + [s])[..|ss|] == ss;
  }

  /** Appending the sum of the next run, once it has registered with its
      members, keeps the scan's state. */
  lemma ScannedAppend(ss: seq<Sum>, runs: seq<(int, seq<Blank>)>, blanks: seq<Blank>, doms: seq<seq<int>>,
                      s: Sum, run: (int, seq<Blank>))
    requires Built(ss, runs, blanks, doms) && NoDuplicates(ss) && s !in ss
    requires SumOf(s, run, blanks, doms)
    requires SumsOf(blanks) == Register(Throughs(ss, blanks), blanks, s)
    ensures Scanned(ss + [s], runs + [run], blanks, doms)
  {
    NoDuplicatesAppend(ss, s);
    ThroughsAppend(ss, s, blanks);
  }

  /** `sums.append(createSum(value, cells))`, where `blanks` are the blanks
      of the board and `doms` their candidates. */
  method AddRun(ghost blanks: seq<Blank>, ghost doms: seq<seq<int>>, ss: seq<Sum>, ghost runs: seq<(int, seq<Blank>)>,
                value: int, cells: seq<Cell>)
      returns (next: seq<Sum>)
    requires Indexed(blanks) && DomainsOf(blanks) == doms
    requires Scanned(ss, runs, blanks, doms) && Fits(RunOf(cells), blanks)
    modifies blanks`sums
    ensures Scanned(next, runs + [(value, RunOf(cells))], blanks, doms)
    ensures forall i :: 0 <= i < |blanks| ==> blanks[i].possibleValues == old(blanks[i].possibleValues)
  {
    RunDomainsAgree(RunOf(cells), blanks);
    var s := CreateSum(value, cells, blanks);
    assert SumOf(s, (value, RunOf(cells)), blanks, doms);
    ScannedAppend(ss, runs, blanks, doms, s, (value, RunOf(cells)));
    next := ss + [s];
  }

  /** Candidates read blank by blank make up `DomainsOf`. */
  lemma SameDomains(blanks: seq<Blank>, doms: seq<seq<int>>)
    requires |blanks| == |doms| && forall i :: 0 <= i < |blanks| ==> blanks[i].possibleValues == doms[i]
    ensures DomainsOf(blanks) == doms
  {
  }

  /** `if clue: sums.append(createSum(clue, cells))`. */
  method ScanClue(ghost blanks: seq<Blank>, ghost doms: seq<seq<int>>, ss: seq<Sum>, ghost runs: seq<(int, seq<Blank>)>,
                  clue: Option<int>, cells: seq<Cell>)
      returns (next: seq<Sum>)
    requires Indexed(blanks) && DomainsOf(blanks) == doms
    requires Scanned(ss, runs, blanks, doms) && Fits(RunOf(cells), blanks)
    modifies blanks`sums
    ensures Scanned(next, runs + ClueRuns(clue, cells), blanks, doms)
    ensures DomainsOf(blanks) == doms
  {
    if Truthy(clue) {
      assert forall i :: 0 <= i < |blanks| ==> blanks[i].possibleValues == doms[i];
      next := AddRun(blanks, doms, ss, runs, clue.value, cells);
      SameDomains(blanks, doms);
    } else {
      next := ss;
      assert runs + ClueRuns(clue, cells) == runs;
    }
  }

  /** A brick opens its vertical run, then its horizontal one. */
  lemma BrickRuns(board: seq<seq<Cell>>, x: nat, y: nat, runs: seq<(int, seq<Blank>)>)
    requires Rectangular(board) && x < |board| && y < |board[x]| && board[x][y].BrickCell?
    ensures var brick := board[x][y].brick;
      runs + ClueRuns(brick.verticalSum, Below(board, x, y)) + ClueRuns(brick.horizontalSum, Right(board, x, y))
      == runs + CellRuns(board, x, y)
  {
  }

  /** The brick at row `x`, column `y` adds the sums of the runs it opens:
      the vertical one first, then the horizontal one. */
  method ScanBrick(board: seq<seq<Cell>>, ghost doms: seq<seq<int>>, x: nat, y: nat, ss: seq<Sum>,
                   ghost runs: seq<(int, seq<Blank>)>)
      returns (next: seq<Sum>)
    requires Parsed(board) && x < |board| && y < |board[x]| && board[x][y].BrickCell?
    requires DomainsOf(Blanks(board)) == doms && Scanned(ss, runs, Blanks(board), doms)
    modifies Blanks(board)`sums
    ensures Scanned(next, runs + CellRuns(board, x, y), Blanks(board), doms)
    ensures DomainsOf(Blanks(board)) == doms
  {
    var brick := board[x][y].brick;
    BelowRun(board, x, y);
    RightRun(board, x, y);
    next := ScanClue(Blanks(board), doms, ss, runs, brick.verticalSum, Below(board, x, y));
    ghost var vertical := runs + ClueRuns(brick.verticalSum, Below(board, x, y));
    next := ScanClue(Blanks(board), doms, next, vertical, brick.horizontalSum, Right(board, x, y));
    BrickRuns(board, x, y, runs);
  }

  /** The scan's accumulators after one more cell of row `x`. */
  lemma CellStep(board: seq<seq<Cell>>, x: nat, y: nat)
    requires Rectangular(board) && x < |board| && y < |board[x]|
    ensures BlanksBefore(board, x) + RowBlanks(board[x], y + 1)
      == BlanksBefore(board, x) + RowBlanks(board[x], y) + (if board[x][y].BlankCell? then [board[x][y].blank] else [])
    ensures RunsBefore(board, x) + RowRuns(board, x, y + 1)
      == RunsBefore(board, x) + RowRuns(board, x, y) + CellRuns(board, x, y)
  {
  }

  /** One cell of the scan in `__init__`: a blank joins `self.tiles`, a
      brick adds the sums of its runs. */
  method ScanCell(board: seq<seq<Cell>>, ghost doms: seq<seq<int>>, x: nat, y: nat, ts: seq<Blank>, ss: seq<Sum>)
      returns (ts': seq<Blank>, ss': seq<Sum>)
    requires Parsed(board) && x < |board| && y < |board[x]| && DomainsOf(Blanks(board)) == doms
    requires ts == BlanksBefore(board, x) + RowBlanks(board[x], y)
    requires Scanned(ss, RunsBefore(board, x) + RowRuns(board, x, y), Blanks(board), doms)
    modifies Blanks(board)`sums
    ensures ts' == BlanksBefore(board, x) + RowBlanks(board[x], y + 1)
    ensures Scanned(ss', RunsBefore(board, x) + RowRuns(board, x, y + 1), Blanks(board), doms)
    ensures DomainsOf(Blanks(board)) == doms
  {
    CellStep(board, x, y);
    if board[x][y].BlankCell? {
      ts', ss' := ts + [board[x][y].blank], ss;
    } else {
      ts' := ts;
      ss' := ScanBrick(board, doms, x, y, ss, RunsBefore(board, x) + RowRuns(board, x, y));
    }
  }

  /** `for x, row in enumerate(board): for y, tile in enumerate(row): ...`
      over the cells of row `x`. */
  method ScanRow(board: seq<seq<Cell>>, ghost doms: seq<seq<int>>, x: nat, ts: seq<Blank>, ss: seq<Sum>)
      returns (ts': seq<Blank>, ss': seq<Sum>)
    requires Parsed(board) && x < |board| && DomainsOf(Blanks(board)) == doms
    requires ts == BlanksBefore(board, x) && Scanned(ss, RunsBefore(board, x), Blanks(board), doms)
    modifies Blanks(board)`sums
    ensures ts' == BlanksBefore(board, x + 1) && Scanned(ss', RunsBefore(board, x + 1), Blanks(board), doms)
    ensures DomainsOf(Blanks(board)) == doms
  {
    ts', ss' := ts, ss;
    var y := 0;
    while y < |board[x]|
      invariant y <= |board[x]|
      invariant ts' == BlanksBefore(board, x) + RowBlanks(board[x], y)
      invariant Scanned(ss', RunsBefore(board, x) + RowRuns(board, x, y), Blanks(board), doms)
      invariant DomainsOf(Blanks(board)) == doms
    {
      ts', ss' := ScanCell(board, doms, x, y, ts', ss');
      y := y + 1;
    }
    assert y == |board[x]|;
  }

  /** The scan of `__init__` over every row: the blanks in reading order
      and the sums of every run. */
  method Scan(board: seq<seq<Cell>>, ghost doms: seq<seq<int>>) returns (ts: seq<Blank>, ss: seq<Sum>)
    requires Parsed(board) && DomainsOf(Blanks(board)) == doms
    requires Scanned([], [], Blanks(board), doms)
    modifies Blanks(board)`sums
    ensures ts == Blanks(board) && Scanned(ss, Runs(board), Blanks(board), doms)
    ensures DomainsOf(Blanks(board)) == doms
  {
    ts, ss := [], [];
    var x := 0;
    while x < |board|
      invariant x <= |board|
      invariant ts == BlanksBefore(board, x) && Scanned(ss, RunsBefore(board, x), Blanks(board), doms)
      invariant DomainsOf(Blanks(board)) == doms
    {
      ts, ss := ScanRow(board, doms, x, ts, ss);
      x := x + 1;
    }
    assert x == |board|;
  }

  /** Before the scan no blank records a sum. */
  lemma ScanStart(blanks: seq<Blank>, doms: seq<seq<int>>)
    requires forall i :: 0 <= i < |blanks| ==> blanks[i].sums == []
    ensures Scanned([], [], blanks, doms)
  {
    assert SumsOf(blanks) == Throughs([], blanks);
  }

  /** Every sum's configurations are all the configurations of its clue
      over its members' candidates `doms`, looked up by id. */
  ghost predicate Complete(sums: seq<Sum>, doms: seq<seq<int>>)
    reads sums`configurations
  {
    forall j :: 0 <= j < |sums| ==>
      sums[j].configurations == FindConfigurations(sums[j].value, RunDomains(sums[j].tileList, doms), [])
  }

  /** The scan's result is a network `_solve` can work on, with complete
      configurations. */
  lemma ScannedBoard(ss: seq<Sum>, runs: seq<(int, seq<Blank>)>, blanks: seq<Blank>, doms: seq<seq<int>>)
    requires Scanned(ss, runs, blanks, doms) && Indexed(blanks)
    ensures Board(blanks, ss) && Complete(ss, doms)
  {
    forall c, t | c in ss && t in c.tileList ensures t.id < |blanks| && blanks[t.id] == t {
      var j :| 0 <= j < |ss| && ss[j] == c;
      var k :| 0 <= k < |c.tileList| && c.tileList[k] == t;
      assert SumOf(ss[j], runs[j], blanks, doms);
    }
    forall i, c | 0 <= i < |blanks| && c in blanks[i].sums ensures c in ss && blanks[i] in c.tileList {
      assert blanks[i].sums == Through(ss, blanks[i]);
    }
    forall i, c | 0 <= i < |blanks| && c in ss && blanks[i] in c.tileList ensures c in blanks[i].sums {
      assert blanks[i].sums == Through(ss, blanks[i]);
    }
  }

  /** The clues of the sums, in order. */
  function Clues(sums: seq<Sum>): (clues: seq<int>)
    ensures |clues| == |sums| && forall j :: 0 <= j < |sums| ==> clues[j] == sums[j].value
  {
    seq(|sums|, j requires 0 <= j < |sums| => sums[j].value)
  }

  /** `a` (indexed by id) fills the board: every blank gets one of its
      candidates `doms`, and every non-empty run distinct digits that add
      up to its clue. */
  predicate Fills(a: seq<int>, doms: seq<seq<int>>, clues: seq<int>, runs: seq<seq<nat>>)
  {
    && |a| == |doms|
    && (forall i :: 0 <= i < |a| ==> a[i] in doms[i])
    && (forall j :: 0 <= j < |runs| && j < |clues| && runs[j] != [] ==>
          Distinct(Pick(a, runs[j])) && Total(Pick(a, runs[j])) == clues[j])
  }

  /** Once every blank holds one of its candidates, a run's digits are one
      of its configurations exactly when they are distinct and add up to
      the clue. */
  lemma PickConfiguration(a: seq<int>, doms: seq<seq<int>>, clue: int, ids: seq<nat>)
    requires |a| == |doms| && forall i :: 0 <= i < |a| ==> a[i] in doms[i]
    requires forall k :: 0 <= k < |ids| ==> ids[k] < |doms|
    ensures Pick(a, ids) in FindConfigurations(clue, Lookup(ids, doms), [])
      <==> Distinct(Pick(a, ids)) && Total(Pick(a, ids)) == clue
  {
    FindExactly(clue, Lookup(ids, doms));
  }

  /** With complete configurations, the assignments the network supports
      are exactly those that fill the board. */
  lemma FullSupport(a: seq<int>, doms: seq<seq<int>>, clues: seq<int>, runs: seq<seq<nat>>, cfgs: seq<seq<seq<int>>>)
    requires |clues| == |runs| == |cfgs|
    requires forall j, k :: 0 <= j < |runs| && 0 <= k < |runs[j]| ==> runs[j][k] < |doms|
    requires forall j :: 0 <= j < |runs| ==> cfgs[j] == FindConfigurations(clues[j], Lookup(runs[j], doms), [])
    ensures SupportedBy(a, doms, runs, cfgs) <==> Fills(a, doms, clues, runs)
  {
    if |a| == |doms| && forall i :: 0 <= i < |a| ==> a[i] in doms[i] {
      forall j | 0 <= j < |runs| && runs[j] != []
        ensures Pick(a, runs[j]) in cfgs[j] <==> Distinct(Pick(a, runs[j])) && Total(Pick(a, runs[j])) == clues[j]
      {
        PickConfiguration(a, doms, clues[j], runs[j]);
      }
    }
  }

  /** The sums `ss` have the clues and members of `runs`, in order. */
  predicate Follows(ss: seq<Sum>, runs: seq<(int, seq<Blank>)>)
  {
    |ss| == |runs| && forall j :: 0 <= j < |ss| ==> ss[j].value == runs[j].0 && ss[j].tileList == runs[j].1
  }

  /** The body of `__init__`: scans a parsed board whose blanks record no
      sums yet, and returns its blanks and the sums over them. */
  method Build(board: seq<seq<Cell>>) returns (ts: seq<Blank>, ss: seq<Sum>)
    requires Parsed(board)
    requires forall i :: 0 <= i < |Blanks(board)| ==> Blanks(board)[i].sums == []
    modifies Blanks(board)`sums
    ensures ts == Blanks(board) && Follows(ss, Runs(board))
    ensures Board(ts, ss) && Complete(ss, DomainsOf(ts))
  {
    ghost var doms := DomainsOf(Blanks(board));
    ScanStart(Blanks(board), doms);
    ts, ss := Scan(board, doms);
    ScannedBoard(ss, Runs(board), ts, doms);
    assert forall j :: 0 <= j < |ss| ==> SumOf(ss[j], Runs(board)[j], ts, doms);
  }

  /** `KakuroBoard`: the board, its blanks in reading order and the sums
      over them. */
  class KakuroBoard {
    const board: seq<seq<Cell>>
    const tiles: seq<Blank>
    const sums: seq<Sum>

    /** The network is linked, and every sum holds every configuration of
        its clue over its members' candidates. */
    ghost predicate Valid()
      reads tiles`sums, tiles`possibleValues, sums`configurations
    {
      Linked(tiles, sums) && AllValid(sums) && Complete(sums, DomainsOf(tiles))
    }

    /** `KakuroBoard(board)` on a parsed board whose blanks record no sums
        yet: the blanks in reading order, and the sums of every run, vertical
        before horizontal at each brick. */
    constructor (board: seq<seq<Cell>>)
      requires Parsed(board)
      requires forall i :: 0 <= i < |Blanks(board)| ==> Blanks(board)[i].sums == []
      modifies Blanks(board)`sums
      ensures this.board == board && tiles == Blanks(board)
      ensures Follows(sums, Runs(board))
      ensures Linked(tiles, sums) && AllValid(sums) && Complete(sums, DomainsOf(tiles))
    {
      var ts, ss := Build(board);
      ghost var doms := DomainsOf(ts);
      this.board := board;
      tiles := ts;
      sums := ss;
      new;
      DomainsUnchanged(tiles, doms);
    }

    /** `solve`, as written: searches a copy of the network. Every
        assignment found fills the board, and every assignment that fills
        the board is found unless the search crashed or stalled. */
    method Solve() returns (solutions: seq<seq<int>>, crashed: bool, ghost stalled: bool)
      requires Valid()
      ensures forall a :: a in solutions ==> Fills(a, DomainsOf(tiles), Clues(sums), RunIds(sums))
      ensures forall a :: Fills(a, DomainsOf(tiles), Clues(sums), RunIds(sums)) ==> a in solutions || crashed || stalled
      ensures NoDuplicates(solutions)
    {
      CompleteSupport(tiles, sums);
      solutions, crashed, stalled := SolveCopy(tiles, sums, true);
    }

    /** `solve` with the corrected search (no stall check, and no
        `IndexError` where a blank has lost every candidate): it finds
        exactly the assignments that fill the board. */
    method SolveAll() returns (solutions: seq<seq<int>>)
      requires Valid()
      ensures forall a :: a in solutions <==> Fills(a, DomainsOf(tiles), Clues(sums), RunIds(sums))
      ensures NoDuplicates(solutions)
    {
      CompleteSupport(tiles, sums);
      var crashed; ghost var stalled;
      solutions, crashed, stalled := SolveCopy(tiles, sums, false);
    }
  }

  /** On a valid board, the network supports exactly the assignments that
      fill it. */
  lemma CompleteSupport(tiles: seq<Blank>, sums: seq<Sum>)
    requires Board(tiles, sums) && Complete(sums, DomainsOf(tiles))
    ensures forall a ::
      SupportedBy(a, DomainsOf(tiles), RunIds(sums), Configs(sums)) <==> Fills(a, DomainsOf(tiles), Clues(sums), RunIds(sums))
  {
    var doms, runs := DomainsOf(tiles), RunIds(sums);
    forall j, k | 0 <= j < |runs| && 0 <= k < |runs[j]| ensures runs[j][k] < |doms| {
      assert sums[j].tileList[k] in sums[j].tileList;
    }
    forall j | 0 <= j < |sums| ensures RunDomains(sums[j].tileList, doms) == Lookup(runs[j], doms) {
    }
    forall a {
      FullSupport(a, doms, Clues(sums), runs, Configs(sums));
    }
  }

  /** The sum of a pair. */
  lemma TotalPair(x: int, y: int)
    ensures Total([x, y]) == x + y
  {
    assert [x, y][1..] == [y] && [y][1..] == [];
    assert Total([y]) == y + Total([]);
  }

  /** A run of two fresh blanks has as configurations exactly the ordered
      pairs of distinct digits from 1 to 9 that add up to its clue; for a
      clue of 4 these are [1, 3] and [3, 1]. */
  lemma FourOverTwo(d: seq<int>, cfg: seq<int>)
    requires forall v :: v in d <==> 1 <= v <= 9
    ensures cfg in FindConfigurations(4, [d, d], []) <==> cfg == [1, 3] || cfg == [3, 1]
  {
    FindExactly(4, [d, d]);
    if |cfg| == 2 {
      PairConfiguration(d, cfg);
    }
    TotalPair(1, 3);
    TotalPair(3, 1);
  }

  /** A pair of digits from 1 to 9 is a configuration of clue 4 over two
      fresh blanks exactly when it is [1, 3] or [3, 1]. */
  lemma PairConfiguration(d: seq<int>, cfg: seq<int>)
    requires forall v :: v in d <==> 1 <= v <= 9
    requires |cfg| == 2
    ensures IsConfiguration(cfg, 4, [d, d], []) <==> cfg == [1, 3] || cfg == [3, 1]
  {
    assert cfg == [cfg[0], cfg[1]];
    TotalPair(cfg[0], cfg[1]);
  }

  /** No two distinct digits from 1 to 9 add up to 2: a run of two fresh
      blanks under a clue of 2 has no configuration. */
  lemma TwoOverTwo(d: seq<int>)
    requires forall v :: v in d <==> 1 <= v <= 9
    ensures forall cfg :: cfg !in FindConfigurations(2, [d, d], [])
  {
    FindExactly(2, [d, d]);
    forall cfg | |cfg| == 2 ensures Total(cfg) == cfg[0] + cfg[1] {
      assert cfg == [cfg[0], cfg[1]];
      TotalPair(cfg[0], cfg[1]);
    }
  }

  /** The stall check (`_solve`, lines 121-122) gives up on a board that
      has a filling. Take the 2×2 block of blanks 0 1 / 2 3 (`runs`, by id)
      under a clue of 4 on each row and column, all blanks fresh (`d`).
      Every run's configurations are [1, 3] and [3, 1] (`cfgs`); node
      consistency leaves every blank [1, 3] (`doms`); then no arc narrows a
      blank or drops a configuration, so propagation ends with every sum
      holding two configurations, where `SearchNode` as written returns
      nothing. Yet [1, 3, 3, 1] fills the board. */
  lemma StallLosesFilling(d: seq<int>, runs: seq<seq<nat>>, cfgs: seq<seq<seq<int>>>, doms: seq<seq<int>>)
    requires d == InitialDomain(NoValue)
    requires runs == [[0, 1], [2, 3], [0, 2], [1, 3]]
    requires cfgs == [[[1, 3], [3, 1]], [[1, 3], [3, 1]], [[1, 3], [3, 1]], [[1, 3], [3, 1]]]
    requires doms == [[1, 3], [1, 3], [1, 3], [1, 3]]
    ensures forall j, cfg :: 0 <= j < 4 ==> (cfg in cfgs[j] <==> cfg in FindConfigurations(4, Lookup(runs[j], [d, d, d, d]), []))
    ensures forall i, v :: 0 <= i < 4 ==> (v in doms[i] <==> v in d && AllowedBy(v, i, runs, cfgs))
    ensures forall j, cfg, k :: 0 <= j < 4 && cfg in cfgs[j] && 0 <= k < 2 ==> cfg[k] in doms[runs[j][k]]
    ensures forall j :: 0 <= j < 4 ==> |cfgs[j]| > 1
    ensures SupportedBy([1, 3, 3, 1], doms, runs, cfgs)
    ensures Fills([1, 3, 3, 1], [d, d, d, d], [4, 4, 4, 4], runs)
  {
    BlockConfigurations(d, runs, cfgs);
    BlockNarrowed(d, runs, cfgs, doms);
    BlockSettled(runs, cfgs, doms);
    BlockFilled(d, runs);
  }

  /** In the 2×2 block every configuration entry is a candidate of its
      blank, and [1, 3, 3, 1] is supported. */
  lemma BlockSettled(runs: seq<seq<nat>>, cfgs: seq<seq<seq<int>>>, doms: seq<seq<int>>)
    requires runs == [[0, 1], [2, 3], [0, 2], [1, 3]]
    requires cfgs == [[[1, 3], [3, 1]], [[1, 3], [3, 1]], [[1, 3], [3, 1]], [[1, 3], [3, 1]]]
    requires doms == [[1, 3], [1, 3], [1, 3], [1, 3]]
    ensures forall j, cfg, k :: 0 <= j < 4 && cfg in cfgs[j] && 0 <= k < 2 ==> cfg[k] in doms[runs[j][k]]
    ensures SupportedBy([1, 3, 3, 1], doms, runs, cfgs)
  {
    forall j, cfg, k | 0 <= j < 4 && cfg in cfgs[j] && 0 <= k < 2 ensures cfg[k] in doms[runs[j][k]] {
      assert cfg == [1, 3] || cfg == [3, 1];
      assert runs[j][k] < 4;
    }
    var a := [1, 3, 3, 1];
    forall j | 0 <= j < 4 ensures Pick(a, runs[j]) in cfgs[j] {
      assert Pick(a, runs[j]) == [a[runs[j][0]], a[runs[j][1]]];
    }
  }

  /** The configurations of each run of the 2×2 block under a clue of 4. */
  lemma BlockConfigurations(d: seq<int>, runs: seq<seq<nat>>, cfgs: seq<seq<seq<int>>>)
    requires forall v :: v in d <==> 1 <= v <= 9
    requires runs == [[0, 1], [2, 3], [0, 2], [1, 3]]
    requires cfgs == [[[1, 3], [3, 1]], [[1, 3], [3, 1]], [[1, 3], [3, 1]], [[1, 3], [3, 1]]]
    ensures forall j, cfg :: 0 <= j < 4 ==> (cfg in cfgs[j] <==> cfg in FindConfigurations(4, Lookup(runs[j], [d, d, d, d]), []))
  {
    forall j, cfg | 0 <= j < 4
      ensures cfg in cfgs[j] <==> cfg in FindConfigurations(4, Lookup(runs[j], [d, d, d, d]), [])
    {
      assert Lookup(runs[j], [d, d, d, d]) == [d, d];
      FourOverTwo(d, cfg);
    }
  }

  /** In the 2×2 block, node consistency narrows every fresh blank to
      exactly 1 and 3. */
  lemma BlockNarrowed(d: seq<int>, runs: seq<seq<nat>>, cfgs: seq<seq<seq<int>>>, doms: seq<seq<int>>)
    requires forall v :: v in d <==> 1 <= v <= 9
    requires runs == [[0, 1], [2, 3], [0, 2], [1, 3]]
    requires cfgs == [[[1, 3], [3, 1]], [[1, 3], [3, 1]], [[1, 3], [3, 1]], [[1, 3], [3, 1]]]
    requires doms == [[1, 3], [1, 3], [1, 3], [1, 3]]
    ensures forall i, v :: 0 <= i < 4 ==> (v in doms[i] <==> v in d && AllowedBy(v, i, runs, cfgs))
  {
    BlockAllows(runs, cfgs);
    forall i, v | 0 <= i < 4 && AllowedBy(v, i, runs, cfgs) ensures v == 1 || v == 3 {
      var j := if i < 2 then 0 else 1;
      assert i in runs[j];
    }
  }

  /** [1, 3, 3, 1] fills the 2×2 block when 1 and 3 are candidates. */
  lemma BlockFilled(d: seq<int>, runs: seq<seq<nat>>)
    requires 1 in d && 3 in d
    requires runs == [[0, 1], [2, 3], [0, 2], [1, 3]]
    ensures Fills([1, 3, 3, 1], [d, d, d, d], [4, 4, 4, 4], runs)
  {
    var a := [1, 3, 3, 1];
    forall j | 0 <= j < 4 ensures Distinct(Pick(a, runs[j])) && Total(Pick(a, runs[j])) == 4 {
      var p := Pick(a, runs[j]);
      assert p == [a[runs[j][0]], a[runs[j][1]]];
      TotalPair(a[runs[j][0]], a[runs[j][1]]);
    }
  }

  /** In the 2×2 block, both 1 and 3 are allowed for every blank. */
  lemma BlockAllows(runs: seq<seq<nat>>, cfgs: seq<seq<seq<int>>>)
    requires runs == [[0, 1], [2, 3], [0, 2], [1, 3]]
    requires cfgs == [[[1, 3], [3, 1]], [[1, 3], [3, 1]], [[1, 3], [3, 1]], [[1, 3], [3, 1]]]
    ensures forall i, v :: 0 <= i < 4 && (v == 1 || v == 3) ==> AllowedBy(v, i, runs, cfgs)
  {
    forall i, v | 0 <= i < 4 && (v == 1 || v == 3) ensures AllowedBy(v, i, runs, cfgs) {
      forall j | 0 <= j < |runs| && j < |cfgs| && i in runs[j]
        ensures exists cfg :: cfg in cfgs[j] && IndexOf(runs[j], i) < |cfg| && cfg[IndexOf(runs[j], i)] == v
      {
        var p := IndexOf(runs[j], i);
        var cfg := if v == [1, 3][p] then [1, 3] else [3, 1];
        assert cfg in cfgs[j] && cfg[p] == v;
      }
    }
  }

  /** `branchingTiles[0]` raises `IndexError` (`_solve`, lines 128-131) on
      a board without a filling instead of yielding nothing. Take one row: a
      clue of 2 and then two fresh blanks (`d`). The run (`runs`, by id) has
      no configuration (`cfgs`), so node consistency empties both blanks
      (`doms`); no arc changes anything after that, and propagation
      succeeds. The stall check does not fire, not every blank has one
      candidate, and no blank has more than one: the state in which
      `SearchNode` as written crashes. */
  lemma CrashOnEmptiedBlanks(d: seq<int>, runs: seq<seq<nat>>, cfgs: seq<seq<seq<int>>>, doms: seq<seq<int>>)
    requires d == InitialDomain(NoValue)
    requires runs == [[0, 1]] && cfgs == [[]] && doms == [[], []]
    ensures forall cfg :: cfg in cfgs[0] <==> cfg in FindConfigurations(2, Lookup(runs[0], [d, d]), [])
    ensures forall i, v :: 0 <= i < 2 ==> (v in doms[i] <==> v in d && AllowedBy(v, i, runs, cfgs))
    ensures !(forall j :: 0 <= j < |cfgs| ==> |cfgs[j]| > 1)
    ensures !(forall i :: 0 <= i < |doms| ==> |doms[i]| == 1)
    ensures BranchTile(doms).None?
    ensures forall a :: !Fills(a, [d, d], [2], runs)
  {
    assert Lookup(runs[0], [d, d]) == [d, d];
    assert |cfgs[0]| == 0 && |doms[0]| == 0;
    TwoOverTwo(d);
    forall i, v | 0 <= i < 2 ensures !AllowedBy(v, i, runs, cfgs) {
      assert i in runs[0];
    }
    forall a ensures !Fills(a, [d, d], [2], runs) {
      if |a| == 2 && a[0] in d && a[1] in d {
        assert Pick(a, runs[0]) == [a[0], a[1]];
        TotalPair(a[0], a[1]);
      }
    }
  }
}
