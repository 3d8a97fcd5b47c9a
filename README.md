# Kakuro solver: the constraint engine

This project models the core of a Kakuro solver in Dafny. The solver reads a grid of bricks and blanks. Each brick may carry a vertical and a horizontal clue. Every clue opens a *run*: the blanks below it, or to its right, up to the next brick. The digits of a run must be distinct and must add up to the clue.

The solver works as a constraint network.

- A `Blank` keeps the list of digits still possible for it (its candidates) and the sums it belongs to.
- A `Sum` keeps its clue, its members and its *configurations*. A configuration is a digit sequence, one entry per member, that the members can still take. The constructor computes every configuration of the clue over the members' candidates, by the recursive search of `_findConfiguration`.
- `solve` first propagates, in two stages:
  - node consistency: every blank intersects its candidates with the values its sums still allow;
  - generalised arc consistency: a worklist of (blank, sum) arcs. Each arc narrows the blank, or drops the sum's configurations that no longer fit the blank.
- It then branches. It picks the blank with the fewest candidates, copies the network once per candidate, binds the candidate and recurses.

## How the model is built

| file | module | models |
|---|---|---|
| `configurations.dfy` | `Configurations` | the pure part of `Sum`: the configuration search, and filtering configurations |
| `domains.dfy` | `Domains` | the set intersection of `filterValuesFromSums`, as an ascending list |
| `tiles.dfy` | `Tiles` | the classes `Blank`, `Sum` and `Brick`, and the global id counter |
| `network.dfy` | `Network` | the network of blanks and sums, and which digit assignments it still supports |
| `propagation.dfy` | `Propagation` | node consistency and the arc-consistency loop of `_solve` |
| `solver.dfy` | `Solver` | `_mycopy` and the backtracking part of `_solve` |
| `kakuro.dfy` | `Kakuro` | the board scan of `KakuroBoard.__init__`, and `solve` |

Blanks and sums are classes whose fields the methods update in place, as in the source. The configuration search, the filters and the intersection are functions.

The solver's guarantees are stated through one notion: an assignment `a` (one digit per blank, indexed by the blank's id) is *supported* when two things hold:

- every blank's digit is among its candidates;
- every non-empty run's digits form one of its configurations.

Each step of the solver keeps the set of supported assignments exactly the same. No step raises a measure, the total of all candidate-list weights and configuration counts, and every step that changes something lowers it. On a freshly built board, the supported assignments are exactly the ones that fill the board: distinct digits with the right total in every run (`Kakuro.CompleteSupport`). `Kakuro.KakuroBoard.Solve` models `solve` as written, and returns only such fillings. It can miss fillings in two ways, both listed under "Findings":

- it gives up on a node where every sum still has several configurations (the stall check);
- it crashes where a blank has lost every candidate and no blank has several.

`Kakuro.KakuroBoard.SolveAll` runs the same search without those two faults. It returns exactly the fillings of the board.

## Model

| member | source | states |
|---|---|---|
| Configurations.Without | utils/Sum.py:43 | a value survives exactly when it is a candidate and not excluded |
| Configurations.MaxOf | utils/Sum.py:47 | `max` of a non-empty list is an element of it and bounds every element |
| Configurations.MinOf | utils/Sum.py:50 | `min` of a non-empty list is an element of it and is below every element |
| Configurations.Candidates | utils/Sum.py:43 | `valid_tileList` has one entry per member; a value is in a member's entry if and only if it is one of that member's candidates and is not excluded |
| Configurations.TotalMonotone | utils/Sum.py:47-51 | a pointwise larger list has a larger sum, which is what makes the max/min prunes safe |
| Configurations.FindSound | utils/Sum.py:28-56 | every configuration yielded is valid: one entry per member, from that member's candidates, pairwise distinct, none excluded, total equal to the clue |
| Configurations.ExtendSound | utils/Sum.py:54-56 | the loop over the first member's candidates yields only valid configurations |
| Configurations.RestIsConfiguration | utils/Sum.py:54-56 | the tail of a valid configuration is valid for the remaining clue and members, once its head is excluded |
| Configurations.PrunesPass | utils/Sum.py:44-51 | none of the three early returns fires when a valid configuration exists, and its first entry is a loop candidate |
| Configurations.FindComplete | utils/Sum.py:28-56 | every valid configuration is yielded |
| Configurations.ConfigurationStep | utils/Sum.py:54-56 | a valid configuration whose tail the recursive call yields is yielded too |
| Configurations.FirstEntryStep | utils/Sum.py:54-56 | `[candidate] + s` is yielded for each candidate and each `s` of the recursive call |
| Configurations.FindUnfolds | utils/Sum.py:43-56 | past the prunes, the search is exactly the loop over the first member's candidates |
| Configurations.ExtendComplete | utils/Sum.py:54-56 | the loop yields `[c] + rest` for every candidate `c` and every `rest` the recursion yields for it |
| Configurations.FindExactly | utils/Sum.py:28-56 | a list is yielded if and only if it is a valid configuration |
| Configurations.EmptyRunConfigurations | utils/Sum.py:37-41 | with no members left, the search yields `[]` when the remaining clue is 0 and nothing otherwise |
| Configurations.Column | utils/Sum.py:106 | a value occurs in the column if and only if some configuration has it at that index |
| Configurations.KeepWhere | utils/Sum.py:92 | a configuration is kept if and only if its entry at the index is allowed |
| Configurations.KeepWhereAppend | utils/Sum.py:92 | filtering a concatenation filters each part |
| Configurations.KeepWhereChanged | utils/Sum.py:92-93 | the filter returns the same list if and only if every entry passes; otherwise the list is strictly shorter |
| Configurations.KeepWhereIdempotent | utils/Sum.py:92 | filtering twice by the same candidates filters once |
| Domains.Keep | utils/KakuroTiles.py:74-76 | a value is kept if and only if it is a candidate and occurs in every column |
| Domains.Insert | utils/KakuroTiles.py:74-76 | adding a value to an ascending list keeps it ascending, with exactly the old members plus the value |
| Domains.Ascending | utils/KakuroTiles.py:76 | `list(set(...))` of digits: ascending, with exactly the members of the input |
| Domains.Narrowed | utils/KakuroTiles.py:74-76 | the intersection is ascending, and holds exactly the candidates that occur in every column |
| Domains.UniqueAscending | utils/KakuroTiles.py:74-77 | two ascending lists with the same members are equal, so `changed` compares the sets |
| Domains.NarrowedStable | utils/KakuroTiles.py:74-77 | an ascending list whose every candidate occurs in every column does not change |
| Domains.NarrowedWeighsLess | utils/KakuroTiles.py:77-78 | a changed intersection is lighter than the list it replaces |
| Tiles.InitialDomain | utils/KakuroTiles.py:13-18 | no value gives the digits 1 to 9 in ascending order; a list is taken as is; a single value gives a one-element list |
| Tiles.IndexOf | utils/Sum.py:89 | `list.index`: the first position holding the element |
| Tiles.IndexOfUnique | utils/Sum.py:104 | in a list without duplicates, `index` of the element at `k` is `k` |
| Tiles.IdCounter.constructor | utils/KakuroTiles.py:10 | the class-wide id counter starts at 0 |
| Tiles.Blank.constructor | utils/KakuroTiles.py:12-29 | candidates from the initial value, no sums, the counter's current id, and the counter advanced by one |
| Tiles.Blank.WithId | utils/KakuroTiles.py:12-29 | candidates from the initial value, no sums, and the given id |
| Tiles.Blank.SetValue | utils/KakuroTiles.py:42-49 | binding succeeds if and only if the value is a candidate, and leaves exactly that value; otherwise `ValueError` and nothing changes |
| Tiles.Blank.RecordSum | utils/KakuroTiles.py:51-54 | the sum is appended unless already recorded, so the list stays free of duplicates |
| Tiles.Blank.FilterValuesFromSums | utils/KakuroTiles.py:68-80 | a value stays if and only if it was a candidate and every sum of the blank allows it; the result is ascending and no longer; `changed` reports a change |
| Tiles.Blank.DeepCopy | utils/KakuroTiles.py:82-85 | a fresh blank with the same id and candidates and no sums |
| Tiles.ColumnsFor | utils/KakuroTiles.py:75 | one column per sum of the blank: the values that sum allows for it |
| Tiles.Sum.constructor | utils/Sum.py:7-20 | the configurations are exactly the valid configurations of the clue over the members' candidates, and every member records the new sum |
| Tiles.Sum.Copy | utils/Sum.py:7-17 | with `isCopy`, no search is made and every member records the new sum |
| Tiles.Sum.RegisterWithMembers | utils/Sum.py:16-17 | every member's sum list gains this sum at its end |
| Tiles.Sum.GetValuesForTile | utils/Sum.py:99-106 | one value per configuration: its entry at the member's index; a value occurs if and only if some configuration has it there |
| Tiles.Sum.FilterConfigFromTile | utils/Sum.py:84-97 | a configuration stays if and only if its entry for the member is a candidate; `changed` holds if and only if one was dropped, and then the list is strictly shorter |
| Tiles.Sum.DeepCopy | utils/Sum.py:58-67 | a fresh sum with the same clue and configurations, whose members are the memo's copies, looked up by id; exactly those copies record it |
| Tiles.Brick.constructor | utils/KakuroTiles.py:90-92 | the brick holds the two given clues |
| Tiles.Brick.DeepCopy | utils/KakuroTiles.py:108-109 | a fresh brick with the same clues |
| Network.IdIndex | utils/Sum.py:104 | a blank is in a run exactly when its id is in the run's ids, and then at the same position |
| Network.ColumnsAllow | utils/KakuroTiles.py:74-76 | every sum of a blank allows a value if and only if every run holding the blank has a configuration with that value at the blank's position |
| Network.SupportedInColumn | utils/KakuroTiles.py:74-76 | a supported assignment's digit for a blank is allowed by every sum of the blank |
| Network.NarrowKeepsSupport | utils/KakuroTiles.py:68-80 | narrowing one blank to the values all its sums allow keeps the supported assignments exactly the same |
| Network.NarrowedSupported | utils/KakuroTiles.py:68-80 | an assignment supported before the narrowing is still supported after it |
| Network.ShrunkSupported | KakuroSolver.py:83 | an assignment supported by smaller candidate lists is supported by the larger ones |
| Network.FilterKeepsSupport | utils/Sum.py:84-97 | dropping the configurations that disagree with a member's candidates keeps the supported assignments exactly the same |
| Network.SupportedUnderFilter | utils/Sum.py:92 | removing configurations that no supported assignment uses changes no assignment's support |
| Network.FilteredKeepsPick | utils/Sum.py:92 | a supported assignment's configuration survives the filter |
| Network.BindNarrowsSupport | KakuroSolver.py:137 | an assignment supported after binding blank `b` to `v` was supported before and gives `b` the digit `v` |
| Network.EntryForced | KakuroSolver.py:124-125 | once every candidate list is a single digit and every arc is consistent, each configuration's entry is its member's digit |
| Network.ConfigurationIsDigits | KakuroSolver.py:124-125 | in that state each configuration spells the digits of its run |
| Network.RunFilled | KakuroSolver.py:124-125 | in that state the digits of every run form one of its configurations |
| Network.SingletonsSupported | KakuroSolver.py:124-125 | in that state the digits of the tiles form a supported assignment |
| Propagation.NarrowBlank | KakuroSolver.py:83 | `filterValuesFromSums` on a blank of the network keeps the supported assignments, never raises the measure, and lowers it when it reports a change |
| Propagation.FilterSum | KakuroSolver.py:83 | `filterConfigFromTile` on an arc keeps the supported assignments, never raises the measure, and lowers it when it reports a change |
| Propagation.ArcReduce | KakuroSolver.py:77-83 | the short-circuit `or`: supported assignments kept; a change lowers the measure; no change means the arc is consistent |
| Propagation.NodeConsistency | KakuroSolver.py:86-87 | afterwards every blank holds, in ascending order, exactly its old candidates that every run through it allows at its position; the supported assignments are kept and the measure does not rise |
| Propagation.InitialWorklist | KakuroSolver.py:103-107 | the worklist holds an arc for every blank and every sum of it, and nothing else |
| Propagation.Requeue | KakuroSolver.py:117-119 | the new worklist is the old one plus every (member, sum) pair over the sums of the changed blank |
| Propagation.CoveredEmpty | KakuroSolver.py:110-119 | when the worklist is empty, every arc of the network is consistent |
| Propagation.GacStep | KakuroSolver.py:111-119 | one pop: supported assignments kept; the measure falls, or else the worklist loses exactly the popped arc; failure means an empty candidate list; otherwise every arc is still queued or consistent |
| Propagation.RequeuedArcs | KakuroSolver.py:117-119 | requeued pairs are arcs of the network |
| Propagation.RequeueCovers | KakuroSolver.py:112-119 | after one pop and its requeue, every arc is still queued or consistent |
| Propagation.Gac | KakuroSolver.py:110-119 | the loop ends, keeps the supported assignments, and leaves every arc consistent, or stops on an empty candidate list |
| Propagation.Propagate | KakuroSolver.py:85-119 | both stages together keep the supported assignments; on failure none was supported; on success every arc is consistent and every candidate list is ascending |
| Solver.BranchTile | KakuroSolver.py:128-131 | the first of the sorted (size, id) pairs: a blank with several candidates, the fewest, lowest id on ties; none exactly when no blank has several |
| Solver.SingletonSupportIsDigits | KakuroSolver.py:124-125 | when every blank has one candidate, the only assignment that can be supported is those digits |
| Solver.BindKeepsSupport | KakuroSolver.py:134-137 | an assignment giving `b` the digit `v` stays supported once `b` is bound to `v` |
| Solver.BindWeighsLess | KakuroSolver.py:137 | binding a blank with several candidates lowers the weight, so the recursion ends |
| Solver.CopiedRunDistinct | KakuroSolver.py:157 | a copied run lists no blank twice |
| Solver.CopiedMember | utils/Sum.py:63 | the copy of a run's `k`-th member is the copied tile with that member's id |
| Solver.CopyLinked | KakuroSolver.py:153-157 | the copied blanks and sums reference each other exactly as the originals do |
| Solver.RunsThroughHas | utils/Sum.py:16-17 | a copied blank records exactly the copies of the sums its original belongs to |
| Solver.RunsThroughAppend | utils/Sum.py:16-17 | copying one more sum appends it to the lists of exactly its members |
| Solver.CopiesRunsAppend | KakuroSolver.py:157 | appending the copy of the next sum keeps every copied run matched with its original |
| Solver.CopiedIds | KakuroSolver.py:157 | the copied runs have the same member ids as the originals |
| Solver.SameConfigsAppend | utils/Sum.py:66 | appending the copy of the next sum keeps every copy's clue and configurations equal to its original's |
| Solver.CopiedMembership | utils/Sum.py:63 | a copied blank is a member of the copied sum if and only if its original is a member of the original sum |
| Solver.CopyTiles | KakuroSolver.py:153 | one fresh blank per blank, with the same id and candidates and no sums |
| Solver.CopySums | KakuroSolver.py:157 | one fresh sum per sum, with the same clue and configurations, over the copied blanks, each blank recording exactly its sums' copies |
| Solver.CopiedNetwork | KakuroSolver.py:143-159 | the copies form a network with the originals' ids, configurations and clues |
| Solver.CopyNextSum | KakuroSolver.py:157 | copying one more sum extends the copied network by that sum's copy |
| Solver.MyCopy | KakuroSolver.py:143-159 | a fresh network with the same candidates, member ids, configurations and clues |
| Solver.CopiedConfigs | utils/Sum.py:66 | copies with equal configuration lists give equal configurations |
| Solver.CopiedLinks | KakuroSolver.py:155-157 | copies registered by `RunsThrough` are linked like the originals |
| Solver.EmptiedNode | KakuroSolver.py:124-131 | when not every blank has one candidate and none has several, some blank has none, so no assignment is supported |
| Solver.SolvedNode | KakuroSolver.py:124-125 | once solved and consistent, the yielded digits are supported, and no other assignment is |
| Solver.SolveNode | KakuroSolver.py:75-141 | every assignment found was supported on entry, and none is found twice; every assignment supported on entry is found unless the search crashed or stalled; the corrected search never crashes or stalls |
| Solver.SolveCopy | KakuroSolver.py:73 | `_solve(*_mycopy(tiles, sums))`: the network is left alone; every assignment found is supported, none is found twice, and every supported one is found unless crashed or stalled; the corrected search never crashes or stalls |
| Solver.SearchNode | KakuroSolver.py:120-141 | on a consistent network, as written: when every sum has several configurations, it stalls and finds nothing; otherwise, when every blank has one candidate, it finds exactly those digits; when no blank has several candidates but some has none, it crashes. Found assignments are supported and none is found twice, and every supported one is found unless crashed or stalled; the corrected search never crashes or stalls |
| Solver.TryCandidates | KakuroSolver.py:133-141 | looping over the branching blank's candidates finds only supported assignments, and all of them unless a branch crashed or stalled; none twice; the assignments come grouped by the branching blank's digit, in the order of its ascending candidate list; the corrected search never crashes or stalls |
| Solver.Branch | KakuroSolver.py:135-141 | one candidate: finds only supported assignments, each giving the blank that candidate and none twice, and all of those unless crashed or stalled; the corrected search never crashes or stalls |
| Solver.Gather | KakuroSolver.py:134-141 | appending one branch's assignments, all giving the blank the next candidate, keeps the list free of repeats and grouped by ascending digit |
| Solver.Bind | KakuroSolver.py:136-137 | a fresh network identical to the original except that blank `b` is bound to `v` |
| Kakuro.RunOf | KakuroSolver.py:11-15 | the blanks before the first brick, in order |
| Kakuro.RowBlanksGrow | KakuroSolver.py:40-41 | the blanks of a shorter row prefix are a prefix of those of a longer one |
| Kakuro.BlanksBeforeGrow | KakuroSolver.py:40-41 | the blanks of fewer rows are a prefix of those of more rows |
| Kakuro.BlanksBeforeLonger | KakuroSolver.py:40-41 | more rows hold at least as many blanks |
| Kakuro.BlankAt | KakuroSolver.py:40-41 | the blank at a position sits in `self.tiles` at its reading-order index |
| Kakuro.BlankId | KakuroSolver.py:40-41 | on a parsed board, a blank's id is its reading-order index, and it is in `self.tiles` |
| Kakuro.BelowMember | KakuroSolver.py:34-36 | the `k`-th member of a vertical run is the blank `k+1` rows down, with that blank's id |
| Kakuro.BelowRowIds | KakuroSolver.py:34-36 | the `k`-th member's id lies among the ids of row `x+1+k` |
| Kakuro.RowsApart | KakuroSolver.py:34-36 | members whose ids lie in different rows are different blanks |
| Kakuro.BelowRun | KakuroSolver.py:34-36 | a vertical run is a list of distinct blanks of the board |
| Kakuro.RightMember | KakuroSolver.py:37-38 | the `k`-th member of a horizontal run is the blank `k+1` columns right, with that blank's id |
| Kakuro.RightColumnIds | KakuroSolver.py:37-38 | the `k`-th member's id lies between the ids of the cells before and after it |
| Kakuro.ColumnsApart | KakuroSolver.py:37-38 | members whose ids lie in different column ranges are different blanks |
| Kakuro.RightRun | KakuroSolver.py:37-38 | a horizontal run is a list of distinct blanks of the board |
| Kakuro.CollectRun | KakuroSolver.py:11-15 | the loop with `break` collects exactly the blanks before the first brick |
| Kakuro.RegisterOnce | utils/Sum.py:16-17 | a new sum joins the list of exactly its members |
| Kakuro.CreateSum | KakuroSolver.py:10-16 | a fresh sum over the run, with every configuration of the clue, registered with exactly its members; no candidate changes |
| Kakuro.RunDomainsAgree | utils/Sum.py:43 | looking a member's candidates up by id finds its own |
| Kakuro.ThroughsAppend | utils/Sum.py:16-17 | each blank's list of sums grows by the new sum exactly when it is a member |
| Kakuro.ScannedAppend | KakuroSolver.py:36 | appending the sum of the next run keeps the scan state |
| Kakuro.AddRun | KakuroSolver.py:36 | `sums.append(createSum(...))` extends the scan by exactly that run |
| Kakuro.ScanClue | KakuroSolver.py:34-38 | a clue opens its run only when truthy |
| Kakuro.BrickRuns | KakuroSolver.py:33-38 | a brick opens its vertical run before its horizontal one |
| Kakuro.ScanBrick | KakuroSolver.py:33-38 | scanning a brick adds exactly the runs it opens |
| Kakuro.CellStep | KakuroSolver.py:31-41 | one more cell extends the blanks and runs seen by exactly that cell's |
| Kakuro.ScanCell | KakuroSolver.py:31-41 | one cell: the blanks and sums seen so far grow by that cell's |
| Kakuro.ScanRow | KakuroSolver.py:30-41 | one row: the blanks and sums seen so far grow by that row's |
| Kakuro.Scan | KakuroSolver.py:28-41 | the scan yields every blank in reading order and the sums of every run, each registered with its members |
| Kakuro.ScanStart | utils/KakuroTiles.py:29 | blanks start with no sums, so the empty scan holds |
| Kakuro.ScannedBoard | KakuroSolver.py:28-44 | the scan's result is a linked network with complete configurations |
| Kakuro.PickConfiguration | utils/Sum.py:28-56 | a run's digits are among its configurations if and only if they are distinct and add up to its clue |
| Kakuro.FullSupport | KakuroSolver.py:64-73 | with complete configurations, supported means filling the board |
| Kakuro.Build | KakuroSolver.py:8-44 | the blanks in reading order and the sums of every run, linked and with complete configurations |
| Kakuro.KakuroBoard.constructor | KakuroSolver.py:8-44 | the board's blanks, the sums of its runs in reading order (vertical before horizontal), linked, with complete configurations |
| Kakuro.KakuroBoard.Solve | KakuroSolver.py:64-73 | as written: every returned assignment fills the board, and none is returned twice; every filling is returned unless the search crashed or stalled |
| Kakuro.KakuroBoard.SolveAll | KakuroSolver.py:64-73 | with the corrected search: an assignment is returned if and only if it fills the board, and each filling once |
| Kakuro.FourOverTwo | utils/Sum.py:28-56 | over two fresh blanks, the configurations of a clue of 4 are exactly [1, 3] and [3, 1] |
| Kakuro.TwoOverTwo | utils/Sum.py:28-56 | over two fresh blanks, a clue of 2 has no configuration |
| Kakuro.StallLosesFilling | KakuroSolver.py:121-122 | on the 2×2 block under clues of 4, node consistency leaves [1, 3] everywhere, every entry of every configuration is a candidate, and every sum keeps two configurations, so the stall check fires; yet [1, 3, 3, 1] is supported and fills the board |
| Kakuro.CrashOnEmptiedBlanks | KakuroSolver.py:128-131 | a clue of 2 over two fresh blanks has no configuration; node consistency empties both blanks; the stall check does not fire, not every blank has one candidate, and none has several, so `branchingTiles` is empty; and nothing fills that board |
| Kakuro.CompleteSupport | KakuroSolver.py:64-73 | on a freshly built board, the network supports exactly the fillings |

## Left out

- Solutions are digit sequences indexed by blank id. `_solve` yields its list of tile objects, whose single candidates spell the same digits.
- `_solve` is a generator. The model collects every solution in one list. Its order can differ from the generator's, because the model tries each blank's candidates in ascending order (see `Domains.Ascending` below).
- `Solver.SearchNode`: as written, the check `all([len(sum.configurations) > 1 for sum in sums])` gives up on a node even when a solution exists (first row of "Findings"). With no sums at all it fires too. The model keeps the check when `asWritten` holds and reports it through a ghost `stalled` flag.
- `Solver.SearchNode`: as written, `branchingTiles[0]` raises `IndexError` when no blank has several candidates but some blank has none (second row of "Findings"). Node consistency (lines 86-87) discards what `filterValuesFromSums` returns, so it can leave a blank with no candidates without failing. The arc loop fails only on an arc that reports a change. When every sum through the emptied blanks has no configuration left, no arc changes anything and propagation succeeds. If then no blank has more than one candidate, the search crashes. The model returns a `crashed` flag instead, and the search stops, as the uncaught exception would stop it.
- `Solver.SolveNode`: as written, completeness is stated as "found, crashed or stalled". Only `SearchNode`'s exit clauses say when the flags are set; through the recursion the model does not say which fillings the as-written search loses. Full completeness is proved for the corrected search (`asWritten` false).
- `Solver.SolveCopy`: as written, completeness is stated as "found, crashed or stalled", as for `Solver.SolveNode`.
- `Solver.TryCandidates`: as written, completeness is stated as "found, crashed or stalled", as for `Solver.SolveNode`. The order of the results is stated by digit value at the branching blank; it matches the candidate list's order because the model keeps that list ascending (see `Domains.Ascending`), which is not Python's set order.
- `Solver.Branch`: as written, completeness is stated as "found, crashed or stalled", as for `Solver.SolveNode`.
- `Kakuro.KakuroBoard.Solve`: completeness is stated as "found, crashed or stalled", as for `Solver.SolveNode`. `Kakuro.KakuroBoard.SolveAll` states full completeness for the corrected search.
- `Propagation.GacStep`: `worklist.pop()` takes an arbitrary element of a Python set. The model picks any element, so every proof holds for every pop order.
- `Domains.Ascending`: `list(set(...))` lists a set in the order of its hash table, which is not always ascending: `{1, 8}` lists as `[8, 1]`. The model fixes ascending order as a chosen abstraction. It does not capture two effects of the real order:
  - `changed` (utils/KakuroTiles.py:77) compares lists, so in the source it can be true when only the order differs. The `or` at KakuroSolver.py:83 then skips `filterConfigFromTile` for that arc, and lines 117-119 requeue the blank's arcs. In the model `changed` is true only when a candidate is dropped.
  - KakuroSolver.py:134 tries a blank's values in its list's order, so the source may yield solutions in another order than the model.
- Network support ignores runs with no members. The source never makes an arc for such a sum.
- `Kakuro.KakuroBoard.constructor`: only a board that is already parsed is taken; `_parse`, which reads a file, is not part of this model.
  - The rows must have one length, since `board[i][y]` is read for every row below.
  - The blanks must be numbered 0, 1, ... in reading order, as the global counter numbers them on a single parse.
- `Kakuro.KakuroBoard.constructor`: the `tiles` argument is not modelled, nor its mutable default list shared between calls. The model always builds its own list. The branch taken when a non-empty list is passed, which makes no sums, is left out.
- `Kakuro.KakuroBoard.Solve`: the board's `tiles` and `sums` are constant fields, because only `__init__` assigns them. Its contract refers to the candidates at the call, `DomainsOf(tiles)`, which the search leaves alone because it works on a copy.
- `Tiles.Sum.DeepCopy`: only the branch with a memo is modelled. The `memo == None` branch is never taken by the solver.
- `KakuroBoard.deepcopy` is not modelled: the solver never calls it.
- `__str__` and `__repr__` are left out: they only format output.
- The deprecated `Sum.isComplete` and `Blank.filterSumFromValue` are left out: the solver never calls them.
- `_solve`'s parameter `add` is never read, so it is not modelled.
- Candidate values are unbounded integers. A board only holds the digits 1 to 9.
- The global `Blank.id` counter is an `IdCounter` object passed to the constructor, since Dafny has no mutable class fields.

## Findings

| source | as written | input that shows it | evidently intended | confidence | as-written member | corrected member |
|---|---|---|---|---|---|---|
| KakuroSolver.py:121-122 | once propagation ends, the search gives up when every sum has more than one configuration left | a 2×2 block of blanks with a clue of 4 on both rows and both columns: every sum keeps [1, 3] and [3, 1], every blank keeps [1, 3], so nothing is yielded, yet [1, 3, 3, 1] fills the board | branch on such a node like on any other, so that every filling is found | not executed | Kakuro.StallLosesFilling | Kakuro.KakuroBoard.SolveAll |
| KakuroSolver.py:128-131 | `branchingTiles[0]` is read even when no blank has more than one candidate | one row: a clue of 2 over two blanks; the run has no configuration, node consistency empties both blanks, propagation succeeds and `branchingTiles` is empty, so `IndexError` is raised | a node where some blank has no candidate yields nothing | not executed | Kakuro.CrashOnEmptiedBlanks | Kakuro.KakuroBoard.SolveAll |
