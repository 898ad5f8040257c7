# Board and router safety: a Dafny model

The repository keeps its work in append-only JSONL boards that many clones, daemons and hooks write at once. This
project models the code that has to get that right and proves what it keeps:

- the **board merge driver** (`scripts/board-merge-driver.py`), a three-way union of boards with id renumbering;
- the **intake daemon** (`scripts/board_task_intake.py`), which resolves each submitted task once across crashes;
- the **completion gate** and the **commit-boundary gate** (`scripts/board_complete_gate.py`,
  `scripts/board_commit_boundary_gate.py`), which together keep unproven completions off the board;
- the **rotating probe window** (`scripts/provider_health_probe.py`) and the **A/B ledger and ranking**
  (`scripts/router_ab.py`).

`dafny verify dfyconfig.toml` checks everything.

## How the modules fit

`Prelude` holds options, Python's string order, decimal text and a stable sort. `BoardRows` has rows and the pure
comparisons; `IdSpace` the derived ids and the allocator. `MergeSpec` states the merge as functions of the three row
lists and `MergeRows` is the loop-and-dictionary program, proved to return exactly `MergeSpec.Merged`. What the merge
promises is then proved about `Merged`: `MergeLossless`, `MergeFolds` and `MergeStable` on every input; `MergeIds`,
`MergePrefixed`, `MergeLosers`, `MergeBase` and `MergeHolders` about ids; `MergeVersions`, `MergeSymmetry`, `MergeTies`
and, on `MergeThin`'s lemmas about thinned lists, `MergeFixed` for boards with edits; `MergeOrder` about the order of
new rows and what follows from it; `MergeCanonical`, `MergeJoin` and `MergeHistory` for boards that grow by appends. `MergeLimits`, `MergeEdits`, `MergeAgain`, `MergeRepeats` and
`MergeWitnesses` show where a promise stops. `MergeFile` is the parser, the printer and `main`.
`IntakeTail` is the incremental reader, `IntakeLog` the durable record and its runs with crashes, `Intake` the stateful
daemon. `CompletionGate` and `BoundaryGate` are the two gates and `GateVerdicts` their answers in terms of a row's
fields; `ProbeRotation` and `AbLedger` are one component each.

Named hypotheses appear only where a property needs them:

- `CanonInjective`: two rows never share a canonical text.
- `SaltsSpread`: as long as fewer ids than the band holds are taken, some salt of a hash lands on a free one. The salt
  loop stops under this hypothesis; the specification does not depend on it.
- `Hashed`: a payload's hash is never the empty text.
- `NumericBoard`: ids are numbers or prefixed numbers (`TR-126`), the ids whose renumbering the code recognises.
- `OneSpelling`: no two ids of the boards print alike, as the number 7 and the string "7" do.
- `World`: rows are appended and never edited; each content has one writer id, a number or a prefixed number below the
  band; two contents whose writer ids print alike disagree on an identity field; and different contents have different
  band values.
- `Coherent`: versions of a row carry their identity fields, newer ones carry the fields of older ones, and equal
  stamps mean equal field sets.
- `OneRowPerId`: rows that print one id are versions of one row.
- `NothingStale`: a row that the base or the side still has in some version stands there, or in the result, in its
  latest.
- `OneShape`: the ids one content stands under are all numbers, or all numbers behind one prefix.
- `UndisputedTies`: where new rows of equal content are left apart, nobody disputes their ids.
- `TailedBoard`: every id is a text that ends in a number; `NothingFolds`: rows of one content are all left apart.
- `BandsClear`: different contents have different band values, no row stands on the band value of a content it does not
  show, and of two rows of one content that are left apart one has an id no other row carries.
- `OneLine`: a row is written on one line, without surrounding white space, and reads back as itself.

## Where the code and its documentation differ

The model follows the code. Each difference is a theorem.

- *Order independence* (`scripts/board-merge-driver.py:43-47`) is claimed without conditions. Over an empty base, with
  one row of any kind a side, it holds unless the two are lookalikes, one content under two ids or under one and none,
  with no id that a merge invented, and then never (`TwoAppendsCommute`). On coherent boards it holds exactly when the
  lookalikes left apart arrive in the same order both ways (`OrderExactly`). Off them it can fail: of three versions of
  one row the older two must agree on what both carry and the newest lacks (`EditsOrderExactly`, exact), and a row that
  lacks the field a collision is about joins the side it meets first (`MiddleRowSpoils`). And a content folded from ids
  of two shapes, both held by others, is renumbered in the shape that arrived first (`ShapesDependOnSides`).
- *Idempotence* (`scripts/board-merge-driver.py:48-52`) is claimed for every input. It is proved for boards that grow by
  appends (`JoinIdempotent`, under `World`) and, with edits, for coherent boards with one row an id: always where no
  content folds (`EditedIdempotent`), and otherwise exactly when every fold can be made again (`EditedExactly`, under
  `NothingStale`). Five families show what these hypotheses shut out:
  - Two rows that collide on one id can be merged in again exactly when the id is a number or ends in one: a row
    renumbered with a `~` suffix is not recognised as renumbered and comes back as one more row (`ReMergeExactly`).
    `World` asks for ids that end in a number, `OneRowPerId` for no collision.
  - A content that stands under a disputed and under an undisputed id loses a row to the second merge
    (`LookalikesFoldLater`). `World` gives each content one writer id.
  - Two versions of one row under equal stamps with different fields: the version that lost can be merged in again
    exactly when the union still wins against it or the two agree on all they share (`VersionAgainExactly`). `World` has
    no edits, and `Coherent` gives equal stamps equal field sets.
  - A row in an older and in its latest version beside one that collides with it: the older version comes back as a
    third row exactly when the collision renumbered the latest, so a number id is no protection here
    (`OutdatedExactly`). `World` has no edits, and `OneRowPerId` no collision.
  - Folds. A fold can take the latest version of a row away, and an outdated one on the side then stands alone
    (`FoldedRowReturns`, which `NothingStale` shuts out); or it takes the derived id away, and what is left no longer
    folds (`FoldUndone`, the condition of `EditedExactly`). Both boards are coherent, with one row an id and every tie
    folded, so these three are not enough. `World` has no edits and gives each content one writer id.
- *Stable ids* (`scripts/board-merge-driver.py:56-58`): rows of the merge base are said never to be renumbered. Rows are
  emitted content by content, and an id goes to the first emitted row that carries it (`FirstCarrierKeeps`). So a
  newcomer showing an early base row's content can take a later base row's id (`BaseRowRenumbered`); the exact condition
  is `BaseKeptExactly` for a whole base and `BaseRowExactly` for one of its rows, whatever ids its neighbours have. Of
  base rows that share an id exactly one keeps it: the one whose content the base shows first, be it not the first of
  them (`RepeatedBaseId`). An undisputed id can disappear when a third tree brings the same content under a derived id
  (`LookalikeSwallowed`). `StableIds` says what holds always.
- *No repeated id* (`scripts/board-merge-driver.py:53-55`): the check that a renumbered prefixed id is free looks at
  the bare number (lines 288-290). So on boards of prefixed ids where nothing folds an id repeats exactly when a loser's
  new id is carried by a row emitted before it, or was given to another loser (`PrefixedExactly`); with different
  contents and band values throughout, exactly when some loser's new id is carried by a row before it
  (`HeldHomesExactly`). Three families show it, each with its exact condition: the id of a third row
  (`RenumberedOntoHeldId`), one band value (`EqualBandsRepeat`), and lookalikes whose ids have one prefix
  (`LookalikesRepeat`). `UniquePrefixedIds` proves ids unique, folds and numbers included, when none of the three can
  happen. `main` refuses a board that repeats an id. The allocator is seeded from the last content group only, because
  the grouping loop at line 405 reuses the name of the cluster list; uniqueness is proved without relying on the
  seeding.
- *High-water mark* (`scripts/board-merge-driver.py:59-60`): a renumbered number lies in the band, so it is above a
  disputed id below the band but below one past it (`HighWaterMark`); and as ids differ, of two renumbered rows at most
  one is above every id.
- *Conflicted files* (`scripts/board-merge-driver.py:300-302`): a section that is opened over or never closed loses its
  rows with no error (`OpenedOver`); `NothingDropped` gives the exact condition.
- *Shrunken board* (`scripts/board_task_intake.py:250-257`): the carry is said to be reset and is not. A rescan reads
  the new board faithfully exactly when nothing was carried (`ShrinkExact`).
- *Cold start* (`scripts/board_task_intake.py:48-49`): a first boot killed while it seeds leaves a state that is not
  empty, so the next boot resolves the rest of the backlog (`SeedCutExact`).
- *Completion gate* (`scripts/board_complete_gate.py:6-8`): an overridden previous status, or a re-append of a finished
  row under another id, completes a row unjudged (`OverrideUngated`, `RenamedUngated`). An evidence field that is
  present but names nothing hides a good witness (`EvidenceShadows`).

## Model

| member | source | states |
|---|---|---|
| BoardRows.NumberDerived | scripts/board-merge-driver.py:121-127 | a number id counts as invented by the driver exactly when its digits reach the reserved band |
| BoardRows.PrefixedDerived | scripts/board-merge-driver.py:121-127 | a prefixed id counts as invented exactly when its number reaches the band |
| BoardRows.TextNotDerived | scripts/board-merge-driver.py:121-127 | a text id that does not end in a digit is never taken for one the driver invented |
| BoardRows.PayloadExactly | scripts/board-merge-driver.py:184-189 | content is every field of a row and nothing else; its id plays no part |
| BoardRows.NumberTextInjective | scripts/board-merge-driver.py:177-181 | two number ids with one text are one id, so the row key separates number ids |
| BoardRows.IdLeTotalOrder | scripts/board-merge-driver.py:249-256 | candidate ids are totally ordered, ties only between equal ids |
| Prelude.StrLeExactly | scripts/board-merge-driver.py:242-246 | texts compare by the first place where they differ, and a text before its extensions |
| BoardRows.StampExactly | scripts/board-merge-driver.py:220-225 | a row is stamped by the first of the five time fields that holds something |
| BoardRows.SameRowExactly | scripts/board-merge-driver.py:207-217 | under ids that print alike, two rows are versions of one exactly when none of the nine identity fields stands in both with different values |
| BoardRows.MergePair | scripts/board-merge-driver.py:228-239 | the union of both versions' fields, each value taken from one of them |
| BoardRows.MergePairCommutes | scripts/board-merge-driver.py:228-239 | combining two versions does not depend on which side was ours |
| BoardRows.LaterOver | scripts/board-merge-driver.py:228-239 | the later version lies over the earlier one, its id included; between equal stamps the greater text is the later |
| BoardRows.MergePairCarries | scripts/board-merge-driver.py:207-239 | overlaying two versions of one row loses no field of either, no identity value, and not the row's key |
| BoardRows.OrderLeAntisymmetric | scripts/board-merge-driver.py:242-246 | two new rows tie in emission order only when their content is equal; the direction is `MergeOrder.NewRowsInOrder` |
| MergeOrder.NewRowsInOrder | scripts/board-merge-driver.py:375-380 | of two result rows whose contents no base row shows, the earlier stamp stands first, and of equal stamps the lesser text |
| MergeOrder.AppendsInOrder | scripts/board-merge-driver.py:375-380 | on boards extended by appends, the rows of new contents are sorted by stamp, then by text |
| MergeOrder.EarlierKeeps | scripts/board-merge-driver.py:423-447 | of two rows that collide on one id the one with the earlier stamp keeps it, from whichever side, and the other gets the id its content hashes to, digit by digit |
| MergeOrder.EarliestKeeps | scripts/board-merge-driver.py:423-447 | on any board of number and prefixed ids, no row seen under an id is stamped before the one that has it, among rows the base does not show |
| MergeOrder.NewerVersionWins | scripts/board-merge-driver.py:228-239 | of two versions of one row, every field comes from the later stamp that has it, and between equal stamps from the greater text |
| IdSpace.DerivedId | scripts/board-merge-driver.py:130-160 | the id content earns lies in the band and is free whenever a salt can make it so |
| IdSpace.DerivedExactly | scripts/board-merge-driver.py:153-160 | the derived id is the first free one of the numbers the hash, then the hash with a counter behind a hash mark, land on in the band |
| IdSpace.UnsaltedWhenFree | scripts/board-merge-driver.py:130-160 | while the unsalted id is free, the other ids in use do not matter |
| IdSpace.ComputeDerivedId | scripts/board-merge-driver.py:153-160 | the salt loop stops at the first free band value |
| IdSpace.SuffixSomewhere | scripts/board-merge-driver.py:291-297 | however many ids are taken, some numbered suffix from any point on is free (pigeonhole) |
| IdSpace.SuffixedId | scripts/board-merge-driver.py:291-297 | the suffixed id is free and differs from the id it replaces |
| IdSpace.SuffixedExactly | scripts/board-merge-driver.py:291-297 | the suffixed id is the first free one of the texts with six digits of the hash behind a tilde, then a counter behind a dot |
| IdSpace.FreshIsFree | scripts/board-merge-driver.py:280-297 | a renumbered id is outside the taken set, for every id that is not a prefixed number |
| IdSpace.FreshIsDerived | scripts/board-merge-driver.py:280-290 | a renumbered number or prefixed id is recognisably derived, and a prefixed one keeps its prefix |
| IdSpace.IdAllocator.constructor | scripts/board-merge-driver.py:269-274 | the allocator starts with exactly the ids of the rows it is given |
| IdSpace.IdAllocator.Claim | scripts/board-merge-driver.py:276-278 | claiming adds exactly that id |
| IdSpace.IdAllocator.Fresh | scripts/board-merge-driver.py:280-297 | the loops return the specified fresh id and reserve it only in the suffix case |
| MergeRows.Clustering.Find | scripts/board-merge-driver.py:346-351 | the indexed search finds the first cluster the row could be a version of |
| MergeRows.Clustering.AbsorbRow | scripts/board-merge-driver.py:345-367 | one arrival changes the clusters as the specification says and keeps the index exact |
| MergeRows.Clustering.AbsorbRows | scripts/board-merge-driver.py:344-373 | a whole side extends the clustering of what came before |
| MergeRows.ContestedIds | scripts/board-merge-driver.py:386-391 | an id is contested exactly when clusters of different content carry it |
| MergeRows.GroupByContent | scripts/board-merge-driver.py:401-403 | groups are the contents in order of first appearance, each with its clusters in order |
| MergeRows.LogicalRows | scripts/board-merge-driver.py:401-421 | the collapse decision for every group, and the group the allocator is seeded from |
| MergeRows.ChooseId | scripts/board-merge-driver.py:430-447 | base id, else best unclaimed candidate, else a fresh id, else none |
| MergeRows.AssignIds | scripts/board-merge-driver.py:426-461 | the assignment loop yields the specified rows from any allocator state |
| MergeRows.MergeRows | scripts/board-merge-driver.py:334-462 | the program returns exactly the specified merge |
| MergeLossless.Lossless | scripts/board-merge-driver.py:53-55 | on every input, each row of every side has a result row with all its fields and its identity values |
| MergeLossless.CollisionKeepsBoth | scripts/board-merge-driver.py:207-217 | two rows that collide on an id but differ in identity both survive as different rows |
| MergeLossless.NothingInvented | scripts/board-merge-driver.py:344-461 | every field of every result row was written by some input row |
| MergeIds.UniqueIds | scripts/board-merge-driver.py:426-461 | no id is repeated in the result when no input id is a prefixed number, whatever hashes collide; prefixed boards are `PrefixedExactly` and `UniquePrefixedIds` |
| MergeIds.AssignUnique | scripts/board-merge-driver.py:426-461 | the loop keeps claimed ids inside the taken set, which is what makes ids unique |
| MergeIds.AssignKeeps | scripts/board-merge-driver.py:429-440 | a logical row gives up an id only to a row that stands before it |
| MergeIds.BaseStable | scripts/board-merge-driver.py:375-380 | with distinct base ids, and base contents no other row shows, the result starts with the base rows in base order under their own ids |
| MergeBase.BaseKeptExactly | scripts/board-merge-driver.py:56-58 | with distinct base ids and base contents, every base row keeps its id exactly when no new row carries a later base row's id while showing an earlier base row's content in a group left apart |
| MergePrefixed.UniquePrefixedIds | scripts/board-merge-driver.py:280-290 | on boards of number and prefixed ids no id is repeated when band values differ, none is stood on by another content, and lookalikes left apart have ids of their own |
| MergePrefixed.AssignPrefixed | scripts/board-merge-driver.py:426-461 | from any state in which claimed ids are kept candidates or renewals of losers, the remaining rows repeat no id and take none already claimed |
| MergeStable.StableIds | scripts/board-merge-driver.py:56-58 | on every input an id leaves the board only when its row stands under another id it was seen under, and with one spelling an id only when its content was folded |
| MergeFolds.CopiesLeft | scripts/board-merge-driver.py:393-421 | on every input, the clusters of one content end as one row exactly when they fold (an id derived, or all ids contested), and otherwise all stay |
| MergeVersions.SameRowTransitive | scripts/board-merge-driver.py:207-217 | on coherent boards "could be the same row" is an equivalence |
| MergeVersions.MergePairIsLater | scripts/board-merge-driver.py:228-239 | on coherent boards the overlay of two versions is the later version |
| MergeVersions.ClusterSet | scripts/board-merge-driver.py:344-373 | clustering yields one cluster per row, holding its latest version, whatever the arrival order |
| MergeSymmetry.OrderIndependent | scripts/board-merge-driver.py:43-47 | swapping the sides gives the same rows in the same order, edits included, when the ties between lookalikes fold |
| MergeSymmetry.LatestVersionsShown | scripts/board-merge-driver.py:228-239 | the result shows the latest version of every row and nothing else |
| MergeTies.OrderExactly | scripts/board-merge-driver.py:43-47 | on coherent boards of number or prefixed ids, swapping the sides changes nothing exactly when the lookalikes left apart stand in the same order both ways |
| MergeCanonical.MergeHomed | scripts/board-merge-driver.py:386-461 | merging boards of one world, number or prefixed, gives each content once, under its writer id or its renumbered id behind the same prefix, ids unique |
| MergeJoin.PlaceExact | scripts/board-merge-driver.py:426-461 | a content keeps its writer's id exactly when the base does not hold it and no earlier content wants it |
| MergeJoin.MergeIsCanonical | scripts/board-merge-driver.py:334-462 | the merge is the base, then every appended content in emission order: a function of the set of contents; the order itself is `MergeOrder.AppendsInOrder` |
| MergeHistory.JoinCommutes | scripts/board-merge-driver.py:43-47 | on grown boards the merge is commutative |
| MergeHistory.JoinAssociates | scripts/board-merge-driver.py:40-51 | on grown boards the merge is associative |
| MergeHistory.JoinIdempotent | scripts/board-merge-driver.py:48-52 | merging a side or the result in again changes nothing |
| MergeHistory.ClonesConverge | scripts/board-merge-driver.py:73-77 | clones that saw the same contents hold the same board, however their merges nested |
| MergeHistory.HistoryHomed | scripts/board-merge-driver.py:386-421 | along any history of appends and merges the board holds exactly what was appended, at home ids |
| MergeHistory.MergedHistory | scripts/board-merge-driver.py:48-52 | after any tree of merges with any bases each content occurs once and no id twice |
| MergeLimits.LookalikesStayApart | scripts/board-merge-driver.py:399-421 | equal contents that no id ties together stay two rows when no merge invented their ids, in order of arrival |
| MergeLimits.TwoAppendsCommute | scripts/board-merge-driver.py:43-47 | over an empty base, for one row a side under any id or none, order independence holds exactly when the rows are not such lookalikes |
| MergeWitnesses.LookalikeSwallowed | scripts/board-merge-driver.py:393-417 | a third tree's derived id folds two undisputed lookalikes into one row, under the lesser number |
| MergeWitnesses.FoldKeepsPreferred | scripts/board-merge-driver.py:249-256 | a fold of two keeps the writer's id before an invented one, then the lesser number, numbers before texts, the lesser text, whichever side it comes from |
| MergeWitnesses.BaseRowRenumbered | scripts/board-merge-driver.py:401-435 | a base row loses its id to a newcomer that shows an earlier base row's content |
| MergeHolders.FirstCarrierKeeps | scripts/board-merge-driver.py:433-447 | an id no merge invented goes to the first row emitted of those seen under it, when it is that row's base id or its only one, and to no other row |
| MergeHolders.RepeatedBaseId | scripts/board-merge-driver.py:401-447 | of the rows of a base of any length that share an id exactly one keeps it in a merge that brings nothing: the one whose content appears in the base before the contents of the others |
| MergeHolders.BaseRowExactly | scripts/board-merge-driver.py:56-58 | a base row under an id no merge invented keeps it exactly when no new row carries it while showing an earlier base row's content in a group left apart, whatever ids the other base rows have |
| MergeWitnesses.HighWaterMark | scripts/board-merge-driver.py:130-160 | a renumbered number is above a disputed id below the band and below one past the band |
| MergeAgain.ReMergeExactly | scripts/board-merge-driver.py:48-52 | for two rows colliding on one id, merging either in again changes nothing exactly when the id is a number or ends in one; otherwise a third row appears |
| MergeAgain.OutdatedExactly | scripts/board-merge-driver.py:48-52 | a row in two versions and one colliding with it: merging the older version in again changes nothing exactly when the latest was emitted first, and otherwise adds a third row |
| MergeAgain.LookalikesFoldLater | scripts/board-merge-driver.py:393-417 | a content under a disputed and an undisputed id is two rows after the first merge and one after the second |
| MergeLosers.PrefixedExactly | scripts/board-merge-driver.py:280-290 | on boards of prefixed ids where nothing folds, an id repeats exactly when a loser is renumbered to an id that a row emitted before it carries or was renumbered to |
| MergeLosers.HeldHomesExactly | scripts/board-merge-driver.py:280-290 | with pairwise different contents and band values besides, an id repeats exactly when some loser's new id is carried by a row emitted before it |
| MergeRepeats.RenumberedOntoHeldId | scripts/board-merge-driver.py:288-290 | of two rows on one prefixed id the loser repeats the id of a third row exactly when that is the id it is renumbered to |
| MergeRepeats.EqualBandsRepeat | scripts/board-merge-driver.py:130-160 | two losers of one prefixed id get one id exactly when their band values are equal |
| MergeRepeats.LookalikesRepeat | scripts/board-merge-driver.py:399-447 | two lookalikes kept apart by a third row's undisputed id, which both lose theirs, get one id exactly when their ids have one prefix |
| MergeEdits.EditsOrderExactly | scripts/board-merge-driver.py:228-239 | for three versions of one row with rising stamps, swapping the sides gives the same row exactly when the older two agree on every field both carry and the newest lacks |
| MergeEdits.VersionAgainExactly | scripts/board-merge-driver.py:48-52 | of two versions of one row the winner can be merged in again without effect, the loser exactly when the union still wins against it or both agree on all they share |
| MergeFixed.EditedExactly | scripts/board-merge-driver.py:48-52 | on coherent boards with one row an id and nothing stale, merging a side in again changes nothing exactly when every folded content still folds |
| MergeFixed.EditedIdempotent | scripts/board-merge-driver.py:48-52 | on coherent boards with one row an id where no content folds, merging a side in again changes nothing |
| MergeWitnesses.FoldedRowReturns | scripts/board-merge-driver.py:399-421 | on a coherent board with one row an id and every tie folded, a fold takes away the latest version of a row and the outdated one comes back as a second row |
| MergeWitnesses.FoldUndone | scripts/board-merge-driver.py:393-417 | on such a board a fold takes away the derived id, and the lookalikes left no longer fold |
| MergeWitnesses.SameRowNotTransitive | scripts/board-merge-driver.py:214-217 | a row without the disputed field fits both sides of a collision |
| MergeWitnesses.MiddleRowSpoils | scripts/board-merge-driver.py:344-373 | such a row makes the merge depend on the order of the sides |
| MergeWitnesses.ShapesDependOnSides | scripts/board-merge-driver.py:280-297 | a content folded from ids of two shapes, both held by others, is renumbered in the shape that arrived first |
| MergeFile.ParseLines | scripts/board-merge-driver.py:300-331 | the rows are the readable lines that are not abandoned, in text order, and every unreadable data line is an error |
| MergeFile.SplitExactly | scripts/board-merge-driver.py:305 | joined by newlines the lines are the text again, and none has a newline in it |
| MergeFile.StripExactly | scripts/board-merge-driver.py:306 | what is cut off a line on both sides is white space, and what is left neither begins nor ends with any |
| MergeFile.DataExactly | scripts/board-merge-driver.py:308-319 | a line is data unless it is blank, opens or closes a section, or divides the first half of one; a divider elsewhere is data |
| MergeFile.AbandonedExactly | scripts/board-merge-driver.py:308-318 | a line is abandoned exactly when a section was opened before it and is not closed before the next opens |
| MergeFile.ErrorsExactly | scripts/board-merge-driver.py:321-325 | the errors are the numbers, from one and ascending, of the data lines that are not JSON |
| MergeFile.SectionOutcome | scripts/board-merge-driver.py:308-318 | a section's rows are kept when the next boundary closes it and dropped otherwise |
| MergeFile.NothingDropped | scripts/board-merge-driver.py:300-331 | parsing keeps every readable line exactly when none is abandoned |
| MergeFile.BalancedKeepsAll | scripts/board-merge-driver.py:300-331 | with every section closed before the next opens, all readable lines become rows in text order |
| MergeFile.RowOrError | scripts/board-merge-driver.py:319-330 | each data line gives one row or one error |
| MergeFile.OpenedOver | scripts/board-merge-driver.py:308-310 | a section opened over loses its row without an error |
| MergeFile.PrintExactly | scripts/board-merge-driver.py:505-507 | each row's text stands on a line of its own, in order, and the file ends with a newline |
| MergeFile.PrintParse | scripts/board-merge-driver.py:505-507 | what is written reads back as the same rows without an error |
| MergeFile.RepeatedIds | scripts/board-merge-driver.py:498-500 | exactly the ids on more than one row |
| MergeFile.Run | scripts/board-merge-driver.py:474-507 | our file becomes the printed merge, or is left as it was exactly when a side does not parse or an id repeats |
| IntakeTail.Complete | scripts/board_task_intake.py:281-288 | the cut is just after the last newline |
| IntakeTail.ReadExactly | scripts/board_task_intake.py:250-289 | every call takes in what stands behind the last read, or the whole board for a backlog or a shrunken one, and cuts it behind the last newline; an unchanged stat reads nothing |
| IntakeTail.ReadInStep | scripts/board_task_intake.py:250-289 | one poll delivers the next complete lines and takes in all that stood there at its stat |
| IntakeTail.TailerExact | scripts/board_task_intake.py:250-289 | after any polls of a growing board, texts plus carry are its first bytes, and the carry has no newline |
| IntakeTail.ShrinkExact | scripts/board_task_intake.py:269-288 | after a shrink the rescan is faithful exactly when nothing was carried |
| IntakeTail.BacklogReadsAll | scripts/board_task_intake.py:265-289 | a backlog poll reads the whole board whatever was read before, when nothing is carried |
| IntakeTail.LinesExactly | scripts/board_task_intake.py:304-322 | the lines with their newlines and the rest are the text again, and no line has a newline in it |
| IntakeTail.LinesAppend | scripts/board_task_intake.py:304-322 | the lines of delivered texts add up |
| IntakeTail.DeliveredLines | scripts/board_task_intake.py:250-289 | the delivered lines are exactly the complete lines of the bytes read |
| IntakeLog.SeenInOrder | scripts/board_task_intake.py:125-142 | the ids are listed in the order their first rows were written |
| IntakeLog.LoadIsPhase | scripts/board_task_intake.py:125-142 | what a reload knows of an id is how far its history got |
| IntakeLog.RecoverPhase | scripts/board_task_intake.py:211-231 | recovery finishes exactly the dangling claims and touches nothing else |
| IntakeLog.BootRepairs | scripts/board_task_intake.py:211-231 | a boot appends, for every id a crash left unfinished and no other, one error record directly followed by the completing row, and the failed records grow by their number |
| IntakeLog.PollPhase | scripts/board_task_intake.py:366-407 | a poll finishes exactly the unknown pending ids of its lines |
| IntakeLog.PollWrites | scripts/board_task_intake.py:326-397 | a poll appends, for every new submission in order, its claim, its start, a record that is failed unless the resolve was clean, and its completing row |
| IntakeLog.SeedPhase | scripts/board_task_intake.py:409-428 | a seed marks exactly the unknown ids of its lines |
| IntakeLog.PrefixOrderly | scripts/board_task_intake.py:105-122 | a crash between any two appends leaves an orderly record |
| IntakeLog.LifeExtends | scripts/board_task_intake.py:105-122 | the record only grows |
| IntakeLog.AtMostOnce | scripts/board_task_intake.py:43-46 | over every run with crashes anywhere an id is resolved at most once, a seeded id never, and only after its claim is on disk |
| IntakeLog.NoSilentLoss | scripts/board_task_intake.py:43-46 | after any run, a booted daemon between polls has completed and recorded every claim |
| IntakeLog.CleanMeansResolved | scripts/board_task_intake.py:43-46 | over every run with crashes anywhere, an id is recorded without an error only directly behind its start, and only if some resolver gave a clean outcome for it |
| IntakeLog.TailIsRescan | scripts/board_task_intake.py:366-397 | tailing equals rescanning the whole board at every poll, and both equal one pass |
| IntakeLog.PollSpawns | scripts/board_task_intake.py:372-391 | a poll resolves exactly the new pending ids, once each, in order of appearance |
| IntakeLog.SeedCutExact | scripts/board_task_intake.py:48-51 | after a seed cut short the next boot resolves exactly the pending backlog ids not yet marked |
| Intake.LoadSeenFile | scripts/board_task_intake.py:125-142 | the loaded map is last-row-wins and its order is first appearance |
| Intake.BoardIntake.constructor | scripts/board_task_intake.py:192-207 | boot reloads, recovers and starts reading at the beginning |
| Intake.BoardIntake.ReconcileClaims | scripts/board_task_intake.py:211-231 | the boot loop appends exactly what recovery calls for; what that is, is `IntakeLog.BootRepairs` |
| Intake.BoardIntake.ReadNewBytes | scripts/board_task_intake.py:250-289 | the reader's state and text, through the unchanged, shrunken and backlog cases |
| Intake.BoardIntake.ResolveOne | scripts/board_task_intake.py:326-364 | spawn, record, complete, unless the resolve raises |
| Intake.BoardIntake.Submit | scripts/board_task_intake.py:386-397 | claim, spawn, one record, completion, also when the resolve raises |
| Intake.BoardIntake.Poll | scripts/board_task_intake.py:366-407 | the appended record and the tally of one pass |
| Intake.BoardIntake.SeedBoard | scripts/board_task_intake.py:409-428 | marks every id on the board, a last line without newline included, and counts them |
| Intake.LastLineCounts | scripts/board_task_intake.py:409-428 | a last line without a newline counts as if it had one |
| Intake.TallyAdds | scripts/board_task_intake.py:366-407 | lines are submissions or skipped, submissions are results or errors, errors are failed records |
| Intake.LifeIsOnePass | scripts/board_task_intake.py:250-289 | a whole life on a growing board does what one pass over the complete lines read would do |
| Intake.SubmissionsAnswered | scripts/board_task_intake.py:43-46 | after any run of lives cut short anywhere, a daemon that boots and polls a growing board has marked, or completed and recorded, every pending id on the complete lines it last saw, each started at most once |
| CompletionGate.LatestById | scripts/board_complete_gate.py:889-896 | the last row of each id |
| CompletionGate.Board.AppendCompletion | scripts/board_complete_gate.py:922-954 | the verdict, the one appended row, and an unchanged board on every refusal |
| CompletionGate.FlipIsProven | scripts/board_complete_gate.py:828-855 | a call flips at most the id it appends, proven unless the effective previous status was terminal through an override or a rename |
| CompletionGate.CompletionsProven | scripts/board_complete_gate.py:922-954 | over any run, a straight call that completes an id appends its row with criteria, evidence and envelope clearance; what counts as either is `GateVerdicts.VerdictExactly` |
| CompletionGate.OverrideUngated | scripts/board_complete_gate.py:937-939 | told the status was terminal, the gate completes a bare row |
| CompletionGate.RenamedUngated | scripts/board_complete_gate.py:933-939 | a finished row re-appended under another id completes that id unjudged |
| GateVerdicts.VerdictExactly | scripts/board_complete_gate.py:828-954 | for every call on every board: no such row, a refusal that lists exactly what the completion lacks, or the row as wanted with its time and mark, said of the fields |
| GateVerdicts.TextEvidenceExactly | scripts/board_complete_gate.py:144-157 | with a text for evidence, the row is appended exactly when the text claims none with a reason, or claims something and has a digit, a slash or an artifact's extension |
| GateVerdicts.ObjectEvidenceExactly | scripts/board_complete_gate.py:160-195 | with an object for evidence, exactly when it names a run, or one of the known fields has a number or a text that names proof, alone or in lists |
| GateVerdicts.WitnessExactly | scripts/board_complete_gate.py:215-226 | without evidence fields, exactly when a witness claims something, or none with a reason, or a reason is stated |
| GateVerdicts.LatestExactly | scripts/board_complete_gate.py:889-896 | the state of an id is the last row that has it; empty texts and zero are no ids |
| GateVerdicts.BoundaryExactly | scripts/board_commit_boundary_gate.py:88-190 | a diff passes exactly when every last row of an id that completes it, and did not before, names a run, states a reason or holds evidence |
| BoundaryGate.RowsFromLines | scripts/board_commit_boundary_gate.py:72-85 | last row per id and the dict's key order |
| BoundaryGate.IdsInOrder | scripts/board_commit_boundary_gate.py:72-85 | the ids are listed in the order their first rows stand on the board |
| BoundaryGate.RowsFlipped | scripts/board_commit_boundary_gate.py:118-133 | the last rows of the ids that became terminal, in key order |
| BoundaryGate.CheckFlippedRows | scripts/board_commit_boundary_gate.py:176-190 | exactly the flipped rows with none of the accepted forms |
| BoundaryGate.CheckDiff | scripts/board_commit_boundary_gate.py:118-190 | the diff passes exactly when every flipped id's last row shows an accepted form |
| BoundaryGate.GatesAgree | scripts/board_commit_boundary_gate.py:4-10 | along a run of straight calls the boundary accepts every state exactly when no call takes evidence off a completed row |
| BoundaryGate.OpenEvidencePasses | scripts/board_commit_boundary_gate.py:118-190 | a run that sets evidence only on open rows passes the boundary |
| ProbeRotation.RankableLanes | scripts/provider_health_probe.py:362-382 | the rankable offers as lanes in ascending price, and of equal prices by model |
| ProbeRotation.ListedExactly | scripts/provider_health_probe.py:367-381 | a lane is listed exactly for an offer of the provider that is neither disabled, archived nor expired before today, at its price, or on a plan at a billion |
| ProbeRotation.WindowDistinct | scripts/provider_health_probe.py:385-405 | a window has min(n, cap) distinct positions, and one when the cap is below one |
| ProbeRotation.DayReaches | scripts/provider_health_probe.py:385-405 | any 24 consecutive runs probe exactly the first 24 * cap positions |
| ProbeRotation.DayCoversAll | scripts/provider_health_probe.py:393-396 | a day covers the list exactly when it has at most 24 * cap lanes |
| ProbeRotation.UnreachedAreDearest | scripts/provider_health_probe.py:362-405 | over lanes in ascending price, a lane a day never reaches costs no less than one it reaches |
| ProbeRotation.ProbeModels | scripts/provider_health_probe.py:416-430 | the static model first, then the window's new models, none twice |
| ProbeRotation.DayProbes | scripts/provider_health_probe.py:408-433 | a day probes the static model and the models of the first 24 * cap lanes, and no others |
| ProbeRotation.CoverageBlock | scripts/provider_health_probe.py:436-465 | each rankable lane is reported once, as probed or as unprobed, both sorted |
| AbLedger.CostKnown | scripts/router_ab.py:244-277 | when a cost is named, its sign, and that it is zero only if every metered kind was free or unused |
| AbLedger.CostAdds | scripts/router_ab.py:271-277 | under one price, the cost of summed meters is the sum of the costs |
| AbLedger.MillionCosts | scripts/router_ab.py:271-277 | a million tokens of one kind cost that kind's rate, for input, output and cache reads |
| AbLedger.NoCacheRate | scripts/router_ab.py:254-276 | without a rate for cache reads the cost is what a rate of zero would give |
| AbLedger.ReasonHolds | scripts/router_ab.py:248-270 | the reason given for a missing cost is one that holds |
| AbLedger.CostedExactly | scripts/router_ab.py:230-376 | an attempt has a cost exactly when its own lane served it, the price is sourced, and verified if the lane is a known anomaly, and meters and rates are usable; and exactly when it lacks one for want of a price |
| AbLedger.RunTasks | scripts/router_ab.py:284-385 | one row per task and lane, and counters that agree with the rows |
| AbLedger.RunRowsAt | scripts/router_ab.py:293-295 | every task is attempted once on every pair, in order |
| AbLedger.LedgerIsTallies | scripts/router_ab.py:354-383 | the dictionary holds each lane's own counters and lists the lanes once |
| AbLedger.Conserved | scripts/router_ab.py:354-383 | attempts are passes, failures and exclusions; samples are costed or have a reason; cost is the sum over rows |
| AbLedger.CountersExactly | scripts/router_ab.py:354-383 | exclusions and samples with a cost are counted row by row, and the reasons kept are those of the samples without one |
| AbLedger.FiguresExactly | scripts/router_ab.py:395-413 | a lane's two rates are its whole cost over its samples and over its passes, given exactly when every sample has a cost and there is something to divide by |
| AbLedger.MeasuredExactly | scripts/router_ab.py:388-431 | a lane is measured exactly when no attempt was served elsewhere, all have a cost, one passed and the floor is met |
| AbLedger.RankedInOrder | scripts/router_ab.py:395-435 | every lane once, measured ones first in ascending cost per passed task, ties and unmeasured ones by name |
| AbLedger.RankLanes | scripts/router_ab.py:388-435 | the program returns the specified ranking |
| AbLedger.RankingByCounters | scripts/router_ab.py:395-396 | the ranking does not depend on the order in which lanes were first tried |

## Left out

- OrderLeAntisymmetric: says nothing of the direction of the order, which is `NewRowsInOrder`.
- NewRowsInOrder: an edited base row keeps its place, so only contents that no base row shows in its merged version are ordered by stamp.
- BaseStable: one way, with a condition on the clustered rows; the exact condition is `BaseKeptExactly`.
- BaseKeptExactly: base rows have ids, number or prefixed, that no merge invented, and show different contents; a base that holds derived ids too is `BaseRowExactly`, row by row.
- BaseRowExactly: an earlier base content must not fold with a row that carries the id, and the base shows different contents; of lookalikes within the base only `RepeatedBaseId` speaks.
- FirstCarrierKeeps: ids that end in no digit are excluded, because a suffix can spell an id another row has.
- RepeatedBaseId: nothing new on either side, and no content shown under the id folds.
- OrderIndependent: ties between new rows of equal content must fold, and one content's ids must have one shape; `OrderExactly` is exact where lookalikes left apart have undisputed ids.
- UniqueIds: prefixed ids are excluded, because their freshness is checked on the bare number; they are `PrefixedExactly`.
- UniquePrefixedIds: its condition is sufficient; the exact one is `PrefixedExactly`, for boards of prefixed ids where nothing folds.
- PrefixedExactly: boards that mix numbers with prefixed ids, and boards where a content folds, are `UniquePrefixedIds`.
- StableIds: allows another id the row was seen under, which is what a fold does; `LookalikeSwallowed` shows it happens to undisputed ids.
- TwoAppendsCommute: an empty base and one row a side; larger boards are `OrderExactly`.
- ReMergeExactly: two rows and an empty base; larger boards are `JoinIdempotent` under `World` and `EditedExactly`.
- JoinIdempotent: `World` has no edits; boards with edits are `EditedExactly`, which asks for one row an id.
- EditedExactly: boards with edits and collisions at once are covered by `OutdatedExactly` only.
- MergeRows: the input bound keeps half the band free so that every salt loop stops; beyond it the source has no bound and may not stop.
- `id: null`, boolean, float and list ids, and Python's `1 == True`: an id is a number or a string, or absent.
- JSON text, UTF-8 decoding, Unicode digits and line separators, and key order inside a written row: rows are maps behind an abstract one-line codec.
- SHA-256: an abstract function; content keys and the truncated row-key hash are modelled without collisions.
- Notes, log lines, refusal wording and report text.
- File locking, fsync, torn log lines and read failures: an append is atomic and durable, and one daemon runs at a time.
- The retry records of a failed board stat, and the resolve payload copied into a record: a record keeps its id and whether it failed.
- The resolve subprocess, HTTP probes and executors: a function from id or attempt to outcome.
- A shrinking board beyond `ShrinkExact`: the life theorems assume growth.
- The envelope checks of the completion gate: one boolean that can only add a refusal.
- The priority-vocabulary arm of the boundary gate, git plumbing and command lines.
- Ids of the gates that are neither text nor number, and an `evidence` detail that is not a list.
- Rounding of costs and rates, white space around a price source, and attempt fields that no counter reads.
- Rolling averages, migrations, quality and lifecycle gates, dashboards: single-branch logic or code elsewhere.
