# Nine men's morris: rules, search and live board in Dafny

This project models the game logic of a browser nine men's morris game:

- the AI's rules engine `GameNode`: move lists, performing and undoing moves, mills, the winner, the heuristic rating and the position hash;
- the alpha-beta search `EnemyAIMinimax.AlphaBeta` with its move shuffle;
- the live board's state machine in `GameBoard`: the neighbour pair tables, the draw rule, mills, switching players and removing stones;
- the field-level predicates of `GameField`;
- the would-be-mill predicates of the primitive AI, `EnemyAIPrimitive`.

Everything is modelled as pure functions over immutable values:

- A `GameNode` is a `Node.Board`: two 24-long rows of booleans, one per colour, plus the player, turn and phase.
- The live board is a `Live.Game`. It holds an owner table (`GameField.Owners`, which field each `GameStone` stands on), the two stone lists, and the draw bookkeeping.
- The board graph lives in `Topology`. The neighbour tables are written as functions of the field, and the mill lines are defined independently of them.

The search is a recursive function. It threads the node, the stored move and a call counter through the calls. The wall clock, `Math.random` and the `hashForRepeat` lookup are oracle parameters (`Search.Oracles`). The search reads the heuristic through its context, and `Search.ForColor` builds the context with `GetRating` for the AI's colour. Every property of the search holds whatever the heuristic; `Search.ForColorLeaf` states what a base case is worth with the AI's own rating.

Each part of the model is connected to another by a proved agreement:

- `GameField`'s recursive mill getters agree with `GameNode`'s mill checks.
- In a well-formed game, `CanStoneMoveTo` agrees with `GameNode`'s move rules (`Live.CanMoveAgrees`).
- `EnemyAIPrimitive`'s predicates agree with "place, then check for a mill".
- `GameBoard`'s hash agrees with `GameNode`'s hash.
- `GameBoard`'s "no movable stone" test agrees with `GameNode`'s "stuck" test.

Modules, one per file:

| module | file | source |
|---|---|---|
| `Base` | base.dfy | enums of typescript/0mill.ts, counting helpers |
| `Topology` | topology.dfy | neighbour tables of typescript/EnemyAIMinimax.ts and typescript/GameBoard.ts |
| `Node` | node.dfy | `GameMove`, `GameNode` (except the rating) |
| `Rating` | rating.dfy | `GameNode.GetRating` and its counting scans |
| `Search` | search.dfy | `EnemyAIMinimax.AlphaBeta`, `shuffleArray` |
| `GameField` | field.dfy | `GameField` getters, `GameStone.isPlaced` |
| `Primitive` | primitive.dfy | `EnemyAIPrimitive` would-be-mill predicates |
| `Live` | live.dfy | `GameBoard` state transitions |

## Model

| member | source | states |
|---|---|---|
| Topology.PrevNextMutual | typescript/EnemyAIMinimax.ts:19-25 | along either axis, `g` follows `f` exactly when `f` precedes `g`: the left/right and top/bottom tables are mutual inverses |
| Topology.NeighborsSymmetric | typescript/EnemyAIMinimax.ts:88-99 | `GetNeighbors` is symmetric, and its members are exactly the four table entries that are present |
| Topology.HorizontalPairsMutual | typescript/GameBoard.ts:74-79 | each pair of `nachbarL`/`nachbarR` is a mutual right/left neighbour pair of `GameNode`'s tables |
| Topology.VerticalPairsMutual | typescript/GameBoard.ts:81-86 | each pair of `nachbarT`/`nachbarB` is a mutual bottom/top neighbour pair of `GameNode`'s tables |
| Topology.PairTablesAgree | typescript/GameBoard.ts:74-86 | the links the two loops set (right, left, bottom, top, with unset fields left `null`) equal `GameNode.neighborRight/Left/Bottom/Top` on every field |
| Node.CheckMillMeaning | typescript/EnemyAIMinimax.ts:273-321 | `CheckMillHorizontal/Vertical(f)` holds iff `f` is occupied and all three fields of its line on that axis hold stones of `f`'s colour, whichever field of the line `f` is |
| Node.CheckMillLines | typescript/EnemyAIMinimax.ts:323-325 | `CheckMill(f)` holds iff `f` is occupied and its horizontal or its vertical line is all of `f`'s colour |
| Node.GetWinnerMeaning | typescript/EnemyAIMinimax.ts:331-353 | a winner exists only in the moving or removing phase; in removing it is the player to move, otherwise the opponent; in moving there is a winner iff the mover has more than 3 stones and none can slide to a free neighbour |
| Node.IncrementAndUpdate | typescript/EnemyAIMinimax.ts:250-266 | stones unchanged; either the phase becomes Removing with player and turn kept, or the phase becomes Placing (turn < 17) or Moving, the player flips and the turn advances; Removing is entered only from outside Removing after a mill, and always when the opponent has ≤ 3 stones |
| Node.UpdateEntersRemoving | typescript/EnemyAIMinimax.ts:250-259 | Removing is entered exactly when the phase was not Removing, the field is in a mill, and the opponent has a stone outside every mill or at most 3 stones |
| Node.PerformMoveRefuses | typescript/EnemyAIMinimax.ts:150-194 | `PerformMove` refuses a move of another phase, any move once there is a winner, a placement with `from` set or onto an occupied field, a slide without an own stone at `from` or onto an occupied field, a removal of a non-opponent field or of a stone in a mill, and every move in a non-playing phase |
| Node.PerformMoveEffects | typescript/EnemyAIMinimax.ts:150-194 | an accepted move keeps the board disjoint, touches only its own fields, and changes the stone counts by +1 (place), 0 (slide) or −1 opponent (remove) |
| Node.PlaceEffects | typescript/EnemyAIMinimax.ts:160-168 | a placement adds one stone of the mover at its target and nothing else |
| Node.MoveStoneAccepts | typescript/EnemyAIMinimax.ts:169-175 | a slide is refused exactly when `from` or `to` is missing, the target is occupied, or the mover has no stone on `from` |
| Node.SlideEffects | typescript/EnemyAIMinimax.ts:169-179 | a slide keeps both stone counts and changes only `from` and `to` |
| Node.RemovalEffects | typescript/EnemyAIMinimax.ts:180-188 | a removal takes one opponent stone and changes only that field |
| Node.PerformThenUndo | typescript/EnemyAIMinimax.ts:150-244 | for every move `PerformMove` accepts on a disjoint board, `UndoMove` restores the board exactly: stones, player, turn and phase, including mill-closing moves and removals |
| Node.UndoPlace | typescript/EnemyAIMinimax.ts:202-244 | undoing an accepted placement restores the board |
| Node.UndoSlide | typescript/EnemyAIMinimax.ts:202-244 | undoing an accepted slide restores the board |
| Node.UndoRemoval | typescript/EnemyAIMinimax.ts:202-244 | undoing an accepted removal restores the board |
| Node.RewindAfterUpdate | typescript/EnemyAIMinimax.ts:202-244 | the player `UndoMove` recovers after `IncrementAndUpdate` is the player who moved, and the phase and turn come back with it |
| Node.PossibleMovesDistinct | typescript/EnemyAIMinimax.ts:101-143 | no move is listed twice: the placements and removals go by field, the slides by their own field, and the flying targets and a field's neighbours have no repeats; with the previous row, with ≤ 3 stones the moving phase lists every (own stone, free field) pair exactly once |
| Topology.NeighborsDistinct | typescript/EnemyAIMinimax.ts:88-99 | `GetNeighbors(f)` lists no field twice and never `f` itself |
| Node.PossibleMovesExact | typescript/EnemyAIMinimax.ts:101-143 | a move is listed iff `PerformMove` accepts it and, in the moving phase with more than 3 own stones, it goes to a neighbour; so nothing is listed once there is a winner, and with ≤ 3 stones exactly every (own stone, free field) slide is listed |
| Node.PlacementsListed | typescript/EnemyAIMinimax.ts:105-111 | the placement list holds exactly the accepted placements |
| Node.SlidesListed | typescript/EnemyAIMinimax.ts:112-131 | the slide list holds exactly the accepted slides, restricted to neighbours above 3 stones |
| Node.RemovalsListed | typescript/EnemyAIMinimax.ts:132-140 | the removal list holds exactly the accepted removals |
| Node.MovesOfMember | typescript/EnemyAIMinimax.ts:113-130 | the moves listed from `f` go from an own stone to a free field, which is a neighbour unless the mover has ≤ 3 stones |
| Node.NoSlidesMeansLoss | typescript/EnemyAIMinimax.ts:101-143 | in the moving phase with more than 3 stones, the opponent has won exactly when the slide list is empty |
| Node.HashBound | typescript/EnemyAIMinimax.ts:689-692 | `CurrentStateToNumber` of a disjoint board is below 3^24 |
| Node.HashInjective | typescript/EnemyAIMinimax.ts:689-692 | two disjoint boards with the same hash have the same stones |
| Rating.ReadyAfterPut | typescript/EnemyAIMinimax.ts:408-428 | putting a stone on a free field closes a mill on an axis iff the other two fields of that line already hold the colour |
| Rating.TwoPieceMeaning | typescript/EnemyAIMinimax.ts:408-428 | a field contributes to the two-piece count once per axis on which a stone there would close a mill, and nothing when occupied |
| Rating.CanExtendMeaning | typescript/EnemyAIMinimax.ts:450-478 | the nested neighbour tests on a partner stone say: of the other two fields of its crossing line, one holds an own stone and the other is free, whichever field of that line the partner is |
| Rating.ThreePieceMeaning | typescript/EnemyAIMinimax.ts:430-535 | a free field counts once per axis where a stone there would close a mill and one of the two partners could start a mill on the crossing axis |
| Rating.OpenMillMeaning | typescript/EnemyAIMinimax.ts:594-635 | the open-mill check of a free field holds iff a stone there would close a mill, one of its neighbours on the axis holds the colour and none holds the opponent's |
| Rating.OpenDoubleMillMeaning | typescript/EnemyAIMinimax.ts:656-676 | a field counts as an open double mill iff it is free, a stone there would close a mill, and a neighbour holds an own stone that stands in a mill |
| Rating.DoubleMillMeaning | typescript/EnemyAIMinimax.ts:637-654 | a field counts as a double mill iff it holds an own stone whose horizontal and vertical lines are both own mills |
| Rating.ClosedMillOnce | typescript/EnemyAIMinimax.ts:537-592 | a closed line is counted at its first field only, and at that field exactly when the line is all of the colour; so two mills sharing a stone both count |
| Rating.BlockedIgnoresPlayer | typescript/EnemyAIMinimax.ts:678-687 | on dense rows (every entry a boolean), the blocked-stone count is the same for both colours, because the filter never reads the entry; see "## Left out" for the sparse rows the program has |
| Rating.PutBack | typescript/EnemyAIMinimax.ts:408-428 | setting a stone temporarily and clearing it again gives back the board |
| Rating.NumberOfTwoPieceConfs | typescript/EnemyAIMinimax.ts:408-428 | the loop with temporary placements returns the two-piece count and leaves the board as it found it |
| Rating.NumberOfThreePieceConfs | typescript/EnemyAIMinimax.ts:430-535 | the loop returns half the three-piece count (a fraction is possible) and leaves the board as it found it |
| Rating.ExtendsFrom | typescript/EnemyAIMinimax.ts:451-479 | the inner loop over the two partner stones counts whether one of them can extend across |
| Rating.NumberOfOpenMills | typescript/EnemyAIMinimax.ts:594-635 | the loop returns the open-mill count and leaves the board as it found it |
| Rating.NumberOfOpenDoubleMills | typescript/EnemyAIMinimax.ts:656-676 | the loop returns the open-double-mill count and leaves the board as it found it |
| Rating.MarkLineMeaning | typescript/EnemyAIMinimax.ts:537-592 | marking a line's fields as counted sets exactly the fields of that line |
| Rating.MarkStep | typescript/EnemyAIMinimax.ts:537-592 | one step of the mill loop counts a field iff it starts an unmarked mill line, and keeps the marks equal to the lines already counted |
| Rating.NumberOfMills | typescript/EnemyAIMinimax.ts:537-592 | the loop with its `done` marks counts each closed line of the colour exactly once |
| Rating.RatingZeroSum | typescript/EnemyAIMinimax.ts:359-400 | `GetRating(c) == -GetRating(1-c)` |
| Rating.BlockedCriterionVanishes | typescript/EnemyAIMinimax.ts:368-369 | on dense rows, criterion 3 (the blocked-stone difference) is 0; see "## Left out" for the sparse rows the program has |
| Search.Pick | typescript/EnemyAIMinimax.ts:929 | `Math.floor(Math.random() * (i + 1))` is an index in `0..i` |
| Search.Shuffle | typescript/EnemyAIMinimax.ts:927-935 | `shuffleArray` returns a permutation of its input (same multiset) for every random stream |
| Search.LeafValue | typescript/EnemyAIMinimax.ts:824-836 | a leaf is worth the rating, or the rating less 500000, and it is less exactly when the opponent has won two plies below the root, or three plies below with the opponent to move |
| Search.Shortcut | typescript/EnemyAIMinimax.ts:844-857 | the shortcut returns a listed move that makes the AI the winner, if any |
| Search.ShortcutTaken | typescript/EnemyAIMinimax.ts:844-857 | the shortcut is taken iff some listed move from the current one on makes the AI win |
| Search.ShortcutRestores | typescript/EnemyAIMinimax.ts:844-857 | without a winning move the node is restored; with one the node is left after that move |
| Search.AlphaBeta | typescript/EnemyAIMinimax.ts:821-920 | below the root `storedMove` is untouched; any stored move is one of the node's possible moves; in an inner call a maximising node returns ≥ `alpha` and a minimising node ≤ `beta`; a base case is worth the rating or the rating less 500000, less exactly when the opponent has won two plies below the root or three plies below with the opponent to move; on a node with no field of both colours the call gives the node back, except at the root after the winning shortcut, where the node left is the one `PerformMove` makes of the stored move and the AI has won on it |
| Search.ForColorLeaf | typescript/EnemyAIMinimax.ts:824-835 | in the AI's search a base case is worth `GetRating` for the AI's colour, which is minus the opponent's rating, or that less 500000, less exactly when the opponent has won two plies below the root or three plies below with the opponent to move |
| Search.AtRoot | typescript/EnemyAIMinimax.ts:839-862 | at the root the stored move stays or becomes one of the node's possible moves; on a node with no field of both colours the node comes back, unless the shortcut leaves the node `PerformMove` makes of the stored move, on which the AI has won |
| Search.Descend | typescript/EnemyAIMinimax.ts:864-919 | the loops return ≥ `alpha` (maximising) or ≤ `beta` (minimising) and store only at the root and only a move of the list; on a node with no field of both colours whose listed moves are all accepted, the node comes back |
| Search.MaxLoop | typescript/EnemyAIMinimax.ts:864-900 | the maximising loop never returns less than the best value so far, and stores only at the root and only a move of the list; on a node with no field of both colours whose listed moves are all accepted, the node comes back |
| Search.MaxTrial | typescript/EnemyAIMinimax.ts:866-887 | one maximising round, searched or skipped as a repeat, leaves `storedMove` alone, and undoing its accepted move on a node with no field of both colours gives back the node |
| Search.MinLoop | typescript/EnemyAIMinimax.ts:901-918 | the minimising loop never returns more than the best value so far and never stores a move; on a node with no field of both colours whose listed moves are all accepted, the node comes back |
| Search.ListedAccepted | typescript/EnemyAIMinimax.ts:839 | every move the search tries is accepted by `PerformMove` |
| Search.TryAndTakeBack | typescript/EnemyAIMinimax.ts:868-887 | trying a listed move and undoing it gives back the node |
| Search.RootShortcut | typescript/EnemyAIMinimax.ts:844-857 | on a node with no field of both colours, the shortcut over the node's own moves gives the node back when no move wins at once, and otherwise leaves the node `PerformMove` makes of the winning move |
| Search.StoredMoveAccepted | typescript/EnemyAIMinimax.ts:895-897 | a move stored at the root is accepted by `PerformMove` on the root node |
| GameField.ClosedMillMeaning | typescript/GameField.ts:57-77 | `isClosedMillHorizontal/Vertical` is false for an empty field and holds iff the whole line is owned by stones of the field owner's colour, the end fields asking the middle one |
| GameField.ClosedMillLineAgrees | typescript/GameField.ts:57-77 | the three fields of a line agree on whether it is a closed mill |
| GameField.BoardOf | typescript/EnemyAIMinimax.ts:62-77 | the node built from the live board never has two colours on one field |
| GameField.BoardOfColors | typescript/EnemyAIMinimax.ts:62-77 | on that node, a field holds colour `c` iff its owner has colour `c` |
| GameField.ClosedMillAgrees | typescript/GameField.ts:57-77 | the live mill getters equal `GameNode.CheckMillHorizontal/Vertical` on the node built from the same owners |
| GameField.MoveTo | typescript/GameBoard.ts:126-135 | the stone owns the target, leaves the field it had, and no other owner changes |
| GameField.OnField | typescript/GameBoard.ts:109-111 | `GetStonesOnField` keeps exactly the listed stones that are placed |
| GameField.CanStoneMoveToMeaning | typescript/GameField.ts:140-151 | `CanStoneMoveTo` is false on an occupied field, and on a free one holds iff the stone is unplaced, its colour has ≤ 3 stones on the board, or it stands on one of the four neighbours |
| GameField.CanStoneMoveToAgrees | typescript/GameField.ts:140-151 | for a stone that owns exactly one field, in the moving phase, and provided `GetStonesOnField` counts as many stones as the node has of that colour, `CanStoneMoveTo` holds iff `GameNode` accepts the slide and, above 3 stones, lists it |
| GameField.OnFieldCount | typescript/GameBoard.ts:109-111 | when no stone is listed twice and none owns two fields, `GetStonesOnField` returns as many stones as there are fields owned by listed stones |
| Live.PlacedCount | typescript/GameBoard.ts:109-111 | in a well-formed game, `GetStonesOnField(c).length` equals the number of `c` stones on the node `GetFromCurrentBoard` builds |
| Live.CanMoveAgrees | typescript/GameField.ts:140-151 | in a well-formed game in the moving phase, the live board lets a placed stone go to a field iff `GameNode` accepts the slide and, above 3 stones, lists it |
| Primitive.WouldBeMillMeaning | typescript/EnemyAIZPrimitive.ts:171-218 | as written, the predicate is false when the stone stands beside the field on the axis, and otherwise holds iff the other two fields of the line are owned by the stone's colour, for end and middle fields alike (and false without neighbours) |
| Primitive.WouldBeMillAgrees | typescript/EnemyAIZPrimitive.ts:226-228 | for a free field and a stone on neither line through it, `wouldBeMuehle` equals "put the colour there, then `GameNode.CheckMill`" |
| Primitive.AgreesAlong | typescript/EnemyAIZPrimitive.ts:171-218 | the same along one axis |
| Primitive.FarEndCounterexample | typescript/EnemyAIZPrimitive.ts:171-191 | a flying stone at the far end of a row may move to the row's other end, where the predicate as written reports a mill that the move does not close |
| Primitive.WouldCloseMillAlongMeaning | typescript/EnemyAIZPrimitive.ts:171-218 | the corrected predicate holds iff moving the stone onto the free field closes a mill there on that axis |
| Primitive.WouldCloseMillMeaning | typescript/EnemyAIZPrimitive.ts:226-228 | the corrected `wouldBeMuehle` holds iff the move closes a mill on the field |
| Live.Initialize | typescript/GameBoard.ts:39-98 | `lastTurnMill` is −1, the draw table empty, no field owned (the program clears the fields of the listed stones, which in a well-formed game are all the owned ones), nine stones `0..8` per colour, the active stone is stone 8 of the player to move |
| Live.InitializeWellFormed | typescript/GameBoard.ts:92-98 | the new game's bookkeeping is consistent and the active stone is an unplaced stone of the player to move |
| Live.HashAgrees | typescript/GameBoard.ts:308-310 | the live `CurrentStateToNumber` equals `GameNode.CurrentStateToNumber` of the node built from the same owners, which the search relies on when reading `hashForDraw` |
| Live.HashUnique | typescript/GameBoard.ts:302-310 | the hash is below 3^24, and two owner tables have the same hash iff they show the same colour on every field |
| Live.CheckAndUpdateDraw | typescript/GameBoard.ts:284-300 | 50 turns since the last mill is a draw and changes nothing; otherwise the position's count rises by one (1 on first sight), no other count changes, and the result is true iff the count reaches 3 |
| Live.ThirdRepetition | typescript/GameBoard.ts:290-299 | a new position is not a draw on its first or second sighting and is on its third |
| Live.FieldOf | typescript/GameStone.ts:109-111 | the stone's field is a field it owns, and there is none iff the stone is not placed |
| Live.StoneInMillAgrees | typescript/GameStone.ts:129-131 | `isInClosedMill` of a placed stone equals `GameNode.CheckMill` at its field on the node built from the live board |
| Live.FreeAroundMeaning | typescript/GameStone.ts:119-123 | the four neighbour checks of `isMoveable` say "some neighbour of the field is free" |
| Live.MovableIffNotStuck | typescript/GameBoard.ts:236 | with more than 3 stones left, a colour has a movable stone in the live game iff `GameNode` does not find it stuck |
| Live.Unsettled | typescript/GameBoard.ts:263-268 | `GetUnsettledStone` is null iff every stone is placed, and otherwise the last unplaced stone of the list |
| Live.SwitchCurrentPlayer | typescript/GameBoard.ts:234-256 | from turn 17 a next player with no movable stone loses, with no flip and no turn change; otherwise Placing becomes Moving from turn 17, the player flips, the turn advances by one and the next player's last unplaced stone becomes active; stones and draw bookkeeping never change, and Removing is never entered |
| Live.DrawOrSwitch | typescript/GameBoard.ts:221-228 | after no mill, a draw ends the game with player and turn kept, otherwise the turn passes |
| Live.CheckMuehleSwitchPlayer | typescript/GameBoard.ts:194-229 | when the active stone closes a mill, `lastTurnMill` becomes the turn; in Moving an opponent with ≤ 3 stones loses; otherwise, if some opponent stone stands outside a mill, the phase is saved and Removing begins with player and turn unchanged and no active stone; the answer is true exactly in these two cases; the stones never change |
| Live.MoveStoneToField | typescript/GameBoard.ts:126-159 | a move the field refuses changes nothing; otherwise the stone owns the target, the stone lists are kept, and `lastTurnMill` becomes the turn exactly when the stone now stands in a closed mill |
| Live.MoveKeepsWellFormed | typescript/GameBoard.ts:126-159 | a move keeps the bookkeeping consistent and leaves the stone on the target field only |
| Live.IndexOf | typescript/GameBoard.ts:181 | `indexOf` is −1 iff the stone is absent, and otherwise the position of its first occurrence |
| Live.RemoveStoneFromField | typescript/GameBoard.ts:177-188 | a stone that is unplaced or in a closed mill is refused, and so is any call outside Removing |
| Live.RemoveEffects | typescript/GameBoard.ts:177-188 | an accepted removal takes exactly that stone off its field and out of its list, keeps the other list and fields, keeps the bookkeeping consistent, and does not re-enter Removing unless that was the saved phase; then the turn passes to the opponent with the saved phase (Moving instead of Placing from turn 17) and the turn advances by one, unless the opponent cannot move, in which case the winner screen shows with player and turn kept |
| Live.SpliceRemoves | typescript/GameBoard.ts:181 | splicing out the stone's first occurrence leaves every other stone and no duplicates |

## Left out

- Rendering, the DOM, CSS classes, winner and draw screen texts, statistics mode and menus (Menu.ts, 0mill.ts, most of Game.ts and GameStone.ts). A screen is modelled only by the phase it sets.
- The AI callbacks `TryAIMove`, `MakeMove`, `MakeMoveIntern`, `ExecuteMove` and `EnemyAIRandom`, plus the move choice of `EnemyAIPrimitive.MakeMoveIntern`. These involve timers, `Date.now`, `Math.random` and global mutation of the live board; only the predicates they rely on are modelled.
- The wall clock, `Math.random` and the `hashForRepeat` table are oracles. Line 880 of EnemyAIMinimax.ts replaces the table with the elements `splice` removed, and hashes above 2^32 are not array indices, so the table's contents are not derived. The search reads them through `Oracles.repeated`, keyed by the call number and the hash.
- Search.AlphaBeta: no claim that the value is the minimax value of the tree. The contracts state the window bounds, the stored-move discipline and node restoration.
- JavaScript's sparse arrays. The model's rows are dense: every field has a boolean for each colour. In the program a `GameNode` row starts as 24 holes (typescript/EnemyAIMinimax.ts:40). `GetFromCurrentBoard` writes only `true`, at the fields the colour owns (63-71). Later entries are filled in only where a move, an undo or a scan writes them, and `filter` in `NumberOfBlockedStones` (678-681) skips holes. So on the node the search starts from, `NumberOfBlockedStones(p)` counts p's own stones whose neighbours are all occupied. Later in the search it counts the written entries of p's row whose neighbours are all occupied. A field the opponent has held throughout stays a hole in p's row. The count therefore depends on the colour, and criterion 3 is in general not 0. Because the scans leave `false` where there was a hole, two ratings of the same node object can see different rows; the model's rating is a function of the board alone. `new Array(2)` in `NumberOfThreePieceConfs` adds two holes, which contribute nothing.
- Rating.BlockedIgnoresPlayer: holds for the dense rows of the model, not for the program's sparse rows, where the count depends on which entries of the row were ever written (previous line).
- Rating.BlockedCriterionVanishes: criterion 3 is 0 only on dense rows; with the program's sparse rows it is in general not 0, and the model's `GetRating` does not reproduce that value.
- Ratings are `real`, since `NumberOfThreePieceConfs` returns `count / 2`. Floating-point rounding is not modelled.
- Move indices outside `0..23` and `null` fields other than the `from`/`to` options of a move cannot be expressed: fields are a subset type.
- Entering Removing with no legal removal. `GameNode` can do so when the opponent has ≤ 3 stones, all in mills, so no claim is made that Removing always has a move.
- `GameBoard.gameFields` and `GameStone` as objects with two-way pointers. The owner table stands for both, and `Live.WellFormed` states the consistency the pointers keep.
- `lastGamePhase` before the first mill of a game is whatever value the previous game left: `Live.Initialize` keeps it.
- mill.js, the compiled copy of the same TypeScript sources.
- `GameNode.Clone`, `GetFromCurrentBoard` and `FieldIsOccupied` are not separate members. `GameField.BoardOf` builds the node from the owners, and `Node.Occupied` is the occupancy test.

## Findings

| source | as written | input that shows it | evidently intended | confidence | as-written member | corrected member |
|---|---|---|---|---|---|---|
| typescript/EnemyAIZPrimitive.ts:171-218 | `WouldBeMuehleHorizontal`/`wouldBeMuehleVertical` exclude a stone standing next to the field on the axis, but not one at the far end of the line | black stones on fields 1, 2 and 9, moving the stone on 2 (flying, 3 stones) to field 0: the predicate reports a horizontal mill, but after the move row 0-1-2 holds only 0 and 1 | a stone anywhere else on the line is excluded, since moving it away breaks the line | not executed | Primitive.FarEndCounterexample | Primitive.WouldCloseMillAlongMeaning |
