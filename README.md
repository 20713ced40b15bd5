# 2x2 cube breadth-first solver, modelled in Dafny

This project models `rubiks.py`, a solver for the 2x2 Rubik's cube, and proves its main properties.

A configuration has six faces (front, top, left, right, bottom, back). Each face is a 2x2 grid of colours.

The six moves `U D L R F B` each rearrange the 24 cells in a fixed way. `solved` accepts a configuration when every face is monochrome. `serialize` produces the canonical key used for membership tests.

`solve` is a breadth-first search:
- A first-in first-out frontier holds nodes. Each node records a configuration, its parent and the move that led to it.
- An `explored` key set and a `frontier_serials` key set keep configurations from being queued twice.
- On the first solved configuration taken off the queue, the search walks the parents back to the root. It returns the moves, and the configuration after each move, in start-to-goal order.

The model has four modules:
- `Wrappers` holds the `Option` type.
- `CubeState` has the configuration, the goal test, the copy, the moves and the key.
- `Frontier` has the search node and the queue class.
- `Solver` has path reconstruction, the expansion step and the search loop, with its invariants and the lemmas that keep them.

Most of the code changes state step by step, and the model follows suit:
- The goal test, the copy, each move and the search are methods with loops or sequential updates. The goal test, the moves and the search are proved against specification functions (`Solved`, `Turn`, `PathTo`, `Run`). The copy is proved equal to its input.
- The queue is a class whose `nodes` field its methods reassign.
- Parent references become indices into an arena `tree` of the nodes already expanded. The search appends each expanded node to it; the solved node ends the search and is not appended.

What is proved:
- Each move has period 4.
- A move only relocates colours: the multiset of cells is kept. Exactly the cells of the turned face and its four adjacent rows or columns move, and the turned face is rotated in place.
- The key is injective and can be read back.
- The queue operations behave as a FIFO queue, including the empty-queue error.
- For the search:
  - the returned moves replay from the start to the returned configurations, and the last one is solved;
  - no shorter sequence of moves solves the start;
  - "no solution" is reported exactly when no sequence of moves solves the start;
  - a solved start gives empty lists;
  - no configuration is queued twice in a run, and the explored keys are exactly those of the expanded nodes;
  - the search always terminates.

  Termination is proved without fuel. Every explored key lies in a finite set that contains the start and is closed under the moves: the keys of all configurations painted with the start's colours.

A consequence of the code as written: `U` followed by `D` turns the whole cube, because the side rows of both moves cycle the same way. So from a solved cube with `U` applied, the single move `D` solves it again (`CubeState.UpThenDown`). When that configuration is not itself solved (for instance when the six faces have six different colours), the minimality in `Solver.Solve` makes the answer one move long, not three quarter turns of `U`. When it is already solved (say the four side faces share one colour), the answer is empty. The model follows the code here.

## Model

| member | source | states |
|---|---|---|
| CubeState.IsSolved | rubiks.py:65-73 | The nested-loop goal test with early return answers true iff every face has all four cells equal to its cell [0][0]; different faces may share a colour |
| CubeState.SolvedRejectsOneChange | rubiks.py:66-73 | Recolouring any single cell of a solved configuration makes the goal test fail |
| CubeState.CopyCube | rubiks.py:75-77 | The face-by-face, row-by-row copy is equal to the original configuration |
| CubeState.ApplyMove | rubiks.py:80-185 | Applying a move to a copy yields `Turn(state, m)`; the input is a value and is not changed |
| CubeState.TurnUp | rubiks.py:83-98 | The `U` branch: top rotated, row 0 of front/left/back/right taken from left/back/right/front, equals `Turn(s, U)` |
| CubeState.TurnDown | rubiks.py:100-115 | The `D` branch equals `Turn(s, D)` |
| CubeState.TurnRight | rubiks.py:117-132 | The `R` branch, including the reversed back column, equals `Turn(s, R)` |
| CubeState.TurnLeft | rubiks.py:134-149 | The `L` branch equals `Turn(s, L)` |
| CubeState.TurnFront | rubiks.py:151-166 | The `F` branch equals `Turn(s, F)` |
| CubeState.TurnBack | rubiks.py:168-183 | The `B` branch equals `Turn(s, B)` |
| CubeState.TurnAt | rubiks.py:84-183 | Every cell after a move holds the colour of its source cell under the move's three 4-cycles, an independent description of the same tables |
| CubeState.SourceMovesExactly | rubiks.py:84-183 | A cell takes its colour from another cell exactly when it lies on the turned face or on one of the four touched rows or columns |
| CubeState.TurnFrame | rubiks.py:84-183 | Cells outside the turned face and the four touched rows or columns keep their colour (e.g. `U` leaves bottom and row 1 of the side faces alone) |
| CubeState.FaceTurnsInPlace | rubiks.py:84-183 | The turned face takes its colours only from itself, and no other face takes colours from it |
| CubeState.TurnKeepsCount | rubiks.py:84-183 | Each move keeps the number of cells of every colour |
| CubeState.TurnKeepsColours | rubiks.py:80-185 | The multiset of the 24 cell colours is the same before and after a move |
| CubeState.FourTurns | rubiks.py:84-183 | Applying the same move four times gives back the configuration exactly |
| CubeState.UpThenDown | rubiks.py:84-115 | From a solved configuration, `U` followed by `D` is solved again (a whole-cube rotation) |
| CubeState.Serialize | rubiks.py:187-189 | The key of a configuration has one colour per cell, 24 in all |
| CubeState.SerializeLayout | rubiks.py:187-189 | The key lists the faces' cells row by row, with the faces in the alphabetical order `json.dumps(..., sort_keys=True)` uses: back, bottom, front, left, right, top |
| CubeState.SerializeInjective | rubiks.py:187-189 | Two configurations have equal keys iff they are equal |
| CubeState.DeserializeSerialize | rubiks.py:187-189 | Reading a key back gives the configuration it was made from |
| CubeState.SerializeDeserialize | rubiks.py:187-189 | Every 24-colour key is the key of the configuration it reads back as |
| Frontier.AnyState | rubiks.py:49-50 | True iff some node of the sequence holds the configuration |
| Frontier.QueueFrontier.constructor | rubiks.py:43-44 | A new frontier is empty |
| Frontier.QueueFrontier.Add | rubiks.py:46-47 | The node is appended at the back; the other nodes are unchanged |
| Frontier.QueueFrontier.ContainsState | rubiks.py:49-50 | True iff some queued node holds the configuration |
| Frontier.QueueFrontier.Empty | rubiks.py:52-53 | True iff no node is queued |
| Frontier.QueueFrontier.Remove | rubiks.py:55-59 | On an empty queue: the error (`None`) and nothing changes; otherwise the front node is returned and removed |
| Solver.PathReplays | rubiks.py:243-247 | Replaying a node's parent-walk moves from the start gives the node's configuration, since each child is its move applied to its parent |
| Solver.PathExtend | rubiks.py:240-249 | Appending a valid node to the arena keeps it valid and leaves every node's path unchanged |
| Solver.StepBack | rubiks.py:229-233 | One step of the parent walk: the parent is valid and earlier in the arena, its path is one move shorter, and the moves collected so far, reversed, are the rest of the path |
| Solver.Reconstruct | rubiks.py:226-235 | The parent walk with its two reversals returns exactly the node's path; `cells[i]` is the configuration after the first i+1 moves |
| Solver.KeysOfOne | rubiks.py:205-210 | The initial queue of the start node alone matches the initial key set `{serialize(start)}` |
| Solver.Initially | rubiks.py:202-210 | All search invariants hold before the first iteration, including the history: nothing explored, only the start created |
| Solver.DequeueKeys | rubiks.py:218-219 | The front node's key is in `frontier_serials` (the removal never fails) and key bookkeeping survives dequeuing it and marking it explored |
| Solver.EnqueueKeys | rubiks.py:246-249 | Queuing a child whose key is neither explored nor queued keeps the keys matching the queue, distinct and disjoint from `explored` |
| Solver.SeenStep | rubiks.py:242-249 | Trying one more move adds exactly its result's key to the keys explored or queued |
| Solver.ChildrenInOrder | rubiks.py:212-249 | The children queued by trying the moves one after the other follow the order `U D L R F B`; each holds its own move's result and has the expanded node as parent |
| Solver.LastChosen | rubiks.py:242-249 | The move just tried is queued exactly when its result's key is neither explored nor queued, that is, when it is new and no earlier move gave the same configuration |
| Solver.ChildrenChosen | rubiks.py:212-249 | A move is queued exactly when its result's key was neither explored nor queued before the expansion and no earlier move in `U D L R F B` gives the same configuration; later moves leave that decision alone |
| Solver.ChildrenQueuedInOrder | rubiks.py:212-249 | The reference list of children meets the order-and-choice description `QueuedInOrder` |
| Solver.DropLast | rubiks.py:242-249 | Without its last node, a list of children in move order stays in move order and holds the results of the other moves |
| Solver.SameMovesSameList | rubiks.py:242-249 | Two lists of children in move order that hold the results of the same moves are equal |
| Solver.QueuedInOrderUnique | rubiks.py:212-249 | Any list meeting `QueuedInOrder` is the reference list: the description fixes order, moves and nodes completely |
| Solver.TriedAll | rubiks.py:242-249 | After all six moves: the queue grew by exactly the reference children, each new node is its move applied to the expanded node, and every result is explored or queued |
| Solver.Expand | rubiks.py:212-249 | Tries the six moves in the order `U D L R F B`. The nodes it queues meet `QueuedInOrder`: they follow that order, and a move is queued exactly when it is the first to reach a configuration neither explored nor queued, recorded with that first move. Each new node is its move applied to the expanded node, with the expanded node as parent. The bookkeeping is kept, and every successor ends up explored or queued |
| Solver.FifoAfterExpand | rubiks.py:214-249 | Depths along the queue stay nondecreasing and within one of each other after the front is expanded |
| Solver.ArenaAfterExpand | rubiks.py:240-249 | Every queued node stays valid for the grown arena and its depth stays its path length |
| Solver.ClosedAfterExpand | rubiks.py:240-249 | After an unsolved node is expanded, nothing explored is solved and every move from an explored configuration leads to one explored or queued |
| Solver.SameLevel | rubiks.py:214-249 | While the front level is not used up, every configuration at that distance is still explored or queued at that level |
| Solver.LevelDone | rubiks.py:214-249 | Once the last node of a level is expanded, every configuration within that distance is explored |
| Solver.NextLevel | rubiks.py:242-249 | When only the next level is queued, every configuration at that distance is explored or queued |
| Solver.LevelsAfterExpand | rubiks.py:214-249 | Expanding the front node keeps the level invariant of breadth-first order |
| Solver.HistoryAfterExpand | rubiks.py:240-249 | After an expansion the explored keys are still exactly those of the expanded nodes, and no configuration occurs twice among all nodes created so far (expanded or queued): a configuration is queued at most once in the whole search |
| Solver.AfterExpand | rubiks.py:240-249 | One expansion keeps every search invariant, the history included |
| Solver.ReachExplored | rubiks.py:214-216 | When the frontier is empty, every configuration reachable from the start is explored |
| Solver.Exhausted | rubiks.py:215-216 | An empty frontier means no sequence of moves solves the start |
| Solver.FrontierRanOut | rubiks.py:215-216 | An empty frontier means no sequence of moves, the empty one included, solves the start |
| Solver.NoShorter | rubiks.py:214-226 | Nothing reachable in fewer moves than the front node's depth is solved |
| Solver.FrontIsShortest | rubiks.py:226-238 | The front node's path replays to it and no shorter sequence of moves reaches a solved configuration |
| Solver.KeySpaceBound | rubiks.py:214 | A finite key set holds the start's key and is closed under every move, which bounds the `while True` loop |
| Solver.Shrinks | rubiks.py:240 | Exploring one more key of that set leaves fewer keys unexplored |
| Solver.Answer | rubiks.py:226-238 | For a solved front node: the returned moves replay to the returned cells and end solved, nothing shorter is solved, and a solved start gives empty lists |
| Solver.Solve | rubiks.py:201-249 | A solution replays to its cells, ends solved and is of minimal length; its loop keeps the history invariant, so no configuration is queued twice in a run; "no solution" is returned iff no sequence of moves solves the start; a solved start gives `([], [])` |

## Left out

- The `print` calls, the `num_explored` counter and `print_cube`: console output with no effect on the result.
- The sample scramble and the `__main__` entry point: input data and a launcher.
- The JSON text of `serialize`: the key is modelled as the 24 colours in the order `json.dumps(..., sort_keys=True)` lays them out (faces alphabetically, rows and cells in order). Only its injectivity matters to the search.
- `copy.deepcopy`, list slicing and aliasing: configurations are immutable values. So `apply_move` cannot change its input, and a copy is equal to its original.
- Colours are arbitrary strings in the source; here each is a `char`, since colours are only compared for equality.
- Parent references: nodes refer to their parent by index into the arena of expanded nodes.
- Errors and results: the `Exception` raised by `remove` on an empty queue is the `None` result. The "no solution" `Exception` of `solve` is the `NoSolution` outcome. `solve` returns its solution instead of storing it in `self.solution`.
- Whether the six move tables match a real cube's motion: the tables are modelled as written.
- Solver.Solve: does not state which of several shortest solutions is returned. That choice follows from the order in which `Solver.Expand` queues children, which its contract fixes, but the search's own contract only promises some shortest solution.
- `contains_state` is modelled, but `solve` does not call it. The search checks membership through the key sets, as the code does.
