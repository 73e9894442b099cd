# Cube move engine

A model of the move engine of `cube.py`, the core of a 3×3×3 cube simulator:

- the static data of `CubeData`: the face colours, the nine turn tables of `Turn_Map` and `rotation_keys`, which follows a table back a number of quarter turns;
- the move grammar `Turn_Pattern` and the way `Cube.rotate` decodes a token;
- the class `Face`, a 3×3 grid updated in place through `__getitem__` / `__setitem__`;
- the class `Cube`: the new cube, `is_solved` and `rotate`, which snapshots the 54 facelets and then runs a face pass and/or a slice pass over the selected tables.

The model is split into seven modules:

- `Wrappers` (`wrappers.dfy`): `Option`, the result of a token that may be refused or an item that may be outside the grid.
- `Permutation` (`permutation.dfy`): cells and the positions 1..9 they may take (`OnFace`), the shape of a turn table, and what holds of any closed table. This covers `rotation_keys`, composition of quarter turns, commutation of disjoint tables, periods and bijectivity.
- `CubeData` (`cube_data.dfy`): the colours and the tables. `TurnMap` is `Turn_Map` exactly as written, F table included (see "## Findings"). `CorrectedF` is the F table with its Up entry as intended. An `Edition` (`AsWritten` or `Corrected`) says which F table a move uses; `LayerTable` picks it. The module proves, cell by cell, that every table is closed and names positions 1..9 only. Every table has period eight. Every table but the written F table has period four, and the written F table does not. It also proves that face turns keep the centres and that the two tables of a wide turn are disjoint, in both editions.
- `Notation` (`notation.dfy`): the grammar and its decoding, proved in both directions. Every token of the grammar is accepted with the count, family and inversion it spells, and only such tokens are accepted.
- `Engine` (`engine.dfy`): `ApplyMove(ed, s, mv)`, what the two passes of `rotate` do to the facelets, as a function of the edition and of the facelets before the call. With `AsWritten` it is what one call of `rotate` computes (`Cube.Turn` is proved against it). These laws hold in both editions:
  - a move permutes the cells: every cell reads from one cell, and distinct cells from distinct cells;
  - an inverted move is the complementary count;
  - a wide move is its face move followed by a slice move;
  - only the cells of the selected tables change;
  - face moves keep every centre;
  - eight applications are the identity;
  - the cube is solved exactly when it is the new cube.

  Three more laws depend on the face table. `PeriodFour` says that table has period four. It holds for every letter in the `Corrected` edition and for every letter but `F` and `f` in the `AsWritten` edition:
  - a move followed by its inverse restores the cube where `PeriodFour` holds;
  - four applications are the identity where `PeriodFour` holds, and for a count of two in any case (eight quarter turns);
  - a count digit is a repetition count for every move except `2Fi` and `2fi` as written.

  For `F` and `f` as written, two lemmas give counterexamples: `F` then `Fi` does not restore the cube, and `2Fi` is not `Fi` twice. `Fi` three times is `3Fi` even as written, since nine quarter turns are one on a table of period eight.
- `FaceGrid` (`face.dfy`): the class `Face` over an `array2<char>`.
- `CubeModel` (`cube.dfy`): the class `Cube`, whose constructor, `IsSolved`, `Rotate` and the loops inside `rotate` are methods proved against `Engine`.

`Cube.Rotate` ensures three things:
- It succeeds exactly when the token is in the grammar.
- On success, the facelets afterwards are `ApplyMove(AsWritten, …)` of the facelets before with the decoded move.
- On failure, the facelets are unchanged.

Details of the code that the model follows:
- A token may carry any number of count digits 1..3, and the last one counts (`123R` is a triple `R`). A token may also carry any number of `i` marks, and a single final newline is accepted (Python's `$`).
- The slices M, E and S have tables of their own in `Turn_Map`; the model uses those tables, not the L, D or F tables.
- A face item from -8 to 0 addresses the same cell as the item plus nine (Python's floor division and negative list indices). Only items outside -8..9 are refused.
- A token outside the grammar makes `Turn_Pattern.match` return `None`, and `.groups()` on it raises before anything is written. The `else` branch that prints "Invalid Rotation" can never run. The model returns `false` and leaves every facelet unchanged, which is what the caller sees in either reading.
- The face pass and the slice pass iterate dictionaries. The model visits faces in the order of `CubeData.Faces` and keys in increasing order. Every write reads the snapshot and every cell is written at most once per pass, so the final state is the same in any order.

## Model

| member | source | states |
|---|---|---|
| Permutation.RotationKeys | cube.py:82-87 | On a closed table, following `rotations` hops back from a listed key always finds its next key. It lands on the cell `rotations` quarter turns back (`NextPow`), which is itself listed. |
| Permutation.Faces | cube.py:9 | The six face letters in the order of `Faces`, the order in which the model visits the faces of a pass. |
| Permutation.NextPowMod | cube.py:82-87 | On a table of period `p`, only the number of quarter turns modulo `p` matters. |
| Permutation.SameTurnsMod | cube.py:171-191 | Turning two tables by counts that agree modulo their periods gives the same cell. |
| Permutation.NextPowAdd | cube.py:82-87 | `a` quarter turns followed by `b` more are `a + b` quarter turns. |
| Permutation.NextPowListed | cube.py:82-87 | Turning a closed table never leaves its listed cells, and never moves a cell it does not list. |
| Permutation.TwoTablesCompose | cube.py:171-191 | Two rounds of "slice table, then face table" add their counts table by table, when the tables write disjoint cells or a middle count is zero. |
| Permutation.PeriodGivesBijection | cube.py:38-80 | A closed table with a period is a bijection of its cells: distinct destinations read distinct sources, and every listed cell is read by some listed cell. |
| CubeData.FaceColour | cube.py:12-18 | No contract of its own: the colour of each face from `Face_Color_Map` (R red, L orange, U yellow, D white, F blue, B green). `FaceGrid.Face.constructor` and `Engine.SolvedIff` state what it is used for. |
| CubeData.TurnMap | cube.py:38-80 | No contract of its own: the nine tables entry for entry as written, including the F table's Up entry `{7: 3, 8: 6, 9: 9}` at line 61. The lemmas below state its properties. |
| CubeData.TurnMapLaws | cube.py:38-80 | Every table of `Turn_Map` as written is closed, lists positions 1..9 only, and eight quarter turns return every cell to itself. Four quarter turns do so exactly for the tables other than F. |
| CubeData.LayerTableLaws | cube.py:38-80 | In either edition every table is closed, in range and of period eight. It has period four exactly when the edition is `Corrected` or the table is not F's. |
| CubeData.TurnMapBijective | cube.py:38-80 | Every table of `Turn_Map` as written, the F table included, is injective and onto its own cells. |
| CubeData.FaceTurnsKeepCentres | cube.py:38-68 | In either edition a face table lists the centre of its own face and of no other face, and reads that centre from itself. |
| CubeData.WideLayersDisjoint | cube.py:38-80 | In either edition a face table and the slice table its wide letter adds never list the same cell. |
| CubeData.FTableAsWrittenPeriodEight | cube.py:59-63 | The F table exactly as written is still closed and in range, and eight quarter turns restore every cell. |
| CubeData.FTableAsWrittenNotPeriodFour | cube.py:59-63 | Four quarter turns of the F table as written take Right 1 to Right 7, so four turns are not the identity. |
| CubeData.FTableAsWrittenOrbit | cube.py:59-63 | Along the 8-cycle of the F table as written, two quarter turns back from Right 1 reach Left 3 and six reach Left 9. |
| CubeData.FTableCorrection | cube.py:61 | The written and the corrected F tables list the same cells and read the same sources everywhere except Up 7 and Up 9. Up 7 reads Left 3 as written and Left 9 as corrected. |
| Notation.LetterRoundTrip | cube.py:35 | The fifteen letters `[RLUDFBrludfbMES]` and the fifteen move families correspond one to one. |
| Notation.LeadingCount | cube.py:35 | The count group `([1-3])*` spans the longest run of count digits that opens the token. |
| Notation.DecodeRender | cube.py:35 | A token of digits, one letter and `i` marks decodes to the last digit (or 1), the letter's family, and inverted exactly when a mark is present. |
| Notation.Decode | cube.py:35 | A decoded token always has a count 1..3. |
| Notation.Parse | cube.py:147-152 | An accepted token always has a count 1..3, the only counts `rotate` turns by. |
| Notation.ParseRender | cube.py:147-152 | Every token of the grammar, with or without one final newline, is accepted with the count, family and inversion of lines 150-152. |
| Notation.ParseOnlyRendered | cube.py:147-152 | Only tokens of the grammar are accepted, and the decoded move is the one their digits, letter and marks spell. |
| Notation.ParseRefuses | cube.py:35 | `5R`, `X`, the empty token, `R ` and `Ri2` are refused. |
| Engine.Overwrite | cube.py:172-175 | One pass writes every listed cell with the snapshot's value `rotations` quarter turns back, and leaves every other cell as it was. |
| Engine.TablesOfFamily | cube.py:158-187 | In either edition both tables a family selects are well formed with period eight. The slice table has period four. The face table has period four exactly when `PeriodFour` holds: always in the corrected edition, for every letter but `F` and `f` as written. The two tables of a wide letter are disjoint. |
| Engine.SourceByPass | cube.py:158-191 | Cell by cell, where the two passes read from is `Source`: slice table back, then face table back. |
| Engine.FaceTurns | cube.py:171 | No contract of its own: the face pass turns `4 - count` times when inverted and `count` times otherwise. `CubeModel.Cube.TurnFaceLayer` turns the face table this many times, and `CubeModel.Cube.Turn` proves the result equal to `ApplyMove`, whose face pass uses this count. |
| Engine.SliceTurns | cube.py:181-187 | No contract of its own: the slice pass turns `4 - count` times exactly when the inversion differs from the rule that `r`, `u` and `b` turn their slice backwards. `CubeModel.DispatchByLetter` proves that `SliceRotations` gives exactly this many turns for a slice or wide letter. |
| Engine.BackByPass | cube.py:158-191 | For any well-formed face and slice tables (disjoint for a wide letter), reading a cell pass by pass agrees with `Back`: slice table back, then face table back. |
| Engine.Passes | cube.py:158-191 | The two passes over any two well-formed tables take a state of the 54 cells to a state of the same 54 cells. |
| Engine.PassesAt | cube.py:158-191 | For any well-formed tables (disjoint for a wide letter), every cell shows the old value of its `Back`, itself a cell. With `BackInjective` and `BackOnto` this makes the passes a permutation of the cells. |
| Engine.ApplyMove | cube.py:153-191 | A move takes a state of the 54 cells to a state of the same 54 cells. It is `Passes` over the edition's tables of the move. |
| Engine.ApplyMoveByPasses | cube.py:158-191 | `ApplyMove` unfolded in the shape of the two `if`s at lines 158 and 178: the face pass unless a slice letter, then the slice pass unless a face letter, both reading the snapshot. `Cube.Turn` is proved against this form. |
| Engine.ApplyMoveAt | cube.py:153-191 | In either edition every cell shows, after a move, the old value of its `Source`, itself a cell. With `SourceInjective` and `SourceOnto` this makes a move a permutation of the cells. |
| Engine.BackPowLast | cube.py:145-191 | For tables that fit, `n + 1` runs of the passes read back one more step of `Back` from where `n` runs read back to, and stay on the faces. |
| Engine.BackEight | cube.py:145-191 | With both tables of period eight, eight runs of the passes read every cell from itself. |
| Engine.BackInjective | cube.py:158-191 | With both tables of period eight, two cells that read from the same cell are the same cell. |
| Engine.BackOnto | cube.py:158-191 | With both tables of period eight, every cell is read by some cell on the faces: the cell seven runs of `Back` away. |
| Engine.SourceInjective | cube.py:153-191 | In either edition, two cells whose `Source` is the same cell are the same cell: no move copies one facelet into two. |
| Engine.SourceOnto | cube.py:153-191 | In either edition every cell is the `Source` of some cell on the faces, so no facelet is lost. |
| Engine.RepeatUnfolds | cube.py:145-191 | `Repeat` is the move applied `n` times: zero applications leave the state, and each further one is one more `ApplyMove`. |
| Engine.PassesPowAt | cube.py:145-191 | For any well-formed tables, after `n` runs of the passes every cell shows the old value of the cell `n` steps of `Back` away. |
| Engine.RepeatAt | cube.py:145-191 | After `n` moves every cell shows the old value of the cell `n` sources back. |
| Engine.BackCompose | cube.py:171-191 | For any tables that fit, two moves of one family turn each table by the sum of their quarter turns. |
| Engine.SourceCompose | cube.py:171-191 | Two moves of one family turn each of the edition's tables by the sum of their quarter turns. |
| Engine.BackPowTurns | cube.py:171-191 | For any tables that fit, `n` runs of the passes turn each table `n` times as far. |
| Engine.SourcePowTurns | cube.py:171-191 | `n` moves turn each of the move's tables `n` times as far. |
| Engine.SourceUndo | cube.py:171-187 | Where `PeriodFour` holds (every letter corrected, all but `F` and `f` as written), the sources of a move undo the sources of its inverse. |
| Engine.RoundTrip | cube.py:145-191 | Where `PeriodFour` holds (every letter in the corrected edition, every letter but `F` and `f` as written), a move followed by the same token with the inversion flipped restores every facelet. |
| Engine.FourTimes | cube.py:145-191 | Four applications of a move restore every facelet where `PeriodFour` holds (every letter corrected, all but `F` and `f` as written). For a count of two they do so for every letter, `F` and `f` as written included: that is eight quarter turns. |
| Engine.EightTimes | cube.py:145-191 | In either edition, eight applications of any move restore every facelet, `F` and `f` as written included. |
| Engine.CountIsRepetition | cube.py:150-191 | A move of count `k` is the move of count 1 applied `k` times, inverted or not. This holds for every move except `2Fi` and `2fi` as written. |
| Engine.InvertedIsComplement | cube.py:152-187 | In either edition the inverted move of count `k` is the plain move of count `4 - k`. |
| Engine.WideIsFaceThenSlice | cube.py:158-191 | A wide move is its face move followed by the slice move of the same count. That slice move is inverted exactly when the wide move's inversion differs from the rule that `r`, `u` and `b` turn their slice backwards. |
| Engine.Frame | cube.py:172-191 | A cell no selected table lists keeps its value. A written cell reads a cell that is itself written. |
| Engine.CentresStay | cube.py:158-175 | In either edition face moves keep the value of every face's centre. |
| Engine.RightTurnExample | cube.py:39-43 | As written, `R` brings Front 3 to Up 3 and Down 3 to Front 3. `Ri` brings Back 7 to Up 3. |
| Engine.SolvedIff | cube.py:142-143 | A state is solved (every face shows its own colour) exactly when it is the new cube. |
| Engine.RightTurnUnsolves | cube.py:142-175 | One `R` from a solved cube shows Front's colour at Up 3, so the cube is no longer solved. |
| Engine.FThenFiAsWritten | cube.py:59-63 | As written, `F` then `Fi` (and `f` then `fi`) puts the old Right 7 into Right 1. The pair fails to restore any cube whose Right 1 and Right 7 differ. |
| Engine.CountAsWritten | cube.py:59-63 | As written, `2Fi` brings the old Left 3 to Right 1 but `Fi` twice brings Left 9; the two differ on any cube whose Left 3 and Left 9 differ. The same holds for `2fi` and `fi`. |
| FaceGrid.Locate | cube.py:105-113 | An item gives a grid cell exactly when it is in -8..9. That cell is the row-by-row position of the item, with items up to 0 counted from the end. |
| FaceGrid.LocateInjective | cube.py:105-113 | Distinct positions 1..9 address distinct grid cells. |
| FaceGrid.Face.constructor | cube.py:90-94 | A new face has its own grid, and all nine cells show the face's colour from `Face_Color_Map`. |
| FaceGrid.Face.Get | cube.py:105-108 | `__getitem__` returns the colour at the item's position for items -8..9 and fails for every other item. |
| FaceGrid.Face.Set | cube.py:110-113 | `__setitem__` writes exactly the item's cell for items -8..9. It changes nothing and fails for every other item. |
| FaceGrid.Face.IsSolved | cube.py:115-116 | A face equals its solved configuration exactly when all nine cells show its colour. |
| CubeModel.Cube.constructor | cube.py:120-125 | A new cube holds one fresh face per face letter, and its facelets are the solved cube. |
| CubeModel.Cube.IsSolved | cube.py:142-143 | Every face is solved exactly when the facelets are the new cube. |
| CubeModel.Cube.Snapshot | cube.py:154-156 | `_temp` holds every one of the 54 facelets with its current value. |
| CubeModel.Cube.WriteFace | cube.py:173-175 | The inner loop writes one face's listed cells from the snapshot and changes no other cell of the cube. |
| CubeModel.Cube.Pass | cube.py:172-175 | The two nested loops leave the cube as `Overwrite` of the old facelets by the table. |
| CubeModel.Cube.TurnFaceLayer | cube.py:158-175 | The face pass selects the table of the letter's face and turns it `4 - count` times when inverted, `count` times otherwise. |
| CubeModel.Cube.TurnSliceLayer | cube.py:177-191 | The slice pass selects M, E or S by letter and turns it as the parity rule of lines 181, 184 and 187 says. |
| CubeModel.FaceLayer | cube.py:158-170 | A face or wide letter selects an outer layer's table; which one, `DispatchByLetter` states. |
| CubeModel.SliceLayer | cube.py:177-187 | A slice or wide letter selects a middle layer's table; which one, `DispatchByLetter` states. |
| CubeModel.SliceRotations | cube.py:177-187 | For a count 1..3 the slice turns 1..3 quarter turns. `M`, `E`, `S`, `l`, `d` and `f` turn it `count` times, or `4 - count` when inverted. `r`, `u` and `b` turn it `4 - count` times, or `count` when inverted. |
| CubeModel.DispatchByLetter | cube.py:158-187 | The letter of a decoded move runs the face pass exactly for face and wide moves and the slice pass exactly for slice and wide moves. The tables and quarter turns are those `Engine` resolves. |
| CubeModel.Cube.Turn | cube.py:153-191 | After the snapshot and the passes, the facelets are `ApplyMove` in the as-written edition of the facelets before. |
| CubeModel.Cube.Rotate | cube.py:145-152 | `rotate` succeeds exactly when the token is in the grammar. On success the cube is `ApplyMove` in the as-written edition of the old cube with the decoded move; otherwise nothing changes. |

## Left out

- Text rendering and debugging are not modelled, because they only print or wait for input. This covers `Face.__str__`, `Cube.__str__`, `toggle_debug`, `debug_out`, the `debug` flag and the messages `rotate` prints (cube.py:99-103, 121, 127-140, 193-198).
- The command-line driver (cube.py:199-261) is not modelled: it times random moves and prints.
- `Face_Strings` and `Color_Strings` are used only for printing. `Colors` and `Turns` are never used.
- Engine.RoundTrip, Engine.SourceUndo: not claimed for `F` and `f` as written at any count, because they are false there (see "## Findings"). `Engine.FThenFiAsWritten` states the failure, and `Engine.EightTimes` the period that does hold.
- Engine.FourTimes: not claimed for `F` and `f` as written at counts 1 and 3, because four quarter turns (or twelve) of the written F table are not the identity. It is claimed at count 2.
- Engine.CountIsRepetition: not claimed for `2Fi` and `2fi` as written, because two quarter turns differ from six on the written F table. `Engine.CountAsWritten` states the failure. Every other move, `3Fi` included, is claimed.
- Construction from a given configuration is not modelled: the `config` argument of `Face` and the `configuration` argument of `Cube`. Only the solved construction path is modelled.
- The configuration validator and reconstructor are not part of this model.
- The regular-expression engine is not modelled. `Turn_Pattern` is modelled as its grammar, read directly.
- Exceptions are not modelled as exceptions. The AttributeError a refused token raises is the `false` result of `Rotate`. The IndexError of an out-of-range face item is the `None` / `false` result of `Get` / `Set`.
- Face items are integers in the model. Python would raise TypeError for an item of another type.
- `_temp` is modelled as one map from cell to colour rather than a dictionary of dictionaries. The model reads each face through `Get`, as the source does.
- The dictionaries' iteration order is not modelled: the model fixes one order. Every order gives the same result, because every write reads the snapshot.

## Findings

| source | as written | input that shows it | evidently intended | confidence | as-written member | corrected member |
|---|---|---|---|---|---|---|
| cube.py:61 | The Up entry of the F table is `{7: 3, 8: 6, 9: 9}`: Up 7 reads Left 3 and Up 9 reads Left 9. The eight corner facelets around Front then form one 8-cycle, so four quarter turns of F are not the identity. This affects `F` and `f`. | `F` then `Fi` on any cube whose Right 1 and Right 7 differ: Right 1 ends up with the old Right 7. | `{7: 9, 8: 6, 9: 3}`. A clockwise turn of F carries Left 9, the Left sticker of the front-down-left corner, up to Up 7, and Left 3, the Left sticker of the front-up-left corner, to Up 9. This gives two 4-cycles of corners, and a move followed by its inverse restores the cube. | not executed | Engine.FThenFiAsWritten | Engine.RoundTrip |
| cube.py:61 | The same entry makes `2Fi` and `2fi` differ from `Fi` and `fi` applied twice. Every other count digit still means repetition. | `2Fi` against `Fi` twice on any cube whose Left 3 and Left 9 differ: Right 1 receives Left 3 from the first and Left 9 from the second. | With the corrected entry, `kX` is `X` applied `k` times for every letter. | not executed | Engine.CountAsWritten | Engine.CountIsRepetition |
