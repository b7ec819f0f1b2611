# puissance4-3d: the game engine in Dafny

A model of the engine of a three-dimensional four-in-a-row game played on a
4 x 4 grid of pillars, each pillar a stack of four slots. Two players (or a
player and a random bot) drop marks into pillars; a player wins by holding
four cells in a line: a pillar, a row or column of the grid, or one of the
two grid diagonals, climbing, descending or flat.

The model covers:

- **Coordinates** (`coord.dfy`). A pillar has three addresses: its index
  0..15, a letter A-D with a digit 0-3, and the pair (x, y) = (n % 4, n / 4).
  The conversions are proved to be inverse bijections.
- **Pillar** (`pillar.dfy`). A class with a four-slot array and a height.
  `AddPlayer` is proved to keep the no-gap invariant that `validate`
  asserts.
- **Plate** (`plate.dfy`, `win.dfy`). Sixteen pillars, the view toggle and
  placement, with a frame: only the chosen pillar changes. The win check is
  written twice:
  - the way the source computes it, with `skip`, `step_by`, `take`, `zip`
    and `tuple_windows` over the six height patterns;
  - as geometry, the 76 lines written out.

  `CheckWin` is proved equal to both.
- **Input** (`input.dfy`). The partly typed coordinate, a class whose
  setters change it in place.
- **Turn token** (`player.dfy`) and **errors** (`errors.dfy`).
- **The thinkers** (`logic.dfy`). `Human::think` is a keyboard loop. Key
  events are a sequence handed to it, and everything it draws or prints is
  returned as a sequence of signals:
  - redraw;
  - show the input;
  - show a message;
  - preview a pillar (add or remove).

  The loop is specified by `Step` (one event) and `Run` (a sequence of
  events). `Human.Think` is proved to return and emit exactly what `Run`
  says. The properties are proved about `Run`:
  - it returns only an open input, and only on Enter;
  - at most one pillar is ever highlighted;
  - the blanking message always covers the message on screen.

  `RBot::think` takes its random draw as a parameter.

Conventions:

- Rust's `u8` and `u16` are the subset types `U8` and `U16`.
- Every `debug_assert!`, `assert!`, `expect` or `panic!` that guards an
  operation becomes a `requires`, and the model proves that callers meet it.
- A coordinate passed to the plate as `impl Coord` is given as the index
  `to_num` returns. The plate reads a coordinate only through `to_num` and
  `as_letter_coord`, which is itself a function of `to_num`.

## Model

| member | source | states |
|---|---|---|
| Player.PlayerID.Joue | src/player.rs:29-35 | the turn passes to the other player, never to `Empty`; only a player may hold the turn |
| Player.JoueTwice | src/player.rs:29-35 | passing the turn twice gives it back |
| Player.DefaultPlayer | src/player.rs:11-15 | the default occupant is no player: a free slot, which can never hold the turn |
| Coord.Letter.Ordinal | src/coord.rs:63-68 | A, B, C, D are columns 0-3 |
| Coord.Letter.ToString | src/coord.rs:99-112 | a letter displays as its one capital |
| Coord.LetterFromU8 | src/coord.rs:144-154 | defined on 0..=3 only, and gives the letter of that ordinal |
| Coord.LetterFromStr | src/coord.rs:156-167 | parses exactly "A", "B", "C", "D", inverting `Display`; every other string is an error |
| Coord.XYOfNum | src/coord.rs:13-16 | x is below 4 and x + 4y is the index; below 16 both parts are below 4 |
| Coord.LnOfNum | src/coord.rs:17-27 | letter ordinal + 4 * digit is the index, agreeing with (x, y) |
| Coord.LetterCoord.ToXY | src/coord.rs:62-70 | the letter's ordinal and the number |
| Coord.LetterCoord.ToNum | src/coord.rs:57-61 | ordinal + 4 * number, defined while the `u8` product cannot overflow |
| Coord.LetterCoord.ToLn | src/coord.rs:17-27 | the default `to_ln_coord` gives back the letter and number |
| Coord.LetterCoord.AsLetterCoord | src/coord.rs:29-31 | a letter coordinate converts to itself |
| Coord.LetterCoord.AsNumberCoord | src/coord.rs:32-34 | the index of the same cell, below 16 |
| Coord.NumberCoord.AsLetterCoord | src/coord.rs:29-31 | a letter coordinate with digit below 4 and the same index |
| Coord.NumberCoord.AsNumberCoord | src/coord.rs:32-34 | an index converts to itself |
| Coord.NumberCoord.ToNum | src/coord.rs:73-77 | `to_num` gives back the stored index unchanged |
| Coord.NumberCoord.ToXY | src/coord.rs:13-16 | the default `to_xy_coord`: x below 4 with x + 4y the index, and y below 4 for an index below 16 |
| Coord.NumberCoord.ToLn | src/coord.rs:17-27 | the default `to_ln_coord`: letter ordinal + 4 * digit is the index, agreeing with `to_xy_coord` |
| Coord.NewNumberCoord | src/coord.rs:79-84 | only indices below 16; their letter and digit recompose the index |
| Coord.NumberCoordFrom | src/coord.rs:114-125 | 4 * digit + ordinal, below 16, whose letter and digit are the ones given |
| Coord.LetterCoordFrom | src/coord.rs:127-142 | digit below 4; its index is 4 * digit + ordinal and it converts back to the pair |
| Coord.CoordinatesBijective | src/coord.rs:114-167 | index -> (letter, digit) -> index and (letter, digit) -> index -> (letter, digit) are identities; `From<u8>` inverts the ordinal; `from_str` inverts `Display` |
| Pillars.Validated | src/pilier.rs:58-71 | what `validate` accepts has four slots and height at most 4, and at height 0 it is the default pillar |
| Pillars.Gapless | src/pilier.rs:58-82 | the invariant `add_player` keeps: the marks fill exactly the slots below the height |
| Pillars.Full | src/pilier.rs:54-56 | on a pillar `validate` accepts, full means height exactly 4 |
| Pillars.FullIffNoFreeSlot | src/pilier.rs:54-56 | on a gapless pillar, full means no empty slot is left |
| Pillars.Dropped | src/pilier.rs:73-82 | full: `OverFilledPillar(None)` and no change; otherwise the mark lands at the old height, the height grows by one, other slots are kept, and no gap appears |
| Pillars.FourMarksFill | src/pilier.rs:73-82 | from the default pillar four marks are accepted, then it is full and a fifth is refused |
| Pillars.Pillar.constructor | src/pilier.rs:34-41 | four empty slots, height 0 |
| Pillars.Pillar.IsFull | src/pilier.rs:54-56 | full exactly when the height is 4 |
| Pillars.Pillar.GetHeight | src/pilier.rs:84-86 | the height, at most 4 |
| Pillars.Pillar.GetPlayer | src/pilier.rs:88-90 | the mark in slot i, which is non-empty exactly below the height |
| Pillars.Pillar.AddPlayer | src/pilier.rs:73-82 | the pillar changes as `Dropped` says, keeps the `validate` invariant, and succeeds exactly when it was not full |
| WinLines.AllElementsIdentical | src/plate.rs:308-315 | true exactly when every adjacent pair is equal and not `Empty` |
| WinLines.IdenticalIffOneMark | src/plate.rs:308-315 | for two or more marks: one non-empty mark repeated |
| WinLines.WinCombinationsAre | src/plate.rs:207-215 | the six patterns are rising, falling, and flat at heights 0-3 |
| WinLines.Strided | src/plate.rs:220-228 | `skip(start).step_by(step)` over 16 pillars: start, start + step, ..., all below 16, empty exactly when start is past the board, and stopping only where the next index would leave it |
| WinLines.Take | src/plate.rs:217-219 | `take(n)`: the first n, or all when fewer |
| WinLines.Zip | src/plate.rs:236-240 | pairs up the two sequences and stops at the shorter |
| WinLines.MarksAlong | src/plate.rs:239 | the mark at each zipped (pillar, height) cell |
| WinLines.LineX | src/plate.rs:217-219 | `get_line_x_of_pillar(x)` for x below 4 is the row 4x, 4x+1, 4x+2, 4x+3 |
| WinLines.LineY | src/plate.rs:220-222 | `get_line_y_of_pillar(y)` for y below 4 is the column y, y+4, y+8, y+12 |
| WinLines.LineOf | src/plate.rs:272-273 | the selector `check_4_origin` is given yields line i of the rows or of the columns |
| WinLines.DiagonalOf | src/plate.rs:223-228 | the first diagonal is 0, 5, 10, 15; the second yields five pillars, 3, 6, 9, 12 and then 15 |
| WinLines.ZipPattern | src/plate.rs:236-240 | a line zipped with a pattern is the line's four cells at the pattern's heights |
| WinLines.IdenticalIffUniform | src/plate.rs:308-315 | on four cells, `all_elements_identical` means held by one player |
| WinLines.LineWinsIffUniform | src/plate.rs:236-240 | one line and pattern of the check wins exactly when its four cells are one player's |
| WinLines.PillarLinesAgree | src/plate.rs:264-268 | each pillar passes `all_elements_identical` exactly when its four slots are one player's |
| WinLines.GridLineAgrees | src/plate.rs:236-240 | line i of a family, zipped with a pattern, wins exactly when that row or column is one player's at the pattern's heights |
| WinLines.RowLinesAgree | src/plate.rs:235-241 | some x-line with some pattern wins exactly when some row is one player's |
| WinLines.ColumnLinesAgree | src/plate.rs:235-241 | some y-line with some pattern wins exactly when some column is one player's |
| WinLines.DiagonalLinesAgree | src/plate.rs:251-255 | each diagonal zipped with a pattern wins exactly when the main diagonal 0, 5, 10, 15 (or the anti-diagonal 3, 6, 9, 12, the 15 cut by the zip) is one player's |
| WinLines.VerticalWins | src/plate.rs:264-270 | the pillar test passes exactly when some pillar is one player's |
| WinLines.OriginWins | src/plate.rs:230-244 | `check_4_origin` over the rows (columns) passes exactly when some row (column), with some pattern, is one player's |
| WinLines.DiagonalWins | src/plate.rs:246-258 | `check_diag` passes exactly when the diagonal's four grid cells at some pattern's heights are one player's |
| WinLines.Wins | src/plate.rs:260-281 | `check_win` as composed holds exactly when one of the 76 lines is held by one player |
| Plates.TypeOfDisplay.Switch | src/plate.rs:32-39 | the other view |
| Plates.SwitchTwice | src/plate.rs:32-46 | switching twice restores the view |
| Plates.Place | src/plate.rs:69-85 | a move changes pillar k as the pillar does and no other pillar; a full pillar is left as it is |
| Plates.EmptyBoardNoWin | src/plate.rs:298-306 | the default plate is not won |
| Plates.BottomRowWins | src/plate.rs:260-281 | one player's four marks along the bottom of row 0 win |
| Plates.MarkedCells | src/plate.rs:260-281 | exactly the cells of the board that hold a mark |
| Plates.MarkedLineCount | src/plate.rs:260-281 | four different cells all holding a mark mean at least four marks on the board |
| Plates.GridLineCount | src/plate.rs:260-281 | a row, column or diagonal held by one player means at least four marks on the board |
| Plates.FewMarksNoVertical | src/plate.rs:264-270 | with fewer than four marks no pillar is one player's |
| Plates.FewMarksNoGridLine | src/plate.rs:272-273 | with fewer than four marks no row or column is one player's |
| Plates.FewMarksNoDiagonal | src/plate.rs:274-275 | with fewer than four marks neither diagonal is one player's |
| Plates.FewMarksNoWin | src/plate.rs:260-281 | `check_win` is false on every board holding fewer than four marks |
| Plates.OverflowAt | src/plate.rs:73-75 | the error carries the letter coordinate of the same pillar |
| Plates.Plate.constructor | src/plate.rs:298-306 | 16 default pillars, shown in the `Victor` view |
| Plates.Plate.SwitchView | src/plate.rs:42-46 | only the view changes, to the other one |
| Plates.Plate.GetPion | src/plate.rs:61-63 | the mark at height h of pillar k |
| Plates.Plate.Playable | src/plate.rs:65-67 | true exactly when pillar k is not full |
| Plates.Plate.Preview | src/plate.rs:108-120 | refused, with the pillar's coordinate, exactly when the pillar is full |
| Plates.Plate.GetPlane | src/plate.rs:47-54 | entry i is pillar i's mark at height n, for all 16 pillars |
| Plates.Plate.AddPlayer | src/plate.rs:69-85 | the contents become `Place(old, k, pl)`: only pillar k changes; a full pillar is refused with its coordinate and nothing changes |
| Plates.Plate.LineMarks | src/plate.rs:239 | the marks read from the pillars are the board's marks at those cells |
| Plates.Plate.LineHolds | src/plate.rs:237-240 | one `all_elements_identical` of the check is the board's line test |
| Plates.Plate.Check4Origin | src/plate.rs:230-244 | the accumulated `res` is "some line 0..3 wins with some pattern" |
| Plates.Plate.CheckDiag | src/plate.rs:246-258 | the accumulated `res` is "the diagonal wins with some pattern" |
| Plates.Plate.CheckWin | src/plate.rs:260-281 | the result is the source's composition of tests, and equally "some line of the 76 is one player's" |
| Inputs.Decimal | src/input.rs:66 | `to_string` of a number is decimal digits, one digit below 10, with a leading zero only for 0 itself |
| Inputs.DecimalRoundTrip | src/input.rs:66 | the text reads back as the number |
| Inputs.Parts.ToXY | src/input.rs:9-17 | the letter's ordinal and the number; a missing part is excluded |
| Inputs.Parts.ToNum | src/input.rs:18-21 | ordinal + 4 * number, below 16 for a digit 0-3 |
| Inputs.Parts.GetToCoord | src/input.rs:37-46 | the letter coordinate of the two parts, with the same index |
| Inputs.Parts.Text | src/input.rs:62-69 | letter then number, `?` for each missing part, the number in decimal without a leading zero |
| Inputs.PartsOf | src/input.rs:77-85 | valid, and its index is 4 * digit + ordinal |
| Inputs.PartsOfIndex | src/input.rs:87-94 | valid, digit below 4, and its index is the given one |
| Inputs.IndexDeterminesInput | src/input.rs:18-21 | complete inputs with digits 0-3 are equal exactly when their indices are |
| Inputs.PartsOfIndexRoundTrip | src/input.rs:87-94 | every complete input with digit 0-3 is the one built from its index |
| Inputs.Input.constructor | src/input.rs:3-7 | neither part set |
| Inputs.Input.Split | src/input.rs:57-59 | `split` returns the stored letter and number |
| Inputs.Input.SetLetter | src/input.rs:47-49 | the letter is replaced, the number kept |
| Inputs.Input.SetNumber | src/input.rs:50-52 | the number becomes the low eight bits of the argument, the letter is kept |
| Inputs.Input.Reset | src/input.rs:26-29 | both parts cleared |
| Inputs.Input.IsValid | src/input.rs:53-55 | both parts present |
| Inputs.Input.GetToCoord | src/input.rs:37-46 | the coordinate of the two parts |
| Inputs.Input.Give | src/input.rs:31-35 | returns the coordinate typed so far, and the input is left empty |
| Inputs.Input.ToNum | src/input.rs:18-21 | ordinal + 4 * number |
| Inputs.Input.Clone | src/input.rs:3 | a new input with the same parts |
| Inputs.Input.FromLn | src/input.rs:77-85 | a new input holding that letter and digit |
| Inputs.Input.FromIndex | src/input.rs:87-94 | a new input holding the letter and digit of the index |
| Logic.Spaces | src/logic.rs:135 | n blanks |
| Logic.ActionOf | src/logic.rs:85-125 | letters in either case choose A-D, `0`-`3` choose the digit, `s` switches the view, Enter confirms, Esc quits |
| Logic.Start | src/logic.rs:66-70 | nothing typed, nothing previewed |
| Logic.Step | src/logic.rs:72-137 | an event breaks the loop exactly on Enter with an open input, exits exactly on Esc, and stopping emits nothing more |
| Logic.Refresh | src/logic.rs:127-136 | the input is kept; when open it becomes the previous preview and the message length drops to 0, otherwise nothing changes |
| Logic.Apply | src/logic.rs:85-99 | a letter key replaces the letter and a digit key the number, each keeping the rest; `s` switches the view and keeps the input; other keys change nothing; the preview and message length are kept |
| Logic.Run | src/logic.rs:72-137 | an input returned is the input typed when the loop stopped |
| Logic.ChosenIsOpen | src/logic.rs:100-103 | the loop returns only a complete input naming a pillar that is not full |
| Logic.EndsOnEnterOrEsc | src/logic.rs:100-124 | an input is returned only after an Enter; a run still waiting has seen no Esc |
| Logic.PreviewSafeStep | src/logic.rs:128-134 | the previous preview always names an open pillar, so removing it cannot fail |
| Logic.LitRun | src/logic.rs:128-134 | at most one pillar is highlighted, the one of the previous preview |
| Logic.LastLenIsOnScreen | src/logic.rs:105-136 | `last_message_length` is the length of the message on screen |
| Logic.KeysEditInput | src/logic.rs:85-99 | letter keys set the letter, digit keys the number, every other event keeps the input |
| Logic.PreviewSignals | src/logic.rs:127-134 | Add is emitted exactly for an open input; Remove is emitted exactly when, in addition, the previous preview is complete and differs |
| Logic.EnterRefused | src/logic.rs:100-118 | Enter on an incomplete input or a full pillar prints the matching message and records its length |
| Logic.TypeA0Enter | src/logic.rs:64-142 | `a`, `0`, Enter on the default plate choose A0 after previewing pillar 0 |
| Logic.EnterTooEarly | src/logic.rs:112-117 | Enter first prints the incomplete-input message (30 characters) and keeps waiting |
| Logic.Human.constructor | src/logic.rs:60-62 | no message printed yet |
| Logic.Human.Think | src/logic.rs:65-142 | draws the plate and the empty input, then returns, emits and leaves the state that `Run` gives; the plate's contents do not change |
| Logic.Human.HandleEvent | src/logic.rs:73-136 | one pass of the loop does what `Step` says and keeps the previous preview safe |
| Logic.Human.ConfirmInput | src/logic.rs:100-118 | Enter does what `Step` says |
| Logic.Human.ApplyKey | src/logic.rs:85-99 | the edit or the view switch as `Apply` gives it; the plate's contents do not change |
| Logic.Human.ShowAndPreview | src/logic.rs:127-136 | the end of the loop body does what `Refresh` says |
| Logic.SingleDrawChoice | src/logic.rs:22-34 | some input exactly when the drawn pillar is open, and then it names that pillar |
| Logic.RBotThink | src/logic.rs:22-34 | with any passes at all, the result is the single draw's choice |
| Logic.SingleDrawCanSpin | src/logic.rs:24-32 | a full drawn pillar gives no choice although another pillar is open |
| Logic.ResampledChoice | src/logic.rs:22-34 | a choice is an open pillar among the draws |
| Logic.ResamplingFindsOpenPillar | src/logic.rs:22-34 | redrawing plays the first draw that lands on an open pillar |
| Logic.ResamplingEscapesFullPillar | src/logic.rs:22-34 | on the plate where the single draw spins, redrawing plays pillar 1 |
| Logic.RBotThinkResampling | src/logic.rs:22-34 | the loop with a draw per pass returns the resampled choice |

## Left out

- Terminal rendering is not modelled: `plot`, `clear_plot`, the screen arithmetic and colours of `preview`, and the `draw` of pillars and planes. A preview is a `PreviewAt` signal; `clear_plot` followed by `plot` is one `Redraw`.
- src/utils.rs, src/lib.rs and src/main.rs are not part of this model. They are terminal wrappers, the `Game` glue and the logger.
- `PlayerID::color` and the `Display` of a player are not modelled; they are colour codes.
- Raw mode, `crossterm::event::read` and `std::process::exit` are not modelled. Events are a sequence given to the loop. A read error and a non-key event are both `NotKey`, and Esc is the `Aborted` outcome.
- Output errors that `?` would propagate from the display calls are not modelled. In the model every write to the terminal succeeds, and `OutputInterfaceError` carries no `io::Error`.
- The `rand` generator is not modelled; the bot's draw is a parameter.
- Logging is not modelled.
- `Pillar::new` is not modelled. It is dead code that builds a pillar breaking the `validate` invariant.
- The `Cell` wrappers are plain mutable fields.
- The `Coord` trait is not a Dafny type. Each coordinate type is a datatype, and the plate takes the index.
- Player.PlayerID.Joue: returns the new token instead of reassigning `*self`; the caller stores it.
- Logic.RBotThink: a `fuel` bound stands for the unbounded loop, and `None` stands for a loop that has not ended.
- Logic.Human.Think: the `Human` must be distinct from the plate's objects, which Rust's ownership guarantees.
- Logic.Step: the loop is modelled only up to the first key that stops it or the end of the given events. A run that has not stopped is `Waiting`.

## Findings

| source | as written | input that shows it | evidently intended | confidence | as-written member | corrected member |
|---|---|---|---|---|---|---|
| src/logic.rs:22-34 | `RBot::think` draws `random_number` once, before the loop, and every pass rebuilds `Input::from(random_number)` | a plate whose pillar 0 is full while pillar 1 is empty, and the draw 0: `playable` is false on every pass, so the loop never ends although the bot could play | draw a new number on each pass until it lands on a playable pillar | high, not executed | Logic.SingleDrawCanSpin | Logic.ResamplingFindsOpenPillar |
