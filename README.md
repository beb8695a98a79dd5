# PyGameUI widget state machines in Dafny

This project models the per-frame interaction logic of the four PyGameUI widgets:

- `CheckBox`: a press/release toggle and its style setters.
- `Entry`: a text field with a blinking cursor, key-table typing, a key-repeat governor and a length cap.
- `Slider`: a draggable pointer with snapping and a rounded mark.
- `Button`: press/hold/release flags and a callback.

Each widget exists in two revisions, `pgui/` and the packaged copy `build/lib/pgui/`. The revisions differ in validation, field names and key tables, so each is modelled on its own. The two Slider revisions share their interaction code, and so do the two Entry `get_text` methods: their modules repeat the same members on purpose.

Every widget module holds a `class` with the source's fields. Its methods `modify` those fields as `update` and the setters do. Each method is specified against a pure function of a `Snapshot()` of the fields. The lemmas about those functions state what the widget promises.

A frame's input (`pg.mouse.get_pos()`, the primary button of `pg.mouse.get_pressed()`, the held keys of `pg.key.get_pressed()`) is an explicit `Input` value. A print to the console and a call of a user callback are returned as values:

- the Entry's `called` flag;
- the Button's `effects`.

Shared modules:

- `PyValues`: Python values, truthiness, exceptions and `round`.
- `Pygame`: `Rect`, `collidepoint`, `topleft` and centre assignment, keys and input.
- `Toggle`: the check-box press/release rule.
- `EntryLogic`: the Entry machine, with its key tables as parameters.
- `SliderLogic`: the Slider machine.
- `ButtonLogic`: the Button machine.

Assumptions about pygame, whose code is not part of this model:

- `collidepoint` is half-open containment.
- `rect.centerx = m` sets `x` to `m - w/2`, with C truncating division. `centery` works the same way.
- A float rect coordinate such as `size / 4` is truncated toward zero.
- `Surface.fill`, `draw.rect`, `draw.ellipse`, `draw.line` and `Font.render` accept a colour only when it is a tuple of three or four ints, each in 0..255, and raise otherwise. `pg.Surface` raises for a negative width or height. For the colours and sizes the model keeps in its state, it reports each of these raises as `DrawingError`, and keeps every field assigned before the failing call. The colours it does not keep are listed under "## Left out".
- Every other drawing call succeeds.

Where the documentation and the code disagree, the model follows the code:

- The slider pointer is not clamped after a press on the track, so the mark can leave `0..max` (`SliderLogic.TrackPressLeavesSpan`).
- The packaged `set_style("square")` does not restore the square border width (`BuildCheckBox.SquareAfterCircleKeepsWiderBorder`).
- The `pgui` check box `set_font_color` raises ValueError for the documented RGB 3-tuple. It stores a tuple of ints of any other length, and the re-render then passes only for an RGBA 4-tuple (`PguiCheckBox.FontColorRejectsRgb`).
- The packaged Entry types `"width"` for the `w` key, so a capped text can end 4 characters over `max_length` (`BuildEntry.CapOvershoot`).
- Typing in the Entry ends only on a primary press outside it, or on Return when there is no callback. No other key ends it, and there is no Escape handling.
- Nothing clamps the darkened button shade at 0. A background channel below 40 makes the first press raise in `fill` right after `pressed` is set (`ButtonLogic.DarkenedInRange`, `ButtonLogic.DarkBackgroundStopsPress`).

## Model

| member | source | states |
|---|---|---|
| PyValues.Then | pgui/checkbox.py:100-159 | a sequence of checks passes iff each passes, and raises the first failure |
| PyValues.RoundHalfEven | pgui/slider.py:136-137 | `round(n/d)` is within half a unit of n/d, and a tie goes to the even integer |
| PyValues.RoundOfMultiple | pgui/slider.py:136-137 | rounding an exact multiple k·d over d gives k |
| PyValues.RoundMonotone | pgui/slider.py:136-137 | for a positive divisor, a larger numerator never rounds lower |
| Pygame.MovedTo | pgui/slider.py:241-242 | assigning `topleft` moves the corner and keeps the size |
| Pygame.Half | pgui/slider.py:69-71 | the half-width used by centre assignment truncates toward zero |
| Pygame.Quarter | pgui/entry.py:87 | `size / 4` as a rect coordinate truncates toward zero |
| Pygame.WithCenterX | pgui/slider.py:71 | `centerx = m` keeps the size and puts m in the middle column |
| Pygame.WithCenterY | pgui/slider.py:69 | `centery = m` keeps the size and puts m in the middle row |
| Toggle.Step | pgui/checkbox.py:179-195 | a press over the box arms it, the box stays armed while held, and the state flips iff it was armed and the button is up, wherever the pointer is |
| PguiCheckBox.ColorCheck | pgui/checkbox.py:101-108 | passes iff the value is a tuple of three ints; TypeError for a non-tuple, ValueError otherwise |
| PguiCheckBox.NonNegativeIntCheck | pgui/checkbox.py:110-113 | passes iff the value is a non-negative int; TypeError for a non-int, ValueError for a negative one |
| PguiCheckBox.ChoiceCheck | pgui/checkbox.py:141-144 | passes iff the value is a str among the choices; TypeError for a non-str, ValueError otherwise |
| PguiCheckBox.CheckAttributes | pgui/checkbox.py:100-159 | passes iff every public attribute is well formed; otherwise raises the first of the ten checks, in source order, that fails, with no failing check before it |
| PguiCheckBox.FirstRaise | pgui/checkbox.py:100-159 | a run of checks passes iff every check passes |
| PguiCheckBox.FirstRaiseIsFirstFailure | pgui/checkbox.py:100-159 | what a run of checks raises is a failing check with no failing check before it |
| PguiCheckBox.Initial | pgui/checkbox.py:39-87 | a new box is unchecked, not armed, has valid attributes and a size×size rect at (x, y) |
| PguiCheckBox.Updated | pgui/checkbox.py:161-266 | invalid attributes raise before anything changes; a background colour outside 0..255 raises after a press sets `clicked`; otherwise only `clicked`, `checked` and a cross on a checked circle (now "fill") change, and the frame passes iff the border colour, and the check colour when the mark is drawn, are drawable |
| PguiCheckBox.CyclesToggleParity | pgui/checkbox.py:179-266 | N press/release cycles over a box whose colours are drawable raise nothing and leave it checked iff it started checked XOR N is odd |
| PguiCheckBox.StyleSet | pgui/checkbox.py:450-483 | only "square" or "circle" are accepted (ValueError otherwise, nothing changed); "square" changes only the style; "circle" also forces "fill" and the cached square border width plus 1, and nothing else |
| PguiCheckBox.StyleSetIdempotent | pgui/checkbox.py:450-483 | setting the same style twice equals setting it once |
| PguiCheckBox.Moved | pgui/checkbox.py:274-304 | a non-int x, then a non-int y, raises TypeError with nothing changed; otherwise the box goes to (x, y) |
| PguiCheckBox.MovedIdempotent | pgui/checkbox.py:274-304 | moving twice to the same place equals moving once |
| PguiCheckBox.Resized | pgui/checkbox.py:414-448 | accepted iff a positive int (TypeError/ValueError otherwise, nothing changed); the rect keeps its corner |
| PguiCheckBox.Labelled | pgui/checkbox.py:485-508 | a str is stored exactly, and the call passes iff the stored font colour can be rendered; anything else raises TypeError with nothing changed |
| PguiCheckBox.FontColorSet | pgui/checkbox.py:381-412 | passes iff the colour is a drawable 4-tuple; a non-tuple or a non-int item raises TypeError and a 3-tuple ValueError, with nothing changed; any other tuple of ints is stored, even when the render then raises |
| PguiCheckBox.FontColorRejectsRgb | pgui/checkbox.py:399-410 | a valid RGB 3-tuple raises ValueError, a valid RGBA 4-tuple is stored, and a 2-tuple is stored before the render raises |
| PguiCheckBox.StoredFontColorBreaksLabel | pgui/checkbox.py:399-507 | a 1-tuple font colour is stored before its render raises, and every later `set_label` then stores its text and raises |
| PguiCheckBox.CheckBox.constructor | pgui/checkbox.py:39-87 | the fields equal `Initial` |
| PguiCheckBox.CheckBox.Update | pgui/checkbox.py:161-213 | the outcome and new fields are those of `Updated` |
| PguiCheckBox.CheckBox.SetStyle | pgui/checkbox.py:450-483 | the outcome and new fields are those of `StyleSet` |
| PguiCheckBox.CheckBox.Move | pgui/checkbox.py:274-304 | the outcome and new fields are those of `Moved` |
| PguiCheckBox.CheckBox.SetSize | pgui/checkbox.py:414-448 | the outcome and new fields are those of `Resized` |
| PguiCheckBox.CheckBox.SetLabel | pgui/checkbox.py:485-508 | the outcome and new fields are those of `Labelled` |
| PguiCheckBox.CheckBox.SetFontColor | pgui/checkbox.py:381-412 | the outcome and new fields are those of `FontColorSet` |
| BuildCheckBox.Initial | build/lib/pgui/checkbox.py:40-91 | a new box is unmarked, square, not armed, and caches its border width |
| BuildCheckBox.Updated | build/lib/pgui/checkbox.py:113-161 | only `clicked`, `marked` and the check style change, by the toggle rule; a cross on a marked circle becomes "fill" |
| BuildCheckBox.CyclesToggleParity | build/lib/pgui/checkbox.py:129-144 | N press/release cycles leave `marked` equal to its start XOR N odd, and the box disarmed |
| BuildCheckBox.CheckStyleSet | build/lib/pgui/checkbox.py:446-451 | passes iff "fill" or "cross", storing it; anything else halts (SystemExit) with nothing changed |
| BuildCheckBox.BorderWidthSet | build/lib/pgui/checkbox.py:473-476 | always sets the border width, and caches it as the square width only while square |
| BuildCheckBox.StyleSet | build/lib/pgui/checkbox.py:568-583 | a bad style halts with nothing changed; "square" changes only the style; "circle" forces "fill" and the cached width plus 1 |
| BuildCheckBox.StyleSetIdempotent | build/lib/pgui/checkbox.py:568-583 | setting the same style twice equals setting it once |
| BuildCheckBox.SquareAfterCircleKeepsWiderBorder | build/lib/pgui/checkbox.py:574-580 | circle then square leaves the border one wider than the cached square width |
| BuildCheckBox.CircleBorderWidthNotCached | build/lib/pgui/checkbox.py:473-480 | a border width set while circular is lost on the next switch to circle |
| BuildCheckBox.Moved | build/lib/pgui/checkbox.py:607-610 | x, y and the rect's corner go to (x, y), nothing else changes |
| BuildCheckBox.MovedIdempotent | build/lib/pgui/checkbox.py:607-610 | moving twice to the same place equals moving once |
| BuildCheckBox.Resized | build/lib/pgui/checkbox.py:539-547 | a negative size is stored and the surface then raises with the rect unchanged; otherwise the rect becomes size×size at (x, y); nothing else changes |
| BuildCheckBox.ResizedAfterMoveKeepsCorner | build/lib/pgui/checkbox.py:539-547 | after a move and a resize that passes, the moved-to point is inside the box iff the size is positive; a negative size leaves the moved rect |
| BuildCheckBox.CheckBox.constructor | build/lib/pgui/checkbox.py:40-91 | the fields equal `Initial` |
| BuildCheckBox.CheckBox.Update | build/lib/pgui/checkbox.py:113-161 | the new fields are those of `Updated` |
| BuildCheckBox.CheckBox.GetState | build/lib/pgui/checkbox.py:239 | returns `marked` |
| BuildCheckBox.CheckBox.SetCheckStyle | build/lib/pgui/checkbox.py:446-451 | the outcome and new fields are those of `CheckStyleSet` |
| BuildCheckBox.CheckBox.SetBorderWidth | build/lib/pgui/checkbox.py:473-476 | the new fields are those of `BorderWidthSet` |
| BuildCheckBox.CheckBox.SetStyle | build/lib/pgui/checkbox.py:568-583 | the outcome and new fields are those of `StyleSet` |
| BuildCheckBox.CheckBox.SetSize | build/lib/pgui/checkbox.py:539-547 | the outcome and new fields are those of `Resized` |
| BuildCheckBox.CheckBox.Move | build/lib/pgui/checkbox.py:607-610 | the new fields are those of `Moved` |
| EntryLogic.Initial | pgui/entry.py:87-124 | empty text, not typing, no key handled, blink at 0 rising, cooldown 0, rect at (x, y) of width w |
| EntryLogic.AddChar | pgui/entry.py:126-134 | a non-zero limit stops appending once the text has reached it; otherwise the glyph is appended in full |
| EntryLogic.RemoveLast | pgui/entry.py:136-139 | `text[:-1]`: drops the last character, and an empty text stays empty |
| EntryLogic.AppendAll | pgui/entry.py:165-172 | a run of `_add_char` calls only extends the text |
| EntryLogic.AppendAllSnoc | pgui/entry.py:165-167 | one more scanned glyph is one more `_add_char` |
| EntryLogic.AppendAllConcat | pgui/entry.py:165-172 | the digit scan followed by the letter scan is one run over both glyph lists |
| EntryLogic.UncappedAppendsAll | pgui/entry.py:132-133 | with `max_length` 0 every glyph is appended in full |
| EntryLogic.AppendAllBound | pgui/entry.py:128-131 | with a positive limit and glyphs of at most k characters, the text stays within limit + k - 1 |
| EntryLogic.Concat | pgui/entry.py:132-133 | no glyphs join to the empty text |
| EntryLogic.CharGlyphs | pgui/entry.py:165-167 | at most one glyph per table row, and none when no table key is held |
| EntryLogic.LetterGlyphs | pgui/entry.py:168-172 | at most one glyph per table row, and none when no table key is held |
| EntryLogic.CharGlyphsNext | pgui/entry.py:165-167 | each loop iteration adds the row's glyph iff its key is held |
| EntryLogic.LetterGlyphsNext | pgui/entry.py:168-172 | each loop iteration adds the shifted or unshifted glyph iff the key is held |
| EntryLogic.CharGlyphsWithin | pgui/entry.py:165-167 | the scanned glyphs are no longer than the table's |
| EntryLogic.LetterGlyphsWithin | pgui/entry.py:168-172 | the scanned glyphs are no longer than the table's |
| EntryLogic.SingleLetterKey | pgui/entry.py:168-172 | with exactly one letter key held, the scan types that key's glyph once |
| EntryLogic.CharGlyphsHeld | pgui/entry.py:165-167 | a held table key always yields a glyph |
| EntryLogic.LetterGlyphsHeld | pgui/entry.py:168-172 | a held table key always yields a glyph |
| EntryLogic.BlinkStep | pgui/entry.py:143-150 | keeps the counter in 0..100; the direction reverses exactly at 100 rising or 0 falling, and otherwise the counter moves one step |
| EntryLogic.BlinkIterAdd | pgui/entry.py:143-150 | m + n frames of blinking are m frames then n frames |
| EntryLogic.BlinkRisesFromZero | pgui/entry.py:143-144 | from the initial counter, n ≤ 100 frames count up to n |
| EntryLogic.BlinkFallsFromTop | pgui/entry.py:146-147 | after the turn at 100, n ≤ 100 frames count down to 100 - n |
| EntryLogic.BlinkPeriod | pgui/entry.py:143-150 | the cursor blink repeats every 202 frames |
| EntryLogic.KeysTyped | pgui/entry.py:164-181 | the text is the held keys' glyphs appended under the cap, less one character with backspace held; `func` is called iff Return is held and `func` is truthy; Return without `func` ends typing; backspace or Return marks a key handled; nothing else but text, typing and keypressed changes |
| EntryLogic.KeysTypedMarksKey | pgui/entry.py:164-177 | a typing frame marks a key handled iff some table key, backspace or Return is held |
| EntryLogic.OneTableKey | pgui/entry.py:164-172 | one letter key (with or without shift) types exactly that letter's glyph through `_add_char` |
| EntryLogic.Governed | pgui/entry.py:183-188 | the governor changes only `keypressed` and the cooldown: with a key held at 30 or more it frees the key and resets the cooldown, otherwise it counts the cooldown up by one and keeps the key handled |
| EntryLogic.Expired | pgui/entry.py:189-191 | the 60-frame reset changes only `keypressed` and the cooldown |
| EntryLogic.Blinked | pgui/entry.py:143-162 | one blink step, and `pressing` iff any key is held |
| EntryLogic.Interacted | pgui/entry.py:164-188 | nothing happens while not typing; the governor runs while a key is handled |
| EntryLogic.Focused | pgui/entry.py:193-197 | a primary press sets `typing` to "pointer inside the rect"; otherwise nothing changes |
| EntryLogic.Step | pgui/entry.py:141-197 | a press focuses iff inside; `pressing` iff a key is held; `func` is called iff the frame types (typing, no key handled), Return is held and `func` is truthy; the text changes only on typing frames; rect, limit and `func` are kept |
| EntryLogic.InitialValid | pgui/entry.py:105-124 | a new entry satisfies the invariant |
| EntryLogic.StepPreservesValid | pgui/entry.py:141-197 | every frame keeps blink in range, the cooldown in 0..59, and a capped text within limit + k - 1 |
| EntryLogic.GovernorReleasesHeldKey | pgui/entry.py:183-186 | while typing with a key handled, a key held for 30 frames frees the key and resets the cooldown |
| EntryLogic.GovernorCountsWhileHeld | pgui/entry.py:183-188 | while typing with a key handled, a key held below 30 frames keeps the key handled and counts the cooldown up by one |
| EntryLogic.HeldKeyIsReleased | pgui/entry.py:183-191 | holding a key while typing with a key handled frees the key after exactly 31 − cooldown frames, with the cooldown back at 0 and typing kept |
| EntryLogic.GovernorExpires | pgui/entry.py:183-191 | with no key held the cooldown counts up and resets at 60 |
| EntryLogic.ReturnKey | pgui/entry.py:176-181 | Return calls `func` iff truthy, and otherwise ends typing |
| EntryLogic.TypingFrameText | pgui/entry.py:164-172 | a typing frame's text is the held keys' glyphs appended under the cap, digits before letters, then one character removed if backspace is held |
| PguiEntry.TablesTypeOneCharacter | pgui/entry.py:12-53 | the tables have 11 and 26 rows, each typing one character, with distinct letter keys |
| PguiEntry.TextWithinMaxLength | pgui/entry.py:126-131 | with a positive `max_length`, no frame takes the text past it |
| PguiEntry.OneLetterKey | pgui/entry.py:168-172 | the i-th letter key types the i-th letter, upper-case iff shift is held |
| PguiEntry.Entry.constructor | pgui/entry.py:61-124 | the fields equal `Initial`, and the tables are the module's |
| PguiEntry.Entry.AddChar | pgui/entry.py:126-134 | sets `keypressed` and appends under the cap |
| PguiEntry.Entry.RemoveChar | pgui/entry.py:136-139 | sets `keypressed` and drops the last character |
| PguiEntry.Entry.ScanCharacters | pgui/entry.py:165-167 | the loop appends `CharGlyphs` under the cap |
| PguiEntry.Entry.ScanLetters | pgui/entry.py:168-172 | the loop appends `LetterGlyphs` under the cap |
| PguiEntry.Entry.TypeKeys | pgui/entry.py:164-181 | the new fields and the call are those of `KeysTyped` |
| PguiEntry.Entry.Interact | pgui/entry.py:164-188 | the new fields and the call are those of `Interacted` |
| PguiEntry.Entry.Blink | pgui/entry.py:143-162 | the new fields are those of `Blinked` |
| PguiEntry.Entry.Expire | pgui/entry.py:189-191 | the new fields are those of `Expired` |
| PguiEntry.Entry.Focus | pgui/entry.py:193-197 | the new fields are those of `Focused` |
| PguiEntry.Entry.Update | pgui/entry.py:141-197 | the new fields and the call are those of `Step` |
| PguiEntry.Entry.GetText | pgui/entry.py:214-216 | returns the text unchanged |
| PguiEntry.Entry.Move | pgui/entry.py:365 | only the rect's corner moves |
| BuildEntry.TablesTypeAtMostFive | build/lib/pgui/entry.py:12-53 | the `w` row types "width"; every glyph has at most 5 characters; letter keys are distinct |
| BuildEntry.TextWithinMaxLengthPlusFour | build/lib/pgui/entry.py:140-148 | with a positive `max_length`, the text stays within `max_length + 4` |
| BuildEntry.WKeyTypesWidth | build/lib/pgui/entry.py:35 | the `w` key, with or without shift, types "width" through `_add_char` |
| BuildEntry.CapOvershoot | build/lib/pgui/entry.py:142-144 | one below the cap, the `w` key takes the text to `max_length + 4` |
| BuildEntry.Cleared | build/lib/pgui/entry.py:245 | `clear` empties the text and changes nothing else |
| BuildEntry.ClearedIdempotent | build/lib/pgui/entry.py:245 | clearing twice is clearing once, and clearing keeps the invariant |
| BuildEntry.Entry.constructor | build/lib/pgui/entry.py:96-138 | the fields equal `Initial` and the offset is 0 |
| BuildEntry.Entry.AddChar | build/lib/pgui/entry.py:140-148 | sets `keypressed` and appends under the cap |
| BuildEntry.Entry.RemoveChar | build/lib/pgui/entry.py:150-153 | sets `keypressed` and drops the last character |
| BuildEntry.Entry.ScanCharacters | build/lib/pgui/entry.py:179-181 | the loop appends `CharGlyphs` under the cap |
| BuildEntry.Entry.ScanLetters | build/lib/pgui/entry.py:182-186 | the loop appends `LetterGlyphs` under the cap |
| BuildEntry.Entry.TypeKeys | build/lib/pgui/entry.py:178-195 | the new fields and the call are those of `KeysTyped` |
| BuildEntry.Entry.Interact | build/lib/pgui/entry.py:178-202 | the new fields and the call are those of `Interacted` |
| BuildEntry.Entry.Blink | build/lib/pgui/entry.py:157-176 | the new fields are those of `Blinked` |
| BuildEntry.Entry.Expire | build/lib/pgui/entry.py:203-205 | the new fields are those of `Expired` |
| BuildEntry.Entry.Focus | build/lib/pgui/entry.py:207-211 | the new fields are those of `Focused` |
| BuildEntry.Entry.Update | build/lib/pgui/entry.py:155-211 | the new fields and the call are those of `Step` |
| BuildEntry.Entry.Clear | build/lib/pgui/entry.py:245 | the new fields are those of `Cleared` |
| BuildEntry.Entry.SetOffset | build/lib/pgui/entry.py:414 | stores the offset and nothing else |
| BuildEntry.Entry.GetText | build/lib/pgui/entry.py:252-254 | returns the text unchanged |
| BuildEntry.Entry.Move | build/lib/pgui/entry.py:461 | only the rect's corner moves |
| SliderLogic.ParseOrientation | pgui/slider.py:27-35 | accepts exactly "vertical" and "horizontal"; anything else halts (SystemExit) |
| SliderLogic.TrackRect | pgui/slider.py:27-31 | the track rect sits at the slider's origin |
| SliderLogic.PointerRect | pgui/slider.py:29-41 | the pointer sits at the origin and is 15 pixels along the axis |
| SliderLogic.WithLead | pgui/slider.py:83-99 | assigning the pointer's axis coordinate keeps its extent |
| SliderLogic.WithCenter | pgui/slider.py:69-71 | centring the pointer on a coordinate keeps its extent |
| SliderLogic.Initial | pgui/slider.py:14-41 | size = length + 15, not dragging, pointer at the start |
| SliderLogic.InitialValid | pgui/slider.py:14-41 | a new slider has the slider's shape |
| SliderLogic.Pressed | pgui/slider.py:64-71 | dragging iff already dragging or pressed on the pointer; a press on the track centres the pointer; nothing else changes |
| SliderLogic.Dragged | pgui/slider.py:74-103 | nothing happens unless dragging; the button up ends the drag; no drag starts here |
| SliderLogic.Updated | pgui/slider.py:59-103 | a frame ends dragging whenever the button is up, and changes only the drag and the pointer |
| SliderLogic.Mark | pgui/slider.py:134-140 | ZeroDivisionError iff the length is 0; otherwise within half a unit of offset / length × max, and even on a tie |
| SliderLogic.WidthSet | pgui/slider.py:194-204 | rebuilds the track with the new width; passes iff the width and size are not negative, and then puts the pointer at the origin with the new width; a raise leaves the pointer where it was |
| SliderLogic.LengthSet | pgui/slider.py:209-218 | updates the length, size = length + 15 and the track, leaving the pointer; passes iff the width and the new size are not negative |
| SliderLogic.MaxSet | pgui/slider.py:206-207 | stores `max` and nothing else |
| SliderLogic.Moved | pgui/slider.py:238-242 | the origin and both rects' corners go to (x, y) |
| SliderLogic.OperationsPreserveValid | pgui/slider.py:59-242 | every operation keeps the slider's shape |
| SliderLogic.MovedIdempotent | pgui/slider.py:238-242 | moving twice equals moving once |
| SliderLogic.ReleaseEndsDrag | pgui/slider.py:86-87 | the button up always ends the drag, and a drag only continues or starts on the pointer |
| SliderLogic.TrackPressCentresPointer | pgui/slider.py:67-71 | a press on the track puts the pointer 7 pixels before the mouse along the axis |
| SliderLogic.SnapToStart | pgui/slider.py:98-100 | a pointer before the start snaps to the start and ends the drag; the mark reads 0 |
| SliderLogic.SnapToEnd | pgui/slider.py:95-97 | a pointer past the end snaps to start + length and ends the drag; the mark reads `max` |
| SliderLogic.DragFollowsMouse | pgui/slider.py:92-94 | within the span the pointer follows the mouse and the drag continues |
| SliderLogic.MarkAtStart | pgui/slider.py:134-137 | the pointer at the origin reads 0 |
| SliderLogic.MoveAndSetWidthResetMark | pgui/slider.py:194-204 | after `move`, or a `set_width` that passes, the mark reads 0 |
| SliderLogic.SetLengthKeepsPointer | pgui/slider.py:209-218 | `set_length` keeps the pointer and the drag |
| SliderLogic.MarkMonotone | pgui/slider.py:134-137 | for a positive length and non-negative max, moving the pointer forward never lowers the mark |
| SliderLogic.TrackPressLeavesSpan | pgui/slider.py:67-71 | a press at the track's start leaves the pointer before the start and the mark negative |
| PguiSlider.Slider.constructor | pgui/slider.py:14-41 | the fields equal `Initial` |
| PguiSlider.Slider.Create | pgui/slider.py:27-37 | fails with SystemExit iff the orientation is rejected, and otherwise with a surface error iff the length is below -15; otherwise a fresh slider in the initial state |
| PguiSlider.Slider.Update | pgui/slider.py:59-103 | the new fields are those of `Updated` |
| PguiSlider.Slider.Press | pgui/slider.py:64-71 | the new fields are those of `Pressed` |
| PguiSlider.Slider.Drag | pgui/slider.py:74-103 | the new fields are those of `Dragged` |
| PguiSlider.Slider.GetMark | pgui/slider.py:134-140 | returns `Mark` |
| PguiSlider.Slider.SetWidth | pgui/slider.py:194-204 | the outcome and new fields are those of `WidthSet` |
| PguiSlider.Slider.SetMax | pgui/slider.py:206-207 | the new fields are those of `MaxSet` |
| PguiSlider.Slider.SetLength | pgui/slider.py:209-218 | the outcome and new fields are those of `LengthSet` |
| PguiSlider.Slider.Move | pgui/slider.py:238-242 | the new fields are those of `Moved` |
| BuildSlider.Slider.constructor | build/lib/pgui/slider.py:19-48 | the fields equal `Initial` |
| BuildSlider.Slider.Create | build/lib/pgui/slider.py:33-44 | fails with SystemExit iff the orientation is rejected, and otherwise with a surface error iff the length is below -15; otherwise a fresh slider in the initial state |
| BuildSlider.Slider.Update | build/lib/pgui/slider.py:68-112 | the new fields are those of `Updated` |
| BuildSlider.Slider.Press | build/lib/pgui/slider.py:73-80 | the new fields are those of `Pressed` |
| BuildSlider.Slider.Drag | build/lib/pgui/slider.py:83-112 | the new fields are those of `Dragged` |
| BuildSlider.Slider.GetMark | build/lib/pgui/slider.py:159-164 | returns `Mark` |
| BuildSlider.Slider.SetWidth | build/lib/pgui/slider.py:431-441 | the outcome and new fields are those of `WidthSet` |
| BuildSlider.Slider.SetMax | build/lib/pgui/slider.py:460 | the new fields are those of `MaxSet` |
| BuildSlider.Slider.SetLength | build/lib/pgui/slider.py:482-490 | the outcome and new fields are those of `LengthSet` |
| BuildSlider.Slider.Move | build/lib/pgui/slider.py:509-513 | the new fields are those of `Moved` |
| ButtonLogic.Darkened | pgui/button.py:97 | the pressed shade is darker than the background on every channel |
| ButtonLogic.DarkenedInRange | pgui/button.py:97 | the shade is a valid colour iff every channel is at least 40; nothing clamps it |
| ButtonLogic.Initial | pgui/button.py:49-77 | a new button is neither pressed nor held, white, with the given rect, `func` and value |
| ButtonLogic.ReleaseEffect | pgui/button.py:112-124 | the release calls `func` iff it is truthy, with `valuetopass` as its only argument iff that is truthy; otherwise it prints "released" |
| ButtonLogic.Updated | pgui/button.py:92-127 | outside the rect nothing happens; inside, `pressed` becomes the button state, a press darkens, the frame releases iff the button is up while pressed, and "pressed" is printed on the holding frame without `func`; the frame raises iff the darkened shade or, on release, the background has a channel outside 0..255, a failed darkening stopping right after `pressed` is set |
| ButtonLogic.InitialValid | pgui/button.py:76-77 | a new button has `holding == pressed` |
| ButtonLogic.UpdatePreservesValid | pgui/button.py:92-124 | every frame that passes keeps `holding == pressed`, every frame keeps `holding` implying `pressed`, and a frame has at most one effect |
| ButtonLogic.DarkBackgroundStopsPress | pgui/button.py:94-98 | a background channel below 40 makes the first press set `pressed`, raise with no effect, and leave the flags unequal |
| ButtonLogic.ReleasesConcat | pgui/button.py:108-124 | releases over consecutive frames add up |
| ButtonLogic.CycleEffects | pgui/button.py:100-124 | one press/release cycle releases exactly once |
| ButtonLogic.CyclesFireOncePerCycle | pgui/button.py:92-127 | with every background channel in 40..255, N press/release cycles inside raise nothing, emit N copies of the cycle's effects, release exactly N times, and leave the button idle |
| ButtonLogic.ReleaseOutsideDefersRelease | pgui/button.py:92-108 | releasing outside keeps the button pressed with no effect, and it releases on a later frame inside with the button up |
| ButtonLogic.FalsyValueCallsWithoutArgument | pgui/button.py:119-124 | a falsy `valuetopass` (None, 0, False, "") makes the call argument-less |
| ButtonLogic.Moved | pgui/button.py:158-161 | only the rect's corner moves |
| ButtonLogic.MovedIdempotent | pgui/button.py:158-161 | moving twice equals moving once |
| ButtonLogic.MovedWhilePressedReleasesThere | pgui/button.py:92-124 | a button moved while pressed releases at its new place |
| PguiButton.Button.constructor | pgui/button.py:49-77 | the fields equal `Initial` |
| PguiButton.Button.Update | pgui/button.py:79-127 | the outcome, the new fields and the effects are those of `Updated` |
| PguiButton.Button.Move | pgui/button.py:158-161 | the new fields are those of `Moved` |
| BuildButton.BorderFor | build/lib/pgui/button.py:66-67 | the border starts `width - 2` before the rect and ends 2 pixels past it |
| BuildButton.Initial | build/lib/pgui/button.py:49-79 | the interaction state is the shared initial one, with border width 5, the border around the rect and the given text |
| BuildButton.Moved | build/lib/pgui/button.py:303-308 | the rect's corner moves and the border is rebuilt around it from the current border width |
| BuildButton.MovedIdempotent | build/lib/pgui/button.py:303-308 | moving twice equals moving once |
| BuildButton.BorderEnclosesRect | build/lib/pgui/button.py:307-308 | after a move the border encloses the rect iff the border width is at least 2 |
| BuildButton.BorderWidthSet | build/lib/pgui/button.py:238 | stores the width only; the border rect is unchanged |
| BuildButton.BorderWidthAppliedByMove | build/lib/pgui/button.py:238 | a new border width reaches the border only at the next `move` |
| BuildButton.LabelSet | build/lib/pgui/button.py:280 | stores the text exactly and nothing else |
| BuildButton.LabelSetLastWins | build/lib/pgui/button.py:280 | the last label set wins, and a move keeps it |
| BuildButton.Button.constructor | build/lib/pgui/button.py:49-79 | the fields equal `Initial` |
| BuildButton.Button.Update | build/lib/pgui/button.py:94-129 | the outcome, the interaction fields and the effects are those of the shared `Updated`; border, width and text are unchanged |
| BuildButton.Button.SetBorderWidth | build/lib/pgui/button.py:238 | the new fields are those of `BorderWidthSet` |
| BuildButton.Button.SetLabel | build/lib/pgui/button.py:280 | the new fields are those of `LabelSet` |
| BuildButton.Button.Move | build/lib/pgui/button.py:303-308 | the new fields are those of `Moved` |

## Left out

- What drawing puts on screen (surface fills, blits, ellipses, lines, borders), fonts, label rendering and label placement: these are rendering calls into pygame. Only whether a drawing call raises is modelled.
- Input polling: every frame's mouse and keyboard state is the `Input` parameter.
- Console output: the button's prints are `PressedNotice`/`ReleasedNotice` effects, and the check-box and slider prints before `SystemExit` are not modelled.
- Callbacks: a call of `func` is recorded (Entry `called`, Button `Call`); what `func` does, and any exception it raises, is not modelled.
- The check rect of both check boxes (`size / 4` float geometry), and the Entry's cursor and border rects: float geometry used only for drawing.
- The Entry `move` border recomputation and the Entry `set_font_size` rect rebuild: float geometry, and `set_font_size` reads an unset `pos`.
- PguiEntry.Entry.Move: the `x`, `y` and `pos` fields it writes are never read; only the rect is modelled. The same holds for the Button `move` in both revisions.
- BuildEntry `get_offset` and BuildSlider `set_label_alignment`: both fail on a name that is never defined.
- PguiButton.Button.Update: after the modelled part, `update` blits `_label`, which `__init__` never sets, so the frame raises AttributeError after its state changes and callback. The method models the state changes, the callback and the earlier `fill` raises only.
- Font and colour setters other than the `pgui` check box `set_font_color`: they only feed drawing. The colours of the Entry, of the Button's border and label, of the packaged check box, and the Slider's background, pointer, pointer-border, border and font colours are outside the state, and are assumed drawable. A Slider colour that cannot be drawn makes `update` raise only after its drag state has changed, so the modelled state changes stand.
- PguiCheckBox.CheckBox.constructor: a negative size makes `pg.Surface` raise in `__init__`; the constructor builds a box for every integer size.
- BuildCheckBox.CheckBox.constructor: a negative size makes `pg.Surface` raise in `__init__`; the constructor builds a box for every integer size.
- PguiEntry.Entry.constructor: a negative width or size makes `pg.Surface` raise in `__init__`; the constructor builds an entry for every integer.
- BuildEntry.Entry.constructor: a negative width or size makes `pg.Surface` raise in `__init__`; the constructor builds an entry for every integer.
- PguiButton.Button.constructor: a negative width or height makes `pg.Surface` raise in `__init__`; the constructor builds a button for every integer.
- BuildButton.Button.constructor: a negative width or height makes `pg.Surface` raise in `__init__`; the constructor builds a button for every integer.
- PguiSlider.Slider.constructor: it builds a slider for every length; `PguiSlider.Slider.Create` is the modelled `__init__`, and it fails for a length below -15.
- BuildSlider.Slider.constructor: it builds a slider for every length; `BuildSlider.Slider.Create` is the modelled `__init__`, and it fails for a length below -15.
- Slider.Mark: computed on the exact quotient; floating-point rounding error of `(offset / length) * max` is not modelled.
- Slider: a non-int length or max, and the error a non-number raises, are not modelled; length, max and width are integers.
- Slider: the constructor's and setters' `pointer` surfaces are drawing; only `prect`, and the raise of a surface with a negative size, are modelled.
- EntryLogic.State: `max_length` is an integer; a non-int `max_length`, and `text` assigned directly as a non-str, are not modelled.
- ButtonLogic.State: the background colour is an integer RGB triple; a `bg_color` that is not a tuple of numbers, which would raise when darkened, is not modelled.
- BuildCheckBox.BorderWidthSet: the width is an integer; a non-int width, which `set_style("circle")` would then fail to increment, is not modelled.
- BuildCheckBox and BuildButton: public attributes assigned directly rather than through a setter are not validated by the source and are outside this model's state.
- Non-widget files (examples, setup, upload, test scripts): not part of the widget state machines.
