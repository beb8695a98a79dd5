/** The per-frame logic both Entry revisions share (pgui/entry.py and
    build/lib/pgui/entry.py): the capped append, the key-table scan, the cursor
    blink counter, the key-repeat governor and the focus rule. The two revisions
    differ in their letter tables, which are parameters here. */
module EntryLogic {
  import opened PyValues
  import opened Pygame

  /** A row of `_characters`: a key and the text it types. */
  datatype CharRow = CharRow(key: Key, glyph: string)

  /** A row of `_letters`: a key, the text it types without shift and with shift. */
  datatype LetterRow = LetterRow(key: Key, lower: string, upper: string)

  /** The interaction fields of an Entry. */
  datatype State = State(
    text: string,
    maxLength: int,
    c: int,
    cc: int,
    typeCooldown: int,
    typing: bool,
    keypressed: bool,
    pressing: bool,
    rect: Rect,
    func: PyValue)

  /** A frame's new state, and whether it called `func`. */
  datatype Frame = Frame(after: State, called: bool)

  /** `__init__`: empty text, blink counter at 0 rising, no focus. The rect's height
      is `size + size / 4` truncated, as pygame truncates a float coordinate. */
  function Initial(x: int, y: int, w: int, size: int, func: PyValue, maxLength: int): (s: State)
    ensures s.text == "" && !s.typing && !s.keypressed && s.c == 0 && s.cc == 1 && s.typeCooldown == 0
    ensures s.rect.x == x && s.rect.y == y && s.rect.w == w
  {
    State("", maxLength, 0, 1, 0, false, false, false, Rect(x, y, w, size + Quarter(size)), func)
  }

  // ---------------------------------------------------------------- text buffer

  /** `_add_char`'s effect on the text: a non-zero `max_length` caps appending at
      texts shorter than it; zero means no limit. The whole glyph is appended. */
  function AddChar(text: string, maxLength: int, g: string): (r: string)
    ensures maxLength != 0 && |text| >= maxLength ==> r == text
    ensures (maxLength == 0 || |text| < maxLength) ==> r == text + g
  {
    if maxLength != 0 then (if |text| < maxLength then text + g else text) else text + g
  }

  /** `_remove_char`'s effect on the text, `text[:-1]`: the last character goes, and
      the empty text stays empty. */
  function RemoveLast(text: string): (r: string)
    ensures text == [] ==> r == []
    ensures text != [] ==> r + [text[|text| - 1]] == text
  {
    if text == [] then text else text[..|text| - 1]
  }

  /** The text after `_add_char` of each glyph in turn. */
  function AppendAll(text: string, maxLength: int, glyphs: seq<string>): (r: string)
    ensures text <= r
    decreases |glyphs|
  {
    if glyphs == [] then text
    else
      var t := AppendAll(text, maxLength, glyphs[..|glyphs| - 1]);
      assert t <= t + glyphs[|glyphs| - 1];
      AddChar(t, maxLength, glyphs[|glyphs| - 1])
  }

  /** The glyphs of a sequence, joined. */
  function Concat(glyphs: seq<string>): (r: string)
    ensures glyphs == [] ==> r == []
    decreases |glyphs|
  {
    if glyphs == [] then [] else Concat(glyphs[..|glyphs| - 1]) + glyphs[|glyphs| - 1]
  }

  /** Appending one more glyph is one more `_add_char`. */
  lemma AppendAllSnoc(text: string, maxLength: int, glyphs: seq<string>, g: string)
    ensures AppendAll(text, maxLength, glyphs + [g]) == AddChar(AppendAll(text, maxLength, glyphs), maxLength, g)
  {
    assert (glyphs + [g])[..|glyphs|] == glyphs;
  }

  /** Appending two runs of glyphs is appending their concatenation. */
  lemma {:induction false} AppendAllConcat(text: string, maxLength: int, a: seq<string>, b: seq<string>)
    ensures AppendAll(text, maxLength, a + b) == AppendAll(AppendAll(text, maxLength, a), maxLength, b)
    decreases |b|
  {
    if b == [] {
      assert a + b == a;
    } else {
      var b' := b[..|b| - 1];
      assert (a + b)[..|a + b| - 1] == a + b';
      assert (a + b)[|a + b| - 1] == b[|b| - 1];
      AppendAllConcat(text, maxLength, a, b');
    }
  }

  /** With no limit (`max_length == 0`), every glyph is appended in full. */
  lemma {:induction false} UncappedAppendsAll(text: string, glyphs: seq<string>)
    ensures AppendAll(text, 0, glyphs) == text + Concat(glyphs)
    decreases |glyphs|
  {
    if glyphs != [] {
      UncappedAppendsAll(text, glyphs[..|glyphs| - 1]);
    }
  }

  /** With a positive limit and glyphs of at most `k` characters, a text within
      `max_length + k - 1` stays within it. */
  lemma {:induction false} AppendAllBound(text: string, maxLength: int, glyphs: seq<string>, k: nat)
    requires maxLength > 0 && |text| <= maxLength + k - 1
    requires forall i :: 0 <= i < |glyphs| ==> |glyphs[i]| <= k
    ensures |AppendAll(text, maxLength, glyphs)| <= maxLength + k - 1
    decreases |glyphs|
  {
    if glyphs != [] {
      AppendAllBound(text, maxLength, glyphs[..|glyphs| - 1], k);
    }
  }

  // ---------------------------------------------------------------- key tables

  /** A shift key is held. */
  predicate Shifted(keys: set<Key>)
  {
    LShift in keys || RShift in keys
  }

  /** The glyph a letter row types: the shifted one while a shift key is held. */
  function LetterGlyph(row: LetterRow, shifted: bool): string
  {
    if shifted then row.upper else row.lower
  }

  /** The scan of `_characters`: the glyph of every held key, in table order. */
  function CharGlyphs(rows: seq<CharRow>, keys: set<Key>): (r: seq<string>)
    ensures |r| <= |rows|
    ensures (forall i :: 0 <= i < |rows| ==> rows[i].key !in keys) ==> r == []
    decreases |rows|
  {
    if rows == [] then []
    else
      var last := rows[|rows| - 1];
      CharGlyphs(rows[..|rows| - 1], keys) + (if last.key in keys then [last.glyph] else [])
  }

  /** The scan of `_letters`: the glyph of every held key, in table order, shifted
      or not. */
  function LetterGlyphs(rows: seq<LetterRow>, keys: set<Key>, shifted: bool): (r: seq<string>)
    ensures |r| <= |rows|
    ensures (forall i :: 0 <= i < |rows| ==> rows[i].key !in keys) ==> r == []
    decreases |rows|
  {
    if rows == [] then []
    else
      var last := rows[|rows| - 1];
      LetterGlyphs(rows[..|rows| - 1], keys, shifted) + (if last.key in keys then [LetterGlyph(last, shifted)] else [])
  }

  /** Scanning one more row of `_characters` adds that row's glyph if its key is held. */
  lemma CharGlyphsNext(rows: seq<CharRow>, keys: set<Key>, i: nat)
    requires i < |rows|
    ensures CharGlyphs(rows[..i + 1], keys) ==
      CharGlyphs(rows[..i], keys) + (if rows[i].key in keys then [rows[i].glyph] else [])
  {
    assert rows[..i + 1][..i] == rows[..i];
  }

  /** Scanning one more row of `_letters` adds that row's glyph if its key is held. */
  lemma LetterGlyphsNext(rows: seq<LetterRow>, keys: set<Key>, shifted: bool, i: nat)
    requires i < |rows|
    ensures LetterGlyphs(rows[..i + 1], keys, shifted) ==
      LetterGlyphs(rows[..i], keys, shifted) + (if rows[i].key in keys then [LetterGlyph(rows[i], shifted)] else [])
  {
    assert rows[..i + 1][..i] == rows[..i];
  }

  /** Every glyph of a character table has at most `k` characters. */
  predicate CharsWithin(rows: seq<CharRow>, k: nat)
  {
    forall i :: 0 <= i < |rows| ==> |rows[i].glyph| <= k
  }

  /** Every glyph of a letter table, shifted or not, has at most `k` characters. */
  predicate LettersWithin(rows: seq<LetterRow>, k: nat)
  {
    forall i :: 0 <= i < |rows| ==> |rows[i].lower| <= k && |rows[i].upper| <= k
  }

  lemma {:induction false} CharGlyphsWithin(rows: seq<CharRow>, keys: set<Key>, k: nat)
    requires CharsWithin(rows, k)
    ensures forall i :: 0 <= i < |CharGlyphs(rows, keys)| ==> |CharGlyphs(rows, keys)[i]| <= k
    decreases |rows|
  {
    if rows != [] {
      CharGlyphsWithin(rows[..|rows| - 1], keys, k);
    }
  }

  lemma {:induction false} LetterGlyphsWithin(rows: seq<LetterRow>, keys: set<Key>, shifted: bool, k: nat)
    requires LettersWithin(rows, k)
    ensures forall i :: 0 <= i < |LetterGlyphs(rows, keys, shifted)| ==> |LetterGlyphs(rows, keys, shifted)[i]| <= k
    decreases |rows|
  {
    if rows != [] {
      LetterGlyphsWithin(rows[..|rows| - 1], keys, shifted, k);
    }
  }

  /** No two rows of a letter table share a key. */
  predicate DistinctLetterKeys(rows: seq<LetterRow>)
  {
    forall i, j :: 0 <= i < j < |rows| ==> rows[i].key != rows[j].key
  }

  /** With only one table key held, the letter scan types that row's glyph once. */
  lemma {:induction false} SingleLetterKey(rows: seq<LetterRow>, keys: set<Key>, shifted: bool, i: nat)
    requires DistinctLetterKeys(rows) && i < |rows|
    requires forall j :: 0 <= j < |rows| ==> (rows[j].key in keys <==> j == i)
    ensures LetterGlyphs(rows, keys, shifted) == [LetterGlyph(rows[i], shifted)]
    decreases |rows|
  {
    var front := rows[..|rows| - 1];
    if i == |rows| - 1 {
      assert LetterGlyphs(front, keys, shifted) == [];
    } else {
      SingleLetterKey(front, keys, shifted, i);
    }
  }

  // ---------------------------------------------------------------- cursor blink

  /** The blink counter and its direction. */
  datatype Blink = Blink(c: int, cc: int)

  predicate BlinkValid(b: Blink)
  {
    0 <= b.c <= 100 && (b.cc == 1 || b.cc == -1)
  }

  /** One frame of the blink counter: rise to 100, fall to 0, and reverse on the
      frame after an extreme is reached. */
  function BlinkStep(b: Blink): (r: Blink)
    ensures BlinkValid(b) ==> BlinkValid(r)
    ensures BlinkValid(b) ==> (r.cc != b.cc <==> (b.cc == 1 && b.c == 100) || (b.cc == -1 && b.c == 0))
    ensures BlinkValid(b) ==> r.c == b.c + (if r.cc == b.cc then b.cc else 0)
  {
    if b.c < 100 && b.cc == 1 then Blink(b.c + b.cc, b.cc)
    else if b.c > 0 && b.cc == -1 then Blink(b.c + b.cc, b.cc)
    else Blink(b.c, -b.cc)
  }

  /** The blink counter after n frames. */
  function BlinkIter(b: Blink, n: nat): Blink
  {
    if n == 0 then b else BlinkStep(BlinkIter(b, n - 1))
  }

  lemma {:induction false} BlinkIterAdd(b: Blink, m: nat, n: nat)
    ensures BlinkIter(b, m + n) == BlinkIter(BlinkIter(b, m), n)
    decreases n
  {
    if n > 0 {
      BlinkIterAdd(b, m, n - 1);
    }
  }

  /** From the initial counter, the first 100 frames count up one by one. */
  lemma {:induction false} BlinkRisesFromZero(n: nat)
    requires n <= 100
    ensures BlinkIter(Blink(0, 1), n) == Blink(n, 1)
    decreases n
  {
    if n > 0 {
      BlinkRisesFromZero(n - 1);
    }
  }

  /** After turning at the top, the next 100 frames count down one by one. */
  lemma {:induction false} BlinkFallsFromTop(n: nat)
    requires n <= 100
    ensures BlinkIter(Blink(100, -1), n) == Blink(100 - n, -1)
    decreases n
  {
    if n > 0 {
      BlinkFallsFromTop(n - 1);
    }
  }

  /** The blink counter is a triangle wave with period 202 frames. */
  lemma BlinkPeriod(n: nat)
    ensures BlinkIter(Blink(0, 1), n + 202) == BlinkIter(Blink(0, 1), n)
  {
    var init := Blink(0, 1);
    BlinkRisesFromZero(100);
    assert BlinkIter(init, 101) == Blink(100, -1);
    BlinkFallsFromTop(100);
    BlinkIterAdd(init, 101, 100);
    assert BlinkIter(init, 201) == Blink(0, -1);
    assert BlinkIter(init, 202) == init;
    BlinkIterAdd(init, 202, n);
  }

  // ---------------------------------------------------------------- one frame

  /** The glyphs a frame types, digits and space before letters. */
  function TypedGlyphs(chars: seq<CharRow>, letters: seq<LetterRow>, keys: set<Key>): seq<string>
  {
    CharGlyphs(chars, keys) + LetterGlyphs(letters, keys, Shifted(keys))
  }

  /** The typing branch (`typing and not keypressed`): the held keys' glyphs are
      appended, then backspace removes one character, then return calls `func` if
      it is truthy and otherwise ends typing. Any of these sets `keypressed`. */
  function KeysTyped(s: State, chars: seq<CharRow>, letters: seq<LetterRow>, keys: set<Key>): (f: Frame)
    ensures f.called <==> Return in keys && Truthy(s.func)
    // the held keys' glyphs under the cap, then one character less with backspace held
    ensures var typed := AppendAll(s.text, s.maxLength, TypedGlyphs(chars, letters, keys));
      f.after.text == if Backspace in keys then RemoveLast(typed) else typed
    ensures f.after.typing == (s.typing && !(Return in keys && !Truthy(s.func)))
    ensures s.keypressed || Backspace in keys || Return in keys ==> f.after.keypressed
    ensures f.after.(text := s.text, typing := s.typing, keypressed := s.keypressed) == s
  {
    var glyphs := TypedGlyphs(chars, letters, keys);
    var text := AppendAll(s.text, s.maxLength, glyphs);
    var text := if Backspace in keys then RemoveLast(text) else text;
    var keypressed := s.keypressed || glyphs != [] || Backspace in keys || Return in keys;
    var typing := if Return in keys && !Truthy(s.func) then false else s.typing;
    Frame(s.(text := text, keypressed := keypressed, typing := typing), Return in keys && Truthy(s.func))
  }

  /** The typing branch marks a key as handled exactly when a table key, backspace
      or return is held. */
  lemma KeysTypedMarksKey(s: State, chars: seq<CharRow>, letters: seq<LetterRow>, keys: set<Key>)
    requires !s.keypressed
    ensures KeysTyped(s, chars, letters, keys).after.keypressed <==>
      (exists i :: 0 <= i < |chars| && chars[i].key in keys) || (exists i :: 0 <= i < |letters| && letters[i].key in keys)
      || Backspace in keys || Return in keys
  {
    if exists i :: 0 <= i < |chars| && chars[i].key in keys {
      var i :| 0 <= i < |chars| && chars[i].key in keys;
      CharGlyphsHeld(chars, keys, i);
    }
    if exists i :: 0 <= i < |letters| && letters[i].key in keys {
      var i :| 0 <= i < |letters| && letters[i].key in keys;
      LetterGlyphsHeld(letters, keys, Shifted(keys), i);
    }
  }

  /** A held table key always contributes a glyph to the character scan. */
  lemma {:induction false} CharGlyphsHeld(rows: seq<CharRow>, keys: set<Key>, i: nat)
    requires i < |rows| && rows[i].key in keys
    ensures CharGlyphs(rows, keys) != []
    decreases |rows|
  {
    if i < |rows| - 1 {
      CharGlyphsHeld(rows[..|rows| - 1], keys, i);
    }
  }

  /** A held table key always contributes a glyph to the letter scan. */
  lemma {:induction false} LetterGlyphsHeld(rows: seq<LetterRow>, keys: set<Key>, shifted: bool, i: nat)
    requires i < |rows| && rows[i].key in keys
    ensures LetterGlyphs(rows, keys, shifted) != []
    decreases |rows|
  {
    if i < |rows| - 1 {
      LetterGlyphsHeld(rows[..|rows| - 1], keys, shifted, i);
    }
  }

  /** With one letter-table key held, besides shift, while typing with no key
      handled, the frame types that row's glyph once under the cap. */
  lemma OneTableKey(s: State, chars: seq<CharRow>, letters: seq<LetterRow>, inp: Input, i: nat)
    requires s.typing && !s.keypressed
    requires DistinctLetterKeys(letters) && i < |letters|
    requires forall j :: 0 <= j < |letters| ==> (letters[j].key in inp.keys <==> j == i)
    requires forall j :: 0 <= j < |chars| ==> chars[j].key !in inp.keys
    requires Backspace !in inp.keys
    ensures Step(s, chars, letters, inp).after.text == AddChar(s.text, s.maxLength, LetterGlyph(letters[i], Shifted(inp.keys)))
  {
    var keys := inp.keys;
    SingleLetterKey(letters, keys, Shifted(keys), i);
    assert TypedGlyphs(chars, letters, keys) == [LetterGlyph(letters[i], Shifted(keys))];
    AppendAllSnoc(s.text, s.maxLength, [], LetterGlyph(letters[i], Shifted(keys)));
  }

  /** The repeat governor while typing with a key already handled: with a key held
      after 30 frames the next key is let through; otherwise the cooldown counts. */
  function Governed(s: State): (r: State)
    ensures r.(keypressed := s.keypressed, typeCooldown := s.typeCooldown) == s
    ensures s.typeCooldown >= 30 && s.pressing ==> !r.keypressed && r.typeCooldown == 0
    ensures !(s.typeCooldown >= 30 && s.pressing) ==>
      r.keypressed == s.keypressed && r.typeCooldown == s.typeCooldown + 1
  {
    if s.typeCooldown >= 30 && s.pressing then s.(keypressed := false, typeCooldown := 0)
    else s.(typeCooldown := s.typeCooldown + 1)
  }

  /** After 60 frames with no key held, the governor resets, typing or not. */
  function Expired(s: State): (r: State)
    ensures r.(keypressed := s.keypressed, typeCooldown := s.typeCooldown) == s
  {
    if s.typeCooldown >= 60 && !s.pressing then s.(keypressed := false, typeCooldown := 0) else s
  }

  /** The start of a frame: one blink step, and `pressing` set when any key at all
      is held. */
  function Blinked(s: State, keys: set<Key>): (r: State)
    ensures Blink(r.c, r.cc) == BlinkStep(Blink(s.c, s.cc)) && (r.pressing <==> keys != {})
    ensures r.(c := s.c, cc := s.cc, pressing := s.pressing) == s
  {
    var b := BlinkStep(Blink(s.c, s.cc));
    s.(c := b.c, cc := b.cc, pressing := keys != {})
  }

  /** The typing branch when typing with no key handled yet, the governor when
      typing with one handled, and nothing when not typing. */
  function Interacted(s: State, chars: seq<CharRow>, letters: seq<LetterRow>, keys: set<Key>): (f: Frame)
    ensures !s.typing ==> f == Frame(s, false)
    ensures s.typing && s.keypressed ==> f == Frame(Governed(s), false)
  {
    if s.typing && !s.keypressed then KeysTyped(s, chars, letters, keys)
    else if s.typing && s.keypressed then Frame(Governed(s), false)
    else Frame(s, false)
  }

  /** A primary press focuses the entry when over its rect and unfocuses it elsewhere. */
  function Focused(s: State, inp: Input): (r: State)
    ensures inp.primary ==> r == s.(typing := Contains(s.rect, inp.mx, inp.my))
    ensures !inp.primary ==> r == s
  {
    if inp.primary then s.(typing := Contains(s.rect, inp.mx, inp.my)) else s
  }

  /** `update`, without the drawing, in the source's order: blink, `pressing`,
      the typing branch or the governor, the 60-frame reset, the focus rule. */
  function Step(s: State, chars: seq<CharRow>, letters: seq<LetterRow>, inp: Input): (f: Frame)
    ensures inp.primary ==> f.after.typing == Contains(s.rect, inp.mx, inp.my)
    ensures f.after.pressing <==> inp.keys != {}
    ensures f.called <==> s.typing && !s.keypressed && Return in inp.keys && Truthy(s.func)
    ensures !(s.typing && !s.keypressed) ==> f.after.text == s.text
    ensures f.after.rect == s.rect && f.after.maxLength == s.maxLength && f.after.func == s.func
  {
    var typed := Interacted(Blinked(s, inp.keys), chars, letters, inp.keys);
    Frame(Focused(Expired(typed.after), inp), typed.called)
  }

  /** The invariant an Entry keeps between frames, for tables whose glyphs have at
      most `k` characters. */
  ghost predicate Valid(s: State, k: nat)
  {
    && BlinkValid(Blink(s.c, s.cc))
    && 0 <= s.typeCooldown < 60
    && (s.maxLength > 0 ==> |s.text| <= s.maxLength + k - 1)
  }

  lemma InitialValid(x: int, y: int, w: int, size: int, func: PyValue, maxLength: int, k: nat)
    requires k >= 1
    ensures Valid(Initial(x, y, w, size, func, maxLength), k)
  {
  }

  /** Every frame keeps the invariant: the blink counter in 0..100 with direction
      1 or -1, the cooldown in 0..59, and a capped text within the cap plus the
      longest glyph's overhang. */
  lemma StepPreservesValid(s: State, chars: seq<CharRow>, letters: seq<LetterRow>, inp: Input, k: nat)
    requires Valid(s, k) && k >= 1
    requires CharsWithin(chars, k) && LettersWithin(letters, k)
    ensures Valid(Step(s, chars, letters, inp).after, k)
  {
    if s.typing && !s.keypressed && s.maxLength > 0 {
      var keys := inp.keys;
      var glyphs := TypedGlyphs(chars, letters, keys);
      CharGlyphsWithin(chars, keys, k);
      LetterGlyphsWithin(letters, keys, Shifted(keys), k);
      assert forall i :: 0 <= i < |glyphs| ==> |glyphs[i]| <= k;
      AppendAllBound(s.text, s.maxLength, glyphs, k);
    }
  }

  /** While typing with a key already handled, a key held after at least 30 frames
      lets the next key through at once. */
  lemma GovernorReleasesHeldKey(s: State, chars: seq<CharRow>, letters: seq<LetterRow>, inp: Input)
    requires s.typing && s.keypressed && s.typeCooldown >= 30 && inp.keys != {}
    ensures !Step(s, chars, letters, inp).after.keypressed
    ensures Step(s, chars, letters, inp).after.typeCooldown == 0
  {
  }

  /** While typing with a key already handled, a key held before 30 frames have
      passed keeps the key handled and counts the cooldown up by one. */
  lemma GovernorCountsWhileHeld(s: State, chars: seq<CharRow>, letters: seq<LetterRow>, inp: Input)
    requires s.typing && s.keypressed && 0 <= s.typeCooldown < 30 && inp.keys != {}
    ensures var t := Step(s, chars, letters, inp).after;
      t.keypressed && t.typeCooldown == s.typeCooldown + 1
  {
  }

  /** The state after `n` frames with the same input. */
  function Held(s: State, chars: seq<CharRow>, letters: seq<LetterRow>, inp: Input, n: nat): State
    decreases n
  {
    if n == 0 then s else Held(Step(s, chars, letters, inp).after, chars, letters, inp, n - 1)
  }

  /** Holding a key (with no mouse press) while typing with a key handled lets the
      next key through after exactly 31 - cooldown frames: the cooldown counts up
      to 30 and the frame after that frees the key. */
  lemma {:induction false} HeldKeyIsReleased(s: State, chars: seq<CharRow>, letters: seq<LetterRow>, inp: Input)
    requires s.typing && s.keypressed && 0 <= s.typeCooldown <= 30
    requires inp.keys != {} && !inp.primary
    ensures var t := Held(s, chars, letters, inp, 31 - s.typeCooldown);
      t.typing && !t.keypressed && t.typeCooldown == 0
    decreases 30 - s.typeCooldown
  {
    var t1 := Step(s, chars, letters, inp).after;
    if s.typeCooldown == 30 {
      GovernorReleasesHeldKey(s, chars, letters, inp);
      assert Held(t1, chars, letters, inp, 0) == t1;
    } else {
      GovernorCountsWhileHeld(s, chars, letters, inp);
      assert t1.typing;
      HeldKeyIsReleased(t1, chars, letters, inp);
    }
  }

  /** With no key held, the cooldown counts up and resets on reaching 60. */
  lemma GovernorExpires(s: State, chars: seq<CharRow>, letters: seq<LetterRow>, inp: Input)
    requires s.typing && s.keypressed && 0 <= s.typeCooldown < 60 && inp.keys == {}
    ensures var t := Step(s, chars, letters, inp).after;
      if s.typeCooldown == 59 then !t.keypressed && t.typeCooldown == 0
      else t.keypressed && t.typeCooldown == s.typeCooldown + 1
  {
  }

  /** Return with a truthy `func` calls it and keeps typing (unless the same frame's
      press lands outside); without one, typing ends. */
  lemma ReturnKey(s: State, chars: seq<CharRow>, letters: seq<LetterRow>, inp: Input)
    requires s.typing && !s.keypressed && Return in inp.keys && !inp.primary
    ensures Step(s, chars, letters, inp).called <==> Truthy(s.func)
    ensures Step(s, chars, letters, inp).after.typing <==> Truthy(s.func)
    ensures Step(s, chars, letters, inp).after.keypressed
  {
  }

  /** On a typing frame, the text is the held keys' glyphs appended under the cap,
      digits and space first, then letters, then one character removed if
      backspace is held. */
  lemma TypingFrameText(s: State, chars: seq<CharRow>, letters: seq<LetterRow>, inp: Input)
    requires s.typing && !s.keypressed
    ensures var typed := AppendAll(AppendAll(s.text, s.maxLength, CharGlyphs(chars, inp.keys)), s.maxLength,
                                   LetterGlyphs(letters, inp.keys, Shifted(inp.keys)));
      Step(s, chars, letters, inp).after.text == if Backspace in inp.keys then RemoveLast(typed) else typed
  {
    AppendAllConcat(s.text, s.maxLength, CharGlyphs(chars, inp.keys), LetterGlyphs(letters, inp.keys, Shifted(inp.keys)));
  }
}
