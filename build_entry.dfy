/** The text entry of build/lib/pgui/entry.py: its key tables, whose `K_w` row
    types "width", and an `Entry` class with a scroll `offset`, `clear` and
    `set_offset`. */
module BuildEntry {
  import opened PyValues
  import opened Pygame
  import opened EntryLogic

  /** `_characters`: space, then the digits 0 to 9, each typing itself. */
  const Characters: seq<CharRow> :=
    [CharRow(Space, " ")] + seq(10, i requires 0 <= i < 10 => CharRow(Digit(i), [(48 + i) as char]))

  /** `_letters`: a to z, typing the lower-case letter, or the upper-case one with
      shift, except that `K_w` (row 22) types "width" either way. */
  const Letters: seq<LetterRow> :=
    seq(26, i requires 0 <= i < 26 =>
      if i == 22 then LetterRow(Letter('w'), "width", "width")
      else LetterRow(Letter((97 + i) as char), [(97 + i) as char], [(65 + i) as char]))

  /** Every table entry types at most five characters, and no key is listed twice. */
  lemma TablesTypeAtMostFive()
    ensures |Characters| == 11 && |Letters| == 26
    ensures Letters[22] == LetterRow(Letter('w'), "width", "width")
    ensures CharsWithin(Characters, 5) && LettersWithin(Letters, 5) && DistinctLetterKeys(Letters)
  {
    assert forall i :: 0 <= i < |Letters| ==> Letters[i].key == Letter((97 + i) as char);
  }

  /** With a positive `max_length`, every frame keeps the text within it plus four:
      the cap is checked before a glyph is appended, not after. */
  lemma TextWithinMaxLengthPlusFour(s: State, inp: Input)
    requires Valid(s, 5) && s.maxLength > 0
    ensures |Step(s, Characters, Letters, inp).after.text| <= s.maxLength + 4
    ensures Valid(Step(s, Characters, Letters, inp).after, 5)
  {
    TablesTypeAtMostFive();
    StepPreservesValid(s, Characters, Letters, inp, 5);
  }

  /** The `w` key, shifted or not, types "width" as one glyph. */
  lemma WKeyTypesWidth(s: State, shift: set<Key>, inp: Input)
    requires shift <= {LShift, RShift}
    requires s.typing && !s.keypressed
    requires inp.keys == {Letter('w')} + shift
    ensures Step(s, Characters, Letters, inp).after.text == AddChar(s.text, s.maxLength, "width")
  {
    TablesTypeAtMostFive();
    assert forall j :: 0 <= j < |Characters| ==> Characters[j].key !in inp.keys;
    assert forall j :: 0 <= j < |Letters| ==> (Letters[j].key in inp.keys <==> j == 22) by {
      forall j | 0 <= j < |Letters|
        ensures Letters[j].key in inp.keys <==> j == 22
      {
        assert Letters[j].key == Letter((97 + j) as char);
      }
    }
    OneTableKey(s, Characters, Letters, inp, 22);
  }

  /** The cap is overshot: one `w` keystroke one character below the cap leaves the
      text four characters over it. */
  lemma CapOvershoot(s: State, inp: Input)
    requires s.typing && !s.keypressed && s.maxLength > 0 && |s.text| == s.maxLength - 1
    requires inp.keys == {Letter('w')}
    ensures |Step(s, Characters, Letters, inp).after.text| == s.maxLength + 4
  {
    WKeyTypesWidth(s, {}, inp);
  }

  /** `clear`'s effect on the state. */
  function Cleared(s: State): (r: State)
    ensures r.text == [] && r.(text := s.text) == s
  {
    s.(text := "")
  }

  /** Clearing twice is clearing once, and a cleared entry keeps the invariant. */
  lemma ClearedIdempotent(s: State, k: nat)
    ensures Cleared(Cleared(s)) == Cleared(s)
    ensures Valid(s, k) ==> Valid(Cleared(s), k)
  {
  }

  class Entry {
    var text: string
    var maxLength: int
    var c: int
    var cc: int
    var typeCooldown: int
    var typing: bool
    var keypressed: bool
    var pressing: bool
    var rect: Rect
    var func: PyValue
    /** The key tables `update` scans: the module's `_characters` and `_letters`. */
    const characters: seq<CharRow>
    const letters: seq<LetterRow>
    var offset: int

    function Snapshot(): State
      reads this
    {
      State(text, maxLength, c, cc, typeCooldown, typing, keypressed, pressing, rect, func)
    }

    constructor (x: int, y: int, w: int, size: int, func0: PyValue, maxLength0: int)
      ensures characters == Characters && letters == Letters
      ensures Snapshot() == Initial(x, y, w, size, func0, maxLength0) && offset == 0
    {
      characters, letters := Characters, Letters;
      rect := Rect(x, y, w, size + Quarter(size));
      c, cc, typeCooldown := 0, 1, 0;
      text := "";
      func := func0;
      typing, keypressed, pressing := false, false, false;
      maxLength := maxLength0;
      offset := 0;
    }

    /** `_add_char`. */
    method AddChar(g: string)
      modifies this
      ensures Snapshot() == old(Snapshot()).(text := EntryLogic.AddChar(old(text), maxLength, g), keypressed := true)
      ensures offset == old(offset)
    {
      keypressed := true;
      if maxLength != 0 {
        if |text| < maxLength {
          text := text + g;
        }
      } else {
        text := text + g;
      }
    }

    /** `_remove_char`. */
    method RemoveChar()
      modifies this
      ensures Snapshot() == old(Snapshot()).(text := RemoveLast(old(text)), keypressed := true)
      ensures offset == old(offset)
    {
      keypressed := true;
      if text != [] {
        text := text[..|text| - 1];
      }
    }

    /** The `_characters` loop of `update`: each held key's glyph, in table order. */
    method ScanCharacters(keys: set<Key>)
      modifies this
      ensures Snapshot() == old(Snapshot()).(text := AppendAll(old(text), maxLength, CharGlyphs(characters, keys)),
                                             keypressed := old(keypressed) || CharGlyphs(characters, keys) != [])
      ensures offset == old(offset)
    {
      ghost var s0 := Snapshot();
      var i := 0;
      while i < |characters|
        invariant 0 <= i <= |characters|
        invariant offset == old(offset)
        invariant Snapshot() == s0.(text := AppendAll(s0.text, maxLength, CharGlyphs(characters[..i], keys)),
                                    keypressed := s0.keypressed || CharGlyphs(characters[..i], keys) != [])
      {
        CharGlyphsNext(characters, keys, i);
        ghost var gs := CharGlyphs(characters[..i], keys);
        if characters[i].key in keys {
          AppendAllSnoc(s0.text, maxLength, gs, characters[i].glyph);
          assert CharGlyphs(characters[..i + 1], keys) == gs + [characters[i].glyph];
          AddChar(characters[i].glyph);
        } else {
          assert CharGlyphs(characters[..i + 1], keys) == gs;
        }
        i := i + 1;
      }
      assert characters[..i] == characters;
    }

    /** The `_letters` loop of `update`: each held key's glyph, in table order,
        shifted while a shift key is held. */
    method ScanLetters(keys: set<Key>)
      modifies this
      ensures Snapshot() == old(Snapshot()).(text := AppendAll(old(text), maxLength, LetterGlyphs(letters, keys, Shifted(keys))),
                                             keypressed := old(keypressed) || LetterGlyphs(letters, keys, Shifted(keys)) != [])
      ensures offset == old(offset)
    {
      ghost var s0 := Snapshot();
      var shifted := LShift in keys || RShift in keys;
      var j := 0;
      while j < |letters|
        invariant 0 <= j <= |letters|
        invariant offset == old(offset)
        invariant Snapshot() == s0.(text := AppendAll(s0.text, maxLength, LetterGlyphs(letters[..j], keys, shifted)),
                                    keypressed := s0.keypressed || LetterGlyphs(letters[..j], keys, shifted) != [])
      {
        LetterGlyphsNext(letters, keys, shifted, j);
        ghost var gs := LetterGlyphs(letters[..j], keys, shifted);
        if letters[j].key in keys && shifted {
          AppendAllSnoc(s0.text, maxLength, gs, letters[j].upper);
          assert LetterGlyphs(letters[..j + 1], keys, shifted) == gs + [letters[j].upper];
          AddChar(letters[j].upper);
        }
        if letters[j].key in keys && !shifted {
          AppendAllSnoc(s0.text, maxLength, gs, letters[j].lower);
          assert LetterGlyphs(letters[..j + 1], keys, shifted) == gs + [letters[j].lower];
          AddChar(letters[j].lower);
        }
        if letters[j].key !in keys {
          assert LetterGlyphs(letters[..j + 1], keys, shifted) == gs;
        }
        j := j + 1;
      }
      assert letters[..j] == letters;
    }

    /** The typing branch of `update`: the table scans, backspace, then return. */
    method TypeKeys(keys: set<Key>) returns (called: bool)
      modifies this
      ensures Snapshot() == KeysTyped(old(Snapshot()), characters, letters, keys).after
      ensures called == KeysTyped(old(Snapshot()), characters, letters, keys).called
      ensures offset == old(offset)
    {
      ghost var s0 := Snapshot();
      ScanCharacters(keys);
      ScanLetters(keys);
      AppendAllConcat(s0.text, maxLength, CharGlyphs(characters, keys), LetterGlyphs(letters, keys, Shifted(keys)));
      called := false;
      if Backspace in keys {
        keypressed := true;
        RemoveChar();
      }
      if Return in keys {
        keypressed := true;
        if Truthy(func) {
          called := true;
        } else {
          typing := false;
        }
      }
    }

    /** The typing branch or the key-repeat governor of `update`. */
    method Interact(keys: set<Key>) returns (called: bool)
      modifies this
      ensures Snapshot() == Interacted(old(Snapshot()), characters, letters, keys).after
      ensures called == Interacted(old(Snapshot()), characters, letters, keys).called
      ensures offset == old(offset)
    {
      called := false;
      if typing && !keypressed {
        called := TypeKeys(keys);
      } else if typing && keypressed {
        if typeCooldown >= 30 && pressing {
          keypressed := false;
          typeCooldown := 0;
        } else {
          typeCooldown := typeCooldown + 1;
        }
      }
    }

    /** The blink step and the `pressing` flag at the start of `update`. */
    method Blink(keys: set<Key>)
      modifies this
      ensures Snapshot() == Blinked(old(Snapshot()), keys)
      ensures offset == old(offset)
    {
      if c < 100 && cc == 1 {
        c := c + cc;
      } else if c > 0 && cc == -1 {
        c := c + cc;
      } else {
        cc := -cc;
      }
      pressing := keys != {};
    }

    /** The 60-frame governor reset of `update`. */
    method Expire()
      modifies this
      ensures Snapshot() == Expired(old(Snapshot()))
      ensures offset == old(offset)
    {
      if typeCooldown >= 60 && !pressing {
        keypressed := false;
        typeCooldown := 0;
      }
    }

    /** The focus rule at the end of `update`. */
    method Focus(inp: Input)
      modifies this
      ensures Snapshot() == Focused(old(Snapshot()), inp)
      ensures offset == old(offset)
    {
      if inp.primary {
        typing := Contains(rect, inp.mx, inp.my);
      }
    }

    /** `update`, without the drawing; `called` is whether `func` was called. */
    method Update(inp: Input) returns (called: bool)
      modifies this
      ensures Snapshot() == Step(old(Snapshot()), characters, letters, inp).after
      ensures called == Step(old(Snapshot()), characters, letters, inp).called
      ensures offset == old(offset)
    {
      Blink(inp.keys);
      called := Interact(inp.keys);
      Expire();
      Focus(inp);
    }

    /** `clear`: the text becomes empty. */
    method Clear()
      modifies this
      ensures Snapshot() == Cleared(old(Snapshot()))
      ensures offset == old(offset)
    {
      text := "";
    }

    /** `set_offset`: only the offset changes. The source stores any value, which only
        the label drawing reads; the offset is an integer here. */
    method SetOffset(v: int)
      modifies this
      ensures Snapshot() == old(Snapshot()) && offset == v
    {
      offset := v;
    }

    /** `get_text`. */
    method GetText() returns (t: string)
      ensures t == text
    {
      t := text;
    }

    /** `move`: the entry's rect goes to (x, y), keeping its size. */
    method Move(x: int, y: int)
      modifies this
      ensures Snapshot() == old(Snapshot()).(rect := MovedTo(old(rect), x, y))
      ensures offset == old(offset)
    {
      rect := MovedTo(rect, x, y);
    }
  }
}
