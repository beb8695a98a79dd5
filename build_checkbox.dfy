/** The check box of build/lib/pgui/checkbox.py: no attribute validation, setters
    that halt the program on a bad style, and a cached square border width. */
module BuildCheckBox {
  import opened PyValues
  import opened Pygame
  import Toggle

  datatype Shape = Square | Circle
  datatype CheckStyle = Fill | Cross

  /** Every modelled field of a check box. */
  datatype State = State(
    x: int,
    y: int,
    size: int,
    rect: Rect,
    marked: bool,
    clicked: bool,
    checkStyle: CheckStyle,
    style: Shape,
    borderWidth: int,
    sqBorderWidth: int)

  /** The outcome of a call and the state it leaves. */
  datatype Transition = Transition(outcome: Outcome, after: State)

  /** `__init__`: unmarked, square, "fill", border 3 cached as the square border width. */
  function Initial(x: int, y: int, size: int): (s: State)
    ensures !s.marked && !s.clicked && s.style == Square && s.borderWidth == s.sqBorderWidth
  {
    State(x, y, size, Rect(x, y, size, size), false, false, Fill, Square, 3, 3)
  }

  /** `update`, without the drawing: the press/release rule on `marked`, then the
      rewrite of a cross check mark on a marked circle to "fill". */
  function Updated(s: State, inp: Input): (r: State)
    ensures
      var f := Toggle.Step(Toggle.Flags(s.clicked, s.marked), Contains(s.rect, inp.mx, inp.my), inp.primary);
      && r == s.(clicked := f.clicked, marked := f.checked, checkStyle := r.checkStyle)
      && (f.checked && s.style == Circle ==> r.checkStyle == Fill)
      && (!(f.checked && s.style == Circle) ==> r.checkStyle == s.checkStyle)
  {
    var f := Toggle.Step(Toggle.Flags(s.clicked, s.marked), Contains(s.rect, inp.mx, inp.my), inp.primary);
    var checkStyle := if f.checked && s.checkStyle == Cross && s.style == Circle then Fill else s.checkStyle;
    s.(clicked := f.clicked, marked := f.checked, checkStyle := checkStyle)
  }

  /** The frames of N press-then-release cycles with the pointer at (px, py). */
  function Cycles(n: nat, px: int, py: int): seq<Input>
  {
    if n == 0 then [] else [Input(px, py, true, {}), Input(px, py, false, {})] + Cycles(n - 1, px, py)
  }

  /** The state after one `update` per frame. */
  function Run(s: State, frames: seq<Input>): State
    decreases |frames|
  {
    if frames == [] then s else Run(Updated(s, frames[0]), frames[1..])
  }

  /** N press-then-release cycles over the box leave `marked` equal to its initial
      value XOR (N is odd), and the box disarmed. */
  lemma {:induction false} CyclesToggleParity(s: State, n: nat, px: int, py: int)
    requires Contains(s.rect, px, py)
    ensures Run(s, Cycles(n, px, py)).marked == (s.marked != (n % 2 == 1))
    ensures n > 0 ==> !Run(s, Cycles(n, px, py)).clicked
    decreases n
  {
    if n > 0 {
      var press, release := Input(px, py, true, {}), Input(px, py, false, {});
      var rest := Cycles(n - 1, px, py);
      var frames := [press, release] + rest;
      var s2 := Updated(Updated(s, press), release);
      assert s2.marked == !s.marked && !s2.clicked;
      assert frames[0] == press && frames[1..] == [release] + rest;
      assert ([release] + rest)[0] == release && ([release] + rest)[1..] == rest;
      assert Run(s, frames) == Run(s2, rest);
      CyclesToggleParity(s2, n - 1, px, py);
    }
  }

  /** `set_check_style`: "fill" or "cross" is stored; anything else halts (SystemExit)
      without storing. The source compares its argument with the two strings only, so
      a value that is not a str halts like any other string; `v` is a string here. */
  function CheckStyleSet(s: State, v: string): (t: Transition)
    ensures t.outcome.Pass? <==> v == "fill" || v == "cross"
    ensures t.outcome.Raise? ==> t == Transition(Raise(SystemExit), s)
    ensures v == "fill" ==> t.after == s.(checkStyle := Fill)
    ensures v == "cross" ==> t.after == s.(checkStyle := Cross)
  {
    if v == "fill" then Transition(Pass, s.(checkStyle := Fill))
    else if v == "cross" then Transition(Pass, s.(checkStyle := Cross))
    else Transition(Raise(SystemExit), s)
  }

  /** `set_border_width`: always sets the border width, and also the cached square
      border width while the style is square. The source stores any value; the width
      is an integer here. */
  function BorderWidthSet(s: State, w: int): (r: State)
    ensures r.borderWidth == w
    ensures r.sqBorderWidth == (if s.style == Square then w else s.sqBorderWidth)
    ensures r.(borderWidth := s.borderWidth, sqBorderWidth := s.sqBorderWidth) == s
  {
    if s.style == Square then s.(borderWidth := w, sqBorderWidth := w) else s.(borderWidth := w)
  }

  /** `set_style`: anything but "square" or "circle" halts (SystemExit) with nothing
      changed; "square" changes only the style; "circle" also forces "fill" and a
      border one wider than the cached square width. As in `set_check_style`, a value
      that is not a str halts like an unknown string. */
  function StyleSet(s: State, v: string): (t: Transition)
    ensures v != "square" && v != "circle" ==> t == Transition(Raise(SystemExit), s)
    ensures v == "square" ==> t == Transition(Pass, s.(style := Square))
    ensures v == "circle" ==>
      t == Transition(Pass, s.(style := Circle, checkStyle := Fill, borderWidth := s.sqBorderWidth + 1))
  {
    if v == "square" then Transition(Pass, s.(style := Square))
    else if v == "circle" then Transition(Pass, s.(style := Circle, checkStyle := Fill, borderWidth := s.sqBorderWidth + 1))
    else Transition(Raise(SystemExit), s)
  }

  /** Setting the same style twice is the same as setting it once. */
  lemma StyleSetIdempotent(s: State, v: string)
    ensures StyleSet(StyleSet(s, v).after, v) == StyleSet(s, v)
  {
  }

  /** Switching to circle and back to square keeps the widened border: the cached
      square width is not restored. */
  lemma SquareAfterCircleKeepsWiderBorder(s: State)
    ensures StyleSet(StyleSet(s, "circle").after, "square").after.borderWidth == s.sqBorderWidth + 1
  {
  }

  /** A border width set while the box is a circle is not cached: the next switch to
      circle discards it. */
  lemma CircleBorderWidthNotCached(s: State, w: int)
    requires s.style == Circle
    ensures StyleSet(BorderWidthSet(s, w), "circle").after.borderWidth == s.sqBorderWidth + 1
  {
  }

  /** `move`: the box's top-left goes to (x, y). */
  function Moved(s: State, x: int, y: int): (r: State)
    ensures r == s.(x := x, y := y, rect := MovedTo(s.rect, x, y))
  {
    s.(x := x, y := y, rect := MovedTo(s.rect, x, y))
  }

  /** Moving twice to the same place is the same as moving once. */
  lemma MovedIdempotent(s: State, x: int, y: int)
    ensures Moved(Moved(s, x, y), x, y) == Moved(s, x, y)
  {
  }

  /** `set_size`: the size is stored, then the box's surfaces are made, which
      raises for a negative size and leaves the rect as it was; otherwise the box
      keeps its corner at (x, y) and takes the new size. */
  function Resized(s: State, size: int): (t: Transition)
    ensures t.outcome.Pass? <==> size >= 0
    ensures t.outcome.Raise? ==> t == Transition(Raise(DrawingError), s.(size := size))
    ensures t.outcome.Pass? ==> t.after.rect == Rect(s.x, s.y, size, size)
    ensures t.after.size == size && t.after.(size := s.size, rect := s.rect) == s
  {
    if size < 0 then Transition(Raise(DrawingError), s.(size := size))
    else Transition(Pass, s.(size := size, rect := Rect(s.x, s.y, size, size)))
  }

  /** Resizing never moves the box: after a move, the rect's corner is where the
      move put it, inside the box unless the size is 0; a negative size raises and
      leaves the rect the move made, with the old size. */
  lemma ResizedAfterMoveKeepsCorner(s: State, x: int, y: int, size: int)
    ensures Resized(Moved(s, x, y), size).outcome.Pass? ==>
      (Contains(Resized(Moved(s, x, y), size).after.rect, x, y) <==> size > 0)
    ensures size < 0 ==> Resized(Moved(s, x, y), size).after.rect == MovedTo(s.rect, x, y)
  {
  }

  class CheckBox {
    var x: int
    var y: int
    var size: int
    var rect: Rect
    var marked: bool
    var clicked: bool
    var checkStyle: CheckStyle
    var style: Shape
    var borderWidth: int
    var sqBorderWidth: int

    function Snapshot(): State
      reads this
    {
      State(x, y, size, rect, marked, clicked, checkStyle, style, borderWidth, sqBorderWidth)
    }

    constructor (x0: int, y0: int, size0: int)
      ensures Snapshot() == Initial(x0, y0, size0)
    {
      x, y, size := x0, y0, size0;
      rect := Rect(x0, y0, size0, size0);
      marked, clicked := false, false;
      checkStyle, style := Fill, Square;
      borderWidth, sqBorderWidth := 3, 3;
    }

    method Update(inp: Input)
      modifies this
      ensures Snapshot() == Updated(old(Snapshot()), inp)
    {
      if Contains(rect, inp.mx, inp.my) && inp.primary {
        clicked := true;
      }
      if clicked && !inp.primary {
        marked := !marked;
        clicked := false;
      }
      if marked && checkStyle == Cross && style == Circle {
        checkStyle := Fill;
      }
    }

    /** `get_state`. */
    method GetState() returns (m: bool)
      ensures m == marked
    {
      m := marked;
    }

    method SetCheckStyle(v: string) returns (r: Outcome)
      modifies this
      ensures r == CheckStyleSet(old(Snapshot()), v).outcome
      ensures Snapshot() == CheckStyleSet(old(Snapshot()), v).after
    {
      if v != "fill" && v != "cross" {
        return Raise(SystemExit);
      }
      checkStyle := if v == "fill" then Fill else Cross;
      r := Pass;
    }

    method SetBorderWidth(w: int)
      modifies this
      ensures Snapshot() == BorderWidthSet(old(Snapshot()), w)
    {
      borderWidth := w;
      if style == Square {
        sqBorderWidth := w;
      }
    }

    method SetStyle(v: string) returns (r: Outcome)
      modifies this
      ensures r == StyleSet(old(Snapshot()), v).outcome
      ensures Snapshot() == StyleSet(old(Snapshot()), v).after
    {
      if v != "square" && v != "circle" {
        return Raise(SystemExit);
      }
      style := if v == "square" then Square else Circle;
      if v == "circle" {
        checkStyle := Fill;
        borderWidth := sqBorderWidth + 1;
      }
      r := Pass;
    }

    method SetSize(size0: int) returns (r: Outcome)
      modifies this
      ensures r == Resized(old(Snapshot()), size0).outcome
      ensures Snapshot() == Resized(old(Snapshot()), size0).after
    {
      size := size0;
      if size0 < 0 {
        return Raise(DrawingError);
      }
      rect := Rect(x, y, size0, size0);
      r := Pass;
    }

    method Move(x0: int, y0: int)
      modifies this
      ensures Snapshot() == Moved(old(Snapshot()), x0, y0)
    {
      x, y := x0, y0;
      rect := MovedTo(rect, x0, y0);
    }
  }
}
