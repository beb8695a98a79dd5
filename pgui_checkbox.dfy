/** The check box of pgui/checkbox.py: public attributes that `update` validates
    before it touches the interaction state, exceptions on bad setter arguments. */
module PguiCheckBox {
  import opened PyValues
  import opened Pygame
  import Toggle

  /** `_style`: only `set_style` assigns it, and only "square" or "circle". */
  datatype Shape = Square | Circle

  /** The public attributes `_check_attributes` validates; a host may assign any value to them. */
  datatype Attributes = Attributes(
    bgColor: PyValue,
    borderWidth: PyValue,
    borderColor: PyValue,
    checkColor: PyValue,
    crossWidth: PyValue,
    checked: PyValue,
    checkStyle: PyValue,
    labelSide: PyValue,
    labelAlign: PyValue,
    labelPadding: PyValue)

  const CheckStyles: seq<string> := ["fill", "cross"]
  const LabelSides: seq<string> := ["top", "left", "right", "bottom"]
  const LabelAligns: seq<string> := ["left", "center", "right"]

  predicate IsColor(v: PyValue)
  {
    v.PyTuple? && |v.items| == 3 && forall i :: 0 <= i < 3 ==> v.items[i].PyInt?
  }

  /** What a well-formed set of attributes is, stated independently of the order of the checks. */
  predicate AttributesValid(a: Attributes)
  {
    && IsColor(a.bgColor) && IsColor(a.borderColor) && IsColor(a.checkColor)
    && a.borderWidth.PyInt? && a.borderWidth.i >= 0
    && a.crossWidth.PyInt? && a.crossWidth.i >= 0
    && a.labelPadding.PyInt? && a.labelPadding.i >= 0
    && a.checked.PyBool?
    && a.checkStyle.PyStr? && a.checkStyle.s in CheckStyles
    && a.labelSide.PyStr? && a.labelSide.s in LabelSides
    && a.labelAlign.PyStr? && a.labelAlign.s in LabelAligns
  }

  /** A colour must be a tuple (else TypeError) of three (else ValueError) ints (else ValueError). */
  function ColorCheck(v: PyValue, name: string): (r: Outcome)
    ensures r.Pass? <==> IsColor(v)
    ensures r.Raise? ==> r.error == (if v.PyTuple? then ValueError(name) else TypeError(name))
  {
    if !v.PyTuple? then Raise(TypeError(name))
    else if |v.items| != 3 then Raise(ValueError(name))
    else if !(v.items[0].PyInt? && v.items[1].PyInt? && v.items[2].PyInt?) then Raise(ValueError(name))
    else Pass
  }

  /** A width or padding must be an int (else TypeError) that is not negative (else ValueError). */
  function NonNegativeIntCheck(v: PyValue, name: string): (r: Outcome)
    ensures r.Pass? <==> v.PyInt? && v.i >= 0
    ensures r.Raise? ==> r.error == (if v.PyInt? then ValueError(name) else TypeError(name))
  {
    if !v.PyInt? then Raise(TypeError(name))
    else if v.i < 0 then Raise(ValueError(name))
    else Pass
  }

  /** An enumerated attribute must be a str (else TypeError) among `choices` (else ValueError). */
  function ChoiceCheck(v: PyValue, name: string, choices: seq<string>): (r: Outcome)
    ensures r.Pass? <==> v.PyStr? && v.s in choices
    ensures r.Raise? ==> r.error == (if v.PyStr? then ValueError(name) else TypeError(name))
  {
    if !v.PyStr? then Raise(TypeError(name))
    else if v.s !in choices then Raise(ValueError(name))
    else Pass
  }

  /** The ten checks `_check_attributes` makes, in the order it makes them. */
  function Checks(a: Attributes): seq<Outcome>
  {
    [ColorCheck(a.bgColor, "bg_color"),
     NonNegativeIntCheck(a.borderWidth, "border_width"),
     ColorCheck(a.borderColor, "border_color"),
     ColorCheck(a.checkColor, "check_color"),
     NonNegativeIntCheck(a.crossWidth, "cross_width"),
     if a.checked.PyBool? then Pass else Raise(TypeError("checked")),
     ChoiceCheck(a.checkStyle, "check_style", CheckStyles),
     ChoiceCheck(a.labelSide, "label_side", LabelSides),
     ChoiceCheck(a.labelAlign, "label_align", LabelAligns),
     NonNegativeIntCheck(a.labelPadding, "label_padding")]
  }

  /** A run of checks as a sequence of `raise` statements: the first failure, or Pass. */
  function FirstRaise(cs: seq<Outcome>): (r: Outcome)
    ensures r.Pass? <==> forall i :: 0 <= i < |cs| ==> cs[i].Pass?
    decreases |cs|
  {
    if cs == [] then Pass else Then(cs[0], FirstRaise(cs[1..]))
  }

  /** What FirstRaise raises is a failing check with none failing before it. */
  lemma {:induction false} FirstRaiseIsFirstFailure(cs: seq<Outcome>)
    requires FirstRaise(cs).Raise?
    ensures exists i :: 0 <= i < |cs| && cs[i] == FirstRaise(cs) && forall j :: 0 <= j < i ==> cs[j].Pass?
    decreases |cs|
  {
    if cs[0].Pass? {
      FirstRaiseIsFirstFailure(cs[1..]);
      var i :| 0 <= i < |cs[1..]| && cs[1..][i] == FirstRaise(cs[1..]) && forall j :: 0 <= j < i ==> cs[1..][j].Pass?;
      assert cs[i + 1] == FirstRaise(cs);
      forall j | 0 <= j < i + 1
        ensures cs[j].Pass?
      {
        if j > 0 {
          assert cs[j] == cs[1..][j - 1];
        }
      }
    } else {
      assert cs[0] == FirstRaise(cs);
    }
  }

  /** `_check_attributes`: the attributes pass exactly when they are well formed,
      and otherwise the exception raised is the first of the ten checks, in source
      order, that fails. */
  function CheckAttributes(a: Attributes): (r: Outcome)
    ensures r.Pass? <==> AttributesValid(a)
    ensures r.Raise? ==>
      exists i :: 0 <= i < |Checks(a)| && Checks(a)[i] == r && forall j :: 0 <= j < i ==> Checks(a)[j].Pass?
    ensures !IsColor(a.bgColor) ==> r == ColorCheck(a.bgColor, "bg_color")
    ensures IsColor(a.bgColor) && !a.borderWidth.PyInt? ==> r == Raise(TypeError("border_width"))
  {
    var cs := Checks(a);
    var r := FirstRaise(cs);
    assert r.Pass? <==> forall i :: 0 <= i < 10 ==> cs[i].Pass?;
    if r.Raise? then FirstRaiseIsFirstFailure(cs); r
    else
      assert cs[0].Pass? && cs[1].Pass? && cs[2].Pass? && cs[3].Pass? && cs[4].Pass?;
      assert cs[5].Pass? && cs[6].Pass? && cs[7].Pass? && cs[8].Pass? && cs[9].Pass?;
      r
  }

  /** Every modelled field of a check box. */
  datatype State = State(
    attrs: Attributes,
    x: int,
    y: int,
    size: int,
    rect: Rect,
    style: Shape,
    sqBorderWidth: int,
    clicked: bool,
    text: string,
    fontColor: PyValue)

  /** The outcome of a call and the state it leaves. */
  datatype Transition = Transition(outcome: Outcome, after: State)

  function Rgb(r: int, g: int, b: int): PyValue
  {
    PyTuple([PyInt(r), PyInt(g), PyInt(b)])
  }

  /** `__init__`: an unchecked, square, "fill" box with a border of 3 at (x, y). */
  function Initial(x: int, y: int, size: int): (s: State)
    ensures AttributesValid(s.attrs)
    ensures s.attrs.checked == PyBool(false) && !s.clicked
    ensures s.rect == Rect(x, y, size, size)
  {
    State(
      Attributes(Rgb(255, 255, 255), PyInt(3), Rgb(0, 0, 0), Rgb(0, 200, 0), PyInt(5),
                 PyBool(false), PyStr("fill"), PyStr("top"), PyStr("left"), PyInt(3)),
      x, y, size, Rect(x, y, size, size), Square, 3, false, "", Rgb(0, 0, 0))
  }

  /** A colour pygame's drawing calls accept: a tuple of three or four ints, each in 0..255. */
  predicate Drawable(v: PyValue)
  {
    && v.PyTuple? && (|v.items| == 3 || |v.items| == 4)
    && forall i :: 0 <= i < |v.items| ==> v.items[i].PyInt? && 0 <= v.items[i].i <= 255
  }

  /** The press/release rule applied to a box whose `checked` is a bool. */
  function Flipped(s: State, inp: Input): Toggle.Flags
    requires s.attrs.checked.PyBool?
  {
    Toggle.Step(Toggle.Flags(s.clicked, s.attrs.checked.b), Contains(s.rect, inp.mx, inp.my), inp.primary)
  }

  /** A checked box draws its mark in `check_color`, except a cross on a circle,
      which is rewritten to "fill" instead of drawn. */
  predicate DrawsCheck(checked: bool, checkStyle: PyValue, style: Shape)
  {
    checked && !(checkStyle == PyStr("cross") && style == Circle)
  }

  /** `update`, without the drawing: validate, then the press sets `clicked`, then
      the background fill, then the release flips `checked` and a cross on a checked
      circle is rewritten to "fill", then the check mark and the border are drawn.
      A colour outside 0..255 makes its drawing call raise, with the state changed
      up to that point. */
  function Updated(s: State, inp: Input): (t: Transition)
    // an invalid attribute raises before anything changes
    ensures !AttributesValid(s.attrs) ==> t == Transition(CheckAttributes(s.attrs), s)
    // a background that cannot be drawn raises after a press has set `clicked`, before the flip
    ensures AttributesValid(s.attrs) && !Drawable(s.attrs.bgColor) ==>
      t == Transition(Raise(DrawingError), s.(clicked := s.clicked || (Contains(s.rect, inp.mx, inp.my) && inp.primary)))
    ensures t.outcome.Pass? <==>
      && AttributesValid(s.attrs) && Drawable(s.attrs.bgColor) && Drawable(s.attrs.borderColor)
      && (DrawsCheck(Flipped(s, inp).checked, s.attrs.checkStyle, s.style) ==> Drawable(s.attrs.checkColor))
    ensures AttributesValid(s.attrs) && t.outcome.Raise? ==> t.outcome.error == DrawingError
    ensures AttributesValid(s.attrs) && Drawable(s.attrs.bgColor) ==>
      var f := Flipped(s, inp);
      && t.after.clicked == f.clicked
      && t.after.attrs.checked == PyBool(f.checked)
      && AttributesValid(t.after.attrs)
      // only clicked, checked and check_style change
      && t.after == s.(clicked := f.clicked, attrs := s.attrs.(checked := PyBool(f.checked), checkStyle := t.after.attrs.checkStyle))
      // a cross cannot be shown on a checked circle: it is rewritten to "fill"
      && (f.checked && s.style == Circle ==> t.after.attrs.checkStyle == PyStr("fill"))
      && (!(f.checked && s.style == Circle) ==> t.after.attrs.checkStyle == s.attrs.checkStyle)
  {
    if !AttributesValid(s.attrs) then Transition(CheckAttributes(s.attrs), s)
    else if !Drawable(s.attrs.bgColor) then
      Transition(Raise(DrawingError), s.(clicked := s.clicked || (Contains(s.rect, inp.mx, inp.my) && inp.primary)))
    else
      var f := Flipped(s, inp);
      var style := if f.checked && s.attrs.checkStyle == PyStr("cross") && s.style == Circle
                   then PyStr("fill") else s.attrs.checkStyle;
      var after := s.(clicked := f.clicked, attrs := s.attrs.(checked := PyBool(f.checked), checkStyle := style));
      if DrawsCheck(f.checked, s.attrs.checkStyle, s.style) && !Drawable(s.attrs.checkColor) then
        Transition(Raise(DrawingError), after)
      else if !Drawable(s.attrs.borderColor) then Transition(Raise(DrawingError), after)
      else Transition(Pass, after)
  }

  /** The frames of one press-then-release cycle with the pointer at (px, py). */
  function Cycles(n: nat, px: int, py: int): seq<Input>
  {
    if n == 0 then [] else [Input(px, py, true, {}), Input(px, py, false, {})] + Cycles(n - 1, px, py)
  }

  /** One `update` per frame; a frame that raises ends the run. */
  function Run(s: State, frames: seq<Input>): Transition
    decreases |frames|
  {
    if frames == [] then Transition(Pass, s)
    else
      var t := Updated(s, frames[0]);
      if t.outcome.Raise? then t else Run(t.after, frames[1..])
  }

  /** The state after a press and a release at (px, py) over a box whose colours
      can all be drawn: both frames pass and the box is flipped, its attributes
      still valid and its colours and rect unchanged. */
  function Cycled(s: State, px: int, py: int): (r: State)
    requires AttributesValid(s.attrs) && Contains(s.rect, px, py)
    requires Drawable(s.attrs.bgColor) && Drawable(s.attrs.borderColor) && Drawable(s.attrs.checkColor)
    ensures AttributesValid(r.attrs) && r.rect == s.rect
    ensures r.attrs.checked == PyBool(!s.attrs.checked.b)
    ensures r.attrs.bgColor == s.attrs.bgColor && r.attrs.borderColor == s.attrs.borderColor
    ensures r.attrs.checkColor == s.attrs.checkColor
  {
    Updated(Updated(s, Input(px, py, true, {})).after, Input(px, py, false, {})).after
  }

  /** A run of N cycles over a box whose colours can all be drawn goes on after
      the first cycle from the flipped box. */
  lemma CycleThenRun(s: State, n: nat, px: int, py: int)
    requires n > 0 && AttributesValid(s.attrs) && Contains(s.rect, px, py)
    requires Drawable(s.attrs.bgColor) && Drawable(s.attrs.borderColor) && Drawable(s.attrs.checkColor)
    ensures Run(s, Cycles(n, px, py)) == Run(Cycled(s, px, py), Cycles(n - 1, px, py))
  {
    var a, b, rest := Input(px, py, true, {}), Input(px, py, false, {}), Cycles(n - 1, px, py);
    var frames := [a, b] + rest;
    assert Cycles(n, px, py) == frames;
    assert Updated(s, a).outcome == Pass && Updated(Updated(s, a).after, b).outcome == Pass;
    assert frames[0] == a && frames[1..] == [b] + rest;
    assert ([b] + rest)[0] == b && ([b] + rest)[1..] == rest;
  }

  /** N press-then-release cycles over a box whose colours can all be drawn raise
      nothing and leave it checked iff it started checked XOR N is odd. */
  lemma {:induction false} CyclesToggleParity(s: State, n: nat, px: int, py: int)
    requires AttributesValid(s.attrs) && Contains(s.rect, px, py)
    requires Drawable(s.attrs.bgColor) && Drawable(s.attrs.borderColor) && Drawable(s.attrs.checkColor)
    ensures Run(s, Cycles(n, px, py)).outcome == Pass
    ensures AttributesValid(Run(s, Cycles(n, px, py)).after.attrs)
    ensures Run(s, Cycles(n, px, py)).after.attrs.checked == PyBool(s.attrs.checked.b != (n % 2 == 1))
    decreases n
  {
    if n > 0 {
      CycleThenRun(s, n, px, py);
      CyclesToggleParity(Cycled(s, px, py), n - 1, px, py);
    }
  }

  /** `set_style`: anything but "square" or "circle" raises ValueError and changes
      nothing; "circle" forces "fill" and the cached square border width plus one. */
  function StyleSet(s: State, v: PyValue): (t: Transition)
    ensures v != PyStr("square") && v != PyStr("circle") ==> t == Transition(Raise(ValueError("style")), s)
    ensures v == PyStr("square") ==> t == Transition(Pass, s.(style := Square))
    ensures v == PyStr("circle") ==>
      t == Transition(Pass, s.(style := Circle,
                               attrs := s.attrs.(checkStyle := PyStr("fill"), borderWidth := PyInt(s.sqBorderWidth + 1))))
  {
    if v != PyStr("square") && v != PyStr("circle") then Transition(Raise(ValueError("style")), s)
    else if v == PyStr("circle") then
      Transition(Pass, s.(style := Circle,
                          attrs := s.attrs.(checkStyle := PyStr("fill"), borderWidth := PyInt(s.sqBorderWidth + 1))))
    else Transition(Pass, s.(style := Square))
  }

  /** Setting the same style twice is the same as setting it once. */
  lemma StyleSetIdempotent(s: State, v: PyValue)
    ensures StyleSet(StyleSet(s, v).after, v) == StyleSet(s, v)
  {
  }

  /** `move`: x then y must be ints (else TypeError); the box's top-left goes to (x, y). */
  function Moved(s: State, vx: PyValue, vy: PyValue): (t: Transition)
    ensures !vx.PyInt? ==> t == Transition(Raise(TypeError("x")), s)
    ensures vx.PyInt? && !vy.PyInt? ==> t == Transition(Raise(TypeError("y")), s)
    ensures vx.PyInt? && vy.PyInt? ==>
      t.outcome == Pass && t.after == s.(x := vx.i, y := vy.i, rect := MovedTo(s.rect, vx.i, vy.i))
  {
    if !vx.PyInt? then Transition(Raise(TypeError("x")), s)
    else if !vy.PyInt? then Transition(Raise(TypeError("y")), s)
    else Transition(Pass, s.(x := vx.i, y := vy.i, rect := MovedTo(s.rect, vx.i, vy.i)))
  }

  /** Moving twice to the same place is the same as moving once. */
  lemma MovedIdempotent(s: State, vx: PyValue, vy: PyValue)
    ensures Moved(Moved(s, vx, vy).after, vx, vy) == Moved(s, vx, vy)
  {
  }

  /** `set_size`: an int (else TypeError) greater than 0 (else ValueError) becomes the
      side of the box, whose rect keeps its top-left. */
  function Resized(s: State, v: PyValue): (t: Transition)
    ensures t.outcome.Pass? <==> v.PyInt? && v.i > 0
    ensures t.outcome.Raise? ==> t.after == s
    ensures !v.PyInt? ==> t.outcome == Raise(TypeError("size"))
    ensures t.outcome.Pass? ==> t.after == s.(size := v.i, rect := Rect(s.x, s.y, v.i, v.i))
  {
    if !v.PyInt? then Transition(Raise(TypeError("size")), s)
    else if v.i <= 0 then Transition(Raise(ValueError("size")), s)
    else Transition(Pass, s.(size := v.i, rect := Rect(s.x, s.y, v.i, v.i)))
  }

  /** `set_label`: a str is stored exactly; anything else raises TypeError. */
  function Labelled(s: State, v: PyValue): (t: Transition)
    ensures t.outcome.Pass? <==> v.PyStr? && Drawable(s.fontColor)
    ensures v.PyStr? ==> t.after == s.(text := v.s) && (t.outcome.Raise? ==> t.outcome.error == DrawingError)
    ensures !v.PyStr? ==> t == Transition(Raise(TypeError("text")), s)
  {
    if !v.PyStr? then Transition(Raise(TypeError("text")), s)
    else if Drawable(s.fontColor) then Transition(Pass, s.(text := v.s))
    else Transition(Raise(DrawingError), s.(text := v.s))
  }

  /** Every item of a tuple is an int. */
  predicate AllInts(v: PyValue)
    requires v.PyTuple?
  {
    forall i :: 0 <= i < |v.items| ==> v.items[i].PyInt?
  }

  /** `set_font_color` as written: its length test is inverted, so it raises
      ValueError for exactly three values, stores a tuple of ints of any other
      length, and then re-renders the label in that colour, which raises unless
      the colour is a drawable RGBA 4-tuple. */
  function FontColorSet(s: State, v: PyValue): (t: Transition)
    ensures t.outcome.Pass? <==> Drawable(v) && |v.items| == 4
    ensures !v.PyTuple? ==> t == Transition(Raise(TypeError("color")), s)
    ensures v.PyTuple? && |v.items| == 3 ==> t == Transition(Raise(ValueError("color")), s)
    ensures v.PyTuple? && |v.items| != 3 && !AllInts(v) ==> t == Transition(Raise(TypeError("color")), s)
    // a tuple of ints of another length is stored, whether or not the render then raises
    ensures v.PyTuple? && |v.items| != 3 && AllInts(v) ==>
      t.after == s.(fontColor := v) && (t.outcome.Raise? ==> t.outcome.error == DrawingError)
  {
    if !v.PyTuple? then Transition(Raise(TypeError("color")), s)
    else if |v.items| == 3 then Transition(Raise(ValueError("color")), s)
    else if !AllInts(v) then Transition(Raise(TypeError("color")), s)
    else if !Drawable(v) then Transition(Raise(DrawingError), s.(fontColor := v))
    else Transition(Pass, s.(fontColor := v))
  }

  /** The documented 3-tuple RGB value is exactly what `set_font_color` rejects:
      only an RGBA 4-tuple in 0..255 goes through, and any other tuple of ints is
      stored before the render raises. */
  lemma FontColorRejectsRgb(s: State, r: int, g: int, b: int, alpha: int)
    requires 0 <= r <= 255 && 0 <= g <= 255 && 0 <= b <= 255 && 0 <= alpha <= 255
    ensures FontColorSet(s, Rgb(r, g, b)) == Transition(Raise(ValueError("color")), s)
    ensures var rgba := PyTuple([PyInt(r), PyInt(g), PyInt(b), PyInt(alpha)]);
      FontColorSet(s, rgba) == Transition(Pass, s.(fontColor := rgba))
    ensures var rg := PyTuple([PyInt(r), PyInt(g)]);
      FontColorSet(s, rg) == Transition(Raise(DrawingError), s.(fontColor := rg))
  {
    var rgba := PyTuple([PyInt(r), PyInt(g), PyInt(b), PyInt(alpha)]);
    assert Drawable(rgba);
  }

  /** A colour that `set_font_color` stored but could not render stays: every later
      `set_label` stores its text and then raises on the re-render. */
  lemma StoredFontColorBreaksLabel(s: State, c: int, text: string)
    ensures var t := FontColorSet(s, PyTuple([PyInt(c)]));
      && t == Transition(Raise(DrawingError), s.(fontColor := PyTuple([PyInt(c)])))
      && Labelled(t.after, PyStr(text)) == Transition(Raise(DrawingError), t.after.(text := text))
  {
  }

  class CheckBox {
    var bgColor: PyValue
    var borderWidth: PyValue
    var borderColor: PyValue
    var checkColor: PyValue
    var crossWidth: PyValue
    var checked: PyValue
    var checkStyle: PyValue
    var labelSide: PyValue
    var labelAlign: PyValue
    var labelPadding: PyValue
    var x: int
    var y: int
    var size: int
    var rect: Rect
    var style: Shape
    var sqBorderWidth: int
    var clicked: bool
    var text: string
    var fontColor: PyValue

    function Attrs(): Attributes
      reads this
    {
      Attributes(bgColor, borderWidth, borderColor, checkColor, crossWidth, checked,
                 checkStyle, labelSide, labelAlign, labelPadding)
    }

    function Snapshot(): State
      reads this
    {
      State(Attrs(), x, y, size, rect, style, sqBorderWidth, clicked, text, fontColor)
    }

    constructor (x0: int, y0: int, size0: int)
      ensures Snapshot() == Initial(x0, y0, size0)
    {
      x, y, size := x0, y0, size0;
      bgColor, borderWidth, borderColor := Rgb(255, 255, 255), PyInt(3), Rgb(0, 0, 0);
      checkColor, crossWidth, checked := Rgb(0, 200, 0), PyInt(5), PyBool(false);
      checkStyle, labelSide, labelAlign, labelPadding := PyStr("fill"), PyStr("top"), PyStr("left"), PyInt(3);
      sqBorderWidth := 3;
      rect := Rect(x0, y0, size0, size0);
      style := Square;
      clicked := false;
      text := "";
      fontColor := Rgb(0, 0, 0);
    }

    method Update(inp: Input) returns (r: Outcome)
      modifies this
      ensures r == Updated(old(Snapshot()), inp).outcome
      ensures Snapshot() == Updated(old(Snapshot()), inp).after
    {
      ghost var s0 := Snapshot();
      if !AttributesValid(Attrs()) {
        return CheckAttributes(Attrs());
      }
      r := Pass;
      ghost var f := Flipped(s0, inp);
      if Contains(rect, inp.mx, inp.my) && inp.primary {
        clicked := true;
      }
      if !Drawable(bgColor) {
        assert Updated(s0, inp) == Transition(Raise(DrawingError), Snapshot());
        return Raise(DrawingError);
      }
      if clicked && !inp.primary {
        checked := PyBool(!checked.b);
        clicked := false;
      }
      assert clicked == f.clicked && checked == PyBool(f.checked);
      if checked == PyBool(true) {
        if checkStyle == PyStr("cross") && style == Circle {
          checkStyle := PyStr("fill");
        } else if !Drawable(checkColor) {
          assert Updated(s0, inp) == Transition(Raise(DrawingError), Snapshot());
          return Raise(DrawingError);
        }
      }
      assert Updated(s0, inp).after == Snapshot();
      if !Drawable(borderColor) {
        return Raise(DrawingError);
      }
    }

    method SetStyle(v: PyValue) returns (r: Outcome)
      modifies this
      ensures r == StyleSet(old(Snapshot()), v).outcome
      ensures Snapshot() == StyleSet(old(Snapshot()), v).after
    {
      if v != PyStr("square") && v != PyStr("circle") {
        return Raise(ValueError("style"));
      }
      if v == PyStr("circle") {
        style := Circle;
        checkStyle := PyStr("fill");
        borderWidth := PyInt(sqBorderWidth + 1);
      } else {
        style := Square;
      }
      r := Pass;
    }

    method Move(vx: PyValue, vy: PyValue) returns (r: Outcome)
      modifies this
      ensures r == Moved(old(Snapshot()), vx, vy).outcome
      ensures Snapshot() == Moved(old(Snapshot()), vx, vy).after
    {
      if !vx.PyInt? {
        return Raise(TypeError("x"));
      }
      if !vy.PyInt? {
        return Raise(TypeError("y"));
      }
      x, y := vx.i, vy.i;
      rect := MovedTo(rect, x, y);
      r := Pass;
    }

    method SetSize(v: PyValue) returns (r: Outcome)
      modifies this
      ensures r == Resized(old(Snapshot()), v).outcome
      ensures Snapshot() == Resized(old(Snapshot()), v).after
    {
      if !v.PyInt? {
        return Raise(TypeError("size"));
      }
      if v.i <= 0 {
        return Raise(ValueError("size"));
      }
      size := v.i;
      rect := Rect(x, y, size, size);
      r := Pass;
    }

    method SetLabel(v: PyValue) returns (r: Outcome)
      modifies this
      ensures r == Labelled(old(Snapshot()), v).outcome
      ensures Snapshot() == Labelled(old(Snapshot()), v).after
    {
      if !v.PyStr? {
        return Raise(TypeError("text"));
      }
      text := v.s;
      r := if Drawable(fontColor) then Pass else Raise(DrawingError);
    }

    method SetFontColor(v: PyValue) returns (r: Outcome)
      modifies this
      ensures r == FontColorSet(old(Snapshot()), v).outcome
      ensures Snapshot() == FontColorSet(old(Snapshot()), v).after
    {
      if !v.PyTuple? {
        return Raise(TypeError("color"));
      }
      if |v.items| == 3 {
        return Raise(ValueError("color"));
      }
      var i := 0;
      while i < |v.items|
        invariant 0 <= i <= |v.items|
        invariant forall j :: 0 <= j < i ==> v.items[j].PyInt?
      {
        if !v.items[i].PyInt? {
          return Raise(TypeError("color"));
        }
        i := i + 1;
      }
      fontColor := v;
      r := if Drawable(v) then Pass else Raise(DrawingError);
    }
  }
}
