/** The push button of build/lib/pgui/button.py: the same press/hold/release
    machine, plus a border rect that `move` recomputes and a label text. */
module BuildButton {
  import opened PyValues
  import opened Pygame
  import ButtonLogic

  /** The border drawn around a rect of the given border width: shifted up and left
      by `width - 2` and grown by `width`. */
  function BorderFor(r: Rect, width: int): (b: Rect)
    ensures b.x + b.w == r.x + r.w + 2 && b.y + b.h == r.y + r.h + 2
    ensures r.x - b.x == width - 2 && r.y - b.y == width - 2
  {
    Rect(r.x - width + 2, r.y - width + 2, r.w + width, r.h + width)
  }

  /** Every point of `inner` lies in `outer`. */
  predicate Encloses(outer: Rect, inner: Rect)
  {
    outer.x <= inner.x && outer.y <= inner.y
    && inner.x + inner.w <= outer.x + outer.w && inner.y + inner.h <= outer.y + outer.h
  }

  /** Every modelled field: the interaction fields, the border and the label text. */
  datatype State = State(core: ButtonLogic.State, borderWidth: int, border: Rect, text: string)

  /** `__init__`: border width 5 and the border around the rect. */
  function Initial(x: int, y: int, w: int, h: int, func: PyValue, text: string, v: PyValue): (s: State)
    ensures s.core == ButtonLogic.Initial(x, y, w, h, func, v)
    ensures s.border == BorderFor(s.core.rect, 5) && s.borderWidth == 5 && s.text == text
  {
    State(ButtonLogic.Initial(x, y, w, h, func, v), 5, BorderFor(Rect(x, y, w, h), 5), text)
  }

  /** `move`: the rect's top-left goes to (x, y) and the border is rebuilt around
      it from the current border width. */
  function Moved(s: State, x: int, y: int): (r: State)
    ensures r.core == ButtonLogic.Moved(s.core, x, y)
    ensures r.border == BorderFor(MovedTo(s.core.rect, x, y), s.borderWidth)
    ensures r.(core := s.core, border := s.border) == s
  {
    var core := ButtonLogic.Moved(s.core, x, y);
    s.(core := core, border := BorderFor(core.rect, s.borderWidth))
  }

  /** Moving twice to the same place is the same as moving once. */
  lemma MovedIdempotent(s: State, x: int, y: int)
    ensures Moved(Moved(s, x, y), x, y) == Moved(s, x, y)
  {
  }

  /** After a move the border encloses the button exactly when the border width is
      at least 2; a thinner border is pushed right and down, off the rect's corner. */
  lemma BorderEnclosesRect(s: State, x: int, y: int)
    ensures Encloses(Moved(s, x, y).border, Moved(s, x, y).core.rect) <==> s.borderWidth >= 2
  {
  }

  /** `set_border_width`: only the width is stored; the border rect keeps its old
      geometry until the next `move`. */
  function BorderWidthSet(s: State, width: int): (r: State)
    ensures r.borderWidth == width && r.border == s.border
    ensures r.(borderWidth := s.borderWidth) == s
  {
    s.(borderWidth := width)
  }

  /** A new border width reaches the border rect only through `move`. */
  lemma BorderWidthAppliedByMove(s: State, width: int, x: int, y: int)
    ensures BorderWidthSet(s, width).border == s.border
    ensures Moved(BorderWidthSet(s, width), x, y).border == BorderFor(MovedTo(s.core.rect, x, y), width)
  {
  }

  /** `set_label`: the text is stored exactly as given. */
  function LabelSet(s: State, text: string): (r: State)
    ensures r.text == text
    ensures r.(text := s.text) == s
  {
    s.(text := text)
  }

  /** The last label set wins, and moving keeps it. */
  lemma LabelSetLastWins(s: State, a: string, b: string, x: int, y: int)
    ensures LabelSet(LabelSet(s, a), b) == LabelSet(s, b)
    ensures Moved(LabelSet(s, a), x, y).text == a
  {
  }

  class Button {
    var rect: Rect
    var pressed: bool
    var holding: bool
    var bgcolor: ButtonLogic.Rgb
    var fill: ButtonLogic.Rgb
    var func: PyValue
    var valuetopass: PyValue
    var borderWidth: int
    var border: Rect
    var text: string

    function Core(): ButtonLogic.State
      reads this
    {
      ButtonLogic.State(rect, pressed, holding, bgcolor, fill, func, valuetopass)
    }

    function Snapshot(): State
      reads this
    {
      State(Core(), borderWidth, border, text)
    }

    constructor (x: int, y: int, width: int, height: int, func0: PyValue, text0: string, valuetopass0: PyValue)
      ensures Snapshot() == Initial(x, y, width, height, func0, text0, valuetopass0)
    {
      rect := Rect(x, y, width, height);
      text := text0;
      borderWidth := 5;
      border := Rect(x - 5 + 2, y - 5 + 2, width + 5, height + 5);
      bgcolor := ButtonLogic.White;
      fill := bgcolor;
      valuetopass := valuetopass0;
      pressed, holding := false, false;
      func := func0;
    }

    /** `update`, without the drawing: `effects` are the notices printed and the
        calls of `func` made, in order, and `r` says whether a fill raised; the
        border and the text are untouched. */
    method Update(inp: Input) returns (effects: seq<ButtonLogic.Effect>, r: Outcome)
      modifies this
      ensures Snapshot() == old(Snapshot()).(core := ButtonLogic.Updated(old(Core()), inp).after)
      ensures effects == ButtonLogic.Updated(old(Core()), inp).effects
      ensures r == ButtonLogic.Updated(old(Core()), inp).outcome
    {
      effects, r := [], Pass;
      if Contains(rect, inp.mx, inp.my) {
        if inp.primary {
          pressed := true;
          var shade := ButtonLogic.Darkened(bgcolor);
          if !ButtonLogic.InRange(shade) {
            return effects, Raise(DrawingError);
          }
          fill := shade;
        }
        if pressed && !holding {
          holding := true;
          if !Truthy(func) {
            effects := effects + [ButtonLogic.PressedNotice];
          }
        }
        if !inp.primary && pressed {
          pressed := false;
          holding := false;
          if !Truthy(func) {
            effects := effects + [ButtonLogic.ReleasedNotice];
          } else {
            if Truthy(valuetopass) {
              effects := effects + [ButtonLogic.Call([valuetopass])];
            } else {
              effects := effects + [ButtonLogic.Call([])];
            }
          }
          if !ButtonLogic.InRange(bgcolor) {
            return effects, Raise(DrawingError);
          }
          fill := bgcolor;
        }
      }
    }

    method SetBorderWidth(width: int)
      modifies this
      ensures Snapshot() == BorderWidthSet(old(Snapshot()), width)
    {
      borderWidth := width;
    }

    method SetLabel(text0: string)
      modifies this
      ensures Snapshot() == LabelSet(old(Snapshot()), text0)
    {
      text := text0;
    }

    method Move(x: int, y: int)
      modifies this
      ensures Snapshot() == Moved(old(Snapshot()), x, y)
    {
      rect := MovedTo(rect, x, y);
      border := Rect(rect.x - borderWidth + 2, rect.y - borderWidth + 2, rect.w + borderWidth, rect.h + borderWidth);
    }
  }
}
