/** The push button of pgui/button.py: `_pressed`/`_holding` flags, a callback
    fired on release, and a `move` that only shifts the rect. */
module PguiButton {
  import opened PyValues
  import opened Pygame
  import opened ButtonLogic

  class Button {
    var rect: Rect
    var pressed: bool
    var holding: bool
    var bgColor: Rgb
    var fill: Rgb
    var func: PyValue
    var valuetopass: PyValue

    function Snapshot(): State
      reads this
    {
      State(rect, pressed, holding, bgColor, fill, func, valuetopass)
    }

    constructor (x: int, y: int, width: int, height: int, func0: PyValue, valuetopass0: PyValue)
      ensures Snapshot() == Initial(x, y, width, height, func0, valuetopass0)
    {
      rect := Rect(x, y, width, height);
      bgColor := White;
      valuetopass := valuetopass0;
      func := func0;
      fill := bgColor;
      pressed, holding := false, false;
    }

    /** `update`, without the drawing: `effects` are the notices printed and the
        calls of `func` made, in order, and `r` says whether a fill raised. */
    method Update(inp: Input) returns (effects: seq<Effect>, r: Outcome)
      modifies this
      ensures Snapshot() == Updated(old(Snapshot()), inp).after
      ensures effects == Updated(old(Snapshot()), inp).effects
      ensures r == Updated(old(Snapshot()), inp).outcome
    {
      effects, r := [], Pass;
      if Contains(rect, inp.mx, inp.my) {
        if inp.primary {
          pressed := true;
          var shade := Darkened(bgColor);
          if !InRange(shade) {
            return effects, Raise(DrawingError);
          }
          fill := shade;
        }
        if pressed && !holding {
          holding := true;
          if !Truthy(func) {
            effects := effects + [PressedNotice];
          }
        }
        if !inp.primary && pressed {
          pressed := false;
          holding := false;
          if !Truthy(func) {
            effects := effects + [ReleasedNotice];
          } else {
            if Truthy(valuetopass) {
              effects := effects + [Call([valuetopass])];
            } else {
              effects := effects + [Call([])];
            }
          }
          if !InRange(bgColor) {
            return effects, Raise(DrawingError);
          }
          fill := bgColor;
        }
      }
    }

    /** `move`: only the rect's top-left changes. */
    method Move(x: int, y: int)
      modifies this
      ensures Snapshot() == Moved(old(Snapshot()), x, y)
    {
      rect := MovedTo(rect, x, y);
    }
  }
}
