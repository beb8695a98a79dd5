/** The slider of build/lib/pgui/slider.py: a `Slider` class whose methods assign its fields
    as the source does, each proved against the transitions of SliderLogic. */
module BuildSlider {
  import opened PyValues
  import opened Pygame
  import opened SliderLogic

  class Slider {
    var x: int
    var y: int
    var orientation: Orientation
    var length: int
    var size: int
    var max: int
    var dragging: bool
    var width: int
    var rect: Rect
    var prect: Rect

    function Snapshot(): State
      reads this
    {
      State(x, y, orientation, length, size, max, dragging, width, rect, prect)
    }

    /** `__init__` once the orientation is accepted. */
    constructor (x0: int, y0: int, o: Orientation, length0: int, max0: int)
      ensures Snapshot() == Initial(x0, y0, o, length0, max0)
    {
      x, y, orientation := x0, y0, o;
      length, size, max := length0, length0 + PointerExtent, max0;
      dragging, width := false, 20;
      if o == Vertical {
        rect := Rect(x0, y0, 20, length0 + PointerExtent);
        prect := Rect(x0, y0, 20, PointerExtent);
      } else {
        rect := Rect(x0, y0, length0 + PointerExtent, 20);
        prect := Rect(x0, y0, PointerExtent, 20);
      }
    }

    /** `Slider(...)`: an orientation other than "vertical" or "horizontal" halts
        with SystemExit, and a length below -15 makes the track surface raise;
        either way nothing is built. */
    static method Create(x0: int, y0: int, orientation0: string, length0: int, max0: int) returns (r: Result<Slider>)
      ensures r.Err? <==> ParseOrientation(orientation0).Err? || length0 + PointerExtent < 0
      ensures r.Err? ==> r.error == (if ParseOrientation(orientation0).Err? then SystemExit else DrawingError)
      ensures r.Ok? ==> fresh(r.value) && r.value.Snapshot() == Initial(x0, y0, ParseOrientation(orientation0).value, length0, max0)
    {
      var o: Orientation;
      if orientation0 == "vertical" {
        o := Vertical;
      } else if orientation0 == "horizontal" {
        o := Horizontal;
      } else {
        return Err(SystemExit);
      }
      if length0 + PointerExtent < 0 {
        return Err(DrawingError);
      }
      var s := new Slider(x0, y0, o, length0, max0);
      r := Ok(s);
    }

    /** `update`, without the drawing: the press part, then the drag part. */
    method Update(inp: Input)
      modifies this
      ensures Snapshot() == Updated(old(Snapshot()), inp)
    {
      Press(inp);
      Drag(inp);
    }

    /** The press part of `update`. */
    method Press(inp: Input)
      modifies this
      ensures Snapshot() == Pressed(old(Snapshot()), inp)
    {
      if Contains(prect, inp.mx, inp.my) && inp.primary {
        dragging := true;
      }
      if Contains(rect, inp.mx, inp.my) && inp.primary {
        if orientation == Vertical {
          prect := WithCenterY(prect, inp.my);
        } else {
          prect := WithCenterX(prect, inp.mx);
        }
      }
    }

    /** The drag part of `update`. */
    method Drag(inp: Input)
      modifies this
      ensures Snapshot() == Dragged(old(Snapshot()), inp)
    {
      if orientation == Vertical {
        if dragging {
          if prect.y >= y {
            if prect.y <= y + size - prect.h {
              prect := WithCenterY(prect, inp.my);
            } else {
              prect := prect.(y := y + size - prect.h);
              dragging := false;
            }
          } else {
            prect := prect.(y := y);
            dragging := false;
          }
          if !inp.primary {
            dragging := false;
          }
        }
      } else {
        if dragging {
          if prect.x >= x {
            if prect.x <= x + size - prect.w {
              prect := WithCenterX(prect, inp.mx);
            } else {
              prect := prect.(x := x + size - prect.w);
              dragging := false;
            }
          } else {
            prect := prect.(x := x);
            dragging := false;
          }
          if !inp.primary {
            dragging := false;
          }
        }
      }
    }

    /** `get_mark`. */
    method GetMark() returns (r: Result<int>)
      ensures r == Mark(Snapshot())
    {
      if length == 0 {
        return Err(ZeroDivisionError);
      }
      if orientation == Horizontal {
        r := Ok(RoundHalfEven((prect.x - x) * max, length));
      } else {
        r := Ok(RoundHalfEven((prect.y - y) * max, length));
      }
    }

    /** `set_width`. */
    method SetWidth(w: int) returns (r: Outcome)
      modifies this
      ensures r == WidthSet(old(Snapshot()), w).outcome
      ensures Snapshot() == WidthSet(old(Snapshot()), w).after
    {
      width := w;
      if orientation == Vertical {
        rect := Rect(x, y, width, size);
      } else {
        rect := Rect(x, y, size, width);
      }
      if width < 0 || size < 0 {
        return Raise(DrawingError);
      }
      if orientation == Vertical {
        prect := Rect(x, y, width, PointerExtent);
      } else {
        prect := Rect(x, y, PointerExtent, width);
      }
      r := Pass;
    }

    /** `set_max`. */
    method SetMax(m: int)
      modifies this
      ensures Snapshot() == MaxSet(old(Snapshot()), m)
    {
      max := m;
    }

    /** `set_length`. */
    method SetLength(l: int) returns (r: Outcome)
      modifies this
      ensures r == LengthSet(old(Snapshot()), l).outcome
      ensures Snapshot() == LengthSet(old(Snapshot()), l).after
    {
      length := l;
      size := l + PointerExtent;
      if orientation == Vertical {
        rect := Rect(x, y, width, size);
      } else {
        rect := Rect(x, y, size, width);
      }
      r := if width < 0 || size < 0 then Raise(DrawingError) else Pass;
    }

    /** `move`. */
    method Move(x0: int, y0: int)
      modifies this
      ensures Snapshot() == Moved(old(Snapshot()), x0, y0)
    {
      x, y := x0, y0;
      rect := MovedTo(rect, x0, y0);
      prect := MovedTo(prect, x0, y0);
    }
  }
}
