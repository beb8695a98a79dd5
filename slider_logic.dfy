/** The per-frame logic of the Slider, the same in pgui/slider.py and
    build/lib/pgui/slider.py: drag start and stop, the snap of the pointer to the
    track ends, and the mark read off the pointer's offset. */
module SliderLogic {
  import opened PyValues
  import opened Pygame

  datatype Orientation = Horizontal | Vertical

  /** The pointer's extent along the track, in pixels. */
  const PointerExtent: int := 15

  /** The constructor's orientation check: anything but "vertical" or "horizontal"
      halts the program. */
  function ParseOrientation(s: string): (r: Result<Orientation>)
    ensures r.Ok? <==> s == "vertical" || s == "horizontal"
    ensures r.Err? ==> r.error == SystemExit
    ensures r.Ok? ==> (r.value == Vertical <==> s == "vertical")
  {
    if s == "vertical" then Ok(Vertical)
    else if s == "horizontal" then Ok(Horizontal)
    else Err(SystemExit)
  }

  /** The interaction fields of a Slider: its origin, orientation, track length and
      total size, maximum value, drag flag, cross-axis width, track rect and pointer
      rect (`prect`). */
  datatype State = State(
    x: int,
    y: int,
    orientation: Orientation,
    length: int,
    size: int,
    max: int,
    dragging: bool,
    width: int,
    rect: Rect,
    prect: Rect)

  /** The outcome of a setter and the state it leaves. */
  datatype Transition = Transition(outcome: Outcome, after: State)

  /** The track rect at (x, y): `size` along the axis, `width` across it. */
  function TrackRect(x: int, y: int, o: Orientation, size: int, width: int): (r: Rect)
    ensures r.x == x && r.y == y
  {
    if o == Vertical then Rect(x, y, width, size) else Rect(x, y, size, width)
  }

  /** The pointer rect at (x, y): 15 pixels along the axis, `width` across it. */
  function PointerRect(x: int, y: int, o: Orientation, width: int): (r: Rect)
    ensures r.x == x && r.y == y && Extent(r, o) == PointerExtent
  {
    if o == Vertical then Rect(x, y, width, PointerExtent) else Rect(x, y, PointerExtent, width)
  }

  /** A rect's coordinate along the axis. */
  function Lead(r: Rect, o: Orientation): int
  {
    if o == Vertical then r.y else r.x
  }

  /** A rect's size along the axis. */
  function Extent(r: Rect, o: Orientation): int
  {
    if o == Vertical then r.h else r.w
  }

  /** The slider's own coordinate along the axis. */
  function Start(s: State): int
  {
    if s.orientation == Vertical then s.y else s.x
  }

  /** The pointer's coordinate along the axis. */
  function Coord(inp: Input, o: Orientation): int
  {
    if o == Vertical then inp.my else inp.mx
  }

  /** `prect.y = v` or `prect.x = v`, by orientation. */
  function WithLead(r: Rect, o: Orientation, v: int): (m: Rect)
    ensures Lead(m, o) == v && Extent(m, o) == Extent(r, o)
  {
    if o == Vertical then r.(y := v) else r.(x := v)
  }

  /** `prect.centery = m` or `prect.centerx = m`, by orientation. */
  function WithCenter(r: Rect, o: Orientation, m: int): (c: Rect)
    ensures Extent(c, o) == Extent(r, o)
    ensures Lead(c, o) == m - Half(Extent(r, o))
  {
    if o == Vertical then WithCenterY(r, m) else WithCenterX(r, m)
  }

  /** `__init__` with an accepted orientation: size = length + 15, pointer at the origin. */
  function Initial(x: int, y: int, o: Orientation, length: int, max: int): (s: State)
    ensures s.size == length + PointerExtent && !s.dragging
    ensures Lead(s.prect, o) == Start(s) && s.orientation == o
  {
    State(x, y, o, length, length + PointerExtent, max, false, 20,
          TrackRect(x, y, o, length + PointerExtent, 20), PointerRect(x, y, o, 20))
  }

  /** The shape every slider keeps: size = length + 15, the track rect at the origin
      with that size, and a 15-pixel pointer. */
  ghost predicate Valid(s: State)
  {
    && s.size == s.length + PointerExtent
    && s.rect == TrackRect(s.x, s.y, s.orientation, s.size, s.width)
    && Extent(s.prect, s.orientation) == PointerExtent
  }

  lemma InitialValid(x: int, y: int, o: Orientation, length: int, max: int)
    ensures Valid(Initial(x, y, o, length, max))
  {
  }

  /** The press part of `update`: a primary press on the pointer starts a drag, and
      one anywhere on the track centres the pointer on the mouse along the axis. */
  function Pressed(s: State, inp: Input): (r: State)
    ensures r.dragging <==> s.dragging || (Contains(s.prect, inp.mx, inp.my) && inp.primary)
    ensures Contains(s.rect, inp.mx, inp.my) && inp.primary ==>
      r.prect == WithCenter(s.prect, s.orientation, Coord(inp, s.orientation))
    ensures !(Contains(s.rect, inp.mx, inp.my) && inp.primary) ==> r.prect == s.prect
    ensures r.(dragging := s.dragging, prect := s.prect) == s
  {
    var dragging := if Contains(s.prect, inp.mx, inp.my) && inp.primary then true else s.dragging;
    var prect := if Contains(s.rect, inp.mx, inp.my) && inp.primary then WithCenter(s.prect, s.orientation, Coord(inp, s.orientation)) else s.prect;
    s.(dragging := dragging, prect := prect)
  }

  /** The drag part of `update`: while dragging, a pointer before the track start
      snaps to it and one past `start + size - extent` snaps there, either ending
      the drag; a pointer in between follows the mouse. A released button ends the
      drag. */
  function Dragged(s: State, inp: Input): (r: State)
    ensures !s.dragging ==> r == s
    ensures !inp.primary ==> !r.dragging
    ensures r.dragging ==> s.dragging
    ensures r.(dragging := s.dragging, prect := s.prect) == s
  {
    if !s.dragging then s
    else
      var o, lead, start := s.orientation, Lead(s.prect, s.orientation), Start(s);
      var end := start + s.size - Extent(s.prect, o);
      var s1 :=
        if lead >= start then
          if lead <= end then s.(prect := WithCenter(s.prect, o, Coord(inp, o)))
          else s.(prect := WithLead(s.prect, o, end), dragging := false)
        else s.(prect := WithLead(s.prect, o, start), dragging := false);
      if !inp.primary then s1.(dragging := false) else s1
  }

  /** `update`, without the drawing. */
  function Updated(s: State, inp: Input): (r: State)
    ensures r.dragging ==> inp.primary
    ensures r.(dragging := s.dragging, prect := s.prect) == s
  {
    Dragged(Pressed(s, inp), inp)
  }

  /** `get_mark`: `round(offset / length * max)` for the pointer's offset from the
      slider origin along the axis; a zero length raises ZeroDivisionError. */
  function Mark(s: State): (r: Result<int>)
    ensures r.Err? <==> s.length == 0
    ensures r.Err? ==> r.error == ZeroDivisionError
    ensures r.Ok? ==> 2 * Abs((Lead(s.prect, s.orientation) - Start(s)) * s.max - r.value * s.length) <= Abs(s.length)
    // halfway between two integers, the even one is taken
    ensures r.Ok? && 2 * Abs((Lead(s.prect, s.orientation) - Start(s)) * s.max - r.value * s.length) == Abs(s.length) ==>
      r.value % 2 == 0
  {
    if s.length == 0 then Err(ZeroDivisionError)
    else Ok(RoundHalfEven((Lead(s.prect, s.orientation) - Start(s)) * s.max, s.length))
  }

  /** `set_width`: the track is rebuilt with the new width, then the pointer and
      track surfaces are made, and the pointer goes back to the origin. A negative
      width or size makes a surface raise after the track is rebuilt, with the
      pointer left where it was. */
  function WidthSet(s: State, w: int): (t: Transition)
    ensures t.outcome.Pass? <==> w >= 0 && s.size >= 0
    ensures t.outcome.Raise? ==> t.outcome.error == DrawingError && t.after.prect == s.prect
    ensures t.outcome.Pass? ==> t.after.prect == PointerRect(s.x, s.y, s.orientation, w)
    ensures t.after.width == w && t.after.rect == TrackRect(s.x, s.y, s.orientation, s.size, w)
    ensures t.after.(width := s.width, rect := s.rect, prect := s.prect) == s
  {
    var s1 := s.(width := w, rect := TrackRect(s.x, s.y, s.orientation, s.size, w));
    if w < 0 || s.size < 0 then Transition(Raise(DrawingError), s1)
    else Transition(Pass, s1.(prect := PointerRect(s.x, s.y, s.orientation, w)))
  }

  /** `set_length`: length, size and track change, then the pointer and track
      surfaces are made, which raises for a negative width or size; the pointer
      rect does not change either way. */
  function LengthSet(s: State, length: int): (t: Transition)
    ensures t.outcome.Pass? <==> s.width >= 0 && length + PointerExtent >= 0
    ensures t.outcome.Raise? ==> t.outcome.error == DrawingError
    ensures t.after.length == length && t.after.size == length + PointerExtent
    ensures t.after.rect == TrackRect(s.x, s.y, s.orientation, length + PointerExtent, s.width)
    ensures t.after.(length := s.length, size := s.size, rect := s.rect) == s
  {
    var s1 := s.(length := length, size := length + PointerExtent,
                 rect := TrackRect(s.x, s.y, s.orientation, length + PointerExtent, s.width));
    if s.width < 0 || length + PointerExtent < 0 then Transition(Raise(DrawingError), s1) else Transition(Pass, s1)
  }

  /** `set_max`. */
  function MaxSet(s: State, max: int): (r: State)
    ensures r.max == max && r.(max := s.max) == s
  {
    s.(max := max)
  }

  /** `move`: the origin, the track's and the pointer's top-left all go to (x, y). */
  function Moved(s: State, x: int, y: int): (r: State)
    ensures r.x == x && r.y == y && r.rect == MovedTo(s.rect, x, y) && r.prect == MovedTo(s.prect, x, y)
    ensures r.(x := s.x, y := s.y, rect := s.rect, prect := s.prect) == s
  {
    s.(x := x, y := y, rect := MovedTo(s.rect, x, y), prect := MovedTo(s.prect, x, y))
  }

  // ---------------------------------------------------------------- properties

  /** Every operation keeps the slider's shape. */
  lemma OperationsPreserveValid(s: State, inp: Input, w: int, length: int, max: int, x: int, y: int)
    requires Valid(s)
    ensures Valid(Updated(s, inp)) && Valid(WidthSet(s, w).after) && Valid(LengthSet(s, length).after)
    ensures Valid(MaxSet(s, max)) && Valid(Moved(s, x, y))
  {
  }

  /** Moving twice to the same place is moving once. */
  lemma MovedIdempotent(s: State, x: int, y: int)
    ensures Moved(Moved(s, x, y), x, y) == Moved(s, x, y)
  {
  }

  /** Releasing the primary button always ends the drag, and a frame with the
      button held never starts one off the pointer. */
  lemma ReleaseEndsDrag(s: State, inp: Input)
    ensures !inp.primary ==> !Updated(s, inp).dragging
    ensures Updated(s, inp).dragging ==> s.dragging || Contains(s.prect, inp.mx, inp.my)
  {
  }

  /** A press on the track puts the pointer's centre under the mouse along the axis:
      its lead edge is 7 pixels before the mouse. */
  lemma TrackPressCentresPointer(s: State, inp: Input)
    requires Valid(s) && Contains(s.rect, inp.mx, inp.my) && inp.primary
    ensures Lead(Pressed(s, inp).prect, s.orientation) == Coord(inp, s.orientation) - 7
  {
  }

  /** While dragging, a pointer before the track start snaps to the start, the drag
      ends, and the mark is 0. */
  lemma SnapToStart(s: State, inp: Input)
    requires Valid(s) && s.dragging && Lead(s.prect, s.orientation) < Start(s)
    ensures Dragged(s, inp) == s.(prect := WithLead(s.prect, s.orientation, Start(s)), dragging := false)
    ensures s.length != 0 ==> Mark(Dragged(s, inp)) == Ok(0)
  {
    var t := s.(prect := WithLead(s.prect, s.orientation, Start(s)), dragging := false);
    assert Dragged(s, inp) == t;
    if s.length != 0 {
      MarkAtStart(t);
    }
  }

  /** While dragging, a pointer past the end snaps to `start + length`, the drag
      ends, and the mark is the maximum. */
  lemma SnapToEnd(s: State, inp: Input)
    requires Valid(s) && s.dragging && s.length >= 0 && Lead(s.prect, s.orientation) > Start(s) + s.length
    ensures Dragged(s, inp) == s.(prect := WithLead(s.prect, s.orientation, Start(s) + s.length), dragging := false)
    ensures s.length != 0 ==> Mark(Dragged(s, inp)) == Ok(s.max)
  {
    var t := s.(prect := WithLead(s.prect, s.orientation, Start(s) + s.length), dragging := false);
    assert Dragged(s, inp) == t;
    if s.length != 0 {
      assert (Lead(t.prect, s.orientation) - Start(t)) * s.max == s.max * s.length;
      RoundOfMultiple(s.max, s.length);
    }
  }

  /** While dragging with the pointer within the span, it follows the mouse. */
  lemma DragFollowsMouse(s: State, inp: Input)
    requires Valid(s) && s.dragging && inp.primary
    requires Start(s) <= Lead(s.prect, s.orientation) <= Start(s) + s.length
    ensures Lead(Dragged(s, inp).prect, s.orientation) == Coord(inp, s.orientation) - 7
    ensures Dragged(s, inp).dragging
  {
  }

  /** The pointer at the origin reads 0. */
  lemma MarkAtStart(s: State)
    requires s.length != 0 && Lead(s.prect, s.orientation) == Start(s)
    ensures Mark(s) == Ok(0)
  {
    assert (Lead(s.prect, s.orientation) - Start(s)) * s.max == 0 * s.length;
    RoundOfMultiple(0, s.length);
  }

  /** `move` and a `set_width` that does not raise put the pointer at the origin,
      so the mark reads 0. */
  lemma MoveAndSetWidthResetMark(s: State, x: int, y: int, w: int)
    requires s.length != 0
    ensures Mark(Moved(s, x, y)) == Ok(0)
    ensures WidthSet(s, w).outcome.Pass? ==> Mark(WidthSet(s, w).after) == Ok(0)
  {
    MarkAtStart(Moved(s, x, y));
    if WidthSet(s, w).outcome.Pass? {
      MarkAtStart(WidthSet(s, w).after);
    }
  }

  /** `set_length` leaves the pointer where it was, inside the span or not, and
      whether or not it raises. */
  lemma SetLengthKeepsPointer(s: State, length: int)
    ensures LengthSet(s, length).after.prect == s.prect && LengthSet(s, length).after.dragging == s.dragging
  {
  }

  /** For a positive length and a non-negative maximum, the mark does not decrease
      as the pointer moves forward. */
  lemma MarkMonotone(s: State, t: State)
    requires s.length > 0 && s.max >= 0 && t == s.(prect := t.prect)
    requires Lead(s.prect, s.orientation) <= Lead(t.prect, s.orientation)
    ensures Mark(s).value <= Mark(t).value
  {
    var d1, d2 := Lead(s.prect, s.orientation) - Start(s), Lead(t.prect, s.orientation) - Start(s);
    MulLe(d1, d2, s.max);
    RoundMonotone(d1 * s.max, d2 * s.max, s.length);
  }

  /** A press on the track is not clamped: on a 200-pixel horizontal slider at the
      origin with maximum 100, a press at (0, 5) away from the pointer leaves the
      pointer 7 pixels before the start, reading -4 until a drag snaps it back. */
  lemma TrackPressLeavesSpan()
    ensures var s := Initial(0, 0, Horizontal, 200, 100).(prect := Rect(100, 0, 15, 20));
      var t := Updated(s, Input(0, 5, true, {}));
      && Valid(s) && t.prect.x == -7 && !t.dragging && Mark(t) == Ok(-4)
  {
    var s := Initial(0, 0, Horizontal, 200, 100).(prect := Rect(100, 0, 15, 20));
    var t := Updated(s, Input(0, 5, true, {}));
    assert t.prect.x == -7;
    assert 2 * Abs(-700 - (-4) * 200) <= 200;
    assert RoundHalfEven(-700, 200) == -4;
  }
}
