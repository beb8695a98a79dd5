/** The press/hold/release machine shared by both revisions of the push button:
    the two flags, the colour the button's image is filled with, and what a frame
    does besides changing state (a console notice or a call of `func`). */
module ButtonLogic {
  import opened PyValues
  import opened Pygame

  /** An RGB colour as the widget stores it: three integers, not clamped to 0..255. */
  datatype Rgb = Rgb(r: int, g: int, b: int)

  const White := Rgb(255, 255, 255)

  predicate InRange(c: Rgb)
  {
    0 <= c.r <= 255 && 0 <= c.g <= 255 && 0 <= c.b <= 255
  }

  /** The shade shown while the button is pressed: 40 less on every channel. */
  function Darkened(c: Rgb): (d: Rgb)
    ensures d.r < c.r && d.g < c.g && d.b < c.b
  {
    Rgb(c.r - 40, c.g - 40, c.b - 40)
  }

  /** The shade stays a valid colour exactly when every channel is at least 40:
      nothing clamps it at 0. */
  lemma DarkenedInRange(c: Rgb)
    requires InRange(c)
    ensures InRange(Darkened(c)) <==> c.r >= 40 && c.g >= 40 && c.b >= 40
  {
  }

  /** What a frame does besides changing state, in order. */
  datatype Effect =
    | PressedNotice       // the "has been pressed" line printed without a `func`
    | ReleasedNotice      // the "has been released" line printed without a `func`
    | Call(args: seq<PyValue>)  // `func(*args)`

  /** The interaction fields of a button. `fill` is the colour the image was last
      filled with; `func` and `valuetopass` are the public attributes. */
  datatype State = State(
    rect: Rect,
    pressed: bool,
    holding: bool,
    bg: Rgb,
    fill: Rgb,
    func: PyValue,
    valuetopass: PyValue)

  /** A frame's new state, its effects, and whether it ended by raising. */
  datatype Frame = Frame(after: State, effects: seq<Effect>, outcome: Outcome)

  /** `__init__`: neither pressed nor held, white, filled white. */
  function Initial(x: int, y: int, w: int, h: int, func: PyValue, v: PyValue): (s: State)
    ensures !s.pressed && !s.holding && s.fill == s.bg == White
    ensures s.rect == Rect(x, y, w, h) && s.func == func && s.valuetopass == v
  {
    State(Rect(x, y, w, h), false, false, White, White, func, v)
  }

  /** The effect of a release: the notice without a truthy `func`, otherwise a call
      of `func` with `valuetopass` as its one argument when that is truthy, and
      with no argument when it is falsy. */
  function ReleaseEffect(func: PyValue, v: PyValue): (e: Effect)
    ensures e.Call? <==> Truthy(func)
    ensures !e.Call? ==> e == ReleasedNotice
    ensures e.Call? ==> (e.args != [] <==> Truthy(v)) && (e.args == [] || e.args == [v])
  {
    if !Truthy(func) then ReleasedNotice
    else if Truthy(v) then Call([v])
    else Call([])
  }

  predicate IsRelease(e: Effect)
  {
    e.ReleasedNotice? || e.Call?
  }

  /** The press that sets `pressed` and then fails to fill the image with a shade
      that has a negative channel. */
  predicate PressRaises(s: State, inp: Input)
  {
    Contains(s.rect, inp.mx, inp.my) && inp.primary && !InRange(Darkened(s.bg))
  }

  /** The release that resets the flags and fires, then fails to fill the image
      with a background that has a channel outside 0..255. */
  predicate ReleaseRaises(s: State, inp: Input)
  {
    Contains(s.rect, inp.mx, inp.my) && !inp.primary && s.pressed && !InRange(s.bg)
  }

  /** `update`, without the drawing. Inside the rect a held primary button presses
      (and darkens the image), a pressed button becomes held (with a notice when
      there is no `func`), and a pressed button with the primary button up is
      released (notice or call, and the image is filled with the background again).
      Either fill raises when its colour has a channel outside 0..255, ending the
      frame where it stands. */
  function Updated(s: State, inp: Input): (f: Frame)
    ensures !Contains(s.rect, inp.mx, inp.my) ==> f == Frame(s, [], Pass)
    ensures f.after.rect == s.rect && f.after.bg == s.bg
    ensures f.after.func == s.func && f.after.valuetopass == s.valuetopass
    ensures f.outcome.Raise? <==> PressRaises(s, inp) || ReleaseRaises(s, inp)
    ensures f.outcome.Raise? ==> f.outcome.error == DrawingError
    // a failed darkening stops the frame right after `pressed` is set
    ensures PressRaises(s, inp) ==> f == Frame(s.(pressed := true), [], Raise(DrawingError))
    ensures Contains(s.rect, inp.mx, inp.my) && (s.holding ==> s.pressed) && !PressRaises(s, inp) ==>
      f.after.holding == f.after.pressed
    ensures Contains(s.rect, inp.mx, inp.my) ==>
      && f.after.pressed == inp.primary
      && (inp.primary && f.outcome.Pass? ==> f.after.fill == Darkened(s.bg))
    ensures Releases(f.effects) == if Contains(s.rect, inp.mx, inp.my) && !inp.primary && s.pressed then 1 else 0
    ensures Contains(s.rect, inp.mx, inp.my) && !inp.primary && s.pressed ==>
      && f.effects[|f.effects| - 1] == ReleaseEffect(s.func, s.valuetopass)
      && f.after.fill == (if InRange(s.bg) then s.bg else s.fill)
    ensures PressedNotice in f.effects <==>
      Contains(s.rect, inp.mx, inp.my) && (inp.primary || s.pressed) && !s.holding && !Truthy(s.func)
      && !PressRaises(s, inp)
  {
    if !Contains(s.rect, inp.mx, inp.my) then Frame(s, [], Pass)
    else if inp.primary && !InRange(Darkened(s.bg)) then Frame(s.(pressed := true), [], Raise(DrawingError))
    else
      var s1 := if inp.primary then s.(pressed := true, fill := Darkened(s.bg)) else s;
      var held := s1.pressed && !s1.holding;
      var s2 := if held then s1.(holding := true) else s1;
      var e2: seq<Effect> := if held && !Truthy(s.func) then [PressedNotice] else [];
      if !inp.primary && s2.pressed then
        var r := ReleaseEffect(s.func, s.valuetopass);
        ReleasesOfOne(PressedNotice);
        ReleasesOfOne(r);
        ReleasesConcat(e2, [r]);
        var s3 := s2.(pressed := false, holding := false);
        if InRange(s.bg) then Frame(s3.(fill := s.bg), e2 + [r], Pass)
        else Frame(s3, e2 + [r], Raise(DrawingError))
      else
        ReleasesOfOne(PressedNotice);
        Frame(s2, e2, Pass)
  }

  /** Both flags are only ever set together or cleared together. */
  predicate Valid(s: State)
  {
    s.holding == s.pressed
  }

  lemma InitialValid(x: int, y: int, w: int, h: int, func: PyValue, v: PyValue)
    ensures Valid(Initial(x, y, w, h, func, v))
  {
  }

  /** Every frame that does not raise keeps the two flags equal; a frame that
      raises still keeps `holding` implying `pressed`; and a frame emits at most
      one effect. */
  lemma UpdatePreservesValid(s: State, inp: Input)
    requires Valid(s)
    ensures Updated(s, inp).outcome.Pass? ==> Valid(Updated(s, inp).after)
    ensures Updated(s, inp).after.holding ==> Updated(s, inp).after.pressed
    ensures |Updated(s, inp).effects| <= 1
  {
  }

  /** A background with a channel below 40 cannot be darkened: the first press over
      an idle button sets `pressed` and raises before `holding` is set, so the
      flags part. */
  lemma DarkBackgroundStopsPress(s: State, px: int, py: int)
    requires Contains(s.rect, px, py) && Valid(s) && !s.pressed
    requires s.bg.r < 40 || s.bg.g < 40 || s.bg.b < 40
    ensures Updated(s, Input(px, py, true, {})) == Frame(s.(pressed := true), [], Raise(DrawingError))
    ensures !Valid(Updated(s, Input(px, py, true, {})).after)
  {
  }

  /** The frames of N press-then-release cycles with the pointer at (px, py). */
  function Cycles(n: nat, px: int, py: int): seq<Input>
  {
    if n == 0 then [] else [Input(px, py, true, {}), Input(px, py, false, {})] + Cycles(n - 1, px, py)
  }

  /** The state after one `update` per frame, and all the frames' effects in order;
      a frame that raises ends the run. */
  function Run(s: State, frames: seq<Input>): Frame
    decreases |frames|
  {
    if frames == [] then Frame(s, [], Pass)
    else
      var f0 := Updated(s, frames[0]);
      if f0.outcome.Raise? then f0
      else
        var rest := Run(f0.after, frames[1..]);
        Frame(rest.after, f0.effects + rest.effects, rest.outcome)
  }

  /** The number of releases among some effects. */
  function Releases(es: seq<Effect>): nat
    decreases |es|
  {
    if |es| == 0 then 0 else (if IsRelease(es[0]) then 1 else 0) + Releases(es[1..])
  }

  lemma {:induction false} ReleasesConcat(a: seq<Effect>, b: seq<Effect>)
    ensures Releases(a + b) == Releases(a) + Releases(b)
    decreases |a|
  {
    if a != [] {
      assert (a + b)[0] == a[0] && (a + b)[1..] == a[1..] + b;
      ReleasesConcat(a[1..], b);
    } else {
      assert a + b == b;
    }
  }

  lemma ReleasesOfOne(e: Effect)
    ensures Releases([e]) == if IsRelease(e) then 1 else 0
  {
    assert [e][1..] == [];
  }

  /** One press/release cycle: the "pressed" notice without a `func`, then the release. */
  function CycleEffects(func: PyValue, v: PyValue): (es: seq<Effect>)
    ensures Releases(es) == 1
  {
    var r := ReleaseEffect(func, v);
    assert Releases([r]) == 1;
    if Truthy(func) then [r]
    else
      assert [PressedNotice, r][1..] == [r];
      [PressedNotice, r]
  }

  function Repeat(es: seq<Effect>, n: nat): seq<Effect>
  {
    if n == 0 then [] else es + Repeat(es, n - 1)
  }

  /** One press-then-release cycle inside an idle button with a drawable shade
      passes twice, emits the cycle's effects, and leaves the button idle. */
  lemma OneCycle(s: State, px: int, py: int)
    requires Contains(s.rect, px, py) && !s.pressed && !s.holding
    requires InRange(s.bg) && InRange(Darkened(s.bg))
    ensures var f1 := Updated(s, Input(px, py, true, {}));
      var f2 := Updated(f1.after, Input(px, py, false, {}));
      && f1.outcome == Pass && f2.outcome == Pass && f2.after == s.(fill := s.bg)
      && f1.effects + f2.effects == CycleEffects(s.func, s.valuetopass)
  {
    var f1 := Updated(s, Input(px, py, true, {}));
    assert f1.after.pressed && f1.after.holding;
  }

  /** A run whose first two frames pass continues from the state they leave. */
  lemma RunTwo(s: State, a: Input, b: Input, rest: seq<Input>)
    requires Updated(s, a).outcome.Pass? && Updated(Updated(s, a).after, b).outcome.Pass?
    ensures var f1 := Updated(s, a);
      var f2 := Updated(f1.after, b);
      var tail := Run(f2.after, rest);
      Run(s, [a, b] + rest) == Frame(tail.after, f1.effects + (f2.effects + tail.effects), tail.outcome)
  {
    var frames := [a, b] + rest;
    assert frames[0] == a && frames[1..] == [b] + rest;
    assert ([b] + rest)[0] == b && ([b] + rest)[1..] == rest;
  }

  /** A run that starts with one cycle inside an idle button with a drawable shade
      emits the cycle's effects and goes on from the idle button. */
  lemma CycleThenRun(s: State, px: int, py: int, rest: seq<Input>)
    requires Contains(s.rect, px, py) && !s.pressed && !s.holding
    requires InRange(s.bg) && InRange(Darkened(s.bg))
    ensures var tail := Run(s.(fill := s.bg), rest);
      Run(s, [Input(px, py, true, {}), Input(px, py, false, {})] + rest)
        == Frame(tail.after, CycleEffects(s.func, s.valuetopass) + tail.effects, tail.outcome)
  {
    OneCycle(s, px, py);
    RunTwo(s, Input(px, py, true, {}), Input(px, py, false, {}), rest);
  }

  /** N press-then-release cycles inside an idle button release it N times: each
      cycle emits exactly the cycle's effects, so `func` is called once per cycle
      (or the two notices are printed), and the button ends idle, filled with its
      background colour, provided every channel of that colour is in 40..255. */
  lemma {:induction false} CyclesFireOncePerCycle(s: State, n: nat, px: int, py: int)
    requires Contains(s.rect, px, py) && !s.pressed && !s.holding
    requires InRange(s.bg) && InRange(Darkened(s.bg))
    ensures Run(s, Cycles(n, px, py)).outcome == Pass
    ensures Run(s, Cycles(n, px, py)).effects == Repeat(CycleEffects(s.func, s.valuetopass), n)
    ensures Releases(Run(s, Cycles(n, px, py)).effects) == n
    ensures Run(s, Cycles(n, px, py)).after == if n == 0 then s else s.(fill := s.bg)
    decreases n
  {
    var es := CycleEffects(s.func, s.valuetopass);
    if n > 0 {
      var press, release := Input(px, py, true, {}), Input(px, py, false, {});
      var rest := Cycles(n - 1, px, py);
      var t := s.(fill := s.bg);
      assert Cycles(n, px, py) == [press, release] + rest;
      CycleThenRun(s, px, py, rest);
      CyclesFireOncePerCycle(t, n - 1, px, py);
      assert Repeat(es, n) == es + Repeat(es, n - 1);
      ReleasesConcat(es, Repeat(es, n - 1));
    }
  }

  /** Releasing the primary button outside the rect keeps the button pressed, and the
      release fires on a later frame with the pointer back inside and the button up. */
  lemma ReleaseOutsideDefersRelease(s: State, px: int, py: int, qx: int, qy: int)
    requires Contains(s.rect, px, py) && !Contains(s.rect, qx, qy) && !s.pressed && !s.holding
    requires InRange(Darkened(s.bg))
    ensures
      var f1 := Updated(s, Input(px, py, true, {}));
      var f2 := Updated(f1.after, Input(qx, qy, false, {}));
      var f3 := Updated(f2.after, Input(px, py, false, {}));
      && f2.after.pressed && f2.after.holding && f2.effects == []
      && f3.effects == [ReleaseEffect(s.func, s.valuetopass)]
      && !f3.after.pressed && !f3.after.holding
  {
  }

  /** A falsy `valuetopass` (None, 0, False or "") makes the release call `func` with no argument. */
  lemma FalsyValueCallsWithoutArgument(func: PyValue, v: PyValue)
    requires Truthy(func) && v in {PyNone, PyInt(0), PyBool(false), PyStr("")}
    ensures ReleaseEffect(func, v) == Call([])
  {
  }

  /** `move`: the rect's top-left goes to (x, y); nothing else changes. */
  function Moved(s: State, x: int, y: int): (r: State)
    ensures r.rect == MovedTo(s.rect, x, y)
    ensures r.(rect := s.rect) == s
  {
    s.(rect := MovedTo(s.rect, x, y))
  }

  /** Moving twice to the same place is the same as moving once. */
  lemma MovedIdempotent(s: State, x: int, y: int)
    ensures Moved(Moved(s, x, y), x, y) == Moved(s, x, y)
  {
  }

  /** A button moved while pressed stays pressed, and releases on the first frame
      with the button up and the pointer at its new corner. */
  lemma MovedWhilePressedReleasesThere(s: State, x: int, y: int)
    requires s.pressed && s.holding && s.rect.w > 0 && s.rect.h > 0
    ensures Updated(Moved(s, x, y), Input(x, y, false, {})).effects == [ReleaseEffect(s.func, s.valuetopass)]
    ensures !Updated(Moved(s, x, y), Input(x, y, false, {})).after.pressed
  {
  }
}
