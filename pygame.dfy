/** The pieces of pygame the widgets rely on: integer rectangles with the
    `collidepoint`, `topleft` and `centerx`/`centery` behaviour the widgets use,
    and one frame's input snapshot in place of `pg.mouse` and `pg.key` polling.
    pygame's own code is not part of this model: `collidepoint` is taken to be
    half-open containment and `centerx := m` to set `x := m - w / 2` with C's
    truncating division. */
module Pygame {

  /** A `pygame.Rect`: top-left corner, width and height. */
  datatype Rect = Rect(x: int, y: int, w: int, h: int)

  /** `rect.collidepoint((px, py))`. */
  predicate Contains(r: Rect, px: int, py: int)
  {
    r.x <= px < r.x + r.w && r.y <= py < r.y + r.h
  }

  /** `rect.topleft = (nx, ny)`: the rectangle keeps its size. */
  function MovedTo(r: Rect, nx: int, ny: int): (m: Rect)
    ensures m.x == nx && m.y == ny && m.w == r.w && m.h == r.h
  {
    r.(x := nx, y := ny)
  }

  /** C's `n / 2`, truncating toward zero. */
  function Half(n: int): (h: int)
    ensures n >= 0 ==> 0 <= 2 * h <= n < 2 * h + 2
    ensures n < 0 ==> 2 * h - 2 < n <= 2 * h <= 0
  {
    if n >= 0 then n / 2 else -((-n) / 2)
  }

  /** `n / 4` truncated toward zero, as pygame truncates a float coordinate. */
  function Quarter(n: int): (q: int)
    ensures n >= 0 ==> 0 <= 4 * q <= n < 4 * q + 4
    ensures n < 0 ==> 4 * q - 4 < n <= 4 * q <= 0
  {
    if n >= 0 then n / 4 else -((-n) / 4)
  }

  /** `rect.centerx = cx`: for a non-empty width, `cx` lands in the middle column
      (the right one of the two when the width is even). */
  function WithCenterX(r: Rect, cx: int): (m: Rect)
    ensures m.y == r.y && m.w == r.w && m.h == r.h
    ensures r.w > 0 ==> m.x <= cx < m.x + m.w && cx - m.x == m.x + m.w - 1 - cx + (1 - r.w % 2)
  {
    r.(x := cx - Half(r.w))
  }

  /** `rect.centery = cy`, the same along the vertical axis. */
  function WithCenterY(r: Rect, cy: int): (m: Rect)
    ensures m.x == r.x && m.w == r.w && m.h == r.h
    ensures r.h > 0 ==> m.y <= cy < m.y + m.h && cy - m.y == m.y + m.h - 1 - cy + (1 - r.h % 2)
  {
    r.(y := cy - Half(r.h))
  }

  /** A key of `pg.key.get_pressed()` that the widgets look at; every other key is `Other`. */
  datatype Key =
    | Space
    | Digit(d: nat)
    | Letter(c: char)
    | LShift
    | RShift
    | Backspace
    | Return
    | Other(code: int)

  /** One frame's input: `pg.mouse.get_pos()`, the primary button of
      `pg.mouse.get_pressed()`, and the keys held in `pg.key.get_pressed()`. */
  datatype Input = Input(mx: int, my: int, primary: bool, keys: set<Key>)
}
