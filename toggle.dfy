/** The press/release rule both check-box revisions share: a primary press over
    the box arms it (`clicked`), and the next frame with the button up flips the
    checked state and disarms it, wherever the pointer is by then. */
module Toggle {

  /** `clicked` and the checked state (`checked` in one revision, `marked` in the other). */
  datatype Flags = Flags(clicked: bool, checked: bool)

  /** One frame: `inside` is the pointer over the box, `primary` the primary button held. */
  function Step(f: Flags, inside: bool, primary: bool): (r: Flags)
    // a press over the box arms it, it stays armed while the button is held, and nothing else arms it
    ensures r.clicked <==> primary && (f.clicked || inside)
    // the state flips exactly on the first button-up frame after arming
    ensures r.checked != f.checked <==> f.clicked && !primary
  {
    var clicked := f.clicked || (inside && primary);
    if clicked && !primary then Flags(false, !f.checked) else Flags(clicked, f.checked)
  }
}
