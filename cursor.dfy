/** The custom cursor's pointer listeners on every page: `mousemove` records
    the pointer as the easing target and shows a hidden cursor, `mouseout`
    hides it. The easing loop itself is not modelled. */
module Cursor {
  import opened Pages

  const Hidden := "0"
  const Shown := "1"

  /** The target coordinates and the cursor element's inline opacity. */
  datatype Pointer = Pointer(mouseX: real, mouseY: real, opacity: string)

  /** Whether the page registered its pointer listeners. */
  predicate Listening(p: Page, hasCursor: bool)
  {
    hasCursor || TracksPointerWithoutCursor(p)
  }

  /** The `mousemove` listener. */
  function Moved(p: Page, hasCursor: bool, s: Pointer, x: real, y: real): Pointer
  {
    if !Listening(p, hasCursor) then s
    else Pointer(x, y, if hasCursor && s.opacity == Hidden then Shown else s.opacity)
  }

  /** The `mouseout` listener. */
  function Left(p: Page, hasCursor: bool, s: Pointer): Pointer
  {
    if hasCursor then s.(opacity := Hidden) else s
  }

  /** A move records the pointer as the target whenever the page listens,
      and makes the cursor visible only when its opacity was exactly "0". */
  lemma MoveRecordsTarget(p: Page, hasCursor: bool, s: Pointer, x: real, y: real)
    requires Listening(p, hasCursor)
    ensures Moved(p, hasCursor, s, x, y).mouseX == x
    ensures Moved(p, hasCursor, s, x, y).mouseY == y
  {
  }

  lemma MoveShowsOnlyHidden(p: Page, s: Pointer, x: real, y: real)
    ensures Moved(p, true, s, x, y).opacity == Shown <==> s.opacity == Hidden || s.opacity == Shown
    ensures s.opacity != Hidden ==> Moved(p, true, s, x, y).opacity == s.opacity
  {
  }

  /** Leaving hides the cursor, and the next move shows it again. */
  lemma LeaveThenMoveShows(p: Page, s: Pointer, x: real, y: real)
    ensures Left(p, true, s).opacity == Hidden
    ensures Moved(p, true, Left(p, true, s), x, y).opacity == Shown
  {
  }

  /** Without a cursor element no style is ever written; only the index
      page still tracks the target. */
  lemma NoCursorNoStyle(p: Page, s: Pointer, x: real, y: real)
    ensures Moved(p, false, s, x, y).opacity == s.opacity
    ensures Left(p, false, s) == s
    ensures !TracksPointerWithoutCursor(p) ==> Moved(p, false, s, x, y) == s
  {
  }

  /** The listeners' state on one page. */
  class CursorFollower {
    const page: Page
    const hasCursor: bool
    var mouseX: real
    var mouseY: real
    var opacity: string

    function State(): Pointer
      reads this
    {
      Pointer(mouseX, mouseY, opacity)
    }

    /** The target starts at the centre of the viewport. */
    constructor (page: Page, hasCursor: bool, innerWidth: real, innerHeight: real, opacity: string)
      ensures this.page == page && this.hasCursor == hasCursor
      ensures State() == Pointer(innerWidth / 2.0, innerHeight / 2.0, opacity)
    {
      this.page := page;
      this.hasCursor := hasCursor;
      mouseX := innerWidth / 2.0;
      mouseY := innerHeight / 2.0;
      this.opacity := opacity;
    }

    method MouseMove(clientX: real, clientY: real)
      modifies this
      ensures State() == Moved(page, hasCursor, old(State()), clientX, clientY)
    {
      if !Listening(page, hasCursor) {
        return;
      }
      mouseX := clientX;
      mouseY := clientY;
      if hasCursor && opacity == Hidden {
        opacity := Shown;
      }
    }

    method MouseOut()
      modifies this
      ensures State() == Left(page, hasCursor, old(State()))
    {
      if hasCursor {
        opacity := Hidden;
      }
    }
  }
}
