/** The custom cursor: a dot that jumps to the mouse, and a ring that follows it with
    easing, moving 10% of the remaining way each animation frame. */
module Cursor {
  import opened Easing

  const Follow: real := 0.1

  class CursorEffect {
    var mouseX: real
    var mouseY: real
    var cursorX: real
    var cursorY: real

    constructor ()
      ensures mouseX == 0.0 && mouseY == 0.0 && cursorX == 0.0 && cursorY == 0.0
    {
      mouseX, mouseY, cursorX, cursorY := 0.0, 0.0, 0.0, 0.0;
    }

    /** The dot, drawn at the mouse, is not state of its own. */
    method MouseMove(clientX: real, clientY: real)
      modifies this
      ensures mouseX == clientX && mouseY == clientY
      ensures cursorX == old(cursorX) && cursorY == old(cursorY)
    {
      mouseX := clientX;
      mouseY := clientY;
    }

    /** One animation frame of the ring. */
    method Animate()
      modifies this
      ensures cursorX == Ease(old(cursorX), mouseX, Follow) && cursorY == Ease(old(cursorY), mouseY, Follow)
      ensures Dist(cursorX, mouseX) == 0.9 * Dist(old(cursorX), mouseX)
      ensures Dist(cursorY, mouseY) == 0.9 * Dist(old(cursorY), mouseY)
      ensures mouseX == old(mouseX) && mouseY == old(mouseY)
    {
      EaseNoOvershoot(cursorX, mouseX, Follow);
      EaseNoOvershoot(cursorY, mouseY, Follow);
      var dx := mouseX - cursorX;
      var dy := mouseY - cursorY;
      cursorX := cursorX + dx * 0.1;
      cursorY := cursorY + dy * 0.1;
    }
  }

  /** With the mouse at rest, the ring gets no farther from it on either axis, frame after
      frame: n frames leave it (0.9)^n of the starting distance away. */
  lemma {:induction false} RingCatchesUp(cursor: real, mouse: real, n: nat)
    ensures Dist(EaseN(cursor, mouse, Follow, n), mouse) == Pow(0.9, n) * Dist(cursor, mouse)
    ensures Pow(0.9, n) * (1.0 + n as real * 0.1) <= 1.0
    ensures Dist(EaseN(cursor, mouse, Follow, n), mouse) * (1.0 + n as real * 0.1) <= Dist(cursor, mouse)
  {
    EaseNDistance(cursor, mouse, Follow, n);
    PowBernoulli(Follow, n);
    EaseNConverges(cursor, mouse, Follow, n);
  }
}
