/** Drag scrolling of the teletype terminal, with clamping and a delayed snap back to the live view. */
module TeletypeScroll {
  import opened Terminal

  /** getContentHeight: the pixel height of all rows. */
  function ContentHeight(rowCount: nat): nat {
    rowCount * RowHeight
  }

  /** isScrollable: the rows are taller than the terminal. */
  predicate IsScrollable(rowCount: nat, terminalHeight: int) {
    ContentHeight(rowCount) > terminalHeight
  }

  /** clampY: the live position bounds the wrapper from below, PADDING from above, and the live position wins. */
  function ClampY(y: int, liveY: int): (r: int)
    ensures r >= liveY
    ensures liveY <= Padding ==> r <= Padding
    ensures liveY <= y <= Padding ==> r == y
  {
    var minY := liveY;
    var maxY := Padding;
    var below := if maxY < y then maxY else y;
    if minY > below then minY else below
  }

  /** Clamping a clamped position changes nothing. */
  lemma {:induction false} ClampIdempotent(y: int, liveY: int)
    ensures ClampY(ClampY(y, liveY), liveY) == ClampY(y, liveY)
  {
    var c := ClampY(y, liveY);
    if liveY > Padding {
      assert c == liveY;
    }
  }

  /** Scrollable content always leaves room to scroll: its live position lies above PADDING. */
  lemma {:induction false} ScrollableHasRange(rowCount: nat, terminalHeight: int)
    requires IsScrollable(rowCount, terminalHeight)
    ensures LiveY(terminalHeight, rowCount) < Padding
    ensures ClampY(Padding, LiveY(terminalHeight, rowCount)) == Padding
  {
  }

  /**
   * The closure state of createScrollBehavior over one terminal.  The snap
   * timer is a flag; its expiry is the explicit SnapTimerFires.
   */
  class ScrollBehavior {
    const box: TerminalBox
    var isDragging: bool
    var isUserScrolled: bool
    var dragStartY: int
    var wrapperStartY: int
    var snapPending: bool

    /** A snap back is only ever pending while no drag is in progress. */
    ghost predicate Valid()
      reads this
    {
      snapPending ==> !isDragging
    }

    constructor(box: TerminalBox)
      ensures Valid() && this.box == box
      ensures !isDragging && !isUserScrolled && dragStartY == 0 && wrapperStartY == 0 && !snapPending
    {
      this.box := box;
      isDragging := false;
      isUserScrolled := false;
      dragStartY := 0;
      wrapperStartY := 0;
      snapPending := false;
    }

    /** onPointerDown: only scrollable content starts a drag, which cancels a pending snap back. */
    method OnPointerDown(globalY: int)
      requires Valid()
      modifies this
      ensures Valid() && isUserScrolled == old(isUserScrolled)
      ensures !IsScrollable(|box.rows|, box.terminalHeight) ==>
        isDragging == old(isDragging) && dragStartY == old(dragStartY) &&
        wrapperStartY == old(wrapperStartY) && snapPending == old(snapPending)
      ensures IsScrollable(|box.rows|, box.terminalHeight) ==>
        isDragging && dragStartY == globalY && wrapperStartY == box.wrapperY && !snapPending
    {
      if !IsScrollable(|box.rows|, box.terminalHeight) {
        return;
      }
      isDragging := true;
      dragStartY := globalY;
      wrapperStartY := box.wrapperY;
      snapPending := false;
    }

    /** onPointerMove: while dragging the wrapper follows the pointer within the clamp bounds. */
    method OnPointerMove(globalY: int)
      requires Valid()
      modifies this, box
      ensures Valid()
      ensures box.rows == old(box.rows)
      ensures isDragging == old(isDragging) && snapPending == old(snapPending)
      ensures dragStartY == old(dragStartY) && wrapperStartY == old(wrapperStartY)
      ensures !old(isDragging) ==> box.wrapperY == old(box.wrapperY) && isUserScrolled == old(isUserScrolled)
      ensures old(isDragging) ==>
        box.wrapperY == ClampY(wrapperStartY + (globalY - dragStartY), box.GetLiveY()) &&
        (isUserScrolled <==> box.wrapperY != box.GetLiveY())
    {
      if !isDragging {
        return;
      }
      var delta := globalY - dragStartY;
      box.wrapperY := ClampY(wrapperStartY + delta, box.GetLiveY());
      isUserScrolled := box.wrapperY != box.GetLiveY();
    }

    /** onPointerUp (and pointerupoutside): the drag ends, and a scrolled view schedules the snap back. */
    method OnPointerUp()
      requires Valid()
      modifies this
      ensures Valid() && isUserScrolled == old(isUserScrolled)
      ensures dragStartY == old(dragStartY) && wrapperStartY == old(wrapperStartY)
      ensures !old(isDragging) ==> isDragging == old(isDragging) && snapPending == old(snapPending)
      ensures old(isDragging) ==> !isDragging && snapPending == (old(snapPending) || isUserScrolled)
    {
      if !isDragging {
        return;
      }
      isDragging := false;
      if isUserScrolled {
        snapPending := true;
      }
    }

    /** snapToLive: the timer is cleared and, once the tween ends, the wrapper is live again. */
    method SnapToLive()
      requires Valid()
      modifies this, box
      ensures Valid() && !isUserScrolled && !snapPending
      ensures box.rows == old(box.rows) && box.wrapperY == box.GetLiveY()
      ensures isDragging == old(isDragging) && dragStartY == old(dragStartY) && wrapperStartY == old(wrapperStartY)
    {
      snapPending := false;
      box.wrapperY := box.GetLiveY();
      isUserScrolled := false;
    }

    /** The snap-back timer expires. */
    method SnapTimerFires()
      requires Valid() && snapPending
      modifies this, box
      ensures Valid() && !isUserScrolled && !snapPending
      ensures box.rows == old(box.rows) && box.wrapperY == box.GetLiveY()
      ensures isDragging == old(isDragging) && dragStartY == old(dragStartY) && wrapperStartY == old(wrapperStartY)
    {
      SnapToLive();
    }
  }
}
