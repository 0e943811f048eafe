/**
 * Whole interactions with the directive, most of them from a freshly bound
 * one: what a user's sequence of mouse events leads to. Each is proved from
 * the handlers' contracts and the lemmas of `Slots`.
 */
module DragScenarios {
  import opened Slots
  import opened Draggable

  /** `n` siblings, none of them showing a gap. */
  method NewSiblings(n: nat) returns (margins: array<int>)
    ensures fresh(margins) && margins.Length == n
    ensures forall k :: 0 <= k < n ==> margins[k] == 0
  {
    margins := new int[n](_ => 0);
  }

  /** Moving and releasing the mouse before any press changes nothing and emits nothing. */
  method MoveAndReleaseWithoutPress(data: DragData, siblingOffsets: seq<int>, clientX: int, hostOffsetLeft: int, hostWidth: int)
    returns (moveOk: bool, outcome: ReleaseOutcome, phase: DragPhase, left: int, margins: seq<int>)
    ensures moveOk && outcome == NoEvent && phase == Idle && left == 0
    ensures margins == seq(|siblingOffsets|, _ => 0)
  {
    var siblings := NewSiblings(|siblingOffsets|);
    var d := new DraggableDirective(data, siblings);
    moveOk := d.OnMouseMove(clientX, hostOffsetLeft, hostWidth, siblingOffsets);
    outcome := d.OnMouseUp();
    phase, left, margins := d.CurrentPhase(), d.hostLeft, siblings[..];
  }

  /**
   * A press on a draggable tab and a release with no move in between emits
   * nothing, and the press stays recorded: the session does not return to
   * idle.
   */
  method ClickWithoutDrag(data: DragData, siblingCount: nat, clientX: int, hostOffsetLeft: int, firstChildWidth: int)
    returns (outcome: ReleaseOutcome, phase: DragPhase)
    requires data.isDraggable
    ensures outcome == NoEvent && phase == Pressed
  {
    var siblings := NewSiblings(siblingCount);
    var d := new DraggableDirective(data, siblings);
    d.OnMouseDown(clientX, hostOffsetLeft, firstChildWidth, siblings);
    outcome := d.OnMouseUp();
    phase := d.CurrentPhase();
  }

  /** A press on a tab whose dragging is disallowed is ignored, and so are the move and release after it. */
  method DragOfFixedTab(data: DragData, siblingOffsets: seq<int>, pressX: int, moveX: int, hostOffsetLeft: int, hostWidth: int, firstChildWidth: int)
    returns (outcome: ReleaseOutcome, phase: DragPhase, margins: seq<int>)
    requires !data.isDraggable
    ensures outcome == NoEvent && phase == Idle
    ensures margins == seq(|siblingOffsets|, _ => 0)
  {
    var siblings := NewSiblings(|siblingOffsets|);
    var d := new DraggableDirective(data, siblings);
    d.OnMouseDown(pressX, hostOffsetLeft, firstChildWidth, siblings);
    var _ := d.OnMouseMove(moveX, hostOffsetLeft, hostWidth, siblingOffsets);
    outcome := d.OnMouseUp();
    phase, margins := d.CurrentPhase(), siblings[..];
  }

  /**
   * Press, one move and release on a directive whose siblings show no gap,
   * with at least two siblings and the previous gap index among them: the
   * end of the drag is emitted with the item's id and path at the slot
   * nearest to the host's centre, the session is idle again, the host is
   * back at 0, no gap is left open, and the gap index stays among the
   * siblings for the next drag.
   */
  method CompleteDrag(d: DraggableDirective, siblingOffsets: seq<int>, pressX: int, pressOffsetLeft: int, firstChildWidth: int,
                      moveX: int, moveOffsetLeft: int, hostWidth: int)
    returns (outcome: ReleaseOutcome)
    requires d.Valid() && d.data.isDraggable
    requires |siblingOffsets| == d.sourceMargins.Length >= 2
    requires d.destinationIndex < d.sourceMargins.Length
    requires forall k :: 0 <= k < d.sourceMargins.Length ==> d.sourceMargins[k] == 0
    modifies d, d.sourceMargins
    ensures d.Valid() && d.data == old(d.data) && d.sourceMargins == old(d.sourceMargins)
    ensures outcome == Emitted(DragEnd(d.data.id, GetCurrentIndex(GenerateWeights(siblingOffsets, hostWidth), 2 * moveOffsetLeft + hostWidth), d.data.path))
    ensures d.CurrentPhase() == Idle && d.hostLeft == 0
    ensures d.currentIndex == GetCurrentIndex(GenerateWeights(siblingOffsets, hostWidth), 2 * moveOffsetLeft + hostWidth)
    ensures d.destinationIndex == d.currentIndex - 1 < d.sourceMargins.Length
    ensures forall k :: 0 <= k < d.sourceMargins.Length ==> d.sourceMargins[k] == 0
  {
    ghost var before := d.sourceMargins[..];
    ghost var oldGap := d.destinationIndex;
    ghost var slot := GetCurrentIndex(GenerateWeights(siblingOffsets, hostWidth), 2 * moveOffsetLeft + hostWidth);
    SlotWithinSiblings(siblingOffsets, hostWidth, 2 * moveOffsetLeft + hostWidth);
    MoveThenReleaseLeavesNoGap(before, oldGap, slot - 1, hostWidth);
    d.OnMouseDown(pressX, pressOffsetLeft, firstChildWidth, d.sourceMargins);
    var _ := d.OnMouseMove(moveX, moveOffsetLeft, hostWidth, siblingOffsets);
    outcome := d.OnMouseUp();
  }

  /**
   * A first drag with at least two siblings ends at a slot among them, and
   * leaves the directive idle with the host at 0 and no gap open.
   */
  method DragAndRelease(data: DragData, siblingOffsets: seq<int>, pressX: int, pressOffsetLeft: int, firstChildWidth: int,
                        moveX: int, moveOffsetLeft: int, hostWidth: int)
    returns (outcome: ReleaseOutcome, phase: DragPhase, left: int, margins: seq<int>)
    requires data.isDraggable
    requires |siblingOffsets| >= 2
    ensures var slot := GetCurrentIndex(GenerateWeights(siblingOffsets, hostWidth), 2 * moveOffsetLeft + hostWidth);
      && outcome == Emitted(DragEnd(data.id, slot, data.path))
      && 1 <= slot <= |siblingOffsets|
    ensures phase == Idle && left == 0
    ensures margins == seq(|siblingOffsets|, _ => 0)
  {
    var siblings := NewSiblings(|siblingOffsets|);
    var d := new DraggableDirective(data, siblings);
    SlotWithinSiblings(siblingOffsets, hostWidth, 2 * moveOffsetLeft + hostWidth);
    outcome := CompleteDrag(d, siblingOffsets, pressX, pressOffsetLeft, firstChildWidth, moveX, moveOffsetLeft, hostWidth);
    phase, left, margins := d.CurrentPhase(), d.hostLeft, siblings[..];
  }

  /**
   * Two drags in a row over the same siblings. Neither index is reset between
   * them, yet the second drag ends like a first one: a completed drag leaves
   * nothing behind that alters the next.
   */
  method TwoDragsInARow(data: DragData, siblingOffsets: seq<int>, firstChildWidth: int, hostWidth: int,
                        pressX: int, firstOffsetLeft: int, firstMoveX: int, secondOffsetLeft: int, secondMoveX: int)
    returns (first: ReleaseOutcome, second: ReleaseOutcome, phase: DragPhase, margins: seq<int>)
    requires data.isDraggable
    requires |siblingOffsets| >= 2
    ensures first == Emitted(DragEnd(data.id, GetCurrentIndex(GenerateWeights(siblingOffsets, hostWidth), 2 * firstOffsetLeft + hostWidth), data.path))
    ensures second == Emitted(DragEnd(data.id, GetCurrentIndex(GenerateWeights(siblingOffsets, hostWidth), 2 * secondOffsetLeft + hostWidth), data.path))
    ensures phase == Idle
    ensures margins == seq(|siblingOffsets|, _ => 0)
  {
    var siblings := NewSiblings(|siblingOffsets|);
    var d := new DraggableDirective(data, siblings);
    first := CompleteDrag(d, siblingOffsets, pressX, firstOffsetLeft, firstChildWidth, firstMoveX, firstOffsetLeft, hostWidth);
    second := CompleteDrag(d, siblingOffsets, pressX, secondOffsetLeft, firstChildWidth, secondMoveX, secondOffsetLeft, hostWidth);
    phase, margins := d.CurrentPhase(), siblings[..];
  }

  /**
   * With a single sibling the release reads the sibling at index 1, which
   * does not exist: the browser throws, nothing is emitted and the session
   * stays in the dragging phase.
   */
  method DragBesideSingleSibling(data: DragData, siblingOffset: int, pressX: int, pressOffsetLeft: int, firstChildWidth: int,
                                 moveX: int, moveOffsetLeft: int, hostWidth: int)
    returns (outcome: ReleaseOutcome, phase: DragPhase)
    requires data.isDraggable
    ensures outcome == TypeError && phase == Dragging
  {
    var siblings := NewSiblings(1);
    var d := new DraggableDirective(data, siblings);
    d.OnMouseDown(pressX, pressOffsetLeft, firstChildWidth, siblings);
    var _ := d.OnMouseMove(moveX, moveOffsetLeft, hostWidth, [siblingOffset]);
    outcome := d.OnMouseUp();
    phase := d.CurrentPhase();
  }

  /**
   * A release that throws leaves both flags set, and a press does not clear
   * the move flag. So after a drag beside a single sibling has thrown on
   * release, the next press and release, with no move between them, run the
   * release as if a drag had happened: over three siblings it emits the end
   * of a drag at slot 1.
   */
  method ClickAfterStuckDragEmits(data: DragData, siblingOffset: int, pressX: int, pressOffsetLeft: int, firstChildWidth: int,
                                  moveX: int, moveOffsetLeft: int, hostWidth: int)
    returns (stuck: ReleaseOutcome, click: ReleaseOutcome)
    requires data.isDraggable
    ensures stuck == TypeError
    ensures click == Emitted(DragEnd(data.id, 1, data.path))
  {
    var one := NewSiblings(1);
    var d := new DraggableDirective(data, one);
    d.OnMouseDown(pressX, pressOffsetLeft, firstChildWidth, one);
    var _ := d.OnMouseMove(moveX, moveOffsetLeft, hostWidth, [siblingOffset]);
    stuck := d.OnMouseUp();
    assert d.CurrentPhase() == Dragging && d.currentIndex == 1;
    var three := NewSiblings(3);
    d.OnMouseDown(pressX, pressOffsetLeft, firstChildWidth, three);
    click := d.OnMouseUp();
  }

  /**
   * Four siblings at 0, 80, 160 and 240, a tab 80 wide at offset 80 pressed
   * at x = 100 and moved to x = 180. The slot is computed from the host's
   * offset when the move arrives (80, centre 120), not from the pointer, so
   * the drag ends at slot 1; the host is drawn at 160 until the release.
   */
  method FourTabExample(data: DragData) returns (leftDuringDrag: int, outcome: ReleaseOutcome)
    requires data.isDraggable
    ensures leftDuringDrag == 160
    ensures outcome == Emitted(DragEnd(data.id, 1, data.path))
  {
    var siblings := NewSiblings(4);
    var d := new DraggableDirective(data, siblings);
    leftDuringDrag := PressAndMoveOverFourTabs(d);
    outcome := d.OnMouseUp();
  }

  /** The press and the move of `FourTabExample`: the slot is 1 and the host is drawn at 160. */
  method PressAndMoveOverFourTabs(d: DraggableDirective) returns (leftDuringDrag: int)
    requires d.Valid() && d.data.isDraggable && d.sourceMargins.Length == 4 && d.destinationIndex == 0
    modifies d, d.sourceMargins
    ensures d.Valid() && d.data == old(d.data) && d.sourceMargins == old(d.sourceMargins)
    ensures d.CurrentPhase() == Dragging && d.currentIndex == 1 && d.destinationIndex == 0
    ensures leftDuringDrag == d.hostLeft == 160
  {
    d.OnMouseDown(100, 80, 80, d.sourceMargins);
    CentreAt120SelectsSlotOne();
    var _ := d.OnMouseMove(180, 80, 80, [0, 80, 160, 240]);
    leftDuringDrag := d.hostLeft;
  }

  /**
   * A drag over siblings that are exactly as many as the stale gap index (at
   * least two): the move throws before the gap is drawn, since the old gap
   * index is outside the siblings, yet the release clears the margins in
   * range and emits the end of the drag.
   */
  method DragWithStaleGap(d: DraggableDirective, siblings: array<int>, siblingOffsets: seq<int>, pressX: int, pressOffsetLeft: int,
                          firstChildWidth: int, moveX: int, moveOffsetLeft: int, hostWidth: int)
    returns (moveOk: bool, outcome: ReleaseOutcome)
    requires d.Valid() && d.data.isDraggable
    requires |siblingOffsets| == siblings.Length == d.destinationIndex >= 2
    modifies d, siblings
    ensures !moveOk
    ensures outcome == Emitted(DragEnd(d.data.id, GetCurrentIndex(GenerateWeights(siblingOffsets, hostWidth), 2 * moveOffsetLeft + hostWidth), d.data.path))
    ensures d.CurrentPhase() == Idle
  {
    SlotWithinSiblings(siblingOffsets, hostWidth, 2 * moveOffsetLeft + hostWidth);
    d.OnMouseDown(pressX, pressOffsetLeft, firstChildWidth, siblings);
    moveOk := d.OnMouseMove(moveX, moveOffsetLeft, hostWidth, siblingOffsets);
    outcome := d.OnMouseUp();
  }

  /**
   * On a fresh directive over three siblings at 0, 80 and 160, a tab 80 wide
   * dragged to offset 200 (centre 240) ends at the last slot, 3, and leaves
   * the gap index at 2.
   */
  method DragToLastOfThree(d: DraggableDirective) returns (outcome: ReleaseOutcome)
    requires d.Valid() && d.data.isDraggable && d.CurrentPhase() == Idle
    requires d.sourceMargins.Length == 3 && d.destinationIndex == 0
    requires forall k :: 0 <= k < 3 ==> d.sourceMargins[k] == 0
    modifies d, d.sourceMargins
    ensures d.Valid() && d.data == old(d.data) && d.CurrentPhase() == Idle
    ensures outcome == Emitted(DragEnd(d.data.id, 3, d.data.path))
    ensures d.currentIndex == 3 && d.destinationIndex == 2
  {
    CentreOnTrailingWeight();
    outcome := CompleteDrag(d, [0, 80, 160], 100, 80, 80, 300, 200, 80);
  }

  /**
   * The gap index is not reset between drags. A drag that ends at the last
   * of three slots leaves it at 2; if a sibling is then removed, every move
   * of the next drag throws before the gap is drawn, although the release
   * that follows still ends the drag and emits it.
   */
  method StaleGapAfterSiblingRemoved(data: DragData) returns (first: ReleaseOutcome, moveOk: bool, second: ReleaseOutcome)
    requires data.isDraggable
    ensures first == Emitted(DragEnd(data.id, 3, data.path))
    ensures !moveOk
    ensures second.Emitted?
  {
    var three := NewSiblings(3);
    var d := new DraggableDirective(data, three);
    first := DragToLastOfThree(d);
    var two := NewSiblings(2);
    moveOk, second := DragWithStaleGap(d, two, [0, 160], 100, 80, 80, 180, 80, 80);
  }
}
