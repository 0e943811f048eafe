/**
 * The draggable link tab directive: a tab pressed with the mouse follows the
 * pointer along its row and, on release, is reported at the slot nearest to
 * it; while it moves, a right margin as wide as the tab opens a gap after the
 * sibling in front of that slot.
 *
 * The DOM is plain data here. What the directive reads from it (the host's
 * `offsetLeft` and `clientWidth`, the first child's `clientWidth`, each
 * sibling's `offsetLeft`, and the sibling list itself) is passed to the
 * handlers; what it writes is held in the object: each sibling's
 * `style.marginRight` in the array `sourceMargins`, the host's `style.left`
 * in `hostLeft`, and its `movable` class in `movable`.
 *
 * Reading `sourceElements[i].style` for an `i` outside the siblings throws a
 * TypeError in the browser. The handlers model that as an outcome: whatever
 * they changed before the throw stays changed, and the rest of the handler
 * does not run.
 */
module Draggable {
  import opened Slots

  /** The directive's input: an opaque item id and path, and whether dragging is allowed. */
  datatype DragData = DragData(id: string, path: string, isDraggable: bool)

  /** The value emitted on `onLinkTabDraggingEnd`. */
  datatype DragEnd = DragEnd(movableItemId: string, targetItemPosition: int, path: string)

  /** What a mouse-up does: nothing, emit the end of a drag, or throw before emitting. */
  datatype ReleaseOutcome = NoEvent | Emitted(end: DragEnd) | TypeError

  /** The drag session as the two flags encode it. */
  datatype DragPhase = Idle | Pressed | Dragging

  /** The host's `style.left` set by `setMovableStyle`: the pointer-following offset, but never left of `minLeftOffset`. */
  function ClampLeft(selectableOffset: int, minLeftOffset: int): (left: int)
    ensures left >= selectableOffset && left >= minLeftOffset
    ensures left == selectableOffset || left == minLeftOffset
  {
    if selectableOffset > minLeftOffset then selectableOffset else minLeftOffset
  }

  /** The index whose margin `resetDndChanges` clears besides `currentIndex - 1`. */
  function ReleaseClearIndex(destinationIndex: int): (i: int)
    ensures i >= 1
    ensures destinationIndex >= 2 ==> i == destinationIndex - 1
    ensures destinationIndex <= 1 ==> i == 1
  {
    if destinationIndex > 1 then destinationIndex - 1 else 1
  }

  /**
   * Two successive writes of `sourceElements[i].style.marginRight`, first
   * `first := firstValue`, then `second := secondValue`; at the first index
   * outside the siblings the browser throws and the writes stop.
   */
  function WriteTwoMargins(margins: seq<int>, first: int, firstValue: int, second: int, secondValue: int): (after: seq<int>)
    ensures |after| == |margins|
    ensures !(0 <= first < |margins|) ==> after == margins
  {
    if !(0 <= first < |margins|) then margins
    else if !(0 <= second < |margins|) then margins[first := firstValue]
    else margins[first := firstValue][second := secondValue]
  }

  /**
   * Only the two named margins change, the second write wins where they
   * coincide, and a write happens only when every index before it was in
   * range.
   *
   * `RenderMovingAction`, `CoreApplication` and `OnMouseMove` state their new
   * margins as `WriteTwoMargins(old margins, old destinationIndex, 0,
   * currentIndex - 1, hostWidth)`, and `ResetDndChanges` and `OnMouseUp` as
   * `WriteTwoMargins(old margins, currentIndex - 1, 0,
   * ReleaseClearIndex(destinationIndex), 0)`; with this lemma those
   * postconditions say that no other sibling's margin changes.
   */
  lemma WriteTwoMarginsChangesOnlyNamed(margins: seq<int>, first: int, firstValue: int, second: int, secondValue: int)
    ensures var after := WriteTwoMargins(margins, first, firstValue, second, secondValue);
      && |after| == |margins|
      && (forall k :: 0 <= k < |margins| && k != first && k != second ==> after[k] == margins[k])
      && (0 <= first < |margins| && 0 <= second < |margins| ==> after[second] == secondValue)
      && (0 <= first < |margins| && second != first ==> after[first] == firstValue)
      && (!(0 <= first < |margins|) ==> after == margins)
      && (0 <= first < |margins| && !(0 <= second < |margins|) ==> forall k :: 0 <= k < |margins| && k != first ==> after[k] == margins[k])
  {
  }

  /**
   * A gap opened by a move and then cleared by the release leaves no gap:
   * from margins that are all 0, the move's writes (clear the old gap index,
   * open the gap at `gap`) followed by the release's writes (clear `gap` and
   * `ReleaseClearIndex` of the new gap index) give margins that are all 0
   * again, provided every index touched lies among the siblings.
   */
  lemma MoveThenReleaseLeavesNoGap(margins: seq<int>, oldGap: int, gap: int, hostWidth: int)
    requires forall k :: 0 <= k < |margins| ==> margins[k] == 0
    requires 0 <= oldGap < |margins| && 0 <= gap < |margins| && ReleaseClearIndex(gap) < |margins|
    ensures var during := WriteTwoMargins(margins, oldGap, 0, gap, hostWidth);
      forall k :: 0 <= k < |margins| ==> WriteTwoMargins(during, gap, 0, ReleaseClearIndex(gap), 0)[k] == 0
  {
    var during := WriteTwoMargins(margins, oldGap, 0, gap, hostWidth);
    WriteTwoMarginsChangesOnlyNamed(margins, oldGap, 0, gap, hostWidth);
    WriteTwoMarginsChangesOnlyNamed(during, gap, 0, ReleaseClearIndex(gap), 0);
  }

  class DraggableDirective {
    var data: DragData
    /** `sourceElements[i].style.marginRight` in pixels, for each sibling of the host. */
    var sourceMargins: array<int>
    var isMouseDown: bool
    var isMouseMoveLast: bool
    var offsetX: int
    var minLeftOffset: int
    var currentIndex: int
    var destinationIndex: int
    /** The host's `style.left` in pixels. */
    var hostLeft: int
    /** Whether the host carries the `movable` class. */
    var movable: bool

    /**
     * A move is recorded only during a press, and it always leaves a slot of
     * at least 1; neither index is ever negative.
     */
    ghost predicate Valid()
      reads this
    {
      && 0 <= currentIndex
      && 0 <= destinationIndex
      && (isMouseMoveLast ==> isMouseDown && 1 <= currentIndex)
    }

    function CurrentPhase(): DragPhase
      reads this
    {
      if !isMouseDown then Idle else if !isMouseMoveLast then Pressed else Dragging
    }

    /**
     * The directive bound to its input and to the host's siblings
     * (`resetCoreInstances` on `ngOnInit`). `offsetX` and `minLeftOffset`
     * start undefined in the browser and 0 here; they are read only after a
     * press has set them.
     */
    constructor (data: DragData, siblingMargins: array<int>)
      ensures Valid() && CurrentPhase() == Idle
      ensures this.data == data && sourceMargins == siblingMargins
      ensures currentIndex == 0 && destinationIndex == 0
      ensures hostLeft == 0 && !movable
    {
      this.data := data;
      sourceMargins := siblingMargins;
      isMouseDown, isMouseMoveLast := false, false;
      offsetX, minLeftOffset := 0, 0;
      currentIndex, destinationIndex := 0, 0;
      hostLeft, movable := 0, false;
    }

    /** `calculateOffsets`: the pointer's offset into the host, and the first child's width as the leftmost allowed position. */
    method CalculateOffsets(clientX: int, hostOffsetLeft: int, firstChildWidth: int)
      modifies this`offsetX, this`minLeftOffset
      ensures offsetX + clientX == hostOffsetLeft
      ensures minLeftOffset == firstChildWidth
    {
      offsetX := hostOffsetLeft - clientX;
      minLeftOffset := firstChildWidth;
    }

    /**
     * `onMouseDown`. With dragging disallowed nothing changes. Otherwise the
     * press is recorded, the sibling list is taken afresh (`siblingMargins`,
     * the host filtered out) and the offsets are measured; the move flag and
     * both indices are left as they were.
     */
    method OnMouseDown(clientX: int, hostOffsetLeft: int, firstChildWidth: int, siblingMargins: array<int>)
      requires Valid()
      modifies this
      ensures Valid()
      ensures !data.isDraggable ==> unchanged(this)
      ensures data.isDraggable ==>
        && isMouseDown
        && offsetX == hostOffsetLeft - clientX
        && minLeftOffset == firstChildWidth
        && sourceMargins == siblingMargins
        && isMouseMoveLast == old(isMouseMoveLast)
        && currentIndex == old(currentIndex) && destinationIndex == old(destinationIndex)
        && hostLeft == old(hostLeft) && movable == old(movable)
        && data == old(data)
    {
      if data.isDraggable {
        isMouseDown := true;
        sourceMargins := siblingMargins;
        CalculateOffsets(clientX, hostOffsetLeft, firstChildWidth);
      }
    }

    method SetCurrentIndex(index: int)
      modifies this`currentIndex
      ensures currentIndex == index
    {
      currentIndex := index;
    }

    method SetDestinationIndex(index: int)
      modifies this`destinationIndex
      ensures destinationIndex == index
    {
      destinationIndex := index;
    }

    /** `setMovableStyle`: once a move has been seen, the host is made movable and placed at the clamped offset. */
    method SetMovableStyle(selectableOffset: int)
      modifies this`movable, this`hostLeft
      ensures isMouseMoveLast ==> movable && hostLeft == ClampLeft(selectableOffset, minLeftOffset)
      ensures !isMouseMoveLast ==> movable == old(movable) && hostLeft == old(hostLeft)
    {
      if isMouseMoveLast {
        movable := true;
        hostLeft := ClampLeft(selectableOffset, minLeftOffset);
      }
    }

    /**
     * `renderMovingAction`: place the host, close the previous gap (the
     * margin at `destinationIndex`), then open the new one after the sibling
     * in front of the current slot. It fails (the browser throws) exactly when
     * one of the two indices is outside the siblings.
     */
    method RenderMovingAction(selectableOffset: int, hostWidth: int) returns (ok: bool)
      modifies this`movable, this`hostLeft, this`destinationIndex, sourceMargins
      ensures isMouseMoveLast ==> movable && hostLeft == ClampLeft(selectableOffset, minLeftOffset)
      ensures !isMouseMoveLast ==> movable == old(movable) && hostLeft == old(hostLeft)
      ensures ok <==> 0 <= old(destinationIndex) < sourceMargins.Length && 0 <= currentIndex - 1 < sourceMargins.Length
      ensures destinationIndex == if 0 <= old(destinationIndex) < sourceMargins.Length then currentIndex - 1 else old(destinationIndex)
      ensures sourceMargins[..] == WriteTwoMargins(old(sourceMargins[..]), old(destinationIndex), 0, currentIndex - 1, hostWidth)
    {
      SetMovableStyle(selectableOffset);
      if !(0 <= destinationIndex < sourceMargins.Length) {
        return false;
      }
      sourceMargins[destinationIndex] := 0;
      SetDestinationIndex(currentIndex - 1);
      if !(0 <= destinationIndex < sourceMargins.Length) {
        return false;
      }
      sourceMargins[destinationIndex] := hostWidth;
      ok := true;
    }

    /**
     * `coreApplication`: the slot nearest to the host's centre, taken from
     * the host's CURRENT `offsetLeft` (not from the pointer), becomes
     * `currentIndex`; then the move is rendered at `clientX + offsetX`.
     * `siblingOffsets` are the live `offsetLeft`s of the siblings.
     */
    method CoreApplication(clientX: int, hostOffsetLeft: int, hostWidth: int, siblingOffsets: seq<int>) returns (ok: bool)
      requires |siblingOffsets| == sourceMargins.Length
      modifies this`currentIndex, this`movable, this`hostLeft, this`destinationIndex, sourceMargins
      ensures currentIndex == GetCurrentIndex(GenerateWeights(siblingOffsets, hostWidth), 2 * hostOffsetLeft + hostWidth)
      ensures isMouseMoveLast ==> movable && hostLeft == ClampLeft(clientX + offsetX, minLeftOffset)
      ensures !isMouseMoveLast ==> movable == old(movable) && hostLeft == old(hostLeft)
      ensures ok <==> 0 <= old(destinationIndex) < sourceMargins.Length
      ensures destinationIndex == if ok then currentIndex - 1 else old(destinationIndex)
      ensures sourceMargins[..] == WriteTwoMargins(old(sourceMargins[..]), old(destinationIndex), 0, currentIndex - 1, hostWidth)
    {
      var movablePositionWeight2 := 2 * hostOffsetLeft + hostWidth;
      var weights := GenerateWeights(siblingOffsets, hostWidth);
      var candidateIndex := GetCurrentIndex(weights, movablePositionWeight2);
      if |siblingOffsets| > 0 {
        SlotWithinSiblings(siblingOffsets, hostWidth, movablePositionWeight2);
      }
      SetCurrentIndex(candidateIndex);
      var selectableOffset := clientX + offsetX;
      ok := RenderMovingAction(selectableOffset, hostWidth);
    }

    /**
     * `onMouseMove`. Without a press nothing changes. During a press the
     * move is recorded, the slot is recomputed (it is at least 1), the host
     * follows the pointer and the gap moves; the handler throws exactly when
     * the previous gap index lies outside the current siblings (in
     * particular when there is no sibling).
     */
    method OnMouseMove(clientX: int, hostOffsetLeft: int, hostWidth: int, siblingOffsets: seq<int>) returns (ok: bool)
      requires Valid()
      requires |siblingOffsets| == sourceMargins.Length
      modifies this, sourceMargins
      ensures Valid()
      ensures sourceMargins == old(sourceMargins)
      ensures !old(isMouseDown) ==> ok && unchanged(this) && unchanged(sourceMargins)
      ensures old(isMouseDown) ==>
        && CurrentPhase() == Dragging
        && currentIndex == GetCurrentIndex(GenerateWeights(siblingOffsets, hostWidth), 2 * hostOffsetLeft + hostWidth)
        && 1 <= currentIndex
        && movable && hostLeft == ClampLeft(clientX + offsetX, minLeftOffset)
        && (ok <==> old(destinationIndex) < sourceMargins.Length)
        && destinationIndex == (if ok then currentIndex - 1 else old(destinationIndex))
        && sourceMargins[..] == WriteTwoMargins(old(sourceMargins[..]), old(destinationIndex), 0, currentIndex - 1, hostWidth)
        && offsetX == old(offsetX) && minLeftOffset == old(minLeftOffset) && data == old(data)
    {
      ok := true;
      if isMouseDown {
        isMouseMoveLast := true;
        ok := CoreApplication(clientX, hostOffsetLeft, hostWidth, siblingOffsets);
      }
    }

    /**
     * `resetDndChanges`: drop the `movable` class, clear the margins at
     * `currentIndex - 1` and at `destinationIndex - 1` (at 1 when
     * `destinationIndex <= 1`), put the host back at 0 and end the session.
     * If either index is outside the siblings the browser throws there and
     * neither the position nor the flags are reset.
     */
    method ResetDndChanges() returns (ok: bool)
      modifies this`movable, this`hostLeft, this`isMouseDown, this`isMouseMoveLast, sourceMargins
      ensures !movable
      ensures ok <==> 0 <= currentIndex - 1 < sourceMargins.Length && ReleaseClearIndex(destinationIndex) < sourceMargins.Length
      ensures sourceMargins[..] == WriteTwoMargins(old(sourceMargins[..]), currentIndex - 1, 0, ReleaseClearIndex(destinationIndex), 0)
      ensures ok ==> hostLeft == 0 && !isMouseDown && !isMouseMoveLast
      ensures !ok ==> hostLeft == old(hostLeft) && isMouseDown == old(isMouseDown) && isMouseMoveLast == old(isMouseMoveLast)
    {
      movable := false;
      if !(0 <= currentIndex - 1 < sourceMargins.Length) {
        return false;
      }
      sourceMargins[currentIndex - 1] := 0;
      var second := ReleaseClearIndex(destinationIndex);
      if !(second < sourceMargins.Length) {
        return false;
      }
      sourceMargins[second] := 0;
      hostLeft := 0;
      isMouseDown := false;
      isMouseMoveLast := false;
      ok := true;
    }

    /** `pushChangesOnDragEnding`: the item's id and path from the input, at the current slot. */
    method PushChangesOnDragEnding() returns (end: DragEnd)
      ensures end.movableItemId == data.id && end.path == data.path
      ensures end.targetItemPosition == currentIndex
    {
      end := DragEnd(data.id, currentIndex, data.path);
    }

    /**
     * `onMouseUp`. Unless a press and a move preceded it, nothing changes and
     * nothing is emitted; in particular a click without a move leaves the
     * press recorded. After a move the drag's visual changes are undone and,
     * unless that throws, the session ends and the end of the drag is emitted
     * at the current slot, which is at least 1.
     */
    method OnMouseUp() returns (outcome: ReleaseOutcome)
      requires Valid()
      modifies this, sourceMargins
      ensures Valid()
      ensures sourceMargins == old(sourceMargins)
      ensures !(old(isMouseDown) && old(isMouseMoveLast)) ==> outcome == NoEvent && unchanged(this) && unchanged(sourceMargins)
      ensures old(isMouseDown) && old(isMouseMoveLast) ==>
        && outcome != NoEvent
        && !movable
        && (outcome == TypeError <==>
              !(currentIndex - 1 < sourceMargins.Length && ReleaseClearIndex(destinationIndex) < sourceMargins.Length))
        && sourceMargins[..] == WriteTwoMargins(old(sourceMargins[..]), currentIndex - 1, 0, ReleaseClearIndex(destinationIndex), 0)
        && currentIndex == old(currentIndex) && destinationIndex == old(destinationIndex)
        && offsetX == old(offsetX) && minLeftOffset == old(minLeftOffset) && data == old(data)
      ensures outcome.Emitted? ==>
        && outcome.end == DragEnd(data.id, currentIndex, data.path)
        && 1 <= outcome.end.targetItemPosition
        && CurrentPhase() == Idle && hostLeft == 0
      ensures outcome == TypeError ==> CurrentPhase() == Dragging && hostLeft == old(hostLeft)
    {
      outcome := NoEvent;
      if isMouseDown && isMouseMoveLast {
        var ok := ResetDndChanges();
        if ok {
          var end := PushChangesOnDragEnding();
          outcome := Emitted(end);
        } else {
          outcome := TypeError;
        }
      }
    }
  }
}
