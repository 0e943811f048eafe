# Draggable link tab directive, modelled in Dafny

The directive (`draggable.directive.ts`) lets the user reorder a row of tabs with the mouse.
A press on a draggable tab starts a session.
Every move while pressed computes the slot nearest to the tab's centre.
It then places the tab under the pointer, never further left than the first child's width.
It also opens a gap: a right margin as wide as the tab, on the sibling in front of that slot.
A release after a move clears the gap, puts the tab back and emits
`{movableItemId, targetItemPosition, path}`.

The model has three modules.

- `Slots` (`slots.dfy`) is the pure part of the directive.
  - `GenerateWeights` builds the weights: every sibling's left offset, then the last offset plus the host width.
  - `GetCurrentIndex` is `indexOf(Math.min(...))` over the distances from the host's centre, clamped to at least 1.
  - JavaScript numbers are modelled as `Number`: integers, `NaN` and `+Infinity`.
  - With JavaScript's rules for `Math.min` and `===`, the no-sibling case comes out as the code computes it: the trailing weight is `undefined + width`, which is NaN, and the slot is then 1.
  - The centre `offsetLeft + clientWidth / 2` is passed doubled, as `2 * offsetLeft + clientWidth`, and every distance is doubled with it. This keeps the order and the ties among distances, so `indexOf` finds the same index.
  - `IsFirstNearest` is the reference definition, "the first index of a nearest weight". The lemmas tie `GetCurrentIndex` to it.
- `Draggable` (`draggable.dfy`) is the class `DraggableDirective`.
  - It holds the fields the directive updates: `isMouseDown`, `isMouseMoveLast`, `offsetX`, `minLeftOffset`, `currentIndex` and `destinationIndex`.
  - The DOM state it writes is held too: each sibling's `style.marginRight` (the array `sourceMargins`), the host's `style.left` (`hostLeft`) and the `movable` class.
  - The DOM values the handlers read are parameters: the host's `offsetLeft` and `clientWidth`, the first child's `clientWidth`, the siblings' `offsetLeft`s and the new sibling list on a press.
  - Reading `sourceElements[i]` outside the array gives `undefined`, and `.style` on it throws a TypeError. Each handler models this as an outcome. The state changed before the throw stays changed.
  - `Valid()` is preserved by every handler: a move is recorded only during a press, and it leaves `currentIndex >= 1`.
- `DragScenarios` (`scenarios.dfy`) holds whole event sequences.
  - Most start from a freshly bound directive. `CompleteDrag` takes any valid directive with at least two siblings, no gap open and its gap index among the siblings.
  - Each is proved from the handlers' contracts together with the `Slots` lemmas (`SlotWithinSiblings`, `CentreAt120SelectsSlotOne`, `CentreOnTrailingWeight`) and `MoveThenReleaseLeavesNoGap`. `DragWithStaleGap` is the second drag of the stale-gap scenario.

Where the code differs from a natural reading of the behaviour, the model follows the code:

- A release after a press with no move emits nothing and changes nothing, unless an earlier release threw and left the session in Dragging. `isMouseDown` stays true, so the session does not go back to idle (`ClickWithoutDrag`).
- A release that throws leaves both flags set, and a press does not clear `isMouseMoveLast`. The next press and release with no move between them then run the release as after a drag. Over three siblings they emit slot 1 (`ClickAfterStuckDragEmits`).
- `currentIndex` and `destinationIndex` are never reset between drags. If the sibling list shrinks to `destinationIndex` siblings or fewer between drags, the stale gap index makes every move of the next drag throw (`StaleGapAfterSiblingRemoved`). A move throws exactly when the old `destinationIndex` is not below the current sibling count.
- The centre is taken from the host's current `offsetLeft`, not from the pointer. Take four siblings at 0, 80, 160 and 240, and a tab 80 wide at 80 pressed at x = 100 and moved to x = 180. The host's offset is still 80 when the move arrives, so the centre is 120 and the drag ends at slot 1 (`FourTabExample`).
- With the centre at 200 the distances to 160 and 240 tie. `indexOf` takes the first, slot 2 (`TieGoesToFirstSlot`).
- `minLeftOffset` comes from the width of `nodes[0]`, the first child of the parent, which may be the host itself. The model takes that width as a parameter.
- With a single sibling, the release reads sibling 1, which does not exist, and throws. Nothing is emitted and both flags stay set (`DragBesideSingleSibling`).

## Model

| member | source | states |
|---|---|---|
| `Slots.MathMin` | draggable.directive.ts:122 | `Math.min.apply` gives NaN when an argument is NaN and +Infinity for no arguments; otherwise it is one of the arguments and no greater than any |
| `Slots.IndexOf` | draggable.directive.ts:122 | `indexOf` result is in `[-1, length)`; at the result the value is `===` the searched value and no earlier one is; -1 exactly when no entry is `===` |
| `Slots.GenerateWeights` | draggable.directive.ts:107-111 | one weight more than siblings; the first weights are the sibling offsets in order; the last is the last offset plus the host width, or NaN with no sibling |
| `Slots.Candidates` | draggable.directive.ts:120 | one candidate per weight |
| `Slots.CandidatesFollowWeights` | draggable.directive.ts:120 | a candidate is NaN exactly where its weight is NaN and finite exactly where its weight is finite; a finite candidate is never negative, and it is 0 exactly when its weight sits on the centre |
| `Slots.RawIndex` | draggable.directive.ts:122 | `indexOf(Math.min(...))` before the clamp lies in `[-1, number of weights)`, and it is -1 exactly when there is no weight or some weight is NaN |
| `Slots.GetCurrentIndex` | draggable.directive.ts:119-126 | the slot is at least 1 and, with more than one weight, at most the index of the last weight |
| `Slots.RawIndexIsFirstNearest` | draggable.directive.ts:120-122 | on finite weights, `indexOf` of `Math.min` is the first index of a weight nearest to the centre |
| `Slots.FirstNearestUnique` | draggable.directive.ts:122 | the first nearest index is unique, so ties go to exactly one index |
| `Slots.GetCurrentIndexIsClampedNearest` | draggable.directive.ts:119-126 | on finite weights the slot is the first nearest index when that exceeds 1, else 1 |
| `Slots.WeightsAreFinite` | draggable.directive.ts:107-110 | with at least one sibling, every weight is finite: the offsets followed by last offset plus width |
| `Slots.SlotWithinSiblings` | draggable.directive.ts:107-126 | with at least one sibling, the slot lies in `[1, number of siblings]` |
| `Slots.NaNWeightSelectsSlotOne` | draggable.directive.ts:120-123 | a NaN weight makes the slot 1 |
| `Slots.NoSiblingSelectsSlotOne` | draggable.directive.ts:109 | with no sibling, the trailing weight is `undefined + width` and the slot is 1 |
| `Slots.TieGoesToFirstSlot` | draggable.directive.ts:122 | siblings at 0, 80, 160, 240, width 80, centre 200: the tie between 160 and 240 goes to slot 2 |
| `Slots.CentreAt120SelectsSlotOne` | draggable.directive.ts:160-163 | same siblings, centre 120: slot 1 |
| `Slots.CentreOnTrailingWeight` | draggable.directive.ts:109 | siblings at 0, 80, 160, width 80, centre 240: the trailing weight wins, slot 3 |
| `Draggable.ClampLeft` | draggable.directive.ts:178 | the host's left is the larger of the pointer offset and `minLeftOffset` |
| `Draggable.ReleaseClearIndex` | draggable.directive.ts:188 | the second margin cleared on release is at `destinationIndex - 1` once `destinationIndex >= 2`, and at exactly 1 when `destinationIndex <= 1` (so a release beside a single sibling reads index 1) |
| `Draggable.WriteTwoMargins` | draggable.directive.ts:150-152 | the first margin write, then the second, as the move and the release both do; the sibling count never changes, and when the first index lies outside the siblings the browser throws at once and no margin changes |
| `Draggable.WriteTwoMarginsChangesOnlyNamed` | draggable.directive.ts:150-152 | two successive margin writes change only the two named margins; the second write wins on a shared index; a write after an out-of-range index does not happen |
| `Draggable.MoveThenReleaseLeavesNoGap` | draggable.directive.ts:185-188 | from margins that are all 0, the gap a move opens is closed again by the release's two clears: every margin is 0 afterwards, provided every index touched lies among the siblings |
| `Draggable.DraggableDirective.constructor` | draggable.directive.ts:18-47 | a new directive is idle, with both indices 0 and the host at 0, bound to its input and sibling list |
| `Draggable.DraggableDirective.CalculateOffsets` | draggable.directive.ts:53-56 | `offsetX` is the host offset minus the pointer x; `minLeftOffset` is the first child's width; nothing else changes |
| `Draggable.DraggableDirective.OnMouseDown` | draggable.directive.ts:60-71 | not draggable: nothing changes; draggable: press recorded, sibling list replaced, offsets measured; the move flag, both indices, the host's left and class are unchanged |
| `Draggable.DraggableDirective.SetCurrentIndex` | draggable.directive.ts:140-142 | only `currentIndex` changes, to the given index |
| `Draggable.DraggableDirective.SetDestinationIndex` | draggable.directive.ts:132-134 | only `destinationIndex` changes, to the given index |
| `Draggable.DraggableDirective.SetMovableStyle` | draggable.directive.ts:175-180 | after a move, the host is movable and at `ClampLeft`; otherwise it is untouched |
| `Draggable.DraggableDirective.RenderMovingAction` | draggable.directive.ts:148-153 | the margin at the old `destinationIndex` is cleared, then the one at `currentIndex - 1` is set to the host width; `destinationIndex` becomes `currentIndex - 1`; it fails exactly when an index is out of range |
| `Draggable.DraggableDirective.CoreApplication` | draggable.directive.ts:159-169 | `currentIndex` is the nearest slot to the host's current centre; the host follows the pointer; the call fails exactly when the old gap index is outside the siblings |
| `Draggable.DraggableDirective.OnMouseMove` | draggable.directive.ts:73-80 | without a press nothing changes; while pressed the phase is Dragging, the slot is recomputed and at least 1, the host is placed, the gap moves, and only the old and the new gap margins change |
| `Draggable.DraggableDirective.ResetDndChanges` | draggable.directive.ts:185-193 | `movable` is dropped; margins at `currentIndex - 1` and `ReleaseClearIndex(destinationIndex)` are cleared; if both are in range the host is at 0 and both flags are false, else they are unchanged |
| `Draggable.DraggableDirective.PushChangesOnDragEnding` | draggable.directive.ts:93-101 | the emitted value carries the input's id and path and `currentIndex` |
| `Draggable.DraggableDirective.OnMouseUp` | draggable.directive.ts:82-88 | emits only after a press and a move; the position is `currentIndex`, at least 1; on emission the session is idle, the host is at 0 and only the two named margins changed; unless both flags are set, nothing changes |
| `DragScenarios.MoveAndReleaseWithoutPress` | draggable.directive.ts:73-88 | a move and a release before any press change nothing and emit nothing |
| `DragScenarios.ClickWithoutDrag` | draggable.directive.ts:82-88 | press then release without a move: no emission, and the session stays Pressed |
| `DragScenarios.DragOfFixedTab` | draggable.directive.ts:64-69 | on a tab that is not draggable, press, move and release do nothing |
| `DragScenarios.CompleteDrag` | draggable.directive.ts:60-101 | with at least two siblings and no gap open, press, move and release emit the nearest slot, end idle, and leave no gap |
| `DragScenarios.DragWithStaleGap` | draggable.directive.ts:150 | a drag over exactly `destinationIndex` siblings, at least two: the move throws at the stale gap index, yet the release emits the computed slot and ends idle |
| `DragScenarios.DragAndRelease` | draggable.directive.ts:60-101 | a first drag with at least two siblings emits a slot in `[1, number of siblings]`, then ends idle with the host at 0 and all margins 0 |
| `DragScenarios.TwoDragsInARow` | draggable.directive.ts:185-193 | the second of two drags over the same siblings behaves like the first, though neither index is reset |
| `DragScenarios.DragBesideSingleSibling` | draggable.directive.ts:188 | with one sibling the release throws, emits nothing and leaves the session Dragging |
| `DragScenarios.ClickAfterStuckDragEmits` | draggable.directive.ts:82-88 | after a release beside a single sibling has thrown, a press over three siblings and a release with no move emit the end of a drag at slot 1 |
| `DragScenarios.PressAndMoveOverFourTabs` | draggable.directive.ts:53-80 | the press at 100 and the move to 180 of the four-tab example: the session is Dragging at slot 1, the gap index is 0 and the host is drawn at 160 |
| `DragScenarios.FourTabExample` | draggable.directive.ts:159-169 | four siblings, press at 100 on a tab at 80, move to 180: the host is drawn at 160 and the drag ends at slot 1 |
| `DragScenarios.DragToLastOfThree` | draggable.directive.ts:159-169 | three siblings at 0, 80, 160, the host moved to offset 200: the drag emits slot 3 and leaves the gap index at 2 |
| `DragScenarios.StaleGapAfterSiblingRemoved` | draggable.directive.ts:150 | after a drag ending at slot 3 of three siblings, a drag over two siblings throws on the move but still emits on release |

## Left out

- Angular plumbing is left out: the decorators, `@Input`/`@Output` and `EventEmitter`. The emission is the release's returned outcome. The input `data` is a field that callers may reassign.
- `ngOnDestroy`, `destroyGlobalListeners` and the `Renderer.listenGlobal` registration are left out. They call into the framework, and the code makes no idempotence promise to state.
- The DOM reads `offsetLeft`, `clientWidth` and `parentElement.children` are not modelled. So is the filtering in `resetCoreInstances`: callers pass the siblings with the host already removed, and one offset per sibling.
- `setActiveImitation`'s `active-tab` class toggles, `stopPropagation` and the handlers' `return false` are left out as presentation. It is otherwise just `calculateOffsets`.
- Floating point is not modelled. Offsets and widths are integers, and the half-pixel centre is handled by doubling.
- `Draggable.DraggableDirective.constructor`: `offsetX`, `minLeftOffset` and the host's `style.left` start undefined or empty in the browser and at 0 here. The undefined ones are read only after a press has set them.
- The host's `clientWidth` is read three times per move: for the trailing weight, for the centre and for the gap. The model takes it as one `hostWidth` per move, although the `movable` class added before the gap is written could change it.
- A missing parent element is not modelled. In the browser, `resetCoreInstances` would throw on it.
