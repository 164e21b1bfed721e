# Drag-and-drop reordering of a list, modelled in Dafny

This project models the interaction core of a React Native demo app. The app shows a
list of fifteen rows. The user presses a row's drag handle and drags it up or down. The
list reorders live as the pointer crosses row boundaries, and it scrolls by itself while
the pointer stays near the top or bottom edge. Everything sits in one component, `App`
in `App.tsx`. The model follows its pieces, one module each:

- `Items`: an item (`id`, `value`) and `generateArray`, which builds items 1 to 15 in
  order, each showing its own number in decimal.
- `Geometry`: `getIndex`, which turns a pointer's screen height into a row index. It
  computes the floor of `(y - 55 + scrollOffset) / rowHeight` and clamps it to the list.
  The config value 55 is the list's top inset.
- `Reorder`: the two `splice` calls of `reorder`, as a function on sequences. One splice
  removes the dragged item; the other inserts it at the target index of the shortened list.
- `AutoScroll`: the decision of `onScrollThreshold`. It uses a 100-pixel band and a step
  of 5 pixels. The bottom band is tested first, then the top band, which is shifted by
  the inset.
- `DragApp`: the component itself, a class `App` with the source's fields. It has one
  method per handler: `Grant`, `Move`, `Release`, `Terminate`, the three layout and
  scroll setters, `OnReorder`, `OnScrollThreshold`, `Reset` and `Reorder`. `Tick` is one
  animation frame of `onDrag`. The invariant `Valid()` says these things:
  - the list is always a rearrangement of the generated items;
  - `dragItemIndex == currentIndex`;
  - while dragging, `currentIndex` is a real slot;
  - when not dragging, `currentIndex` is -1.
  Every handler preserves it.
- `Scenarios`: two whole gestures driven through the class.
  - Item 4 is dragged from slot 3 down to slot 7.
  - A pointer is held in the top band while the host reports each scroll back.

Coordinates are integers (logical pixels). Dafny's `/` with a positive divisor is floor
division, so it matches `Math.floor` of the quotient. `scrollToOffset` is modelled as an
append to `scrollRequests`. Only `HandleScroll`, the host's report, writes
`scrollOffset`. React Native's `requestAnimationFrame` becomes the caller invoking `Tick`
again for as long as it returns `true`. React's `setState` is applied at once.

The bottom band compares the pointer's screen height with the list's height, without the
55-pixel inset; the top band does include it. As written, the bottom band therefore
reaches 155 pixels above the list's bottom edge, while the top band reaches 100 pixels
below its top edge. The model keeps this behaviour.

The model keeps these features of the code as written:
- `getIndex` divides by the row height with no guard, so the model requires
  `flatListItemHeight > 0`.
- `reset` only calls `setValue` on `dragItemCoordinates`. That zeroes the gesture
  translation (`dragValue`) and leaves the offset set at grant (`dragOffset`) as it was.
- Only `handleScroll` writes `scrollOffset`; asking for a scroll does not change it.
- `reorder` has no range check. The model requires both indices to be in range; while
  dragging they always are.

## Model

| member | source | states |
|---|---|---|
| `Items.GenerateArray` | App.tsx:51-62 | exactly 15 items; item i has id i+1 and shows i+1 in decimal; ids are distinct |
| `Items.DecimalString` | App.tsx:57 | `index.toString()` is a non-empty string of decimal digits, one digit exactly for numbers below 10, with no leading zero |
| `Items.DecimalRoundTrip` | App.tsx:57 | reading an item's text back as a decimal number gives its number |
| `Geometry.RawIndexIsFloor` | App.tsx:137-139 | the unclamped quotient `RawIndex` (the `Math.floor` expression) is r, the floor: `r*h <= y - 55 + scroll < (r+1)*h` |
| `Geometry.Clamp` | App.tsx:141-148 | for a non-empty list the clamped index lies in `[0, count-1]` |
| `Geometry.ClampIsNearest` | App.tsx:141-148 | the clamped index is the slot nearest the unclamped one |
| `Geometry.IndexForY` | App.tsx:136-149 | `Clamp` of the unclamped quotient `RawIndex`; for a non-empty list and a positive row height, the index lies in `[0, count-1]` |
| `Geometry.IndexForYRow` | App.tsx:136-149 | a pointer over the rows gets the row whose band holds it; above the rows it gets row 0; below them it gets the last row |
| `Geometry.IndexForYMonotone` | App.tsx:136-149 | a pointer lower on screen never maps to an earlier row |
| `Geometry.RowMapsBack` | App.tsx:136-149 | a pointer d pixels into row i (drawn at `55 + i*h - scroll`) maps back to row i |
| `Reorder.Moved` | App.tsx:169-177 | the two splices keep the length |
| `Reorder.MovedAt` | App.tsx:173-174 | slot k afterwards holds the element from slot `Origin(from, to, k)`, which is always a valid slot |
| `Reorder.MovedShifts` | App.tsx:173-174 | dragged element lands on `to`; slots outside the range between `from` and `to` are unchanged; slots strictly between shift by one toward the vacated slot |
| `Reorder.MovedPermutes` | App.tsx:169-177 | the result is a permutation: same multiset of elements, so nothing is lost or duplicated |
| `Reorder.MovedInPlace` | App.tsx:173-174 | moving an element onto its own slot gives back the same sequence |
| `Reorder.MovedUndo` | App.tsx:173-174 | moving from `to` back to `from` restores the original sequence |
| `DragApp.MovedKeepsIdsDistinct` | App.tsx:169-177 | if ids were distinct before a move, they are distinct after it |
| `AutoScroll.ScrollFor` | App.tsx:202-218 | a scroll is asked for exactly when the list is mounted and the pointer is in either band; in the bottom band it is `+5`, else `-5`, so bottom takes precedence |
| `AutoScroll.OffsetAfterSteps` | App.tsx:202-236 | with a still pointer and the host reporting each scroll back, n frames move the offset by exactly `+5n` (bottom band) or `-5n` (top band only), with no clamping at 0; outside the bands, or unmounted, it does not move |
| `DragApp.App.constructor` | App.tsx:86-130 | the generated items with distinct ids, nothing measured, list not mounted, no drag, index -1, coordinates (0,0) |
| `DragApp.App.GetIndex` | App.tsx:136-149 | with a positive row height, the index of any pointer lies inside the list |
| `DragApp.App.Reset` | App.tsx:154-163 | from any valid state: index -1, drag translation (0,0), not dragging, `dragItemIndex == -1`; list, scroll state and offset untouched |
| `DragApp.App.Reorder` | App.tsx:169-177 | `data` becomes `Moved(old data, currentIndex, index)`; same multiset; distinct ids stay distinct; no other field changes |
| `DragApp.App.OnReorder` | App.tsx:182-196 | the index becomes `getIndex(currentY)`, and so does `dragItemIndex`; the list is untouched when that is the current slot, otherwise it is the moved list; afterwards `getIndex(currentY) == currentIndex`; the invariant holds |
| `DragApp.App.OnScrollThreshold` | App.tsx:202-218 | appends exactly the call `ScrollFor` asks for; no other field changes, in particular not `scrollOffset` |
| `DragApp.App.Tick` | App.tsx:224-236 | not dragging: nothing changes and no frame is requested; dragging: the scroll request, then the reorder step, then another frame is requested |
| `DragApp.App.Grant` | App.tsx:250-268 | index becomes `getIndex(y0)` (a valid slot); `currentY` becomes y0; ghost offset becomes `(0, index*h - scroll)`; dragging starts; `dragItemIndex` equals the index |
| `DragApp.App.Move` | App.tsx:276-283 | `currentY` becomes `moveY`; the ghost row's vertical translation becomes the gesture's `dy`; nothing else changes |
| `DragApp.App.Release` | App.tsx:291-293 | same outcome as `Reset` |
| `DragApp.App.Terminate` | App.tsx:299-301 | same outcome as `Reset` |
| `DragApp.App.HandleFlatListLayout` | App.tsx:316-318 | sets the list height, nothing else |
| `DragApp.App.HandleItemLayout` | App.tsx:325-331 | sets the row height to the last measured row, nothing else |
| `DragApp.App.HandleScroll` | App.tsx:337-339 | sets the scroll offset to the reported one, nothing else |
| `DragApp.App.MountList` | App.tsx:407 | records whether the list is mounted (`flatListRef.current` set), nothing else |
| `Scenarios.FourthToEighthIds` | App.tsx:173-174 | moving slot 3 to slot 7 of items 1..15 gives ids 1,2,3,5,6,7,8,4,9,...,15 |
| `Scenarios.DragFourthToEighth` | App.tsx:182-196 | full gesture: touch slot 3, move to slot 7, tick and release. Item 4 ends in slot 7 and items 5-8 shift up; the rest stay; final index is 7; no scroll is requested |
| `Scenarios.HoldInTopBand` | App.tsx:202-236 | pointer held in the top band, starting from offset 20: requests 15, 10, 5, 0, -5, one per frame; the dragged item stays in slot 0 |

## Left out

- Rendering (`render`, `renderItem`, `renderDragItem`, the style sheet). The only logic
  in it, hiding the row at `currentIndex` and disabling scrolling while dragging, is
  presentation.
- `generateColors` and the colour table: they use `Math.random` and only colour rows.
- The PanResponder configuration callbacks and the internals of `Animated.ValueXY` and
  `Animated.event`. They are library code. The ghost row is kept as the offset set at
  grant plus the translation recorded by `Move`.
- `requestAnimationFrame` and the asynchrony of `setState`. The caller drives `Tick`, and
  state updates take effect immediately. A scroll event arriving between the scroll check
  and the reorder step of one frame cannot be expressed.
- `DragApp.App.GetIndex`: not modelled for a row height of 0 or below. JavaScript would
  produce Infinity or NaN there, so the model requires a positive height.
- `DragApp.App.Reorder`: not modelled when an index is out of range. JavaScript's
  `splice` would treat -1 as counting from the end, so the model requires indices inside
  the list.
- Floating-point screen coordinates: the model uses integers.
