/** The auto-scroll decision taken while dragging (App.onScrollThreshold). */
module AutoScroll {
  import opened Geometry

  /** Height of the band near either edge of the list in which dragging scrolls. */
  const ScrollBand: int := 100

  /** Pixels scrolled per tick, whatever the pointer's depth inside the band. */
  const ScrollSpeed: int := 5

  /** The scrollToOffset call a tick issues, if any. */
  datatype ScrollRequest = NoScroll | ScrollTo(offset: int)

  /** The pointer is inside the bottom band. The list's height is compared with the
      pointer's screen height as it stands, without the top inset. */
  predicate NearBottom(y: int, listHeight: int)
  {
    y + ScrollBand > listHeight
  }

  /** The pointer is inside the top band, which starts below the top inset. */
  predicate NearTop(y: int)
  {
    y < ScrollBand + MarginTop
  }

  /** onScrollThreshold: with the list mounted, scroll one step down in the bottom
      band, else one step up in the top band; the bottom band is tested first. */
  function ScrollFor(mounted: bool, y: int, listHeight: int, scrollOffset: int): (r: ScrollRequest)
    ensures r.ScrollTo? <==> mounted && (NearBottom(y, listHeight) || NearTop(y))
    ensures r.ScrollTo? && NearBottom(y, listHeight) ==> r.offset == scrollOffset + ScrollSpeed
    ensures r.ScrollTo? && !NearBottom(y, listHeight) ==> r.offset == scrollOffset - ScrollSpeed
  {
    if mounted then
      if y + ScrollBand > listHeight then ScrollTo(scrollOffset + ScrollSpeed)
      else if y < ScrollBand + MarginTop then ScrollTo(scrollOffset - ScrollSpeed)
      else NoScroll
    else NoScroll
  }

  /** The scrollToOffset calls a request stands for: none or one. */
  function Calls(r: ScrollRequest): seq<int>
  {
    match r
    case NoScroll => []
    case ScrollTo(o) => [o]
  }

  /** The scroll offset after n ticks with the pointer held still at y, when the list
      reports every requested offset back through its scroll handler before the next tick. */
  function OffsetAfter(n: nat, mounted: bool, y: int, listHeight: int, scrollOffset: int): int
  {
    if n == 0 then scrollOffset
    else
      var before := OffsetAfter(n - 1, mounted, y, listHeight, scrollOffset);
      match ScrollFor(mounted, y, listHeight, before)
      case NoScroll => before
      case ScrollTo(o) => o
  }

  /** A pointer held in a band moves the list by one fixed step per tick, without any
      clamping at the ends; outside both bands, or with no list mounted, nothing moves. */
  lemma {:induction false} OffsetAfterSteps(n: nat, mounted: bool, y: int, listHeight: int, scrollOffset: int)
    ensures var o := OffsetAfter(n, mounted, y, listHeight, scrollOffset);
      (mounted && NearBottom(y, listHeight) ==> o == scrollOffset + n * ScrollSpeed) &&
      (mounted && !NearBottom(y, listHeight) && NearTop(y) ==> o == scrollOffset - n * ScrollSpeed) &&
      (!mounted || (!NearBottom(y, listHeight) && !NearTop(y)) ==> o == scrollOffset)
  {
    if n > 0 {
      OffsetAfterSteps(n - 1, mounted, y, listHeight, scrollOffset);
    }
  }
}
