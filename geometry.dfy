/** Mapping a pointer's screen height to a row of the list (App.getIndex). */
module Geometry {

  /** Fixed top inset of the list on screen, the room left for the status bar. */
  const MarginTop: int := 55

  /** Distance between two integers. */
  function Dist(a: int, b: int): nat
  {
    if a <= b then b - a else a - b
  }

  /** The row a pointer at screen height y lies over, before clamping:
      the floor of (y - MarginTop + scrollOffset) / itemHeight. With a positive
      divisor Dafny's division is floor division, as Math.floor of the quotient is. */
  function RawIndex(y: int, scrollOffset: int, itemHeight: int): int
    requires itemHeight > 0
  {
    (y - MarginTop + scrollOffset) / itemHeight
  }

  /** The unclamped row is the floor of the quotient: the pointer lies inside its band. */
  lemma RawIndexIsFloor(y: int, scrollOffset: int, itemHeight: int)
    requires itemHeight > 0
    ensures var r := RawIndex(y, scrollOffset, itemHeight);
      r * itemHeight <= y - MarginTop + scrollOffset < (r + 1) * itemHeight
  {
    var a := y - MarginTop + scrollOffset;
    var r := a / itemHeight;
    assert a == itemHeight * r + a % itemHeight;
    assert (r + 1) * itemHeight == r * itemHeight + itemHeight;
  }

  /** Keeps a row index inside a list of count rows, testing the upper bound first. */
  function Clamp(index: int, count: int): (r: int)
    ensures count > 0 ==> 0 <= r < count
  {
    if index > count - 1 then count - 1
    else if index < 0 then 0
    else index
  }

  /** For a non-empty list, clamping picks the row nearest to the unclamped index. */
  lemma ClampIsNearest(index: int, count: int, j: int)
    requires 0 <= j < count
    ensures Dist(Clamp(index, count), index) <= Dist(j, index)
  {
  }

  /** a * h < b * h with a positive h means a < b. */
  lemma MulLessCancel(a: int, b: int, h: int)
    requires h > 0 && a * h < b * h
    ensures a < b
  {
  }

  /** getIndex: the row under a pointer at screen height y, for a list of count rows of
      height itemHeight scrolled by scrollOffset. */
  function IndexForY(y: int, scrollOffset: int, itemHeight: int, count: int): (r: int)
    requires itemHeight > 0
    ensures count > 0 ==> 0 <= r < count
  {
    Clamp(RawIndex(y, scrollOffset, itemHeight), count)
  }

  /** Where getIndex puts a pointer: on the row whose band holds it when it lies over the
      list's rows, on the first row above them and on the last row below them. */
  lemma IndexForYRow(y: int, scrollOffset: int, itemHeight: int, count: int)
    requires itemHeight > 0
    ensures var r, a := IndexForY(y, scrollOffset, itemHeight, count), y - MarginTop + scrollOffset;
      (0 <= a < count * itemHeight ==> r * itemHeight <= a < (r + 1) * itemHeight) &&
      (count > 0 && a < 0 ==> r == 0) &&
      (count > 0 && a >= count * itemHeight ==> r == count - 1)
  {
    var raw, a := RawIndex(y, scrollOffset, itemHeight), y - MarginTop + scrollOffset;
    RawIndexIsFloor(y, scrollOffset, itemHeight);
    if 0 <= a < count * itemHeight {
      MulLessCancel(raw, count, itemHeight);
      MulLessCancel(-1, raw, itemHeight);
    }
    if a < 0 {
      MulLessCancel(raw, 0, itemHeight);
    }
    if a >= count * itemHeight {
      MulLessCancel(count - 1, raw + 1, itemHeight);
    }
  }

  /** A pointer further down the screen never maps to an earlier row. */
  lemma IndexForYMonotone(y1: int, y2: int, scrollOffset: int, itemHeight: int, count: int)
    requires itemHeight > 0 && count > 0 && y1 <= y2
    ensures IndexForY(y1, scrollOffset, itemHeight, count) <= IndexForY(y2, scrollOffset, itemHeight, count)
  {
    var r1, r2 := RawIndex(y1, scrollOffset, itemHeight), RawIndex(y2, scrollOffset, itemHeight);
    RawIndexIsFloor(y1, scrollOffset, itemHeight);
    RawIndexIsFloor(y2, scrollOffset, itemHeight);
    MulLessCancel(r1, r2 + 1, itemHeight);
    assert IndexForY(y1, scrollOffset, itemHeight, count) == Clamp(r1, count);
    assert IndexForY(y2, scrollOffset, itemHeight, count) == Clamp(r2, count);
  }

  /** A pointer d pixels below the top of row i, where row i is drawn at
      MarginTop + i * itemHeight - scrollOffset, maps back to row i. */
  lemma RowMapsBack(i: int, d: int, scrollOffset: int, itemHeight: int, count: int)
    requires 0 <= i < count && 0 <= d < itemHeight
    ensures IndexForY(MarginTop + i * itemHeight - scrollOffset + d, scrollOffset, itemHeight, count) == i
  {
    var y := MarginTop + i * itemHeight - scrollOffset + d;
    var r := RawIndex(y, scrollOffset, itemHeight);
    RawIndexIsFloor(y, scrollOffset, itemHeight);
    assert (i + 1) * itemHeight == i * itemHeight + itemHeight;
    assert (r + 1) * itemHeight == r * itemHeight + itemHeight;
    MulLessCancel(r, i + 1, itemHeight);
    MulLessCancel(i, r + 1, itemHeight);
  }
}
