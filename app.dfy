/** The App component's drag-and-drop state machine (App.tsx, class App). */
module DragApp {
  import opened Items
  import opened Geometry
  import opened Reorder
  import opened AutoScroll

  /** A screen translation, as held by an Animated.ValueXY. */
  datatype Point = Point(x: int, y: int)

  /** dragItemCoordinatesInitialValue. */
  const ZeroPoint: Point := Point(0, 0)

  /** currentIndexInitialValue: no row is being dragged. */
  const NoIndex: int := -1

  /** Moving an item keeps the ids of a list distinct. */
  lemma MovedKeepsIdsDistinct(s: seq<Item>, from: int, to: int)
    requires 0 <= from < |s| && 0 <= to < |s|
    requires DistinctIds(s)
    ensures DistinctIds(Moved(s, from, to))
  {
    var r := Moved(s, from, to);
    MovedAt(s, from, to);
    forall i, j | 0 <= i < j < |r|
      ensures r[i].id != r[j].id
    {
      var a, b := Origin(from, to, i), Origin(from, to, j);
      assert Origin(to, from, a) == i && Origin(to, from, b) == j;
      if a < b {
        assert s[a].id != s[b].id;
      } else {
        assert s[b].id != s[a].id;
      }
    }
  }

  class App {
    /** The items, in the order the list shows them. */
    var data: seq<Item>
    /** The list's measured height (handleFlatListLayout). */
    var flatListHeight: int
    /** The measured height of a row (handleItemLayout). */
    var flatListItemHeight: int
    /** The list's scroll position, as last reported by handleScroll. */
    var scrollOffset: int
    /** Whether flatListRef.current is set, i.e. the list is mounted. */
    var listMounted: bool
    /** The offsets passed to flatListRef.current.scrollToOffset, oldest first. */
    var scrollRequests: seq<int>
    /** The value of dragItemCoordinates: the gesture's accumulated translation. */
    var dragValue: Point
    /** The offset of dragItemCoordinates: where the ghost row starts. */
    var dragOffset: Point
    /** The dragged item's current slot, or NoIndex. */
    var currentIndex: int
    /** The pointer's latest screen height. */
    var currentY: int
    /** state.isDragging. */
    var isDragging: bool
    /** state.dragItemIndex: the slot of the item the ghost row shows. */
    var dragItemIndex: int
    /** The list as generateArray built it. */
    ghost const initialData: seq<Item>

    /** The component's invariant: the list is always a rearrangement of the initial
        items, the ghost row shows the dragged item, and the dragged
        slot is a real slot exactly while dragging. */
    ghost predicate Valid()
      reads this
    {
      |data| == ItemCount &&
      multiset(data) == multiset(initialData) &&
      dragItemIndex == currentIndex &&
      (if isDragging then 0 <= currentIndex < |data| else currentIndex == NoIndex)
    }

    /** The component as first created: the generated items and nothing measured. */
    constructor ()
      ensures Valid()
      ensures data == initialData && DistinctIds(data)
      ensures forall i :: 0 <= i < |data| ==> data[i] == Item(i + 1, DecimalString(i + 1))
      ensures flatListHeight == 0 && flatListItemHeight == 0 && scrollOffset == 0
      ensures !listMounted && scrollRequests == []
      ensures dragValue == ZeroPoint && dragOffset == ZeroPoint
      ensures currentIndex == NoIndex && currentY == 0 && !isDragging && dragItemIndex == NoIndex
    {
      var items := GenerateArray();
      data := items;
      initialData := items;
      flatListHeight, flatListItemHeight, scrollOffset := 0, 0, 0;
      listMounted, scrollRequests := false, [];
      dragValue, dragOffset := ZeroPoint, ZeroPoint;
      currentIndex, currentY := NoIndex, 0;
      isDragging, dragItemIndex := false, NoIndex;
    }

    /** getIndex: the slot under a pointer at screen height y. */
    function GetIndex(y: int): (r: int)
      reads this
      requires flatListItemHeight > 0
      ensures |data| > 0 ==> 0 <= r < |data|
    {
      IndexForY(y, scrollOffset, flatListItemHeight, |data|)
    }

    /** reset: no slot dragged, the gesture's translation zeroed, dragging off. The
        ghost row's offset and the list itself are left as they are. */
    method Reset()
      requires Valid()
      modifies this`currentIndex, this`dragValue, this`isDragging, this`dragItemIndex
      ensures Valid()
      ensures currentIndex == NoIndex && dragValue == ZeroPoint
      ensures !isDragging && dragItemIndex == NoIndex
    {
      currentIndex := NoIndex;
      dragValue := ZeroPoint;
      isDragging, dragItemIndex := false, NoIndex;
    }

    /** reorder: take the dragged item out of its slot, then put it back at index. */
    method Reorder(index: int)
      requires 0 <= currentIndex < |data| && 0 <= index < |data|
      modifies this`data
      ensures data == Moved(old(data), currentIndex, index)
      ensures multiset(data) == multiset(old(data))
      ensures DistinctIds(old(data)) ==> DistinctIds(data)
    {
      var newData := data;
      var dragItemData := newData[currentIndex];
      newData := newData[..currentIndex] + newData[currentIndex + 1..];
      newData := newData[..index] + [dragItemData] + newData[index..];
      data := newData;
      MovedPermutes(old(data), currentIndex, index);
      if DistinctIds(old(data)) {
        MovedKeepsIdsDistinct(old(data), currentIndex, index);
      }
    }

    /** onReorder: move the dragged item to the slot under the pointer when that slot
        differs from its current one, and leave the list alone otherwise; afterwards
        the pointer is over the dragged slot. */
    method OnReorder()
      requires Valid() && isDragging && flatListItemHeight > 0
      modifies this`data, this`currentIndex, this`dragItemIndex
      ensures Valid()
      ensures currentIndex == old(GetIndex(currentY)) && dragItemIndex == currentIndex
      ensures data == if currentIndex == old(currentIndex) then old(data) else Moved(old(data), old(currentIndex), currentIndex)
      ensures GetIndex(currentY) == currentIndex
    {
      var newIndex := GetIndex(currentY);
      if newIndex != currentIndex {
        Reorder(newIndex);
        currentIndex := newIndex;
        dragItemIndex := currentIndex;
      }
    }

    /** onScrollThreshold: issue the scroll that ScrollFor asks for. The scroll offset
        itself is left alone until the list reports the new position. */
    method OnScrollThreshold()
      modifies this`scrollRequests
      ensures scrollRequests == old(scrollRequests) + Calls(ScrollFor(listMounted, currentY, flatListHeight, scrollOffset))
    {
      if listMounted {
        var scrollSpeed := ScrollSpeed;
        if currentY + ScrollBand > flatListHeight {
          scrollRequests := scrollRequests + [scrollOffset + scrollSpeed];
        } else if currentY < ScrollBand + MarginTop {
          scrollRequests := scrollRequests + [scrollOffset - scrollSpeed];
        }
      }
    }

    /** One frame of onDrag: nothing once dragging has stopped; otherwise the scroll
        check, then the reorder step, and another frame is asked for (again). */
    method Tick() returns (again: bool)
      requires Valid()
      requires isDragging ==> flatListItemHeight > 0
      modifies this`scrollRequests, this`data, this`currentIndex, this`dragItemIndex
      ensures Valid()
      ensures again == isDragging
      ensures !isDragging ==>
                scrollRequests == old(scrollRequests) && data == old(data) &&
                currentIndex == old(currentIndex) && dragItemIndex == old(dragItemIndex)
      ensures isDragging ==>
                scrollRequests == old(scrollRequests) + Calls(ScrollFor(listMounted, currentY, flatListHeight, scrollOffset)) &&
                currentIndex == old(GetIndex(currentY)) && dragItemIndex == currentIndex &&
                data == if currentIndex == old(currentIndex) then old(data) else Moved(old(data), old(currentIndex), currentIndex)
    {
      if !isDragging {
        return false;
      }
      OnScrollThreshold();
      OnReorder();
      again := true;
    }

    /** onPanResponderGrant: start dragging the slot under y0 and place the ghost row
        over it; the caller then starts ticking. */
    method Grant(y0: int)
      requires Valid() && flatListItemHeight > 0
      modifies this`currentIndex, this`currentY, this`dragOffset, this`isDragging, this`dragItemIndex
      ensures Valid()
      ensures currentIndex == old(GetIndex(y0)) && 0 <= currentIndex < |data|
      ensures currentY == y0
      ensures dragOffset == Point(0, currentIndex * flatListItemHeight - scrollOffset)
      ensures isDragging && dragItemIndex == currentIndex
    {
      currentIndex := GetIndex(y0);
      currentY := y0;
      dragOffset := Point(0, currentIndex * flatListItemHeight - scrollOffset);
      isDragging, dragItemIndex := true, currentIndex;
    }

    /** onPanResponderMove: record the pointer's height and let the ghost row follow
        the gesture's accumulated vertical translation dy. */
    method Move(moveY: int, dy: int)
      requires Valid()
      modifies this`currentY, this`dragValue
      ensures Valid()
      ensures currentY == moveY && dragValue == Point(old(dragValue).x, dy)
    {
      currentY := moveY;
      dragValue := Point(dragValue.x, dy);
    }

    /** onPanResponderRelease. */
    method Release()
      requires Valid()
      modifies this`currentIndex, this`dragValue, this`isDragging, this`dragItemIndex
      ensures Valid()
      ensures currentIndex == NoIndex && dragValue == ZeroPoint
      ensures !isDragging && dragItemIndex == NoIndex
    {
      Reset();
    }

    /** onPanResponderTerminate: another view took the gesture over. */
    method Terminate()
      requires Valid()
      modifies this`currentIndex, this`dragValue, this`isDragging, this`dragItemIndex
      ensures Valid()
      ensures currentIndex == NoIndex && dragValue == ZeroPoint
      ensures !isDragging && dragItemIndex == NoIndex
    {
      Reset();
    }

    /** handleFlatListLayout. */
    method HandleFlatListLayout(height: int)
      requires Valid()
      modifies this`flatListHeight
      ensures Valid() && flatListHeight == height
    {
      flatListHeight := height;
    }

    /** handleItemLayout: the last row measured decides the row height. */
    method HandleItemLayout(height: int)
      requires Valid()
      modifies this`flatListItemHeight
      ensures Valid() && flatListItemHeight == height
    {
      if flatListItemHeight != height {
        flatListItemHeight := height;
      }
    }

    /** handleScroll: the list reports its scroll position. */
    method HandleScroll(offset: int)
      requires Valid()
      modifies this`scrollOffset
      ensures Valid() && scrollOffset == offset
    {
      scrollOffset := offset;
    }

    /** The ref to the list is filled in on mount and cleared on unmount. */
    method MountList(mounted: bool)
      requires Valid()
      modifies this`listMounted
      ensures Valid() && listMounted == mounted
    {
      listMounted := mounted;
    }
  }
}
