/** Whole drag gestures driven through the component, as a host would: layout
    notifications, a grant, moves, one Tick per frame, and a release. */
module Scenarios {
  import opened Items
  import opened Geometry
  import opened AutoScroll
  import opened DragApp

  /** Row height and list height used by the scenarios. */
  const RowHeight: int := 70
  const ListHeight: int := 800

  /** A freshly created component whose list has been mounted and measured. */
  method MeasuredApp() returns (app: App)
    ensures fresh(app) && app.Valid()
    ensures forall i :: 0 <= i < |app.data| ==> app.data[i].id == i + 1
    ensures app.listMounted && app.flatListHeight == ListHeight && app.flatListItemHeight == RowHeight
    ensures app.scrollOffset == 0 && app.scrollRequests == [] && !app.isDragging
  {
    app := new App();
    app.MountList(true);
    app.HandleFlatListLayout(ListHeight);
    app.HandleItemLayout(RowHeight);
  }

  /** The ids after moving slot 3 to slot 7 of the generated list. */
  lemma FourthToEighthIds(s: seq<Item>)
    requires |s| == ItemCount && forall i :: 0 <= i < |s| ==> s[i].id == i + 1
    ensures Ids(Reorder.Moved(s, 3, 7)) == [1, 2, 3, 5, 6, 7, 8, 4, 9, 10, 11, 12, 13, 14, 15]
  {
    var ids := Ids(Reorder.Moved(s, 3, 7));
    Reorder.MovedAt(s, 3, 7);
    assert forall k :: 0 <= k < |ids| ==> ids[k] == Reorder.Origin(3, 7, k) + 1;
  }

  /** The measured component just after a touch on the middle of slot 3 (item 4). */
  method GrantedOnFourth() returns (app: App)
    ensures fresh(app) && app.Valid()
    ensures forall i :: 0 <= i < |app.data| ==> app.data[i].id == i + 1
    ensures app.isDragging && app.currentIndex == 3 && app.currentY == 300
    ensures app.listMounted && app.flatListHeight == ListHeight && app.flatListItemHeight == RowHeight
    ensures app.scrollOffset == 0 && app.scrollRequests == []
  {
    app := MeasuredApp();
    RowMapsBack(3, 35, 0, RowHeight, ItemCount);
    app.Grant(300);
  }

  /** Dragging item 4 (in slot 3) down to slot 7 leaves it there, shifts items 5 to 8
      up by one, leaves every other item in place and requests no scrolling. */
  method DragFourthToEighth() returns (ids: seq<int>, index: int, requests: seq<int>)
    ensures ids == [1, 2, 3, 5, 6, 7, 8, 4, 9, 10, 11, 12, 13, 14, 15]
    ensures index == 7
    ensures requests == []
  {
    var app := GrantedOnFourth();
    ghost var start := app.data;
    var again := app.Tick();

    RowMapsBack(7, 35, 0, RowHeight, ItemCount);
    app.Move(580, 280);
    again := app.Tick();
    index := app.currentIndex;
    FourthToEighthIds(start);
    ids := Ids(app.data);
    requests := app.scrollRequests;

    app.Release();
  }

  /** Holding the pointer in the top band over the first row, with the host reporting
      each requested offset back, scrolls up by one step per tick: the requests keep
      coming after the offset has reached 0, and the dragged item stays in slot 0. */
  method HoldInTopBand() returns (requests: seq<int>, index: int)
    ensures requests == [15, 10, 5, 0, -5]
    ensures index == 0
  {
    var app := MeasuredApp();
    app.HandleScroll(20);

    var y := MarginTop + 10;
    assert NearTop(y) && !NearBottom(y, ListHeight);
    RowMapsBack(0, 30, 20, RowHeight, ItemCount);
    app.Grant(y);

    var frame := 0;
    while frame < 5
      invariant 0 <= frame <= 5
      invariant app.Valid() && app.isDragging && app.listMounted && app.currentIndex == 0
      invariant app.currentY == y && app.flatListHeight == ListHeight && app.flatListItemHeight == RowHeight
      invariant app.scrollOffset == 20 - frame * ScrollSpeed
      invariant app.scrollRequests == seq(frame, k => 20 - (k + 1) * ScrollSpeed)
    {
      RowMapsBack(0, 30 - frame * ScrollSpeed, app.scrollOffset, RowHeight, ItemCount);
      var again := app.Tick();
      app.HandleScroll(app.scrollRequests[frame]);
      frame := frame + 1;
    }
    requests := app.scrollRequests;
    index := app.currentIndex;

    app.Terminate();
  }
}
