/** Moving the dragged item to a new slot (App.reorder): remove it, then insert it
    again at the target index of the shortened sequence. */
module Reorder {

  /** After moving the element at from to slot to, slot k holds the element that was
      at Origin(from, to, k): the dragged element lands on to, the elements strictly
      between shift one slot toward the vacated one, all others stay. */
  function Origin(from: int, to: int, k: int): int
  {
    if k == to then from
    else if from < to && from <= k < to then k + 1
    else if to < from && to < k <= from then k - 1
    else k
  }

  /** The two splices of reorder: s.splice(from, 1), then splice(to, 0, s[from]). */
  function Moved<T>(s: seq<T>, from: int, to: int): (r: seq<T>)
    requires 0 <= from < |s| && 0 <= to < |s|
    ensures |r| == |s|
  {
    var rest := s[..from] + s[from + 1..];
    rest[..to] + [s[from]] + rest[to..]
  }

  /** Slot k of the moved sequence holds the element formerly at Origin(from, to, k). */
  lemma MovedAt<T>(s: seq<T>, from: int, to: int)
    requires 0 <= from < |s| && 0 <= to < |s|
    ensures forall k :: 0 <= k < |s| ==> 0 <= Origin(from, to, k) < |s| && Moved(s, from, to)[k] == s[Origin(from, to, k)]
  {
    var rest := s[..from] + s[from + 1..];
    assert forall k :: 0 <= k < |rest| ==> rest[k] == if k < from then s[k] else s[k + 1];
  }

  /** Moving an element neither loses nor duplicates anything. */
  lemma MovedPermutes<T>(s: seq<T>, from: int, to: int)
    requires 0 <= from < |s| && 0 <= to < |s|
    ensures multiset(Moved(s, from, to)) == multiset(s)
  {
    var rest := s[..from] + s[from + 1..];
    assert s == s[..from] + [s[from]] + s[from + 1..];
    assert multiset(s) == multiset(rest) + multiset{s[from]};
    assert rest == rest[..to] + rest[to..];
    assert multiset(Moved(s, from, to)) == multiset(rest[..to]) + multiset{s[from]} + multiset(rest[to..]);
  }

  /** The positional effect of a move, spelled out: only the range between from and
      to changes, and inside it everything shifts by one toward from. */
  lemma MovedShifts<T>(s: seq<T>, from: int, to: int)
    requires 0 <= from < |s| && 0 <= to < |s|
    ensures Moved(s, from, to)[to] == s[from]
    ensures forall k :: 0 <= k < |s| && (k < from || to < k) && (k < to || from < k) ==> Moved(s, from, to)[k] == s[k]
    ensures forall k :: from <= k < to ==> Moved(s, from, to)[k] == s[k + 1]
    ensures forall k :: to < k <= from ==> Moved(s, from, to)[k] == s[k - 1]
  {
    MovedAt(s, from, to);
  }

  /** Moving an element onto its own slot changes nothing. */
  lemma MovedInPlace<T>(s: seq<T>, i: int)
    requires 0 <= i < |s|
    ensures Moved(s, i, i) == s
  {
    var r := Moved(s, i, i);
    MovedAt(s, i, i);
    assert forall k :: 0 <= k < |s| ==> r[k] == s[k];
  }

  /** Moving the element back from to to from restores the original order. */
  lemma MovedUndo<T>(s: seq<T>, from: int, to: int)
    requires 0 <= from < |s| && 0 <= to < |s|
    ensures Moved(Moved(s, from, to), to, from) == s
  {
    var r := Moved(s, from, to);
    var b := Moved(r, to, from);
    MovedAt(s, from, to);
    MovedAt(r, to, from);
    forall k | 0 <= k < |s|
      ensures b[k] == s[k]
    {
      assert Origin(from, to, Origin(to, from, k)) == k;
    }
  }
}
