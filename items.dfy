/** The list's items and the demo data the list starts with (App.tsx, generateArray). */
module Items {

  /** One row of the list: a stable identity and the text shown. */
  datatype Item = Item(id: int, value: string)

  /** generateArray builds this many items, with ids 1 to ItemCount. */
  const ItemCount: nat := 15

  /** The decimal digit character for d. */
  function Digit(d: nat): (c: char)
    requires d < 10
    ensures '0' <= c <= '9' && c as int - '0' as int == d
  {
    ('0' as int + d) as char
  }

  /** Number.prototype.toString for a non-negative integer: its decimal
      digits, most significant first, without leading zeros. */
  function DecimalString(n: nat): (r: string)
    ensures |r| > 0
    ensures forall c :: c in r ==> '0' <= c <= '9'
    ensures n < 10 <==> |r| == 1
    ensures n >= 10 ==> r[0] != '0'
  {
    if n < 10 then [Digit(n)] else DecimalString(n / 10) + [Digit(n % 10)]
  }

  /** Reads a string of decimal digits back as a number. */
  function DecimalValue(s: string): int
  {
    if s == [] then 0 else DecimalValue(s[..|s| - 1]) * 10 + (s[|s| - 1] as int - '0' as int)
  }

  /** The text of an item is its number written in decimal: reading it back gives the number. */
  lemma {:induction false} DecimalRoundTrip(n: nat)
    ensures DecimalValue(DecimalString(n)) == n
  {
    var s := DecimalString(n);
    if n < 10 {
      assert s[..|s| - 1] == [];
    } else {
      assert s[..|s| - 1] == DecimalString(n / 10);
      DecimalRoundTrip(n / 10);
    }
  }

  /** No two items of s share an id. */
  predicate DistinctIds(s: seq<Item>)
  {
    forall i, j :: 0 <= i < j < |s| ==> s[i].id != s[j].id
  }

  /** The ids of s, in order. */
  function Ids(s: seq<Item>): seq<int>
  {
    seq(|s|, i requires 0 <= i < |s| => s[i].id)
  }

  /** generateArray: items 1 to 15 in order, each showing its own number. */
  method GenerateArray() returns (data: seq<Item>)
    ensures |data| == ItemCount
    ensures forall i :: 0 <= i < |data| ==> data[i] == Item(i + 1, DecimalString(i + 1))
    ensures DistinctIds(data)
  {
    data := [];
    var index := 1;
    while index < ItemCount + 1
      invariant 1 <= index <= ItemCount + 1
      invariant |data| == index - 1
      invariant forall i :: 0 <= i < |data| ==> data[i] == Item(i + 1, DecimalString(i + 1))
    {
      data := data + [Item(index, DecimalString(index))];
      index := index + 1;
    }
  }
}
