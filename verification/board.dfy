/**
 Board geometry used to validate shaped bets: the flat 1..36 layout that the
 split check searches, and the sorted-triple comparison of the trio check.
 */
module Board {
  import opened Failures

  /** The numbers 1..36 in board order, three to a row. */
  const Layout: seq<int> :=
    [ 1,  2,  3,  4,  5,  6,  7,  8,  9, 10, 11, 12, 13, 14, 15, 16, 17, 18,
     19, 20, 21, 22, 23, 24, 25, 26, 27, 28, 29, 30, 31, 32, 33, 34, 35, 36]

  /** A number printed on the layout (zero is not). */
  predicate OnBoard(n: int)
  {
    1 <= n <= 36
  }

  /** Index of the first occurrence of `x` in `s`, or None when it is absent. */
  function Position(s: seq<int>, x: int): (r: Option<nat>)
    ensures r.None? <==> x !in s
    ensures r.Some? ==> r.value < |s| && s[r.value] == x
    ensures r.Some? ==> forall j :: 0 <= j < r.value ==> s[j] != x
  {
    if |s| == 0 then None
    else if s[0] == x then Some(0)
    else
      match Position(s[1..], x)
      case None => None
      case Some(i) => Some(i + 1)
  }

  /** The layout holds `i + 1` at index `i`. */
  lemma LayoutIsIdentity()
    ensures |Layout| == 36
    ensures forall i :: 0 <= i < |Layout| ==> Layout[i] == i + 1
  {
  }

  /** A number's position on the layout is one less than the number; a
      number off the board has none. */
  lemma LayoutPosition(x: int)
    ensures Position(Layout, x) == if OnBoard(x) then Some(x - 1) else None
  {
    LayoutIsIdentity();
    if OnBoard(x) {
      assert Layout[x - 1] == x;
    }
  }

  /** Two numbers whose distance is one or three, the index steps the split
      check accepts on the flat layout (row ends are not checked). */
  predicate FlatAdjacent(a: int, b: int)
  {
    a - b == 1 || b - a == 1 || a - b == 3 || b - a == 3
  }

  /** The split check: order the pair, find both on the layout (a number
      that is not there panics on unwrap), and accept an index difference of
      one or three. */
  function ValidSplit(first: int, second: int): (r: Result<bool>)
    ensures r.Panic? <==> !OnBoard(first) || !OnBoard(second)
    ensures r.Panic? ==> r.cause == UnwrapOnNone
    ensures r.Ok? ==> (r.value <==> FlatAdjacent(first, second))
  {
    var lowest := if first < second then first else second;
    var highest := if first < second then second else first;
    LayoutPosition(lowest);
    LayoutPosition(highest);
    var lowestIndex := Position(Layout, lowest);
    var highestIndex := Position(Layout, highest);
    if lowestIndex.None? || highestIndex.None? then
      Panic(UnwrapOnNone)
    else if highestIndex.value < lowestIndex.value then
      Panic(SubtractOverflow)
    else
      var step := highestIndex.value - lowestIndex.value;
      Ok(step == 1 || step == 3)
  }

  /** `s` lists the numbers a, b and c, each once, in some order. */
  predicate ArrangementOf(s: seq<int>, a: int, b: int, c: int)
  {
    && |s| == 3
    && (|| (s[0] == a && s[1] == b && s[2] == c)
        || (s[0] == a && s[1] == c && s[2] == b)
        || (s[0] == b && s[1] == a && s[2] == c)
        || (s[0] == b && s[1] == c && s[2] == a)
        || (s[0] == c && s[1] == a && s[2] == b)
        || (s[0] == c && s[1] == b && s[2] == a))
  }

  /** The three numbers of a trio in ascending order. */
  function Sort3(a: int, b: int, c: int): (s: seq<int>)
    ensures ArrangementOf(s, a, b, c)
    ensures s[0] <= s[1] <= s[2]
  {
    if a <= b then
      if b <= c then [a, b, c] else if a <= c then [a, c, b] else [c, a, b]
    else
      if a <= c then [b, a, c] else if b <= c then [b, c, a] else [c, b, a]
  }

  /** An ascending triple is the only ascending arrangement of its numbers. */
  lemma SortedArrangementUnique(s: seq<int>, a: int, b: int, c: int)
    requires ArrangementOf(s, a, b, c)
    requires s[0] <= s[1] <= s[2]
    ensures Sort3(a, b, c) == s
  {
    var t := Sort3(a, b, c);
    assert t[0] == s[0] && t[1] == s[1] && t[2] == s[2];
  }

  /** The sorted triple does not depend on the order the numbers are given
      in: swapping any two gives the same result. */
  lemma Sort3IgnoresOrder(a: int, b: int, c: int)
    ensures Sort3(a, b, c) == Sort3(b, a, c)
    ensures Sort3(a, b, c) == Sort3(a, c, b)
    ensures Sort3(a, b, c) == Sort3(c, b, a)
  {
    var s := Sort3(a, b, c);
    SortedArrangementUnique(s, b, a, c);
    SortedArrangementUnique(s, a, c, b);
    SortedArrangementUnique(s, c, b, a);
  }

  /** Sorting keeps exactly the three numbers. */
  lemma TrioMembers(a: int, b: int, c: int, x: int)
    ensures x in Sort3(a, b, c) <==> x == a || x == b || x == c
  {
    var s := Sort3(a, b, c);
    assert s == [s[0], s[1], s[2]];
  }

  /** The two trios that touch zero, in ascending order. */
  const Trios: seq<seq<int>> := [[0, 1, 2], [0, 2, 3]]

  /** The trio check: the sorted triple must be one of the two listed, so the
      check holds exactly when the three numbers are 0, 1, 2 or 0, 2, 3 in
      some order. */
  function ValidTrio(a: int, b: int, c: int): (v: bool)
    ensures v <==> ArrangementOf([a, b, c], 0, 1, 2) || ArrangementOf([a, b, c], 0, 2, 3)
  {
    Sort3(a, b, c) in Trios
  }
}
