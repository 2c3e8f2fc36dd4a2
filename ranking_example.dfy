/** The leaderboard example (app/examples/RankingExample.tsx): it sorts the
    fetched rankings in place by `position`, shows the first three, and
    chooses a crown or a number for each. */
module RankingExample {
  import opened Wrappers
  import opened UseApi
  import RankingService
  import RankingsPage
  import Seqs

  type RankingItem = RankingService.RankingItem

  const DefaultProfile: string := "/home/profile.jpg"

  ghost predicate SortedByPosition(s: seq<RankingItem>)
  {
    forall i, j :: 0 <= i < j < |s| ==> s[i].position <= s[j].position
  }

  function AtPosition(p: int): RankingItem -> bool
  {
    (x: RankingItem) => x.position == p
  }

  /** Stability: for every position, the items holding it appear in `s` in
      the same order and number as in `t`. */
  ghost predicate SamePositionOrder(s: seq<RankingItem>, t: seq<RankingItem>)
  {
    forall p :: Seqs.Filter(s, AtPosition(p)) == Seqs.Filter(t, AtPosition(p))
  }

  /** Exchanging two neighbours of different positions keeps every
      position's items in their order. */
  lemma AdjacentSwapKeepsOrder(s: seq<RankingItem>, j: int)
    requires 0 < j < |s| && s[j - 1].position != s[j].position
    ensures SamePositionOrder(s[j - 1 := s[j]][j := s[j - 1]], s)
  {
    var x, y := s[j - 1], s[j];
    var pre, post := s[..j - 1], s[j + 1..];
    var t := s[j - 1 := y][j := x];
    assert s == pre + ([x] + ([y] + post));
    assert t == pre + ([y] + ([x] + post));
    forall p
      ensures Seqs.Filter(t, AtPosition(p)) == Seqs.Filter(s, AtPosition(p))
    {
      var q := AtPosition(p);
      Seqs.FilterAppend(pre, [x] + ([y] + post), q);
      Seqs.FilterAppend(pre, [y] + ([x] + post), q);
      Seqs.FilterCons(x, [y] + post, q);
      Seqs.FilterCons(y, post, q);
      Seqs.FilterCons(y, [x] + post, q);
      Seqs.FilterCons(x, post, q);
    }
  }

  /** Exchanging two neighbours of different positions, in place. */
  method SwapNeighbours(a: array<RankingItem>, j: int)
    requires 0 < j < a.Length && a[j - 1].position != a[j].position
    modifies a
    ensures a[j - 1] == old(a[j]) && a[j] == old(a[j - 1])
    ensures forall m :: 0 <= m < a.Length && m != j - 1 && m != j ==> a[m] == old(a[m])
    ensures multiset(a[..]) == old(multiset(a[..]))
    ensures SamePositionOrder(a[..], old(a[..]))
  {
    ghost var before := a[..];
    AdjacentSwapKeepsOrder(before, j);
    Swap(a, j - 1, j);
    assert a[..] == before[j - 1 := before[j]][j := before[j - 1]];
  }

  method Swap(a: array<RankingItem>, i: int, j: int)
    requires 0 <= i < j < a.Length
    modifies a
    ensures a[i] == old(a[j]) && a[j] == old(a[i])
    ensures forall m :: 0 <= m < a.Length && m != i && m != j ==> a[m] == old(a[m])
    ensures multiset(a[..]) == old(multiset(a[..]))
  {
    a[i], a[j] := a[j], a[i];
  }

  /** `rankings.sort((a, b) => a.position - b.position)`: the array is
      rearranged in place into ascending order of position, items of equal
      position keeping their order (the sort is stable). */
  method SortByPosition(a: array<RankingItem>)
    modifies a
    ensures SortedByPosition(a[..])
    ensures multiset(a[..]) == old(multiset(a[..]))
    ensures SamePositionOrder(a[..], old(a[..]))
  {
    var i := 0;
    while i < a.Length
      invariant 0 <= i <= a.Length
      invariant forall m, n :: 0 <= m < n < i ==> a[m].position <= a[n].position
      invariant multiset(a[..]) == old(multiset(a[..]))
      invariant SamePositionOrder(a[..], old(a[..]))
    {
      InsertAt(a, i);
      i := i + 1;
    }
  }

  /** One insertion step: `a[i]` moves left past every larger neighbour,
      extending the sorted prefix by one. */
  method InsertAt(a: array<RankingItem>, i: int)
    requires 0 <= i < a.Length
    requires forall m, n :: 0 <= m < n < i ==> a[m].position <= a[n].position
    modifies a
    ensures forall m, n :: 0 <= m < n <= i ==> a[m].position <= a[n].position
    ensures multiset(a[..]) == old(multiset(a[..]))
    ensures SamePositionOrder(a[..], old(a[..]))
  {
    var j := i;
    while j > 0 && a[j - 1].position > a[j].position
      invariant 0 <= j <= i
      invariant forall m, n :: 0 <= m < n <= i && m != j && n != j ==> a[m].position <= a[n].position
      invariant forall n :: j < n <= i ==> a[j].position <= a[n].position
      invariant multiset(a[..]) == old(multiset(a[..]))
      invariant SamePositionOrder(a[..], old(a[..]))
    {
      SwapNeighbours(a, j);
      j := j - 1;
    }
  }

  /** `getTopThree(rankings)`: `[]` for a missing or empty list; otherwise
      the list, now sorted in place, and its first three items. */
  method GetTopThree(rankings: array?<RankingItem>) returns (top: seq<RankingItem>)
    modifies rankings
    ensures rankings == null ==> top == []
    ensures rankings != null ==>
      && SortedByPosition(rankings[..])
      && multiset(rankings[..]) == old(multiset(rankings[..]))
      && SamePositionOrder(rankings[..], old(rankings[..]))
      && top == rankings[..Min(3, rankings.Length)]
  {
    if rankings == null || rankings.Length == 0 {
      return [];
    }
    SortByPosition(rankings);
    top := rankings[..Min(3, rankings.Length)];
  }

  /** What `getTopThree` leaves behind, read off any arrangement it can
      produce: the shown items and the rest together are the input, the
      shown ones are in order, and none of the rest has a smaller position
      than a shown one. */
  lemma {:induction false} TopThreeAreSmallest(original: seq<RankingItem>, sorted: seq<RankingItem>)
    requires multiset(sorted) == multiset(original)
    requires SortedByPosition(sorted)
    ensures var k := Min(3, |sorted|);
      && |sorted[..k]| == Min(3, |original|)
      && multiset(sorted[..k]) + multiset(sorted[k..]) == multiset(original)
      && SortedByPosition(sorted[..k])
      && forall x, y :: x in sorted[..k] && y in sorted[k..] ==> x.position <= y.position
  {
    var k := Min(3, |sorted|);
    assert |sorted| == |multiset(original)| == |original|;
    assert sorted == sorted[..k] + sorted[k..];
    forall x, y | x in sorted[..k] && y in sorted[k..]
      ensures x.position <= y.position
    {
      var m :| 0 <= m < k && sorted[m] == x;
      var n :| 0 <= n < |sorted| - k && sorted[k..][n] == y;
      assert sorted[k + n] == y;
    }
  }

  /** The item's picture: `item.avatarUrl || "/home/profile.jpg"`. */
  function AvatarSource(item: RankingItem): (src: string)
    ensures item.avatarUrl.Some? && item.avatarUrl.value != "" ==> src == item.avatarUrl.value
    ensures item.avatarUrl.None? || item.avatarUrl.value == "" ==> src == DefaultProfile
  {
    if item.avatarUrl.Some? && item.avatarUrl.value != "" then item.avatarUrl.value else DefaultProfile
  }

  /** Position 1 takes the crown branch; every other item shows its position. */
  function Badge(item: RankingItem): (b: RankingsPage.Badge)
    ensures b.Crown? <==> item.position == 1
    ensures b.RankNumber? ==> b.n == item.position
  {
    if item.position == 1 then RankingsPage.Crown else RankingsPage.RankNumber(item.position)
  }

  /** On a sorted board at most the first shown item wears the crown,
      unless several items share position 1. */
  lemma CrownLeads(top: seq<RankingItem>, i: int)
    requires SortedByPosition(top) && 0 < i < |top|
    requires Badge(top[i]).Crown?
    ensures Badge(top[0]).Crown? || top[0].position < 1
  {
    assert top[0].position <= top[i].position;
  }

  /** What the example renders. */
  datatype View = Spinner | ErrorBox(message: string) | EmptyBoard | Board(top: seq<RankingItem>)

  /** One render of the example from the hook state `s`: the spinner while
      loading, then the error, then the podium of `getTopThree(data)` or the
      empty message. Rendering sorts the array held in the hook state. */
  method Render(s: FetchState<array<RankingItem>>) returns (v: View)
    modifies if s.data.Some? then {s.data.value} else {}
    ensures s.loading ==> v == Spinner
    ensures !s.loading && s.error.Some? ==> v == ErrorBox(s.error.value.message)
    ensures !s.loading && s.error.None? && (s.data.None? || s.data.value.Length == 0) ==> v == EmptyBoard
    ensures !s.loading && s.error.None? && s.data.Some? && s.data.value.Length > 0 ==>
      var a := s.data.value;
      && SortedByPosition(a[..])
      && multiset(a[..]) == old(multiset(a[..]))
      && SamePositionOrder(a[..], old(a[..]))
      && v == Board(a[..Min(3, a.Length)])
    ensures s.loading || s.error.Some? ==> s.data.None? || unchanged(s.data.value)
  {
    if s.loading {
      return Spinner;
    }
    if s.error.Some? {
      return ErrorBox(s.error.value.message);
    }
    var topRankings: seq<RankingItem> := [];
    if s.data.Some? {
      topRankings := GetTopThree(s.data.value);
    }
    if |topRankings| > 0 {
      v := Board(topRankings);
    } else {
      v := EmptyBoard;
    }
  }
}
