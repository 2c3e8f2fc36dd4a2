/** The leaderboard page (app/rankings/page.tsx): the podium of the first
    three ranks in the display order 2-1-3, the list of every rank below,
    and the two rank predicates the row components use. */
module RankingsPage {
  import opened Wrappers
  import Seqs

  datatype RankingItem = RankingItem(
    id: int,
    rank: int,
    username: string,
    date: string,
    time: string,
    avatarUrl: string)

  ghost predicate HasRank(rankings: seq<RankingItem>, k: int)
  {
    exists i :: 0 <= i < |rankings| && rankings[i].rank == k
  }

  /** `x` occurs in `rankings`, and no earlier item has its rank. */
  ghost predicate IsFirstOfRank(rankings: seq<RankingItem>, x: RankingItem)
  {
    exists i :: 0 <= i < |rankings| && rankings[i] == x && forall j :: 0 <= j < i ==> rankings[j].rank != x.rank
  }

  /** `rankings.find(r => r.rank === k)`. */
  function FirstOfRank(rankings: seq<RankingItem>, k: int): (r: Option<RankingItem>)
    ensures r.None? <==> !HasRank(rankings, k)
    ensures r.Some? ==> r.value.rank == k && IsFirstOfRank(rankings, r.value)
  {
    var hasRank := (x: RankingItem) => x.rank == k;
    var r := Seqs.Find(rankings, hasRank);
    assert r.Some? ==> exists i :: Seqs.FirstAt(rankings, hasRank, i) && rankings[i] == r.value;
    r
  }

  /** `.filter(Boolean)` on found-or-`undefined` entries: the found items, in order. */
  function Found<T(!new)>(entries: seq<Option<T>>): (r: seq<T>)
    ensures |r| <= |entries|
    ensures forall x :: x in r <==> Some(x) in entries
  {
    if entries == [] then []
    else Listed(entries[0]) + Found(entries[1..])
  }

  function Listed<T>(entry: Option<T>): seq<T>
  {
    if entry.Some? then [entry.value] else []
  }

  predicate IsPresent<T>(entry: Option<T>)
  {
    entry.Some?
  }

  /** The found items wrapped back into entries. */
  function Wrapped<T>(items: seq<T>): seq<Option<T>>
  {
    if items == [] then [] else [Some(items[0])] + Wrapped(items[1..])
  }

  /** `filter(Boolean)` keeps the present entries in order and as often as
      they occur: it is the generic filter on presence. */
  lemma {:induction false} FoundIsFilter<T(!new)>(entries: seq<Option<T>>)
    ensures Wrapped(Found(entries)) == Seqs.Filter(entries, IsPresent)
  {
    if entries != [] {
      var e, rest := entries[0], entries[1..];
      assert entries == [e] + rest;
      FoundIsFilter(rest);
      Seqs.FilterCons(e, rest, IsPresent);
      if e.Some? {
        var f := Found(rest);
        assert Found(entries) == [e.value] + f;
        assert ([e.value] + f)[1..] == f;
      } else {
        assert Found(entries) == [] + Found(rest) == Found(rest);
      }
    }
  }

  lemma FoundOfThree<T(!new)>(a: Option<T>, b: Option<T>, c: Option<T>)
    ensures Found([a, b, c]) == Listed(a) + Listed(b) + Listed(c)
  {
    assert [a, b, c][1..] == [b, c] && [b, c][1..] == [c] && [c][1..] == [];
    assert Found([c]) == Listed(c) + Found([]);
    assert Found([b, c]) == Listed(b) + Listed(c);
  }

  /** The podium position a rank is shown in: second place on the left,
      first in the middle, third on the right. */
  function PodiumSlot(rank: int): nat
  {
    if rank == 2 then 0 else if rank == 1 then 1 else if rank == 3 then 2 else 3
  }

  /** `getTopThreeOrdered()`: `[second, first, third].filter(Boolean)`. */
  function TopThreeOrdered(rankings: seq<RankingItem>): (r: seq<RankingItem>)
    ensures r == Listed(FirstOfRank(rankings, 2)) + Listed(FirstOfRank(rankings, 1)) + Listed(FirstOfRank(rankings, 3))
  {
    var first := FirstOfRank(rankings, 1);
    var second := FirstOfRank(rankings, 2);
    var third := FirstOfRank(rankings, 3);
    FoundOfThree(second, first, third);
    Found([second, first, third])
  }

  /** The podium: at most three items; each is the first item of its rank;
      a rank without an item leaves no gap; the present ones keep the order
      2-1-3; and every rank 1 to 3 that occurs is shown. */
  lemma TopThreeOrderedSpec(rankings: seq<RankingItem>)
    ensures var r := TopThreeOrdered(rankings);
      && |r| <= 3
      && (forall i :: 0 <= i < |r| ==> 1 <= r[i].rank <= 3 && IsFirstOfRank(rankings, r[i]))
      && (forall i, j :: 0 <= i < j < |r| ==> PodiumSlot(r[i].rank) < PodiumSlot(r[j].rank))
      && (forall k :: 1 <= k <= 3 ==> (HasRank(rankings, k) <==> exists i :: 0 <= i < |r| && r[i].rank == k))
  {
    var second, first, third := FirstOfRank(rankings, 2), FirstOfRank(rankings, 1), FirstOfRank(rankings, 3);
    var r := TopThreeOrdered(rankings);
    ListedInSlots(second, first, third);
    forall i | 0 <= i < |r|
      ensures 1 <= r[i].rank <= 3 && IsFirstOfRank(rankings, r[i])
    {
      assert Some(r[i]) == second || Some(r[i]) == first || Some(r[i]) == third;
    }
    forall k | 1 <= k <= 3
      ensures HasRank(rankings, k) <==> exists i :: 0 <= i < |r| && r[i].rank == k
    {
      if exists i :: 0 <= i < |r| && r[i].rank == k {
        var i :| 0 <= i < |r| && r[i].rank == k;
        assert Some(r[i]) == second || Some(r[i]) == first || Some(r[i]) == third;
      }
    }
  }

  /** The listing of three optional entries of ranks 2, 1 and 3: at most
      three items, each one of the entries, in the order of their slots, and
      every present entry listed. */
  lemma ListedInSlots(second: Option<RankingItem>, first: Option<RankingItem>, third: Option<RankingItem>)
    requires second.Some? ==> second.value.rank == 2
    requires first.Some? ==> first.value.rank == 1
    requires third.Some? ==> third.value.rank == 3
    ensures var r := Listed(second) + Listed(first) + Listed(third);
      && |r| <= 3
      && (forall i :: 0 <= i < |r| ==> Some(r[i]) == second || Some(r[i]) == first || Some(r[i]) == third)
      && (forall i, j :: 0 <= i < j < |r| ==> PodiumSlot(r[i].rank) < PodiumSlot(r[j].rank))
      && (second.Some? ==> second.value in r)
      && (first.Some? ==> first.value in r)
      && (third.Some? ==> third.value in r)
  {
    var r := Listed(second) + Listed(first) + Listed(third);
    if second.Some? {
      if first.Some? {
        if third.Some? {
          assert r == [second.value, first.value, third.value];
        } else {
          assert r == [second.value, first.value];
        }
      } else {
        if third.Some? {
          assert r == [second.value, third.value];
        } else {
          assert r == [second.value];
        }
      }
    } else {
      if first.Some? {
        if third.Some? {
          assert r == [first.value, third.value];
        } else {
          assert r == [first.value];
        }
      } else {
        if third.Some? {
          assert r == [third.value];
        } else {
          assert r == [];
        }
      }
    }
  }

  /** `rankings.filter(r => r.rank > 3)`: every item below the podium, in order. */
  function OtherRankings(rankings: seq<RankingItem>): (r: seq<RankingItem>)
    ensures Seqs.IsSubsequence(r, rankings)
    ensures forall i :: 0 <= i < |r| ==> r[i].rank > 3
  {
    Seqs.Filter(rankings, BelowPodium)
  }

  predicate BelowPodium(x: RankingItem)
  {
    x.rank > 3
  }

  /** Each item below the podium is listed as often as it occurs, and no
      other item is listed. */
  lemma OtherRankingsCounts(rankings: seq<RankingItem>)
    ensures forall x :: multiset(OtherRankings(rankings))[x] == if x.rank > 3 then multiset(rankings)[x] else 0
  {
    Seqs.FilterCounts(rankings, BelowPodium);
  }

  lemma OtherRankingsMembers(rankings: seq<RankingItem>, x: RankingItem)
    ensures x in OtherRankings(rankings) <==> x in rankings && x.rank > 3
  {
    Seqs.FilterMembers(rankings, BelowPodium, x);
  }

  /** Items shown nowhere: a rank below 1, and a later item of rank 1, 2
      or 3 that differs from every item before it while an earlier item
      holds that rank. */
  lemma HiddenItems(rankings: seq<RankingItem>, i: int)
    requires 0 <= i < |rankings|
    requires rankings[i].rank < 1 ||
      (rankings[i].rank <= 3 && rankings[i] !in rankings[..i] &&
       exists j :: 0 <= j < i && rankings[j].rank == rankings[i].rank)
    ensures rankings[i] !in TopThreeOrdered(rankings)
    ensures rankings[i] !in OtherRankings(rankings)
  {
    OtherRankingsMembers(rankings, rankings[i]);
    TopThreeOrderedSpec(rankings);
  }

  /** The podium component's badge: a crown for rank 1, the number otherwise. */
  datatype Badge = Crown | RankNumber(n: int)

  function PodiumBadge(item: RankingItem): (b: Badge)
    ensures b == Crown <==> item.rank == 1
    ensures b.RankNumber? ==> b.n == item.rank
  {
    if item.rank == 1 then Crown else RankNumber(item.rank)
  }

  /** `ranking.rank === 5`: the highlighted row of the list. */
  predicate IsSpecial(item: RankingItem)
  {
    item.rank == 5
  }

  /** The podium shows one crown when some item has rank 1 and none
      otherwise, and none of its items is highlighted. */
  lemma OneCrownAtMost(rankings: seq<RankingItem>)
    ensures var top := TopThreeOrdered(rankings);
      && ((exists i :: 0 <= i < |top| && PodiumBadge(top[i]) == Crown) <==> HasRank(rankings, 1))
      && (forall i, j :: 0 <= i < j < |top| ==> !(PodiumBadge(top[i]) == Crown && PodiumBadge(top[j]) == Crown))
      && (forall i :: 0 <= i < |top| ==> !IsSpecial(top[i]))
  {
    TopThreeOrderedSpec(rankings);
  }

  /** Highlighting in the list below the podium falls only on rank 5. */
  lemma OnlyRankFiveHighlighted(rankings: seq<RankingItem>)
    ensures forall x :: x in OtherRankings(rankings) && IsSpecial(x) <==> x in rankings && x.rank == 5
  {
    forall x
      ensures x in OtherRankings(rankings) && IsSpecial(x) <==> x in rankings && x.rank == 5
    {
      OtherRankingsMembers(rankings, x);
    }
  }

  /** The CSS `order` the page gives the podium entry at `index`. */
  function DisplayOrder(index: int): (order: int)
    ensures 1 <= order <= 3
    ensures order == 2 <==> index == 1
    ensures order == 1 <==> index == 0
  {
    if index == 1 then 2 else if index == 0 then 1 else 3
  }

  /** The winner stands in the middle exactly when a second place exists:
      the middle is tied to the list position, not to the rank. */
  lemma WinnerCentredIffRunnerUp(rankings: seq<RankingItem>)
    requires HasRank(rankings, 1)
    ensures var top := TopThreeOrdered(rankings);
      exists i :: 0 <= i < |top| && top[i].rank == 1 && (DisplayOrder(i) == 2 <==> HasRank(rankings, 2))
  {
    var top := TopThreeOrdered(rankings);
    if HasRank(rankings, 2) {
      assert top[1].rank == 1;
    } else {
      assert top[0].rank == 1;
    }
  }

  /** The one item of rank `k` with no earlier item of that rank is what
      `find` returns. */
  lemma FirstOfRankAt(rankings: seq<RankingItem>, i: int)
    requires 0 <= i < |rankings|
    requires forall j :: 0 <= j < i ==> rankings[j].rank != rankings[i].rank
    ensures FirstOfRank(rankings, rankings[i].rank) == Some(rankings[i])
  {
    var k := rankings[i].rank;
    var r := FirstOfRank(rankings, k);
    var i' :| 0 <= i' < |rankings| && rankings[i'] == r.value && forall j :: 0 <= j < i' ==> rankings[j].rank != k;
    assert !(i' < i) && !(i < i');
  }

  /** An item list with rank `n + 1` at position `n`, as the page's mock data
      is: the podium shows positions 1, 0, 2 and the list everything from
      position 3 on. */
  lemma LayoutOfRankedList(rankings: seq<RankingItem>)
    requires |rankings| >= 3
    requires forall i :: 0 <= i < |rankings| ==> rankings[i].rank == i + 1
    ensures TopThreeOrdered(rankings) == [rankings[1], rankings[0], rankings[2]]
    ensures OtherRankings(rankings) == rankings[3..]
  {
    assert rankings[0].rank == 1 && rankings[1].rank == 2 && rankings[2].rank == 3;
    FirstOfRankAt(rankings, 0);
    FirstOfRankAt(rankings, 1);
    FirstOfRankAt(rankings, 2);
    FilterSkipsThenKeeps(rankings, BelowPodium, 3);
  }

  /** A filter over a list whose first `n` elements fail the test and whose
      rest pass it is that rest. */
  lemma {:induction false} FilterSkipsThenKeeps(s: seq<RankingItem>, p: RankingItem -> bool, n: nat)
    requires n <= |s|
    requires forall i :: 0 <= i < n ==> !p(s[i])
    requires forall i :: n <= i < |s| ==> p(s[i])
    ensures Seqs.Filter(s, p) == s[n..]
  {
    if s != [] {
      FilterSkipsThenKeeps(s[1..], p, if n > 0 then n - 1 else 0);
      if n > 0 {
        assert s[1..][n - 1..] == s[n..];
      }
    }
  }

  const Avatar: string := "/placeholder-avatar.png"

  function MockItem(n: int): (item: RankingItem)
    ensures item.id == n && item.rank == n && item.avatarUrl == Avatar
  {
    RankingItem(n, n, "林駿宇", "2025/04/12", "05:31", Avatar)
  }

  /** The page's initial `rankings` state: nine entries with ids and ranks
      1 to 9 in order, the other fields identical. */
  function MockRankings(): (r: seq<RankingItem>)
    ensures |r| == 9
    ensures forall i :: 0 <= i < 9 ==> r[i] == MockItem(i + 1)
  {
    seq(9, i => MockItem(i + 1))
  }

  /** On the initial data the podium is ranks 2, 1, 3 and the list ranks 4 to 9. */
  lemma MockLayout()
    ensures TopThreeOrdered(MockRankings()) == [MockItem(2), MockItem(1), MockItem(3)]
    ensures OtherRankings(MockRankings()) == MockRankings()[3..]
  {
    LayoutOfRankedList(MockRankings());
  }
}
