/** The one-time ordering of sites by distance from the queen's start: the
    (ID, distance) pairs are gathered from the site map and sorted by
    distance. An insertion sort stands for the library sort; equal distances
    may come out in any order. */
module Ordering {
  import opened Entities

  predicate SortedByValue(s: seq<SiteAndDistance>)
  {
    forall i, j | 0 <= i < j < |s| :: s[i].value <= s[j].value
  }

  predicate DistinctIds(s: seq<SiteAndDistance>)
  {
    forall i, j | 0 <= i < j < |s| :: s[i].id != s[j].id
  }

  /** Every entry names a site of the map. */
  predicate OrderWithin(order: seq<SiteAndDistance>, sites: map<int, Site>)
  {
    forall i | 0 <= i < |order| :: order[i].id in sites
  }

  /** Every entry names a site and carries that site's start distance. */
  predicate EntriesMatch(s: seq<SiteAndDistance>, sites: map<int, Site>)
  {
    forall i | 0 <= i < |s| ::
      s[i].id in sites && s[i].value == sites[s[i].id].distanceFromStartingLocation
  }

  /** order lists every site ID exactly once, with its start distance, from
      nearest to farthest. */
  ghost predicate IsStartOrdering(order: seq<SiteAndDistance>, sites: map<int, Site>)
  {
    && |order| == |sites.Keys|
    && EntriesMatch(order, sites)
    && DistinctIds(order)
    && (forall id | id in sites :: exists i :: 0 <= i < |order| && order[i].id == id)
    && SortedByValue(order)
  }

  /** Sorts the pairs by distance, exchanging neighbours. */
  method SortByValue(a: array<SiteAndDistance>)
    modifies a
    ensures SortedByValue(a[..])
    ensures multiset(a[..]) == multiset(old(a[..]))
  {
    var i := 0;
    while i < a.Length
      invariant 0 <= i <= a.Length
      invariant forall p, q | 0 <= p < q < i :: a[p].value <= a[q].value
      invariant multiset(a[..]) == multiset(old(a[..]))
    {
      InsertLast(a, i);
      i := i + 1;
    }
  }

  /** Moves a[i] down into the sorted prefix a[..i]. */
  method InsertLast(a: array<SiteAndDistance>, i: nat)
    requires i < a.Length
    requires forall p, q | 0 <= p < q < i :: a[p].value <= a[q].value
    modifies a
    ensures forall p, q | 0 <= p < q <= i :: a[p].value <= a[q].value
    ensures multiset(a[..]) == multiset(old(a[..]))
  {
    var j := i;
    while j > 0 && a[j - 1].value > a[j].value
      invariant 0 <= j <= i
      invariant forall p, q | 0 <= p < q <= i && p != j && q != j :: a[p].value <= a[q].value
      invariant forall q | j < q <= i :: a[j].value < a[q].value
      invariant 0 < j < i ==> a[j - 1].value <= a[j + 1].value
      invariant multiset(a[..]) == multiset(old(a[..]))
    {
      Swap(a, j - 1, j);
      j := j - 1;
    }
  }

  method Swap(a: array<SiteAndDistance>, i: nat, j: nat)
    requires i < j < a.Length
    modifies a
    ensures a[i] == old(a[j]) && a[j] == old(a[i])
    ensures forall k | 0 <= k < a.Length && k != i && k != j :: a[k] == old(a[k])
    ensures multiset(a[..]) == multiset(old(a[..]))
  {
    a[i], a[j] := a[j], a[i];
  }

  /** The copying loop of returnSortedByDistance: one pair per site, in map
      order. */
  method GatherPairs(sites: map<int, Site>) returns (slice: seq<SiteAndDistance>)
    ensures EntriesMatch(slice, sites) && DistinctIds(slice)
    ensures forall id | id in sites :: exists i :: 0 <= i < |slice| && slice[i].id == id
    ensures |slice| == |sites.Keys|
  {
    slice := [];
    var remaining := sites.Keys;
    while remaining != {}
      invariant remaining <= sites.Keys
      invariant EntriesMatch(slice, sites)
      invariant forall i | 0 <= i < |slice| :: slice[i].id !in remaining
      invariant forall id | id in sites.Keys - remaining :: exists i :: 0 <= i < |slice| && slice[i].id == id
      invariant DistinctIds(slice)
      invariant |slice| == |sites.Keys - remaining|
      decreases remaining
    {
      NonEmptyHasElement(remaining);
      var id :| id in remaining;
      assert sites.Keys - (remaining - {id}) == (sites.Keys - remaining) + {id};
      ghost var prev := slice;
      slice := slice + [SiteAndDistance(id, sites[id].distanceFromStartingLocation)];
      assert forall i | 0 <= i < |prev| :: slice[i] == prev[i];
      assert slice[|prev|].id == id;
      remaining := remaining - {id};
    }
    assert sites.Keys - remaining == sites.Keys;
  }

  /** returnSortedByDistance: gathers one pair per site and sorts them. */
  method ReturnSortedByDistance(sites: map<int, Site>) returns (order: seq<SiteAndDistance>)
    ensures IsStartOrdering(order, sites)
  {
    var slice := GatherPairs(sites);
    var a := new SiteAndDistance[|slice|](i requires 0 <= i < |slice| => slice[i]);
    assert a[..] == slice;
    SortByValue(a);
    order := a[..];
    PermutationKeepsOrdering(slice, order, sites);
  }

  lemma {:induction false} DistinctIdsOnce(s: seq<SiteAndDistance>, x: SiteAndDistance)
    requires DistinctIds(s)
    ensures multiset(s)[x] <= 1
  {
    if |s| > 0 {
      assert s == [s[0]] + s[1..];
      assert DistinctIds(s[1..]);
      DistinctIdsOnce(s[1..], x);
      if x == s[0] {
        assert x !in s[1..];
      }
    }
  }

  lemma TwoOccurrences(t: seq<SiteAndDistance>, i: int, j: int)
    requires 0 <= i < j < |t| && t[i] == t[j]
    ensures multiset(t)[t[i]] >= 2
  {
    assert t == t[..j] + t[j..];
    assert t[i] in t[..j];
    assert t[j..][0] == t[j];
  }

  /** Rearranging gathered pairs keeps them a listing of the sites: the same
      entries, each ID still once. */
  lemma PermutationKeepsOrdering(s: seq<SiteAndDistance>, t: seq<SiteAndDistance>, sites: map<int, Site>)
    requires multiset(s) == multiset(t)
    requires EntriesMatch(s, sites) && DistinctIds(s)
    requires forall id | id in sites :: exists i :: 0 <= i < |s| && s[i].id == id
    requires |s| == |sites.Keys|
    ensures EntriesMatch(t, sites) && DistinctIds(t)
    ensures forall id | id in sites :: exists i :: 0 <= i < |t| && t[i].id == id
    ensures |t| == |sites.Keys|
  {
    assert |t| == |multiset(t)| == |multiset(s)| == |s|;
    forall k | 0 <= k < |t|
      ensures t[k] in s
    {
      assert t[k] in multiset(t);
    }
    forall i, j | 0 <= i < j < |t|
      ensures t[i].id != t[j].id
    {
      if t[i].id == t[j].id {
        assert t[i] in s && t[j] in s;
        assert t[i] == t[j];
        TwoOccurrences(t, i, j);
        DistinctIdsOnce(s, t[i]);
        assert false;
      }
    }
    forall id | id in sites
      ensures exists i :: 0 <= i < |t| && t[i].id == id
    {
      var i :| 0 <= i < |s| && s[i].id == id;
      assert s[i] in multiset(t);
      var k :| 0 <= k < |t| && t[k] == s[i];
    }
  }
}
