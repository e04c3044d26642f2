/**
 * Collections.sort on a list of agenda items, as both the watchface service and the
 * calendar plugin call it: a stable sort by AgendaItem.compareTo, followed by the
 * trim `subList(max, size).clear()` that keeps the first max items.
 */
module ItemSort {
  import opened JavaLang
  import opened AgendaItems

  predicate HaveIds(s: seq<AgendaItem>)
  {
    forall i :: 0 <= i < |s| ==> s[i].pluginId.Some?
  }

  predicate AllComparable(s: seq<AgendaItem>, p: Platform)
  {
    forall i :: 0 <= i < |s| ==> Comparable(s[i], p)
  }

  /** Adjacent items are in compareTo order. */
  predicate Sorted(s: seq<AgendaItem>, p: Platform)
    requires HaveIds(s)
  {
    forall i :: 0 <= i < |s| - 1 ==> CompareTo(s[i], s[i + 1], p) <= 0
  }

  /** Inserts x before the first element it does not compare above (x stays ahead of equal elements). */
  function Insert(x: AgendaItem, s: seq<AgendaItem>, p: Platform): (r: seq<AgendaItem>)
    requires x.pluginId.Some? && HaveIds(s)
    ensures HaveIds(r) && |r| == |s| + 1
  {
    if s == [] then [x]
    else if CompareTo(x, s[0], p) <= 0 then [x] + s
    else [s[0]] + Insert(x, s[1..], p)
  }

  /** A stable sort by compareTo: the item list Collections.sort leaves behind. */
  function Sort(s: seq<AgendaItem>, p: Platform): (r: seq<AgendaItem>)
    requires HaveIds(s)
    ensures HaveIds(r) && |r| == |s|
  {
    if s == [] then [] else Insert(s[0], Sort(s[1..], p), p)
  }

  /** `if (size > max) subList(max, size).clear()`. */
  function Trim<T>(s: seq<T>, max: nat): (r: seq<T>)
    ensures r <= s && |r| == (if |s| <= max then |s| else max)
    ensures |s| <= max ==> r == s
  {
    if |s| > max then s[..max] else s
  }

  /** Insert adds x and loses nothing. */
  lemma {:induction false} InsertPermutes(x: AgendaItem, s: seq<AgendaItem>, p: Platform)
    requires x.pluginId.Some? && HaveIds(s)
    ensures multiset(Insert(x, s, p)) == multiset(s) + multiset{x}
    decreases |s|
  {
    if s != [] && CompareTo(x, s[0], p) > 0 {
      InsertPermutes(x, s[1..], p);
      assert s == [s[0]] + s[1..];
    }
  }

  /** The sorted list is a permutation of the input. */
  lemma {:induction false} SortPermutes(s: seq<AgendaItem>, p: Platform)
    requires HaveIds(s)
    ensures multiset(Sort(s, p)) == multiset(s)
    decreases |s|
  {
    if s != [] {
      SortPermutes(s[1..], p);
      InsertPermutes(s[0], Sort(s[1..], p), p);
      assert s == [s[0]] + s[1..];
    }
  }

  lemma MultisetKeepsComparable(s: seq<AgendaItem>, t: seq<AgendaItem>, p: Platform)
    requires multiset(s) == multiset(t) && AllComparable(t, p)
    ensures AllComparable(s, p)
  {
    forall i | 0 <= i < |s| ensures Comparable(s[i], p) {
      assert s[i] in multiset(t);
    }
  }

  lemma {:induction false} InsertSorted(x: AgendaItem, s: seq<AgendaItem>, p: Platform)
    requires Comparable(x, p) && AllComparable(s, p) && HaveIds(s) && Sorted(s, p)
    ensures Sorted(Insert(x, s, p), p)
    ensures |s| > 0 ==> Insert(x, s, p)[0] == x || Insert(x, s, p)[0] == s[0]
    decreases |s|
  {
    if s == [] {
    } else if CompareTo(x, s[0], p) <= 0 {
    } else {
      CompareToAntisymmetric(x, s[0], p);
      var rest := Insert(x, s[1..], p);
      InsertSorted(x, s[1..], p);
      assert CompareTo(s[0], rest[0], p) <= 0 by {
        if |s| > 1 { assert rest[0] == x || rest[0] == s[1]; }
      }
    }
  }

  /** The sorted list is in compareTo order (given no overflow in compareTo) and a permutation of the input. */
  lemma {:induction false} SortSorted(s: seq<AgendaItem>, p: Platform)
    requires HaveIds(s) && AllComparable(s, p)
    ensures AllComparable(Sort(s, p), p)
    ensures Sorted(Sort(s, p), p)
    decreases |s|
  {
    SortPermutes(s, p);
    MultisetKeepsComparable(Sort(s, p), s, p);
    if s != [] {
      SortSorted(s[1..], p);
      InsertSorted(s[0], Sort(s[1..], p), p);
    }
  }

  /** Adjacent order extends to every pair, because compareTo is transitive without overflow. */
  lemma {:induction false} SortedAllPairs(s: seq<AgendaItem>, p: Platform)
    requires HaveIds(s) && AllComparable(s, p) && Sorted(s, p)
    ensures forall i, j :: 0 <= i < j < |s| ==> CompareTo(s[i], s[j], p) <= 0
  {
    forall i, j | 0 <= i < j < |s| ensures CompareTo(s[i], s[j], p) <= 0 {
      var k := i + 1;
      while k < j
        invariant i < k <= j
        invariant CompareTo(s[i], s[k], p) <= 0
      {
        CompareToTransitive(s[i], s[k], s[k + 1], p);
        k := k + 1;
      }
    }
  }

  /** Sorting then trimming keeps exactly min(|s|, max) of the input's items. */
  lemma SortTrimContents(s: seq<AgendaItem>, max: nat, p: Platform)
    requires HaveIds(s)
    ensures var r := Trim(Sort(s, p), max);
            && |r| == (if |s| <= max then |s| else max)
            && multiset(r) <= multiset(s)
  {
    var t := Sort(s, p);
    var r := Trim(t, max);
    SortPermutes(s, p);
    assert t == r + t[|r|..];
  }

  /**
   * Sorting then trimming drops the greatest items: when compareTo cannot overflow, every
   * kept item compares at or below every dropped one.
   */
  lemma SortTrimKeepsLeast(s: seq<AgendaItem>, max: nat, p: Platform)
    requires HaveIds(s) && AllComparable(s, p)
    ensures var r := Trim(Sort(s, p), max);
            forall x, y :: x in r && y in multiset(s) - multiset(r) ==>
              x.pluginId.Some? && y.pluginId.Some? && CompareTo(x, y, p) <= 0
  {
    var t := Sort(s, p);
    var r := Trim(t, max);
    SortPermutes(s, p);
    SortSorted(s, p);
    SortedAllPairs(t, p);
    forall x, y | x in r && y in multiset(s) - multiset(r)
      ensures x.pluginId.Some? && y.pluginId.Some? && CompareTo(x, y, p) <= 0
    {
      var i :| 0 <= i < |r| && r[i] == x;
      var j := DroppedIndex(t, |r|, y);
      assert x == t[i];
    }
  }

  /** An element the prefix t[..n] does not account for sits at an index n or above. */
  lemma DroppedIndex<T>(t: seq<T>, n: nat, y: T) returns (j: nat)
    requires n <= |t| && y in multiset(t) - multiset(t[..n])
    ensures n <= j < |t| && t[j] == y
  {
    assert t == t[..n] + t[n..];
    assert multiset(t) - multiset(t[..n]) == multiset(t[n..]);
    assert y in t[n..];
    var k :| 0 <= k < |t[n..]| && t[n..][k] == y;
    j := n + k;
  }

  lemma PrefixSorted(s: seq<AgendaItem>, n: nat, p: Platform)
    requires HaveIds(s) && Sorted(s, p) && n <= |s|
    ensures HaveIds(s[..n]) && Sorted(s[..n], p)
  {
  }
}
