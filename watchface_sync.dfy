/**
 * The values AgendaWatchfaceService computes while syncing: the list of items it
 * sends (expired items dropped, sorted, trimmed), the change test that decides
 * between INIT and NO_NEW_DATA, the next sync id, and the notification rate limit.
 */
module WatchfaceSync {
  import opened JavaLang
  import opened AgendaItems
  import opened ItemSort
  import opened WatchfaceCodec

  /** At most one update notification per hour. */
  const NOTIFICATION_INTERVAL: int := 1000 * 60 * 60
  /** sendMessage gives up on the third resend of a message. */
  const MAX_RETRIES: int := 2

  /**
   * The per-plugin store: a list per plugin id, with the ids in the order the
   * HashMap's values() iterates them.
   */
  predicate StoreValid(data: map<string, seq<AgendaItem>>, order: seq<string>)
  {
    && (forall k :: k in data ==> k in order)
    && (forall k :: k in order ==> k in data)
    && (forall i, j :: 0 <= i < j < |order| ==> order[i] != order[j])
    && (forall k :: k in data ==> HaveIds(data[k]))
  }

  /** The filter at line 527: items without an end time, or ending after now. */
  predicate KeptForSync(x: AgendaItem, now: int)
  {
    x.endTime.None? || x.endTime.value > now
  }

  /** The items of s that the filter keeps, in their order. */
  function Unexpired(s: seq<AgendaItem>, now: int): seq<AgendaItem>
  {
    if s == [] then []
    else
      var last := s[|s| - 1];
      Unexpired(s[..|s| - 1], now) + if KeptForSync(last, now) then [last] else []
  }

  /** The filter keeps exactly the items it lets through: an item is kept iff it is in s and passes. */
  lemma {:induction false} UnexpiredMembers(s: seq<AgendaItem>, now: int)
    ensures forall x :: x in Unexpired(s, now) <==> x in s && KeptForSync(x, now)
    ensures HaveIds(s) ==> HaveIds(Unexpired(s, now))
    decreases |s|
  {
    if s != [] {
      var init := s[..|s| - 1];
      UnexpiredMembers(init, now);
      assert s == init + [s[|s| - 1]];
      var r := Unexpired(s, now);
      if HaveIds(s) {
        forall i | 0 <= i < |r| ensures r[i].pluginId.Some? {
          assert r[i] in s;
        }
      }
    }
  }

  lemma UnexpiredSnoc(s: seq<AgendaItem>, x: AgendaItem, now: int)
    ensures Unexpired(s + [x], now) == Unexpired(s, now) + if KeptForSync(x, now) then [x] else []
  {
    assert (s + [x])[..|s|] == s;
  }

  lemma {:induction false} UnexpiredAppend(a: seq<AgendaItem>, b: seq<AgendaItem>, now: int)
    ensures Unexpired(a + b, now) == Unexpired(a, now) + Unexpired(b, now)
    decreases |b|
  {
    if b == [] {
      assert a + b == a;
    } else {
      var init := b[..|b| - 1];
      assert (a + b)[..|a + b| - 1] == a + init;
      assert (a + b)[|a + b| - 1] == b[|b| - 1];
      UnexpiredAppend(a, init, now);
    }
  }

  /** All plugins' items, plugin after plugin in iteration order. */
  function Gathered(order: seq<string>, data: map<string, seq<AgendaItem>>): (r: seq<AgendaItem>)
    requires forall k :: k in order ==> k in data
    ensures (forall k :: k in order ==> HaveIds(data[k])) ==> HaveIds(r)
  {
    if order == [] then []
    else Gathered(order[..|order| - 1], data) + data[order[|order| - 1]]
  }

  /** An item is gathered exactly when some plugin in the store holds it. */
  lemma {:induction false} GatheredMembers(order: seq<string>, data: map<string, seq<AgendaItem>>, x: AgendaItem)
    requires forall k :: k in order ==> k in data
    ensures x in Gathered(order, data) <==> exists k :: k in order && x in data[k]
    decreases |order|
  {
    if order != [] {
      var init := order[..|order| - 1];
      var last := order[|order| - 1];
      GatheredMembers(init, data, x);
      assert Gathered(order, data) == Gathered(init, data) + data[last];
      if x in Gathered(init, data) {
        var k :| k in init && x in data[k];
        assert k in order;
      } else if x in data[last] {
        assert last in order;
      } else {
        forall k | k in order ensures x !in data[k] {
          var i :| 0 <= i < |order| && order[i] == k;
          if i < |order| - 1 {
            assert init[i] == k;
          }
        }
      }
    }
  }

  /**
   * HashMap.put of a plugin's list: an id already present keeps its place in the
   * iteration order, a new one takes the last place.
   */
  function PutOrder(data: map<string, seq<AgendaItem>>, order: seq<string>, id: string): seq<string>
  {
    if id in data then order else order + [id]
  }

  /** Putting a list of items with plugin ids keeps the store valid. */
  lemma StorePut(data: map<string, seq<AgendaItem>>, order: seq<string>, id: string, items: seq<AgendaItem>)
    requires StoreValid(data, order) && HaveIds(items)
    ensures StoreValid(data[id := items], PutOrder(data, order, id))
    ensures forall k :: k in PutOrder(data, order, id) <==> k in order || k == id
  {
    var order' := PutOrder(data, order, id);
    forall i, j | 0 <= i < j < |order'| ensures order'[i] != order'[j] {
      if id !in data && j == |order| {
        assert order'[i] == order[i];
      }
    }
  }

  /** beginWatchSync's list: the unexpired items of every plugin, sorted by compareTo, the first max kept. */
  function BuildSyncList(data: map<string, seq<AgendaItem>>, order: seq<string>, now: int, max: nat, p: Platform): (r: seq<AgendaItem>)
    requires StoreValid(data, order)
    ensures HaveIds(r)
  {
    var kept := Unexpired(Gathered(order, data), now);
    UnexpiredMembers(Gathered(order, data), now);
    var sorted := Sort(kept, p);
    var r := Trim(sorted, max);
    assert forall i :: 0 <= i < |r| ==> r[i] == sorted[i];
    r
  }

  /**
   * The list sent is exactly max of the unexpired items when more are stored, and all of
   * them when they fit.
   */
  lemma BuildSyncListBounded(data: map<string, seq<AgendaItem>>, order: seq<string>, now: int, max: nat, p: Platform)
    requires StoreValid(data, order)
    ensures var kept := Unexpired(Gathered(order, data), now);
            var r := BuildSyncList(data, order, now, max, p);
            && |r| == (if |kept| <= max then |kept| else max)
            && multiset(r) <= multiset(kept)
    ensures |Unexpired(Gathered(order, data), now)| <= max ==>
              multiset(BuildSyncList(data, order, now, max, p)) == multiset(Unexpired(Gathered(order, data), now))
  {
    var kept := Unexpired(Gathered(order, data), now);
    UnexpiredMembers(Gathered(order, data), now);
    SortPermutes(kept, p);
    SortTrimContents(kept, max, p);
  }

  /** The list sent holds only unexpired items, each supplied by some plugin in the store. */
  lemma BuildSyncListUnexpired(data: map<string, seq<AgendaItem>>, order: seq<string>, now: int, max: nat, p: Platform)
    requires StoreValid(data, order)
    ensures var r := BuildSyncList(data, order, now, max, p);
            forall i :: 0 <= i < |r| ==> KeptForSync(r[i], now) && exists k :: k in data && r[i] in data[k]
  {
    var gathered := Gathered(order, data);
    var kept := Unexpired(gathered, now);
    UnexpiredMembers(gathered, now);
    var sorted := Sort(kept, p);
    var r := BuildSyncList(data, order, now, max, p);
    assert r == Trim(sorted, max);
    SortPermutes(kept, p);
    forall i | 0 <= i < |r| ensures KeptForSync(r[i], now) && exists k :: k in data && r[i] in data[k] {
      assert r[i] == sorted[i];
      assert r[i] in multiset(kept);
      GatheredMembers(order, data, r[i]);
    }
  }

  /** The list sent is sorted by compareTo when compareTo cannot overflow on the plugins' items. */
  lemma BuildSyncListSorted(data: map<string, seq<AgendaItem>>, order: seq<string>, now: int, max: nat, p: Platform)
    requires StoreValid(data, order)
    requires forall k :: k in data ==> AllComparable(data[k], p)
    ensures Sorted(BuildSyncList(data, order, now, max, p), p)
  {
    var gathered := Gathered(order, data);
    var kept := Unexpired(gathered, now);
    UnexpiredMembers(gathered, now);
    var sorted := Sort(kept, p);
    var r := BuildSyncList(data, order, now, max, p);
    assert r == Trim(sorted, max);
    GatheredComparable(order, data, p);
    MembersComparable(kept, gathered, p);
    SortSorted(kept, p);
    PrefixSorted(sorted, |r|, p);
    assert r == sorted[..|r|];
  }

  /**
   * The trim drops the latest items: when compareTo cannot overflow, every item sent
   * compares at or below every unexpired item left out.
   */
  lemma BuildSyncListKeepsEarliest(data: map<string, seq<AgendaItem>>, order: seq<string>, now: int, max: nat, p: Platform)
    requires StoreValid(data, order)
    requires forall k :: k in data ==> AllComparable(data[k], p)
    ensures var kept := Unexpired(Gathered(order, data), now);
            var r := BuildSyncList(data, order, now, max, p);
            forall x, y :: x in r && y in multiset(kept) - multiset(r) ==>
              x.pluginId.Some? && y.pluginId.Some? && CompareTo(x, y, p) <= 0
  {
    var gathered := Gathered(order, data);
    var kept := Unexpired(gathered, now);
    UnexpiredMembers(gathered, now);
    assert BuildSyncList(data, order, now, max, p) == Trim(Sort(kept, p), max);
    GatheredComparable(order, data, p);
    MembersComparable(kept, gathered, p);
    SortTrimKeepsLeast(kept, max, p);
  }

  lemma MembersComparable(s: seq<AgendaItem>, t: seq<AgendaItem>, p: Platform)
    requires forall x :: x in s ==> x in t
    requires AllComparable(t, p)
    ensures AllComparable(s, p)
  {
    forall i | 0 <= i < |s| ensures Comparable(s[i], p) {
      assert s[i] in t;
      var j :| 0 <= j < |t| && t[j] == s[i];
    }
  }

  lemma {:induction false} GatheredComparable(order: seq<string>, data: map<string, seq<AgendaItem>>, p: Platform)
    requires forall k :: k in order ==> k in data && AllComparable(data[k], p)
    ensures AllComparable(Gathered(order, data), p)
    decreases |order|
  {
    if order != [] {
      var init := order[..|order| - 1];
      GatheredComparable(init, data, p);
      var g := Gathered(order, data);
      assert g == Gathered(init, data) + data[order[|order| - 1]];
    }
  }

  /** lines 543-544: the signed byte is incremented, and a result of 0 or below restarts at 1. */
  function NextSyncId(id: Int8): (r: Int8)
    ensures 1 <= r <= 127
    ensures r != id
    ensures 0 <= id < 127 ==> r == id + 1
    ensures id == 127 || id < 0 ==> r == 1
  {
    var n := ToByte(id + 1);
    if n <= 0 then 1 else n
  }

  /**
   * lines 537-540: the data counts as new unless a sync went through, its id is known
   * (not 0) and the watch reports holding it; then it is new exactly when the list that
   * went out is unequal to the one about to go, and an exception of that comparison
   * escapes.
   */
  function IsNewData(sent: Option<seq<AgendaItem>>, lastSuccessfulSyncId: Int8, reportedSyncId: Int8, items: seq<AgendaItem>): Result<bool>
  {
    if sent.Some? && lastSuccessfulSyncId != 0 && reportedSyncId == lastSuccessfulSyncId then
      match ListEquals(sent.value, items)
      case Ok(same) => Ok(!same)
      case Throws(e) => Throws(e)
    else Ok(true)
  }

  /** NO_NEW_DATA is chosen exactly when the watch holds this very list under a nonzero id. */
  lemma NoNewDataExactly(sent: Option<seq<AgendaItem>>, lastSuccessfulSyncId: Int8, reportedSyncId: Int8, items: seq<AgendaItem>)
    ensures IsNewData(sent, lastSuccessfulSyncId, reportedSyncId, items) == Ok(false)
            <==> sent == Some(items) && lastSuccessfulSyncId != 0 && reportedSyncId == lastSuccessfulSyncId
  {
    if sent.Some? {
      ListEqualsIsEquality(sent.value, items);
    }
  }

  /**
   * The comparison throws NullPointerException exactly when the watch holds the last
   * successful list under a nonzero id and, where that list first differs from the new
   * one, its item has a zone the new item lacks.
   */
  lemma NewDataTestThrows(sent: Option<seq<AgendaItem>>, lastSuccessfulSyncId: Int8, reportedSyncId: Int8, items: seq<AgendaItem>)
    ensures IsNewData(sent, lastSuccessfulSyncId, reportedSyncId, items).Throws? <==>
              && sent.Some? && lastSuccessfulSyncId != 0 && reportedSyncId == lastSuccessfulSyncId
              && |sent.value| == |items| && exists k :: ZoneDroppedAt(sent.value, items, k)
    ensures IsNewData(sent, lastSuccessfulSyncId, reportedSyncId, items).Throws? ==>
              IsNewData(sent, lastSuccessfulSyncId, reportedSyncId, items).error == NullPointer
  {
    if sent.Some? {
      ListEqualsThrows(sent.value, items);
    }
  }

  /** A reported id of 0 (forceSync) always makes the data new. */
  lemma ForcedSyncIsNew(sent: Option<seq<AgendaItem>>, lastSuccessfulSyncId: Int8, items: seq<AgendaItem>)
    ensures IsNewData(sent, lastSuccessfulSyncId, 0, items) == Ok(true)
  {
  }

  /** lines 730 and 750: a notification is skipped when one was issued less than an hour ago. */
  predicate NotificationSuppressed(issued: int, now: int)
  {
    issued != -1 && now - issued < NOTIFICATION_INTERVAL
  }

  /**
   * The times at which notifications went out, oldest first, with the stamp of the last
   * one (-1 before any): consecutive notifications are at least an hour apart.
   */
  predicate NoticeLogSpaced(issued: int, times: seq<int>)
  {
    && (if times == [] then issued == -1 else issued == times[|times| - 1] && issued != -1)
    && forall i :: 0 <= i < |times| - 1 ==> times[i] + NOTIFICATION_INTERVAL <= times[i + 1]
  }

  /**
   * The guard keeps the log spaced at every clock reading >= 0: a notification that goes
   * out comes at least an hour after the previous one, and one that is suppressed falls
   * within the hour after the last.
   */
  lemma NotificationsSpaced(issued: int, times: seq<int>, now: int)
    requires NoticeLogSpaced(issued, times) && now >= 0
    ensures !NotificationSuppressed(issued, now) ==> NoticeLogSpaced(now, times + [now])
    ensures NotificationSuppressed(issued, now) <==> times != [] && now < times[|times| - 1] + NOTIFICATION_INTERVAL
  {
  }

  /** The indices 0..n-1 in order. */
  function Range(n: nat): (r: seq<int>)
    ensures |r| == n && forall i :: 0 <= i < n ==> r[i] == i
  {
    seq(n, i => i)
  }
}
