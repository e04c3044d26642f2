/**
 * The sync state machine of AgendaWatchfaceService. Each event the service reacts to
 * (a watch request, an ack, a nack and its delayed resend, plugin data arriving, the
 * end of the initial wait) is a method; PebbleKit's send call appends to `outbox`,
 * and update notifications are appended to `notifications`.
 */
module WatchfaceService {
  import opened JavaLang
  import opened AgendaItems
  import opened ItemSort
  import opened WatchfaceCodec
  import opened WatchfaceSync

  /** The STATE_* constants of the service. */
  datatype SyncState =
    | InitialPopulatingPluginData
    | WaitForWatchRequest
    | InitSent
    | SentItemWaitForAck
    | SentItem1WaitForAck
    | SentItem2WaitForAck
    | SentDoneMsgWaitForAck
    | RestartSyncOnAck
    | NoNewDataMsgSent

  /** The states in which a message of the sync is waiting for its ack. */
  predicate Awaiting(s: SyncState)
  {
    s == InitSent || SendingItem(s) || s == SentDoneMsgWaitForAck || s == NoNewDataMsgSent
  }

  predicate SendingItem(s: SyncState)
  {
    s == SentItemWaitForAck || s == SentItem1WaitForAck || s == SentItem2WaitForAck
  }

  /** The message an item-sending state waits on: the whole item, or its first or second half. */
  predicate ItemPart(s: SyncState, m: Message)
  {
    match s
    case SentItemWaitForAck => m.Item?
    case SentItem1WaitForAck => m.ItemHalf1?
    case SentItem2WaitForAck => m.ItemHalf2?
    case _ => false
  }

  /** One call of PebbleKit.sendDataToPebbleWithTransactionId. */
  datatype Sent = Sent(transactionId: int, msg: Message)

  datatype Notice = WatchappUpdateNotice | AndroidAppUpdateNotice

  /** An update notification, with the clock reading at which it went out. */
  datatype Notification = Notification(at: int, kind: Notice)

  /** The times of a log of notifications. */
  function TimesOf(ns: seq<Notification>): seq<int>
  {
    seq(|ns|, i requires 0 <= i < |ns| => ns[i].at)
  }

  /**
   * What the nack handler's delayed runnable captured: the dictionary last sent. The
   * Java code compares it by reference with lastSentDict; `generation` counts the fresh
   * dictionaries sent, so equal generations mean the same dictionary object.
   */
  datatype ResendCapture = ResendCapture(generation: nat, dict: Option<Message>)

  /** While a message waits for its ack, it is the last one sent, under the transaction id in flight. */
  predicate InFlight(state: SyncState, outbox: seq<Sent>, transactionFlying: int, lastSentDict: Option<Message>)
  {
    Awaiting(state) ==>
      && |outbox| > 0
      && outbox[|outbox| - 1].transactionId == transactionFlying
      && lastSentDict == Some(outbox[|outbox| - 1].msg)
  }

  /**
   * The state names the message in flight: INIT after a sync began, then item by item
   * each index from 0 once and in order (one message or two halves), then DONE once
   * every index was sent. `log` holds the indices whose first message went out.
   */
  ghost predicate SessionValid(state: SyncState, currentIndex: int, items: Option<seq<AgendaItem>>, syncId: Int8,
                               log: seq<int>, dict: Option<Message>)
  {
    match state
    case InitSent =>
      && items.Some? && 1 <= syncId && log == []
      && dict.Some? && dict.value.InitData?
      && dict.value.numItems == ToByte(|items.value|)
      && dict.value.syncId == syncId
    case SentItemWaitForAck | SentItem1WaitForAck | SentItem2WaitForAck =>
      && items.Some? && 1 <= syncId
      && 0 <= currentIndex < |items.value|
      && log == Range(currentIndex + 1)
      && dict.Some? && ItemPart(state, dict.value)
      && dict.value.index == ToByte(currentIndex)
    case SentDoneMsgWaitForAck =>
      && items.Some? && 1 <= syncId
      && currentIndex == |items.value|
      && log == Range(currentIndex)
      && dict.Some? && dict.value.Done?
    case NoNewDataMsgSent => dict == Some(NoNewData)
    case _ => true
  }

  /** The inner loop at lines 526-528: appends the plugin's unexpired items to the list, in order. */
  method AppendUnexpired(list: seq<AgendaItem>, pluginItems: seq<AgendaItem>, now: int) returns (r: seq<AgendaItem>)
    ensures r == list + Unexpired(pluginItems, now)
  {
    r := list;
    var j := 0;
    while j < |pluginItems|
      invariant 0 <= j <= |pluginItems|
      invariant r == list + Unexpired(pluginItems[..j], now)
    {
      var item := pluginItems[j];
      if item.endTime.None? || item.endTime.value > now {
        r := r + [item];
      }
      assert pluginItems[..j + 1] == pluginItems[..j] + [item];
      UnexpiredSnoc(pluginItems[..j], item, now);
      j := j + 1;
    }
    assert pluginItems[..j] == pluginItems;
  }

  /** The nested loops at lines 523-528: every plugin's unexpired items, plugin after plugin. */
  method CollectUnexpired(pluginData: map<string, seq<AgendaItem>>, pluginOrder: seq<string>, now: int) returns (list: seq<AgendaItem>)
    requires forall k :: k in pluginOrder ==> k in pluginData
    ensures list == Unexpired(Gathered(pluginOrder, pluginData), now)
  {
    list := [];
    var i := 0;
    while i < |pluginOrder|
      invariant 0 <= i <= |pluginOrder|
      invariant forall k :: k in pluginOrder[..i] ==> k in pluginData
      invariant list == Unexpired(Gathered(pluginOrder[..i], pluginData), now)
    {
      var pluginItems := pluginData[pluginOrder[i]];
      UnexpiredAppend(Gathered(pluginOrder[..i], pluginData), pluginItems, now);
      list := AppendUnexpired(list, pluginItems, now);
      assert pluginOrder[..i + 1][..i] == pluginOrder[..i];
      i := i + 1;
    }
    assert pluginOrder[..i] == pluginOrder;
  }

  /** The list building of beginWatchSync (lines 523-532): collect the unexpired items, Collections.sort them, and cut the list to max items. */
  method ItemsToSync(pluginData: map<string, seq<AgendaItem>>, pluginOrder: seq<string>, now: int, max: nat, p: Platform)
    returns (list: seq<AgendaItem>)
    requires StoreValid(pluginData, pluginOrder)
    ensures list == BuildSyncList(pluginData, pluginOrder, now, max, p)
  {
    list := CollectUnexpired(pluginData, pluginOrder, now);
    UnexpiredMembers(Gathered(pluginOrder, pluginData), now);
    list := Sort(list, p);
    if |list| > max {
      list := list[..max];
    }
  }

  /**
   * The transport fields of the service: the transaction id in flight, the retry
   * counter, the dictionary last sent, how many fresh dictionaries went out, and every
   * call of PebbleKit's send so far.
   */
  datatype Link = Link(transactionFlying: int, numRetries: int, lastSentDict: Option<Message>, sendGeneration: nat, outbox: seq<Sent>)

  /** sendMessage(m, false): the next transaction id modulo 256, the retry counter reset, and m sent and remembered. */
  function FreshSend(l: Link, m: Message): Link
  {
    var id := (l.transactionFlying + 1) % 256;
    Link(id, 0, Some(m), l.sendGeneration + 1, l.outbox + [Sent(id, m)])
  }

  /**
   * sendMessage(lastSentDict, true): the next transaction id and one more retry; the
   * dictionary goes out again only while the counter has not passed MAX_RETRIES. Before
   * the first send lastSentDict is null, and no dictionary goes out.
   */
  function Resend(l: Link): Link
  {
    var id := (l.transactionFlying + 1) % 256;
    var n := l.numRetries + 1;
    if n > MAX_RETRIES || l.lastSentDict.None? then l.(transactionFlying := id, numRetries := n)
    else l.(transactionFlying := id, numRetries := n, outbox := l.outbox + [Sent(id, l.lastSentDict.value)])
  }

  /** k resends in a row. */
  function Resends(l: Link, k: nat): (r: Link)
    requires l.lastSentDict.Some?
    ensures r.lastSentDict == l.lastSentDict
  {
    if k == 0 then l else Resend(Resends(l, k - 1))
  }

  function Min(a: int, b: int): int
  {
    if a <= b then a else b
  }

  /**
   * However many nacks follow, a dictionary goes out at most 1 + MAX_RETRIES times:
   * once fresh and then once per resend up to the limit. Each send goes out under the
   * next transaction id modulo 256, so the ids are consecutive bytes.
   */
  lemma {:induction false} ResendsBounded(l: Link, m: Message, k: nat)
    ensures var r := Resends(FreshSend(l, m), k);
            && |r.outbox| == |l.outbox| + 1 + Min(k, MAX_RETRIES)
            && r.outbox[..|l.outbox|] == l.outbox
            && (forall i :: |l.outbox| <= i < |r.outbox| ==> r.outbox[i].msg == m)
            && (forall i :: |l.outbox| <= i < |r.outbox| ==>
                  r.outbox[i].transactionId == (l.transactionFlying + 1 + (i - |l.outbox|)) % 256)
            && r.numRetries == k
            && r.transactionFlying == (l.transactionFlying + 1 + k) % 256
  {
    if k > 0 {
      ResendsBounded(l, m, k - 1);
      var p := Resends(FreshSend(l, m), k - 1);
      var r := Resends(FreshSend(l, m), k);
      assert r == Resend(p);
      NextIdMod(l.transactionFlying + k);
      assert r.transactionFlying == (l.transactionFlying + 1 + k) % 256;
      if k > MAX_RETRIES {
        assert r.outbox == p.outbox;
      } else {
        assert r.outbox == p.outbox + [Sent(r.transactionFlying, m)];
        assert r.outbox[..|l.outbox|] == p.outbox[..|l.outbox|];
      }
    }
  }

  lemma NextIdMod(x: int)
    ensures (x % 256 + 1) % 256 == (x + 1) % 256
  {
  }

  class AgendaWatchfaceService {
    const platform: Platform

    var state: SyncState
    var currentIndex: int
    var itemsToSend: Option<seq<AgendaItem>>
    var currentSyncId: Int8
    var itemsSuccessfullySent: Option<seq<AgendaItem>>
    var lastSuccessfulSyncId: Int8
    var lastWatchReportedSyncId: Int8
    var vibrateOnNextDone: bool
    var pluginData: map<string, seq<AgendaItem>>
    var pluginOrder: seq<string>
    var lastSentDict: Option<Message>
    var sendGeneration: nat
    var transactionFlying: int
    var numRetries: int
    var notificationIssued: int
    var watchfaceVersion: Int32
    var lastSync: int
    var outbox: seq<Sent>
    var notifications: seq<Notification>
    /** The indices whose first message went out in the current sync, in sending order. */
    ghost var itemLog: seq<int>

    ghost predicate StoreOk()
      reads this`pluginData, this`pluginOrder
    {
      StoreValid(pluginData, pluginOrder)
    }
    ghost predicate ItemsOk()
      reads this`itemsToSend
    {
      itemsToSend.Some? ==> HaveIds(itemsToSend.value)
    }
    ghost predicate InFlightOk()
      reads this`state, this`outbox, this`transactionFlying, this`lastSentDict
    {
      InFlight(state, outbox, transactionFlying, lastSentDict)
    }
    ghost predicate SessionOk()
      reads this`state, this`currentIndex, this`itemsToSend, this`currentSyncId, this`itemLog, this`lastSentDict
    {
      SessionValid(state, currentIndex, itemsToSend, currentSyncId, itemLog, lastSentDict)
    }

    /** At most one update notification per hour, and notificationIssued stamps the last. */
    ghost predicate NoticesOk()
      reads this`notificationIssued, this`notifications
    {
      NoticeLogSpaced(notificationIssued, TimesOf(notifications))
    }

    /** The invariant of everything but the plugin store. */
    ghost predicate SyncValid()
      reads this`transactionFlying, this`numRetries, this`itemsToSend, this`state, this`outbox, this`lastSentDict,
        this`currentIndex, this`currentSyncId, this`itemLog
    {
      && -1 <= transactionFlying < 256
      && 0 <= numRetries
      && ItemsOk() && InFlightOk() && SessionOk()
    }

    ghost predicate Valid()
      reads this`pluginData, this`pluginOrder, this`notificationIssued, this`notifications,
        this`transactionFlying, this`numRetries, this`itemsToSend, this`state, this`outbox, this`lastSentDict,
        this`currentIndex, this`currentSyncId, this`itemLog
    {
      StoreOk() && SyncValid() && NoticesOk()
    }

    /** The fields at lines 113-133, with the stored watchface version read by onCreate. */
    constructor(platform: Platform, storedWatchfaceVersion: Int32)
      ensures Valid()
      ensures this.platform == platform
      ensures state == InitialPopulatingPluginData && currentIndex == -1 && itemsToSend == None
      ensures currentSyncId == 0 && itemsSuccessfullySent == None && lastSuccessfulSyncId == 0
      ensures lastWatchReportedSyncId == 0 && !vibrateOnNextDone && pluginData == map[] && pluginOrder == []
      ensures lastSentDict == None && transactionFlying == -1 && numRetries == 0
      ensures notificationIssued == -1 && watchfaceVersion == storedWatchfaceVersion && lastSync == -1
      ensures outbox == [] && notifications == []
    {
      this.platform := platform;
      state := InitialPopulatingPluginData;
      currentIndex := -1;
      itemsToSend := None;
      currentSyncId := 0;
      itemsSuccessfullySent := None;
      lastSuccessfulSyncId := 0;
      lastWatchReportedSyncId := 0;
      vibrateOnNextDone := false;
      pluginData := map[];
      pluginOrder := [];
      lastSentDict := None;
      sendGeneration := 0;
      transactionFlying := -1;
      numRetries := 0;
      notificationIssued := -1;
      watchfaceVersion := storedWatchfaceVersion;
      lastSync := -1;
      outbox := [];
      notifications := [];
      itemLog := [];
    }

    /** The transport fields as one value. */
    function Wire(): Link
      reads this`transactionFlying, this`numRetries, this`lastSentDict, this`sendGeneration, this`outbox
    {
      Link(transactionFlying, numRetries, lastSentDict, sendGeneration, outbox)
    }

    /**
     * sendMessage (lines 712-724): every call takes the next transaction id modulo 256;
     * a fresh send always goes out, a resend goes out only up to the second retry and
     * reports whether it did.
     */
    method SendMessage(data: Message, resend: bool) returns (sent: bool)
      requires resend ==> lastSentDict == Some(data)
      modifies this`transactionFlying, this`numRetries, this`lastSentDict, this`sendGeneration, this`outbox
      ensures !resend ==> sent && Wire() == FreshSend(old(Wire()), data)
      ensures resend ==> Wire() == Resend(old(Wire())) && (sent <==> numRetries <= MAX_RETRIES)
    {
      transactionFlying := (transactionFlying + 1) % 256;
      numRetries := if resend then numRetries + 1 else 0;
      if numRetries > MAX_RETRIES {
        return false;
      }
      lastSentDict := Some(data);
      if !resend {
        sendGeneration := sendGeneration + 1;
      }
      outbox := outbox + [Sent(transactionFlying, data)];
      return true;
    }

    /** After the notification guard: kind went out at now, unless one went out less than an hour before issued0. */
    predicate Notified(issued0: int, notices0: seq<Notification>, kind: Notice, now: int)
      reads this`notificationIssued, this`notifications
    {
      if NotificationSuppressed(issued0, now)
      then notificationIssued == issued0 && notifications == notices0
      else notificationIssued == now && notifications == notices0 + [Notification(now, kind)]
    }

    /** triggerUpdateNotification and triggerAndroidAppUpdateNotification: the guard of lines 730 and 750. */
    method TriggerNotification(kind: Notice, now: int)
      requires NoticesOk() && now >= 0
      modifies this`notificationIssued, this`notifications
      ensures NoticesOk()
      ensures Notified(old(notificationIssued), old(notifications), kind, now)
    {
      NotificationsSpaced(notificationIssued, TimesOf(notifications), now);
      if notificationIssued != -1 && now - notificationIssued < NOTIFICATION_INTERVAL {
        return;
      }
      assert TimesOf(notifications + [Notification(now, kind)]) == TimesOf(notifications) + [now];
      notificationIssued := now;
      notifications := notifications + [Notification(now, kind)];
    }

    /**
     * The sync of `list` was announced over the link that stood at `before`: it is the
     * list to send, and INIT goes out under the sync id after baseSyncId exactly when the
     * data is new to the watch; otherwise NO_NEW_DATA goes out and the sync id stays.
     * When the test for new data throws, the exception escapes as `crash` with nothing sent.
     */
    ghost predicate Announced(before: Link, list: seq<AgendaItem>, reportedSyncId: Int8, baseSyncId: Int8, prefs: Prefs, crash: Option<JavaError>)
      reads this`state, this`currentIndex, this`itemsToSend, this`currentSyncId, this`itemLog,
        this`itemsSuccessfullySent, this`lastSuccessfulSyncId,
        this`transactionFlying, this`numRetries, this`lastSentDict, this`sendGeneration, this`outbox
    {
      && itemsToSend == Some(list)
      && currentIndex == -1
      && match IsNewData(itemsSuccessfullySent, lastSuccessfulSyncId, reportedSyncId, list)
         case Ok(true) =>
           && crash == None && itemLog == []
           && currentSyncId == NextSyncId(baseSyncId)
           && state == InitSent
           && Wire() == FreshSend(before, InitMessage(|list|, currentSyncId, prefs))
         case Ok(false) =>
           && crash == None && itemLog == []
           && currentSyncId == baseSyncId
           && state == NoNewDataMsgSent
           && Wire() == FreshSend(before, NoNewData)
         case Throws(e) =>
           && crash == Some(e)
           && currentSyncId == baseSyncId
           && Wire() == before
    }

    /** An escaped exception left the state and the record of the sync as they were. */
    twostate predicate CrashKept(new crash: Option<JavaError>)
      reads this`state, this`itemLog
    {
      crash.Some? ==> state == old(state) && itemLog == old(itemLog)
    }

    /** beginWatchSync's effect once past the initial-population guard: the sync of BuildSyncList of the store was announced. */
    ghost predicate SyncBegun(before: Link, reportedSyncId: Int8, baseSyncId: Int8, now: int, prefs: Prefs, crash: Option<JavaError>)
      reads this`pluginData, this`pluginOrder,
        this`state, this`currentIndex, this`itemsToSend, this`currentSyncId, this`itemLog,
        this`itemsSuccessfullySent, this`lastSuccessfulSyncId,
        this`transactionFlying, this`numRetries, this`lastSentDict, this`sendGeneration, this`outbox
    {
      && StoreValid(pluginData, pluginOrder)
      && Announced(before, BuildSyncList(pluginData, pluginOrder, now, prefs.sendNumItems, platform), reportedSyncId, baseSyncId, prefs, crash)
    }

    /** beginWatchSync (lines 507-551): nothing while plugin data is still being gathered; otherwise the list to sync is built and announced. */
    method BeginWatchSync(reportedSyncId: Int8, now: int, prefs: Prefs) returns (crash: Option<JavaError>)
      requires Valid()
      modifies this`itemsToSend, this`currentIndex, this`itemLog, this`currentSyncId, this`state,
        this`transactionFlying, this`numRetries, this`lastSentDict, this`sendGeneration, this`outbox
      ensures crash.None? ==> Valid()
      ensures old(state) == InitialPopulatingPluginData ==> unchanged(this) && crash == None
      ensures old(state) != InitialPopulatingPluginData ==> SyncBegun(old(Wire()), reportedSyncId, old(currentSyncId), now, prefs, crash)
      ensures CrashKept(crash)
    {
      if state == InitialPopulatingPluginData {
        return None;
      }
      var list := ItemsToSync(pluginData, pluginOrder, now, prefs.sendNumItems, platform);
      crash := AnnounceSync(list, reportedSyncId, prefs);
    }

    /**
     * The end of beginWatchSync (lines 531-550): INIT under the next sync id when the list
     * is new to the watch, NO_NEW_DATA otherwise. The comparison with the last successful
     * list can throw; the exception escapes after the list and index were set.
     */
    method AnnounceSync(list: seq<AgendaItem>, reportedSyncId: Int8, prefs: Prefs) returns (crash: Option<JavaError>)
      requires SyncValid() && HaveIds(list)
      modifies this`itemsToSend, this`currentIndex, this`itemLog, this`currentSyncId, this`state,
        this`transactionFlying, this`numRetries, this`lastSentDict, this`sendGeneration, this`outbox
      ensures crash.None? ==> SyncValid()
      ensures Announced(old(Wire()), list, reportedSyncId, old(currentSyncId), prefs, crash)
      ensures CrashKept(crash)
    {
      crash := None;
      var newData := true;
      if itemsSuccessfullySent.Some? && lastSuccessfulSyncId != 0 && reportedSyncId == lastSuccessfulSyncId {
        var same := ListEquals(itemsSuccessfullySent.value, list);
        if same.Throws? {
          // lines 531-532 ran before the comparison
          itemsToSend := Some(list);
          currentIndex := -1;
          return Some(same.error);
        }
        newData := !same.value;
      }
      if newData {
        SendInitDataMsg(list, prefs);
      } else {
        SendNoNewDataMsg(list);
      }
    }

    /** sendInitDataMsg (lines 570-579) with the assignments before it: the sync id advances and INIT advertises the list. */
    method SendInitDataMsg(list: seq<AgendaItem>, prefs: Prefs)
      requires SyncValid() && HaveIds(list)
      modifies this`itemsToSend, this`currentIndex, this`itemLog, this`currentSyncId, this`state,
        this`transactionFlying, this`numRetries, this`lastSentDict, this`sendGeneration, this`outbox
      ensures SyncValid()
      ensures itemsToSend == Some(list) && currentIndex == -1 && itemLog == []
      ensures currentSyncId == NextSyncId(old(currentSyncId)) && state == InitSent
      ensures Wire() == FreshSend(old(Wire()), InitMessage(|list|, currentSyncId, prefs))
    {
      itemsToSend := Some(list);
      currentIndex := -1;
      itemLog := [];
      currentSyncId := NextSyncId(currentSyncId);
      var _ := SendMessage(InitMessage(|list|, currentSyncId, prefs), false);
      state := InitSent;
    }

    /** sendNoNewDataMsg (lines 556-561) with the assignments before it: NO_NEW_DATA goes out. */
    method SendNoNewDataMsg(list: seq<AgendaItem>)
      requires SyncValid() && HaveIds(list)
      modifies this`itemsToSend, this`currentIndex, this`itemLog, this`currentSyncId, this`state,
        this`transactionFlying, this`numRetries, this`lastSentDict, this`sendGeneration, this`outbox
      ensures SyncValid()
      ensures itemsToSend == Some(list) && currentIndex == -1 && itemLog == []
      ensures currentSyncId == old(currentSyncId) && state == NoNewDataMsgSent
      ensures Wire() == FreshSend(old(Wire()), NoNewData)
    {
      itemsToSend := Some(list);
      currentIndex := -1;
      itemLog := [];
      var _ := SendMessage(NoNewData, false);
      state := NoNewDataMsgSent;
    }

    /**
     * The item at currentIndex went out over the link that stood at `before`: as one
     * message when canBeSentInOneMessage allows it and as its first half otherwise, and
     * its index joined the log log0.
     */
    ghost predicate ItemSent(before: Link, log0: seq<int>, prefs: Prefs)
      reads this`state, this`currentIndex, this`itemsToSend, this`itemLog,
        this`transactionFlying, this`numRetries, this`lastSentDict, this`sendGeneration, this`outbox
    {
      && ValidPrefs(prefs, platform)
      && itemsToSend.Some? && 0 <= currentIndex < |itemsToSend.value|
      && itemLog == log0 + [currentIndex]
      && var x := itemsToSend.value[currentIndex];
         if CanBeSentInOneMessage(x, platform)
         then state == SentItemWaitForAck && Wire() == FreshSend(before, ItemMessage(x, currentIndex, prefs, platform))
         else state == SentItem1WaitForAck && Wire() == FreshSend(before, FirstHalfMessage(x, currentIndex, prefs, platform))
    }

    /** The sending step shared by ackReceived's INIT and item cases (lines 333-339, 346-352): sendItem or sendFirstItemHalf for the item at currentIndex. */
    method SendCurrentItem(prefs: Prefs)
      requires ValidPrefs(prefs, platform)
      requires -1 <= transactionFlying < 256 && 0 <= numRetries && ItemsOk()
      requires itemsToSend.Some? && 0 <= currentIndex < |itemsToSend.value| && 1 <= currentSyncId
      requires itemLog == Range(currentIndex)
      modifies this`state, this`itemLog,
        this`transactionFlying, this`numRetries, this`lastSentDict, this`sendGeneration, this`outbox
      ensures SyncValid()
      ensures ItemSent(old(Wire()), old(itemLog), prefs)
    {
      var x := itemsToSend.value[currentIndex];
      itemLog := itemLog + [currentIndex];
      assert itemLog == Range(currentIndex + 1);
      if CanBeSentInOneMessage(x, platform) {
        var _ := SendMessage(ItemMessage(x, currentIndex, prefs, platform), false);
        state := SentItemWaitForAck;
        assert SessionOk();
      } else {
        var _ := SendMessage(FirstHalfMessage(x, currentIndex, prefs, platform), false);
        state := SentItem1WaitForAck;
        assert SessionOk();
      }
    }

    /** sendDoneMessage (lines 689-694): every index was sent, so DONE goes out with the pending vibration wish. */
    method SendDone(prefs: Prefs)
      requires -1 <= transactionFlying < 256 && 0 <= numRetries && ItemsOk()
      requires itemsToSend.Some? && currentIndex == |itemsToSend.value| && 1 <= currentSyncId
      requires itemLog == Range(currentIndex)
      modifies this`state, this`transactionFlying, this`numRetries, this`lastSentDict, this`sendGeneration, this`outbox
      ensures SyncValid()
      ensures state == SentDoneMsgWaitForAck && Wire() == FreshSend(old(Wire()), DoneMessage(vibrateOnNextDone, prefs))
    {
      var _ := SendMessage(DoneMessage(vibrateOnNextDone, prefs), false);
      state := SentDoneMsgWaitForAck;
    }

    /** INIT was acknowledged: item 0 goes out, or the sync ends at once for an empty list. */
    ghost predicate InitAcked(before: Link, log0: seq<int>, prefs: Prefs)
      reads this`state, this`currentIndex, this`itemsToSend, this`itemLog,
        this`transactionFlying, this`numRetries, this`lastSentDict, this`sendGeneration, this`outbox
    {
      && itemsToSend.Some? && currentIndex == 0
      && if |itemsToSend.value| == 0
         then state == WaitForWatchRequest && itemLog == log0 && Wire() == before
         else ItemSent(before, log0, prefs)
    }

    /** The STATE_INIT_SENT case of ackReceived (lines 325-340): item 0 goes out, or the service waits on an empty list. */
    method AckInitSent(prefs: Prefs)
      requires SyncValid() && state == InitSent && ValidPrefs(prefs, platform)
      modifies this`currentIndex, this`state, this`itemLog,
        this`transactionFlying, this`numRetries, this`lastSentDict, this`sendGeneration, this`outbox
      ensures SyncValid()
      ensures InitAcked(old(Wire()), old(itemLog), prefs)
    {
      currentIndex := 0;
      if |itemsToSend.value| == 0 {
        state := WaitForWatchRequest;
        return;
      }
      SendCurrentItem(prefs);
    }

    /** A whole item or a second half was acknowledged: the next index goes out, or DONE after the last. */
    ghost predicate ItemAcked(before: Link, log0: seq<int>, index0: int, prefs: Prefs)
      reads this`state, this`currentIndex, this`itemsToSend, this`itemLog, this`vibrateOnNextDone,
        this`transactionFlying, this`numRetries, this`lastSentDict, this`sendGeneration, this`outbox
    {
      && itemsToSend.Some? && currentIndex == index0 + 1
      && if currentIndex < |itemsToSend.value|
         then ItemSent(before, log0, prefs)
         else
           && state == SentDoneMsgWaitForAck && itemLog == log0
           && Wire() == FreshSend(before, DoneMessage(vibrateOnNextDone, prefs))
    }

    /** The item cases of ackReceived (lines 342-357): the index advances, then the next item or DONE goes out. */
    method AckItemSent(prefs: Prefs)
      requires SyncValid() && (state == SentItemWaitForAck || state == SentItem2WaitForAck) && ValidPrefs(prefs, platform)
      modifies this`currentIndex, this`state, this`itemLog,
        this`transactionFlying, this`numRetries, this`lastSentDict, this`sendGeneration, this`outbox
      ensures SyncValid()
      ensures ItemAcked(old(Wire()), old(itemLog), old(currentIndex), prefs)
    {
      currentIndex := currentIndex + 1;
      if currentIndex < |itemsToSend.value| {
        SendCurrentItem(prefs);
      } else {
        SendDone(prefs);
      }
    }

    /** A first half was acknowledged: the second half of the same item goes out. */
    ghost predicate FirstHalfAcked(before: Link, prefs: Prefs)
      reads this`state, this`currentIndex, this`itemsToSend,
        this`transactionFlying, this`numRetries, this`lastSentDict, this`sendGeneration, this`outbox
    {
      && ValidPrefs(prefs, platform)
      && itemsToSend.Some? && 0 <= currentIndex < |itemsToSend.value|
      && state == SentItem2WaitForAck
      && Wire() == FreshSend(before, SecondHalfMessage(itemsToSend.value[currentIndex], currentIndex, prefs, platform))
    }

    /** The first-half case of ackReceived (lines 359-362): the second half of the same item goes out. */
    method AckFirstHalf(prefs: Prefs)
      requires SyncValid() && state == SentItem1WaitForAck && ValidPrefs(prefs, platform)
      modifies this`state, this`transactionFlying, this`numRetries, this`lastSentDict, this`sendGeneration, this`outbox
      ensures SyncValid()
      ensures FirstHalfAcked(old(Wire()), prefs)
    {
      var x := itemsToSend.value[currentIndex];
      var _ := SendMessage(SecondHalfMessage(x, currentIndex, prefs, platform), false);
      state := SentItem2WaitForAck;
    }

    /** DONE was acknowledged: the list sent under syncId0 becomes the watch's data, stamped with now. */
    predicate SyncCompleted(now: int, syncId0: Int8, items0: Option<seq<AgendaItem>>)
      reads this`state, this`lastSync, this`lastSuccessfulSyncId, this`itemsSuccessfullySent, this`vibrateOnNextDone
    {
      && state == WaitForWatchRequest
      && lastSync == now
      && lastSuccessfulSyncId == syncId0
      && itemsSuccessfullySent == items0
      && !vibrateOnNextDone
    }

    /** The STATE_SENT_DONE_MSG_WAIT_FOR_ACK case of ackReceived (lines 364-373): the ack of DONE concludes the sync, which went out whole and in order. */
    method AckDone(now: int)
      requires SyncValid() && state == SentDoneMsgWaitForAck
      modifies this`state, this`lastSync, this`lastSuccessfulSyncId, this`itemsSuccessfullySent, this`vibrateOnNextDone
      ensures SyncValid()
      ensures SyncCompleted(now, currentSyncId, itemsToSend)
      ensures itemsSuccessfullySent.Some? && itemLog == Range(|itemsSuccessfullySent.value|)
    {
      state := WaitForWatchRequest;
      lastSync := now;
      lastSuccessfulSyncId := currentSyncId;
      itemsSuccessfullySent := itemsToSend;
      vibrateOnNextDone := false;
    }

    /** The list being synced and its sync id are as they were. */
    twostate predicate ListKept()
      reads this`itemsToSend, this`currentSyncId
    {
      itemsToSend == old(itemsToSend) && currentSyncId == old(currentSyncId)
    }

    /** The list, the sync id and the progress through the list are as they were. */
    twostate predicate SessionKept()
      reads this`itemsToSend, this`currentSyncId, this`currentIndex, this`itemLog
    {
      ListKept() && currentIndex == old(currentIndex) && itemLog == old(itemLog)
    }

    /** The record of the last completed sync is as it was. */
    twostate predicate OutcomeKept()
      reads this`lastSync, this`lastSuccessfulSyncId, this`itemsSuccessfullySent, this`vibrateOnNextDone
    {
      && lastSync == old(lastSync)
      && lastSuccessfulSyncId == old(lastSuccessfulSyncId)
      && itemsSuccessfullySent == old(itemsSuccessfullySent)
      && vibrateOnNextDone == old(vibrateOnNextDone)
    }

    /** What ackReceived does with the ack of the transaction in flight, by the state it arrived in. */
    twostate predicate AckHandled(now: int, prefs: Prefs)
      reads this
    {
      match old(state)
      case InitialPopulatingPluginData => state == old(state) && SessionKept() && Wire() == old(Wire()) && OutcomeKept()
      case WaitForWatchRequest => state == old(state) && SessionKept() && Wire() == old(Wire()) && OutcomeKept()
      case RestartSyncOnAck => SyncBegun(old(Wire()), 0, old(currentSyncId), now, prefs, None) && OutcomeKept()
      case NoNewDataMsgSent => state == WaitForWatchRequest && SessionKept() && Wire() == old(Wire()) && OutcomeKept()
      case InitSent => InitAcked(old(Wire()), old(itemLog), prefs) && ListKept() && OutcomeKept()
      case SentItemWaitForAck => ItemAcked(old(Wire()), old(itemLog), old(currentIndex), prefs) && ListKept() && OutcomeKept()
      case SentItem2WaitForAck => ItemAcked(old(Wire()), old(itemLog), old(currentIndex), prefs) && ListKept() && OutcomeKept()
      case SentItem1WaitForAck => FirstHalfAcked(old(Wire()), prefs) && SessionKept() && OutcomeKept()
      case SentDoneMsgWaitForAck =>
        SyncCompleted(now, old(currentSyncId), old(itemsToSend)) && SessionKept() && Wire() == old(Wire())
    }

    /** The acks that move a sync forward through its list. */
    method AckSending(now: int, prefs: Prefs)
      requires SyncValid() && ValidPrefs(prefs, platform) && (state == InitSent || SendingItem(state))
      modifies this`state, this`currentIndex, this`itemLog,
        this`transactionFlying, this`numRetries, this`lastSentDict, this`sendGeneration, this`outbox
      ensures SyncValid()
      ensures AckHandled(now, prefs)
    {
      match state {
        case InitSent => AckInitSent(prefs);
        case SentItemWaitForAck => AckItemSent(prefs);
        case SentItem2WaitForAck => AckItemSent(prefs);
        case SentItem1WaitForAck => AckFirstHalf(prefs);
      }
    }

    /**
     * The STATE_RESTART_SYNC_ON_ACK case of ackReceived (lines 317-319): the ack in
     * STATE_RESTART_SYNC_ON_ACK calls forceSync, a sync as though the watch held no data.
     * With reported id 0 the new-data test never compares lists, so nothing can throw.
     */
    method AckRestart(now: int, prefs: Prefs)
      requires Valid() && state == RestartSyncOnAck
      modifies this`itemsToSend, this`currentIndex, this`itemLog, this`currentSyncId, this`state,
        this`transactionFlying, this`numRetries, this`lastSentDict, this`sendGeneration, this`outbox
      ensures Valid()
      ensures AckHandled(now, prefs)
    {
      var crash := BeginWatchSync(0, now, prefs);
      assert crash == None;
    }

    /** The remaining cases of ackReceived (lines 320-324, 364-373): the ack of DONE concludes the sync, the ack of NO_NEW_DATA returns to waiting, and an unexpected ack changes nothing. */
    method AckOther(now: int, prefs: Prefs)
      requires SyncValid() && !(state == InitSent || SendingItem(state) || state == RestartSyncOnAck)
      modifies this`state, this`lastSync, this`lastSuccessfulSyncId, this`itemsSuccessfullySent, this`vibrateOnNextDone
      ensures SyncValid()
      ensures AckHandled(now, prefs)
      ensures old(state) == SentDoneMsgWaitForAck ==> itemsSuccessfullySent.Some? && itemLog == Range(|itemsSuccessfullySent.value|)
    {
      match state {
        case WaitForWatchRequest =>
        case InitialPopulatingPluginData =>
        case NoNewDataMsgSent => state := WaitForWatchRequest;
        case SentDoneMsgWaitForAck => AckDone(now);
      }
    }

    /** The switch of ackReceived (lines 316-374) on the ack of the transaction in flight. */
    method AckInFlight(now: int, prefs: Prefs)
      requires Valid() && ValidPrefs(prefs, platform)
      modifies this`state, this`currentIndex, this`itemsToSend, this`currentSyncId, this`itemLog,
        this`lastSync, this`lastSuccessfulSyncId, this`itemsSuccessfullySent, this`vibrateOnNextDone,
        this`transactionFlying, this`numRetries, this`lastSentDict, this`sendGeneration, this`outbox
      ensures Valid()
      ensures AckHandled(now, prefs)
      ensures old(state) == SentDoneMsgWaitForAck ==>
                itemsSuccessfullySent.Some? && old(itemLog) == Range(|itemsSuccessfullySent.value|)
    {
      if state == InitSent || SendingItem(state) {
        AckSending(now, prefs);
        assert StoreOk() && NoticesOk();
      } else if state == RestartSyncOnAck {
        AckRestart(now, prefs);
      } else {
        AckOther(now, prefs);
        assert StoreOk() && NoticesOk();
      }
    }

    /**
     * ackReceived (lines 310-375): an ack for any transaction but the one in flight is
     * ignored; otherwise the state machine advances. A sync is recorded as successful
     * only after each index of its list went out once, in order.
     */
    method AckReceived(transactionId: int, now: int, prefs: Prefs)
      requires Valid() && ValidPrefs(prefs, platform)
      modifies this`state, this`currentIndex, this`itemsToSend, this`currentSyncId, this`itemLog,
        this`lastSync, this`lastSuccessfulSyncId, this`itemsSuccessfullySent, this`vibrateOnNextDone,
        this`transactionFlying, this`numRetries, this`lastSentDict, this`sendGeneration, this`outbox
      ensures Valid()
      ensures transactionId != old(transactionFlying) ==> unchanged(this)
      ensures transactionId == old(transactionFlying) ==> AckHandled(now, prefs)
      ensures transactionId == old(transactionFlying) && old(state) == SentDoneMsgWaitForAck ==>
                itemsSuccessfullySent.Some? && old(itemLog) == Range(|itemsSuccessfullySent.value|)
    {
      if transactionId != transactionFlying {
        return;
      }
      AckInFlight(now, prefs);
    }

    /**
     * nackReceived (lines 425-441): a nack for the transaction in flight captures the
     * dictionary last sent for a resend three seconds later; any other nack is ignored.
     */
    method NackReceived(transactionId: int) returns (resend: Option<ResendCapture>)
      ensures resend.Some? <==> transactionId == transactionFlying
      ensures resend.Some? ==> resend.value == ResendCapture(sendGeneration, lastSentDict)
    {
      if transactionId == transactionFlying {
        return Some(ResendCapture(sendGeneration, lastSentDict));
      }
      return None;
    }

    /**
     * The delayed runnable of nackReceived (lines 431-436): the captured dictionary is
     * resent only while it is still the last one sent; when the retries are used up the
     * state machine returns to waiting for a watch request.
     */
    method ResendTimerFired(c: ResendCapture)
      requires Valid()
      modifies this`state, this`transactionFlying, this`numRetries, this`lastSentDict, this`sendGeneration, this`outbox
      ensures Valid()
      ensures c != ResendCapture(old(sendGeneration), old(lastSentDict)) ==> unchanged(this)
      ensures c == ResendCapture(old(sendGeneration), old(lastSentDict)) ==>
                && Wire() == Resend(old(Wire()))
                && state == (if numRetries <= MAX_RETRIES then old(state) else WaitForWatchRequest)
    {
      if c == ResendCapture(sendGeneration, lastSentDict) {
        var sent;
        if c.dict.Some? {
          sent := SendMessage(c.dict.value, true);
        } else {
          sent := ResendNothing();
        }
        if !sent {
          state := WaitForWatchRequest;
        }
      }
    }

    /**
     * sendMessage(null, true) (lines 712-724), run by a resend captured before the first
     * send: the transaction id and the retry counter advance as for any resend, and
     * PebbleKit is handed no dictionary.
     */
    method ResendNothing() returns (sent: bool)
      requires lastSentDict.None?
      modifies this`transactionFlying, this`numRetries
      ensures Wire() == Resend(old(Wire())) && (sent <==> numRetries <= MAX_RETRIES)
    {
      transactionFlying := (transactionFlying + 1) % 256;
      numRetries := numRetries + 1;
      sent := numRetries <= MAX_RETRIES;
    }

    /**
     * The runnable posted by startInitialPluginDataGetting (lines 222-226): the wait for
     * plugin reports ends and the watch is asked to request a sync.
     */
    method InitialWaitElapsed()
      requires Valid()
      modifies this`state, this`transactionFlying, this`numRetries, this`lastSentDict, this`sendGeneration, this`outbox
      ensures Valid()
      ensures state == WaitForWatchRequest && Wire() == FreshSend(old(Wire()), ForceRequest)
    {
      state := WaitForWatchRequest;
      var _ := SendMessage(ForceRequest, false);
    }

    /**
     * onStartCommand for a plain start of the running service (lines 272-276): the store
     * is emptied, the initial wait for plugin reports begins again, and the watch is asked
     * to request a sync.
     */
    method StartRequested()
      requires Valid()
      modifies this`pluginData, this`pluginOrder, this`state,
        this`transactionFlying, this`numRetries, this`lastSentDict, this`sendGeneration, this`outbox
      ensures Valid()
      ensures old(state) == InitialPopulatingPluginData ==> unchanged(this)
      ensures old(state) != InitialPopulatingPluginData ==>
                && pluginData == map[] && pluginOrder == [] && state == InitialPopulatingPluginData
                && Wire() == FreshSend(old(Wire()), ForceRequest)
    {
      if state == InitialPopulatingPluginData {
        return;
      }
      pluginData := map[];
      pluginOrder := [];
      state := InitialPopulatingPluginData;
      var _ := SendMessage(ForceRequest, false);
    }

    /** What the watch's request earns, once past the initial-population guard: an update notice, or a sync. */
    ghost predicate RequestAnswered(version: Option<int>, minVersion: Option<int>, reportedSyncId: Int8, before: Link, syncId: Int8,
                                    log0: seq<int>, index0: int, items0: Option<seq<AgendaItem>>,
                                    issued0: int, notices0: seq<Notification>, now: int, prefs: Prefs, crash: Option<JavaError>)
      reads this`pluginData, this`pluginOrder, this`notificationIssued, this`notifications,
        this`state, this`currentIndex, this`itemsToSend, this`currentSyncId, this`itemLog,
        this`itemsSuccessfullySent, this`lastSuccessfulSyncId,
        this`transactionFlying, this`numRetries, this`lastSentDict, this`sendGeneration, this`outbox
    {
      match UpdateNeeded(version, minVersion)
      case Some(kind) =>
        && crash == None
        && state == WaitForWatchRequest
        && Notified(issued0, notices0, kind, now)
        && itemsToSend == items0 && currentIndex == index0 && itemLog == log0
        && currentSyncId == syncId && Wire() == before
      case None =>
        && SyncBegun(before, reportedSyncId, syncId, now, prefs, crash)
        && notificationIssued == issued0 && notifications == notices0
    }

    /** The sync id after lines 395-396: 0 stands for none remembered, and adopts the id the watch reported. */
    function AdoptedSyncId(reportedSyncId: Int8): Int8
      reads this`currentSyncId
    {
      if currentSyncId == 0 then reportedSyncId else currentSyncId
    }

    /** The refusing branch of watchRequestReceived (lines 395-403): the watch's request is turned down with its update notice, and the state machine waits. */
    method RefuseRequest(version: Option<int>, minVersion: Option<int>, now: int, prefs: Prefs)
      requires SyncValid() && NoticesOk() && UpdateNeeded(version, minVersion).Some? && now >= 0
      modifies this`notificationIssued, this`notifications, this`state, this`currentSyncId
      ensures SyncValid() && NoticesOk()
      ensures RequestAnswered(version, minVersion, lastWatchReportedSyncId, old(Wire()), old(AdoptedSyncId(lastWatchReportedSyncId)),
                              old(itemLog), old(currentIndex), old(itemsToSend),
                              old(notificationIssued), old(notifications), now, prefs, None)
    {
      ghost var before := Wire();
      ghost var syncId := AdoptedSyncId(lastWatchReportedSyncId);
      if currentSyncId == 0 {
        currentSyncId := lastWatchReportedSyncId;
      }
      var kind := UpdateNeeded(version, minVersion).value;
      TriggerNotification(kind, now);
      state := WaitForWatchRequest;
      assert Wire() == before && currentSyncId == syncId;
      assert ItemsOk() && InFlightOk() && SessionOk();
    }

    /**
     * The syncing branch of watchRequestReceived (lines 395-396, 404-413): a compatible
     * watch's request begins a sync against the id it reported; a request during a sync
     * first returns the state machine to waiting.
     */
    method SyncForRequest(version: Option<int>, minVersion: Option<int>, now: int, prefs: Prefs) returns (crash: Option<JavaError>)
      requires Valid() && state != InitialPopulatingPluginData && UpdateNeeded(version, minVersion).None?
      modifies this`itemsToSend, this`currentIndex, this`itemLog, this`currentSyncId, this`state,
        this`transactionFlying, this`numRetries, this`lastSentDict, this`sendGeneration, this`outbox
      ensures crash.None? ==> Valid()
      ensures RequestAnswered(version, minVersion, lastWatchReportedSyncId, old(Wire()), old(AdoptedSyncId(lastWatchReportedSyncId)),
                              old(itemLog), old(currentIndex), old(itemsToSend),
                              old(notificationIssued), old(notifications), now, prefs, crash)
      ensures crash.Some? ==> state == WaitForWatchRequest && itemLog == old(itemLog)
    {
      PrepareSync();
      crash := BeginWatchSync(lastWatchReportedSyncId, now, prefs);
    }

    /** Lines 395-396 and 406-412: a sync id of 0 adopts the reported one, and the state machine waits for the sync to begin. */
    method PrepareSync()
      requires Valid()
      modifies this`currentSyncId, this`state
      ensures Valid()
      ensures currentSyncId == old(AdoptedSyncId(lastWatchReportedSyncId)) && state == WaitForWatchRequest
    {
      currentSyncId := AdoptedSyncId(lastWatchReportedSyncId);
      state := WaitForWatchRequest;
    }

    /**
     * watchRequestReceived (lines 387-418): the reported sync id is always remembered;
     * while plugin data is still being gathered nothing else happens. Otherwise a sync id
     * of 0 adopts the reported one, the request is answered, and the watchface version is
     * recorded (-1 when the watch sent none).
     */
    method WatchRequestReceived(version: Option<int>, minVersion: Option<int>, reportedSyncId: Int8, now: int, prefs: Prefs)
      returns (crash: Option<JavaError>)
      requires Valid() && now >= 0
      modifies this`lastWatchReportedSyncId, this`watchfaceVersion, this`notificationIssued, this`notifications,
        this`itemsToSend, this`currentIndex, this`itemLog, this`currentSyncId, this`state,
        this`transactionFlying, this`numRetries, this`lastSentDict, this`sendGeneration, this`outbox
      ensures crash.None? ==> Valid()
      ensures lastWatchReportedSyncId == reportedSyncId
      ensures old(state) == InitialPopulatingPluginData ==>
                && crash == None && state == old(state) && itemsToSend == old(itemsToSend) && currentIndex == old(currentIndex)
                && itemLog == old(itemLog) && currentSyncId == old(currentSyncId) && Wire() == old(Wire())
                && watchfaceVersion == old(watchfaceVersion)
                && notificationIssued == old(notificationIssued) && notifications == old(notifications)
      ensures old(state) != InitialPopulatingPluginData ==>
                && watchfaceVersion == VersionOf(version)
                && RequestAnswered(version, minVersion, reportedSyncId, old(Wire()),
                                   old(AdoptedSyncId(reportedSyncId)),
                                   old(itemLog), old(currentIndex), old(itemsToSend),
                                   old(notificationIssued), old(notifications), now, prefs, crash)
      ensures crash.Some? ==> state == WaitForWatchRequest && itemLog == old(itemLog)
    {
      if state == InitialPopulatingPluginData {
        lastWatchReportedSyncId := reportedSyncId;
        return None;
      }
      crash := AnswerRequest(version, minVersion, reportedSyncId, now, prefs);
    }

    /**
     * watchRequestReceived past the initial-population guard (lines 389, 395-416): the
     * request is answered with an update notice or a sync, and the version is recorded.
     */
    method AnswerRequest(version: Option<int>, minVersion: Option<int>, reportedSyncId: Int8, now: int, prefs: Prefs) returns (crash: Option<JavaError>)
      requires Valid() && state != InitialPopulatingPluginData && now >= 0
      modifies this`lastWatchReportedSyncId, this`watchfaceVersion, this`notificationIssued, this`notifications,
        this`itemsToSend, this`currentIndex, this`itemLog, this`currentSyncId, this`state,
        this`transactionFlying, this`numRetries, this`lastSentDict, this`sendGeneration, this`outbox
      ensures crash.None? ==> Valid()
      ensures lastWatchReportedSyncId == reportedSyncId
      ensures watchfaceVersion == VersionOf(version)
      ensures RequestAnswered(version, minVersion, reportedSyncId, old(Wire()), old(AdoptedSyncId(reportedSyncId)),
                              old(itemLog), old(currentIndex), old(itemsToSend),
                              old(notificationIssued), old(notifications), now, prefs, crash)
      ensures crash.Some? ==> state == WaitForWatchRequest && itemLog == old(itemLog)
    {
      lastWatchReportedSyncId := reportedSyncId;
      // recorded at line 416, after the answer; no step of the answer reads it
      watchfaceVersion := VersionOf(version);
      crash := Respond(version, minVersion, reportedSyncId, now, prefs);
    }

    /** The answer to a request past the initial-population guard (lines 395-413): an update notice, or a sync. */
    method Respond(version: Option<int>, minVersion: Option<int>, reportedSyncId: Int8, now: int, prefs: Prefs) returns (crash: Option<JavaError>)
      requires Valid() && state != InitialPopulatingPluginData && now >= 0 && lastWatchReportedSyncId == reportedSyncId
      modifies this`notificationIssued, this`notifications,
        this`itemsToSend, this`currentIndex, this`itemLog, this`currentSyncId, this`state,
        this`transactionFlying, this`numRetries, this`lastSentDict, this`sendGeneration, this`outbox
      ensures crash.None? ==> Valid()
      ensures RequestAnswered(version, minVersion, reportedSyncId, old(Wire()), old(AdoptedSyncId(reportedSyncId)),
                              old(itemLog), old(currentIndex), old(itemsToSend),
                              old(notificationIssued), old(notifications), now, prefs, crash)
      ensures crash.Some? ==> state == WaitForWatchRequest && itemLog == old(itemLog)
    {
      if UpdateNeeded(version, minVersion).Some? {
        RefuseRequest(version, minVersion, now, prefs);
        crash := None;
      } else {
        crash := SyncForRequest(version, minVersion, now, prefs);
      }
    }

    /** The storing step of handleReceivedPluginData (lines 298-301): the plugin's vibration wish is remembered and its list replaces any earlier one. */
    method StoreReport(id: string, items: seq<AgendaItem>, vibrate: bool)
      requires StoreOk() && HaveIds(items)
      modifies this`pluginData, this`pluginOrder, this`vibrateOnNextDone
      ensures StoreOk()
      ensures pluginData == old(pluginData)[id := items] && pluginOrder == PutOrder(old(pluginData), old(pluginOrder), id)
      ensures vibrateOnNextDone == (old(vibrateOnNextDone) || vibrate)
    {
      if vibrate {
        vibrateOnNextDone := true;
      }
      StorePut(pluginData, pluginOrder, id, items);
      pluginOrder := PutOrder(pluginData, pluginOrder, id);
      pluginData := pluginData[id := items];
    }

    /** The accepting branch of handleReceivedPluginData (lines 298-302): a changed report is stored and a sync begins against the id the watch last reported. */
    method AcceptReport(id: string, items: seq<AgendaItem>, vibrate: bool, now: int, prefs: Prefs) returns (crash: Option<JavaError>)
      requires Valid() && HaveIds(items)
      modifies this`pluginData, this`pluginOrder, this`vibrateOnNextDone,
        this`itemsToSend, this`currentIndex, this`itemLog, this`currentSyncId, this`state,
        this`transactionFlying, this`numRetries, this`lastSentDict, this`sendGeneration, this`outbox
      ensures crash.None? ==> Valid()
      ensures pluginData == old(pluginData)[id := items]
      ensures pluginOrder == PutOrder(old(pluginData), old(pluginOrder), id)
      ensures vibrateOnNextDone == (old(vibrateOnNextDone) || vibrate)
      ensures old(state) == InitialPopulatingPluginData ==>
                && crash == None && state == old(state) && itemsToSend == old(itemsToSend) && currentIndex == old(currentIndex)
                && itemLog == old(itemLog) && currentSyncId == old(currentSyncId) && Wire() == old(Wire())
      ensures old(state) != InitialPopulatingPluginData ==>
                SyncBegun(old(Wire()), old(lastWatchReportedSyncId), old(currentSyncId), now, prefs, crash)
      ensures CrashKept(crash)
    {
      ghost var before := Wire();
      StoreReport(id, items, vibrate);
      assert Wire() == before;
      crash := BeginWatchSync(lastWatchReportedSyncId, now, prefs);
    }

    /**
     * handleReceivedPluginData (lines 282-303): a report without a plugin id or without a
     * list, or one equal to the list stored for the plugin, changes nothing; a comparison
     * with the stored list that throws lets the exception escape with nothing changed;
     * otherwise the plugin's vibration wish is remembered, its list is stored, and a sync
     * begins against the id the watch last reported.
     */
    method HandleReceivedPluginData(items: Option<seq<AgendaItem>>, pluginId: Option<string>, vibrate: bool, now: int, prefs: Prefs)
      returns (crash: Option<JavaError>)
      requires Valid()
      requires items.Some? ==> HaveIds(items.value)
      modifies this`pluginData, this`pluginOrder, this`vibrateOnNextDone,
        this`itemsToSend, this`currentIndex, this`itemLog, this`currentSyncId, this`state,
        this`transactionFlying, this`numRetries, this`lastSentDict, this`sendGeneration, this`outbox
      ensures crash.None? ==> Valid()
      ensures ReportIgnored(items, pluginId, old(pluginData)) ==> unchanged(this) && crash == None
      ensures ReportClashes(items, pluginId, old(pluginData)) ==> unchanged(this) && crash == Some(NullPointer)
      ensures !ReportIgnored(items, pluginId, old(pluginData)) && !ReportClashes(items, pluginId, old(pluginData)) ==>
                && pluginData == old(pluginData)[pluginId.value := items.value]
                && pluginOrder == PutOrder(old(pluginData), old(pluginOrder), pluginId.value)
                && vibrateOnNextDone == (old(vibrateOnNextDone) || vibrate)
                && CrashKept(crash)
                && (old(state) == InitialPopulatingPluginData ==>
                      && crash == None && state == old(state) && itemsToSend == old(itemsToSend) && currentIndex == old(currentIndex)
                      && itemLog == old(itemLog) && currentSyncId == old(currentSyncId) && Wire() == old(Wire()))
                && (old(state) != InitialPopulatingPluginData ==>
                      SyncBegun(old(Wire()), old(lastWatchReportedSyncId), old(currentSyncId), now, prefs, crash))
    {
      if pluginId.None? || items.None? {
        return None;
      }
      var id := pluginId.value;
      if id in pluginData {
        var same := ListEquals(items.value, pluginData[id]);
        ListEqualsIsEquality(items.value, pluginData[id]);
        ListEqualsThrows(items.value, pluginData[id]);
        if same.Throws? {
          return Some(same.error);
        }
        if same.value {
          return None;
        }
      }
      crash := AcceptReport(id, items.value, vibrate, now, prefs);
    }
  }

  /** Line 416: the watchface version a request records, -1 when the watch sent none. */
  function VersionOf(version: Option<int>): Int32
  {
    if version.None? then -1 else Wrap32(version.value)
  }

  /** The update notice a watch request earns (lines 398-403), or None when the versions are compatible. */
  function UpdateNeeded(version: Option<int>, minVersion: Option<int>): (r: Option<Notice>)
    ensures r == None <==>
              && minVersion.Some? && minVersion.value <= CURRENT_WATCHAPP_VERSION_BUNDLED
              && version.Some? && version.value >= CURRENT_WATCHAPP_VERSION_MINIMUM as int
    ensures r == Some(AndroidAppUpdateNotice) <==> minVersion.None? || minVersion.value > CURRENT_WATCHAPP_VERSION_BUNDLED
  {
    if minVersion.None? || minVersion.value > CURRENT_WATCHAPP_VERSION_BUNDLED then Some(AndroidAppUpdateNotice)
    else if version.None? || version.value < CURRENT_WATCHAPP_VERSION_MINIMUM as int then Some(WatchappUpdateNotice)
    else None
  }

  /** A plugin report that handleReceivedPluginData drops: no id, no list, or the list already stored for the plugin. */
  predicate ReportIgnored(items: Option<seq<AgendaItem>>, pluginId: Option<string>, data: map<string, seq<AgendaItem>>)
  {
    pluginId.None? || items.None? || (pluginId.value in data && data[pluginId.value] == items.value)
  }

  /** A plugin report whose comparison with the list stored for the plugin throws (line 294). */
  predicate ReportClashes(items: Option<seq<AgendaItem>>, pluginId: Option<string>, data: map<string, seq<AgendaItem>>)
  {
    pluginId.Some? && items.Some? && pluginId.value in data && ListEquals(items.value, data[pluginId.value]).Throws?
  }
}
