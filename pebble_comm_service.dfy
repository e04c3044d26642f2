/**
 * The legacy sync service (PebbleCommService): a watchapp of version 2 asks for data,
 * the service reads at most ten calendar events and sends them one message at a time,
 * each only after the watch acked the previous one: INIT with the count, then per event
 * a first half (title, location, all-day flag) and a second half (start and end), then
 * DONE. A nack abandons the sync. PebbleKit's send call appends to `outbox`; the update
 * notification appends its time to `notifications`.
 */
module PebbleComm {
  import opened JavaLang
  import opened AgendaItems
  import opened CalendarEvents
  import opened CalendarReader
  import opened WatchfaceSync

  /** The watchapp version this service speaks to. */
  const CURRENT_WATCHAPP_VERSION_BUNDLED: Int8 := 2
  /** The watch stores this many events. */
  const MAX_NUM_EVENTS_TO_SEND: int := 10
  /** Titles and locations are cut to this many characters. */
  const MAX_TEXT_LENGTH: nat := 30
  const NO_TITLE: string := "(no title)"

  /** The STATE_* constants, 0 to 4. */
  datatype LegacyState =
    | WaitForWatchRequest
    | InitSent
    | SentEventWaitForAck
    | SentEventTimeWaitForAck
    | SentDoneMsgWaitForAck

  /**
   * The dictionaries sent, by PEBBLE_COMMAND: INIT_DATA (0) with the event count and the
   * expected version, CAL_EVENT (1), CAL_EVENT_TIME (3) and DONE (2).
   */
  datatype LegacyMessage =
    | InitData(numEvents: Int8, version: Int8)
    | CalEvent(title: string, location: string, allDay: Int8)
    | CalEventTime(startTime: Int32, endTime: Int32)
    | Done

  /** A title as sent: "(no title)" for null, the first 30 characters of a longer one. */
  function ShortTitle(title: Option<string>): string
  {
    match title
    case None => NO_TITLE
    case Some(s) => if |s| > MAX_TEXT_LENGTH then Prefix(s, MAX_TEXT_LENGTH) else s
  }

  /** A location as sent: empty for null, the first 30 characters of a longer one. */
  function ShortLocation(location: Option<string>): string
  {
    match location
    case None => ""
    case Some(s) => if |s| > MAX_TEXT_LENGTH then Prefix(s, MAX_TEXT_LENGTH) else s
  }

  /** sendFirstEventHalf's dictionary. */
  function FirstHalf(e: CalendarEvent): LegacyMessage
  {
    CalEvent(ShortTitle(e.title), ShortLocation(e.location), if e.allDay then 1 else 0)
  }

  /**
   * The time format of sendSecondEventHalf: the fields of the instant in the device's
   * default zone, whatever the event's kind, packed in int arithmetic.
   */
  function LegacyTimeFormat(time: int, p: Platform): Int32
  {
    Wrap32(Pack(p.fieldsOf(time, None)))
  }

  /** sendSecondEventHalf's dictionary. */
  function SecondHalf(e: CalendarEvent, p: Platform): LegacyMessage
  {
    CalEventTime(LegacyTimeFormat(e.startTime, p), LegacyTimeFormat(e.endTime, p))
  }

  /** sendInitDataMsg's dictionary for a list of events. */
  function InitFor(events: seq<CalendarEvent>): LegacyMessage
  {
    InitData(ToByte(if |events| < MAX_NUM_EVENTS_TO_SEND then |events| else MAX_NUM_EVENTS_TO_SEND), CURRENT_WATCHAPP_VERSION_BUNDLED)
  }

  /** The two halves of each event, event after event. */
  function EventsMessages(events: seq<CalendarEvent>, p: Platform): seq<LegacyMessage>
  {
    if events == [] then []
    else
      var last := events[|events| - 1];
      EventsMessages(events[..|events| - 1], p) + [FirstHalf(last), SecondHalf(last, p)]
  }

  /** The messages of a sync of events once the first k events were sent whole. */
  function Sync(events: seq<CalendarEvent>, k: nat, p: Platform): seq<LegacyMessage>
    requires k <= |events|
  {
    [InitFor(events)] + EventsMessages(events[..k], p)
  }

  /**
   * The messages sent since the sync began, as the state says: INIT alone, then the
   * events before currentIndex whole followed by the first half of the current one or
   * by both its halves, then every event and DONE.
   */
  predicate SessionValid(state: LegacyState, currentIndex: int, events: Option<seq<CalendarEvent>>, sent: seq<LegacyMessage>, p: Platform)
  {
    match state
    case WaitForWatchRequest => true
    case InitSent => events.Some? && currentIndex == -1 && sent == Sync(events.value, 0, p)
    case SentEventWaitForAck =>
      && events.Some? && 0 <= currentIndex < |events.value|
      && sent == Sync(events.value, currentIndex, p) + [FirstHalf(events.value[currentIndex])]
    case SentEventTimeWaitForAck =>
      && events.Some? && 0 <= currentIndex < |events.value|
      && sent == Sync(events.value, currentIndex + 1, p)
    case SentDoneMsgWaitForAck =>
      && events.Some?
      && sent == Sync(events.value, |events.value|, p) + [Done]
  }

  lemma EventsMessagesSnoc(events: seq<CalendarEvent>, k: nat, p: Platform)
    requires k < |events|
    ensures EventsMessages(events[..k + 1], p) == EventsMessages(events[..k], p) + [FirstHalf(events[k]), SecondHalf(events[k], p)]
  {
    assert events[..k + 1][..k] == events[..k];
  }

  /**
   * Message 2k of the events' messages is the first half of event k and message 2k+1 its
   * second half: the watch can read the events back in order, two messages each.
   */
  lemma {:induction false} EventsMessagesIndex(events: seq<CalendarEvent>, p: Platform)
    ensures |EventsMessages(events, p)| == 2 * |events|
    ensures forall k :: 0 <= k < |events| ==>
              EventsMessages(events, p)[2 * k] == FirstHalf(events[k]) && EventsMessages(events, p)[2 * k + 1] == SecondHalf(events[k], p)
    decreases |events|
  {
    if events != [] {
      var init := events[..|events| - 1];
      EventsMessagesIndex(init, p);
      forall k | 0 <= k < |events| - 1
        ensures EventsMessages(events, p)[2 * k] == FirstHalf(events[k]) && EventsMessages(events, p)[2 * k + 1] == SecondHalf(events[k], p)
      {
        assert events[k] == init[k];
      }
    }
  }

  /**
   * What the watch gets for a text: at most 30 characters, a prefix of the text, the text
   * itself when it fits; a null title becomes "(no title)" and a null location "".
   */
  lemma FirstHalfTexts(e: CalendarEvent)
    ensures var m := FirstHalf(e);
            && |m.title| <= MAX_TEXT_LENGTH && |m.location| <= MAX_TEXT_LENGTH
            && (e.title.None? ==> m.title == NO_TITLE)
            && (e.title.Some? ==> m.title <= e.title.value && (|e.title.value| <= MAX_TEXT_LENGTH <==> m.title == e.title.value))
            && (e.location.None? ==> m.location == "")
            && (e.location.Some? ==> m.location <= e.location.value && (|e.location.value| <= MAX_TEXT_LENGTH <==> m.location == e.location.value))
            && (m.allDay == 1 <==> e.allDay) && (m.allDay == 0 <==> !e.allDay)
  {
  }

  /**
   * A timed event is sent with the encoded times compareTo orders by; an all-day event is
   * sent in the default zone, while compareTo reads its times in UTC.
   */
  lemma SecondHalfTimes(e: CalendarEvent, p: Platform)
    ensures !e.allDay ==> SecondHalf(e, p) == CalEventTime(EventStart(e, p), EventEnd(e, p))
    ensures e.allDay ==> SecondHalf(e, p) == CalEventTime(EventTimeFormat(e.startTime, false, p), EventTimeFormat(e.endTime, false, p))
  {
  }

  /**
   * A completed sync of at most ten events: INIT announces exactly their number, messages
   * 2k+1 and 2k+2 are the two halves of event k, and DONE comes last.
   */
  lemma CompletedSync(events: seq<CalendarEvent>, p: Platform)
    requires |events| <= MAX_NUM_EVENTS_TO_SEND
    ensures var sent := Sync(events, |events|, p) + [Done];
            && |sent| == 2 * |events| + 2
            && sent[0] == InitData(|events|, CURRENT_WATCHAPP_VERSION_BUNDLED)
            && (forall k :: 0 <= k < |events| ==> sent[2 * k + 1] == FirstHalf(events[k]) && sent[2 * k + 2] == SecondHalf(events[k], p))
            && sent[|sent| - 1] == Done
  {
    assert events[..|events|] == events;
    EventsMessagesIndex(events, p);
  }

  /** For a valid date in the years 1900..2453 the watch reads back each field of the start in the default zone. */
  lemma SecondHalfRecoverable(e: CalendarEvent, p: Platform)
    requires ValidFields(p.fieldsOf(e.startTime, None)) && InWireYears(p.fieldsOf(e.startTime, None))
    ensures var f := p.fieldsOf(e.startTime, None);
            && SecondHalf(e, p).startTime >= 0
            && Unpack(SecondHalf(e, p).startTime) == Unpacked(f.minute, f.hour, Weekday(f), f.dayOfMonth, f.month, f.year)
  {
    var f := p.fieldsOf(e.startTime, None);
    PackFitsInt(f);
    PackRecoverable(f);
  }

  class PebbleCommService {
    const platform: Platform

    var state: LegacyState
    var currentIndex: int
    var eventsToSend: Option<seq<CalendarEvent>>
    var notificationIssued: int
    var outbox: seq<LegacyMessage>
    var notifications: seq<int>
    /** Where in `outbox` the INIT of the current sync stands. */
    ghost var sessionStart: nat

    ghost predicate SessionOk()
      reads this`state, this`currentIndex, this`eventsToSend, this`outbox, this`sessionStart
    {
      && sessionStart <= |outbox|
      && SessionValid(state, currentIndex, eventsToSend, outbox[sessionStart..], platform)
    }

    /** At most one update notification per hour, and notificationIssued stamps the last. */
    ghost predicate NoticesOk()
      reads this`notificationIssued, this`notifications
    {
      NoticeLogSpaced(notificationIssued, notifications)
    }

    ghost predicate Valid()
      reads this`state, this`currentIndex, this`eventsToSend, this`outbox, this`sessionStart,
        this`notificationIssued, this`notifications
    {
      && (eventsToSend.Some? ==> |eventsToSend.value| <= MAX_NUM_EVENTS_TO_SEND)
      && SessionOk() && NoticesOk()
    }

    /** The field initialisers of PebbleCommService (lines 63-71): no sync under way, no events, no notification yet, nothing sent. */
    constructor(platform: Platform)
      ensures Valid()
      ensures this.platform == platform
      ensures state == WaitForWatchRequest && currentIndex == -1 && eventsToSend == None
      ensures notificationIssued == -1 && outbox == [] && notifications == []
    {
      this.platform := platform;
      state := WaitForWatchRequest;
      currentIndex := -1;
      eventsToSend := None;
      notificationIssued := -1;
      outbox := [];
      notifications := [];
      sessionStart := 0;
    }

    /**
     * beginSendingData (lines 234-243): the first ten events the calendar holds now become
     * the list to send, and INIT with their count starts a new sync.
     */
    method BeginSendingData(rows: seq<Row>, now: int, prefs: RowPrefs)
      requires Valid()
      modifies this`eventsToSend, this`currentIndex, this`state, this`outbox, this`sessionStart
      ensures Valid()
      ensures eventsToSend == Some(ReadEvents(rows, MAX_NUM_EVENTS_TO_SEND, now, prefs))
      ensures currentIndex == -1 && state == InitSent
      ensures outbox == old(outbox) + [InitFor(eventsToSend.value)]
      ensures sessionStart == |old(outbox)|
    {
      var events := GetEvents(rows, MAX_NUM_EVENTS_TO_SEND, now, prefs);
      ReadEventsProperties(rows, MAX_NUM_EVENTS_TO_SEND, now, prefs);
      eventsToSend := Some(events);
      currentIndex := -1;
      sessionStart := |outbox|;
      SendInitDataMsg(if |events| < MAX_NUM_EVENTS_TO_SEND then |events| else MAX_NUM_EVENTS_TO_SEND);
      state := InitSent;
      assert outbox[sessionStart..] == Sync(events, 0, platform);
    }

    /** sendInitDataMsg (lines 249-256): the count goes out as a byte; the settings fields are not part of this model. */
    method SendInitDataMsg(numberOfEvents: int)
      modifies this`outbox
      ensures outbox == old(outbox) + [InitData(ToByte(numberOfEvents), CURRENT_WATCHAPP_VERSION_BUNDLED)]
    {
      outbox := outbox + [InitData(ToByte(numberOfEvents), CURRENT_WATCHAPP_VERSION_BUNDLED)];
    }

    /**
     * ackReceived (lines 136-174): the ack of INIT starts the first event (or ends an
     * empty sync), the ack of a first half sends the second, the ack of a second half
     * sends the next event or DONE, and the ack of DONE ends the sync; an ack while
     * waiting is ignored. A completed sync delivered INIT with the count, both halves of
     * every event in order, and DONE.
     */
    method AckReceived()
      requires Valid()
      modifies this`currentIndex, this`state, this`outbox
      ensures Valid()
      ensures eventsToSend == old(eventsToSend) && sessionStart == old(sessionStart)
      ensures old(state) == WaitForWatchRequest ==> state == WaitForWatchRequest && outbox == old(outbox) && currentIndex == old(currentIndex)
      ensures old(state) == InitSent ==>
                && currentIndex == 0
                && if |eventsToSend.value| == 0
                   then state == WaitForWatchRequest && outbox == old(outbox)
                   else state == SentEventWaitForAck && outbox == old(outbox) + [FirstHalf(eventsToSend.value[0])]
      ensures old(state) == SentEventWaitForAck ==>
                && state == SentEventTimeWaitForAck && currentIndex == old(currentIndex)
                && outbox == old(outbox) + [SecondHalf(eventsToSend.value[currentIndex], platform)]
      ensures old(state) == SentEventTimeWaitForAck ==>
                && currentIndex == old(currentIndex) + 1
                && if currentIndex < |eventsToSend.value|
                   then state == SentEventWaitForAck && outbox == old(outbox) + [FirstHalf(eventsToSend.value[currentIndex])]
                   else state == SentDoneMsgWaitForAck && outbox == old(outbox) + [Done]
      ensures old(state) == SentDoneMsgWaitForAck ==>
                && state == WaitForWatchRequest && outbox == old(outbox) && currentIndex == old(currentIndex)
                && outbox[sessionStart..] == [InitFor(eventsToSend.value)] + EventsMessages(eventsToSend.value, platform) + [Done]
    {
      match state {
        case WaitForWatchRequest =>
        case InitSent => AckInitSent();
        case SentEventWaitForAck => AckFirstHalf();
        case SentEventTimeWaitForAck => AckSecondHalf();
        case SentDoneMsgWaitForAck =>
          assert eventsToSend.value[..|eventsToSend.value|] == eventsToSend.value;
          state := WaitForWatchRequest;
      }
    }

    /** The INIT_SENT case of ackReceived (lines 141-151): sending starts at index 0 with the first event's first half, or the service waits when there are no events. */
    method AckInitSent()
      requires Valid() && state == InitSent
      modifies this`currentIndex, this`state, this`outbox
      ensures Valid()
      ensures currentIndex == 0
      ensures |eventsToSend.value| == 0 ==> state == WaitForWatchRequest && outbox == old(outbox)
      ensures |eventsToSend.value| > 0 ==> state == SentEventWaitForAck && outbox == old(outbox) + [FirstHalf(eventsToSend.value[0])]
    {
      currentIndex := 0;
      var events := eventsToSend.value;
      if |events| == 0 {
        state := WaitForWatchRequest;
        return;
      }
      SendFirstEventHalf(events[currentIndex]);
      state := SentEventWaitForAck;
      assert outbox[sessionStart..] == old(outbox[sessionStart..]) + [FirstHalf(events[0])];
    }

    /** The SENT_EVENT case of ackReceived (lines 153-156): the second half of the same event goes out. */
    method AckFirstHalf()
      requires Valid() && state == SentEventWaitForAck
      modifies this`state, this`outbox
      ensures Valid()
      ensures state == SentEventTimeWaitForAck
      ensures outbox == old(outbox) + [SecondHalf(eventsToSend.value[currentIndex], platform)]
    {
      var events := eventsToSend.value;
      SendSecondEventHalf(events[currentIndex]);
      state := SentEventTimeWaitForAck;
      EventsMessagesSnoc(events, currentIndex, platform);
      assert outbox[sessionStart..] == old(outbox[sessionStart..]) + [SecondHalf(events[currentIndex], platform)];
    }

    /**
     * The SENT_EVENT_TIME case of ackReceived (lines 158-167): the index advances, then the
     * next event's first half or DONE goes out. The bound of ten events is redundant, the
     * list never holds more.
     */
    method AckSecondHalf()
      requires Valid() && state == SentEventTimeWaitForAck
      modifies this`currentIndex, this`state, this`outbox
      ensures Valid()
      ensures currentIndex == old(currentIndex) + 1
      ensures currentIndex < |eventsToSend.value| ==>
                state == SentEventWaitForAck && outbox == old(outbox) + [FirstHalf(eventsToSend.value[currentIndex])]
      ensures currentIndex >= |eventsToSend.value| ==> state == SentDoneMsgWaitForAck && outbox == old(outbox) + [Done]
    {
      var events := eventsToSend.value;
      currentIndex := currentIndex + 1;
      if currentIndex < |events| && currentIndex < MAX_NUM_EVENTS_TO_SEND {
        SendFirstEventHalf(events[currentIndex]);
        state := SentEventWaitForAck;
        assert outbox[sessionStart..] == old(outbox[sessionStart..]) + [FirstHalf(events[currentIndex])];
      } else {
        SendDoneMessage();
        state := SentDoneMsgWaitForAck;
        assert events[..currentIndex] == events;
        assert outbox[sessionStart..] == old(outbox[sessionStart..]) + [Done];
      }
    }

    method SendFirstEventHalf(e: CalendarEvent)
      modifies this`outbox
      ensures outbox == old(outbox) + [FirstHalf(e)]
    {
      var title := if e.title.None? then NO_TITLE else if |e.title.value| > MAX_TEXT_LENGTH then Prefix(e.title.value, MAX_TEXT_LENGTH) else e.title.value;
      var location := if e.location.None? then "" else if |e.location.value| > MAX_TEXT_LENGTH then Prefix(e.location.value, MAX_TEXT_LENGTH) else e.location.value;
      outbox := outbox + [CalEvent(title, location, if e.allDay then 1 else 0)];
    }

    method SendSecondEventHalf(e: CalendarEvent)
      modifies this`outbox
      ensures outbox == old(outbox) + [SecondHalf(e, platform)]
    {
      outbox := outbox + [CalEventTime(LegacyTimeFormat(e.startTime, platform), LegacyTimeFormat(e.endTime, platform))];
    }

    method SendDoneMessage()
      modifies this`outbox
      ensures outbox == old(outbox) + [Done]
    {
      outbox := outbox + [Done];
    }

    /**
     * requestReceived (lines 181-190): a missing version or one other than 2 raises the
     * update notification (at most hourly) and abandons any sync; version 2 starts a new
     * sync, even in the middle of one.
     */
    method RequestReceived(version: Option<int>, now: int, rows: seq<Row>, prefs: RowPrefs)
      requires Valid() && now >= 0
      modifies this`eventsToSend, this`currentIndex, this`state, this`outbox, this`sessionStart,
        this`notificationIssued, this`notifications
      ensures Valid()
      ensures version != Some(CURRENT_WATCHAPP_VERSION_BUNDLED as int) ==>
                && state == WaitForWatchRequest && Notified(old(notificationIssued), old(notifications), now)
                && outbox == old(outbox) && eventsToSend == old(eventsToSend) && currentIndex == old(currentIndex)
      ensures version == Some(CURRENT_WATCHAPP_VERSION_BUNDLED as int) ==>
                && notificationIssued == old(notificationIssued) && notifications == old(notifications)
                && eventsToSend == Some(ReadEvents(rows, MAX_NUM_EVENTS_TO_SEND, now, prefs))
                && currentIndex == -1 && state == InitSent
                && outbox == old(outbox) + [InitFor(eventsToSend.value)]
    {
      if version.None? || version.value != CURRENT_WATCHAPP_VERSION_BUNDLED as int {
        TriggerUpdateNotification(now);
        state := WaitForWatchRequest;
        return;
      }
      BeginSendingData(rows, now, prefs);
    }

    /** nackReceived (lines 195-198): the sync is abandoned; the watch asks again later. */
    method NackReceived()
      requires Valid()
      modifies this`state
      ensures Valid()
      ensures state == WaitForWatchRequest
    {
      state := WaitForWatchRequest;
    }

    /**
     * onStartCommand (lines 122-131): the guard reads `(intent != null && waiting) ||
     * INIT sent`, so a restart with no intent still restarts a sync whose INIT is unacked.
     */
    method StartCommand(intentPresent: bool, now: int, rows: seq<Row>, prefs: RowPrefs)
      requires Valid()
      modifies this`eventsToSend, this`currentIndex, this`state, this`outbox, this`sessionStart
      ensures Valid()
      ensures (intentPresent && old(state) == WaitForWatchRequest) || old(state) == InitSent ==>
                && eventsToSend == Some(ReadEvents(rows, MAX_NUM_EVENTS_TO_SEND, now, prefs))
                && currentIndex == -1 && state == InitSent
                && outbox == old(outbox) + [InitFor(eventsToSend.value)]
      ensures !((intentPresent && old(state) == WaitForWatchRequest) || old(state) == InitSent) ==>
                state == old(state) && outbox == old(outbox) && eventsToSend == old(eventsToSend) && currentIndex == old(currentIndex)
    {
      if (intentPresent && state == WaitForWatchRequest) || state == InitSent {
        BeginSendingData(rows, now, prefs);
      }
    }

    /** After the notification guard: a notification went out at now, unless one went out less than an hour before issued0. */
    predicate Notified(issued0: int, notices0: seq<int>, now: int)
      reads this`notificationIssued, this`notifications
    {
      if NotificationSuppressed(issued0, now)
      then notificationIssued == issued0 && notifications == notices0
      else notificationIssued == now && notifications == notices0 + [now]
    }

    /** triggerUpdateNotification (lines 308-323): the notification goes out and is stamped, unless one went out less than an hour ago. */
    method TriggerUpdateNotification(now: int)
      requires NoticesOk() && now >= 0
      modifies this`notificationIssued, this`notifications
      ensures NoticesOk()
      ensures Notified(old(notificationIssued), old(notifications), now)
    {
      NotificationsSpaced(notificationIssued, notifications, now);
      if notificationIssued != -1 && now - notificationIssued < NOTIFICATION_INTERVAL {
        return;
      }
      notificationIssued := now;
      notifications := notifications + [now];
    }
  }
}
