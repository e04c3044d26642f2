# AgendaWatchface phone side, modelled in Dafny

AgendaWatchface shows an agenda on a Pebble watch. On the phone:

- Plugins publish lists of `AgendaItem`s. The bundled calendar plugin is one of them.
- `AgendaWatchfaceService` keeps the latest list of every plugin.
- When the watch asks for data, the service syncs it. It drops expired items, sorts the rest by
  `AgendaItem.compareTo`, trims them to the configured count, and sends them one dictionary at a
  time. Each dictionary waits for the watch's ack.
- A sync opens with INIT (item count, sync id, minimum watchapp version, settings flags). Each item
  follows as one message, or as two halves when its texts are too long. DONE closes the sync.
- When the watch already holds the same list under the sync id it reports, NO_NEW_DATA replaces
  the whole sync.
- Nacks are resent at most twice.
- The older `PebbleCommService` runs a simpler protocol. It reads at most ten calendar events
  through `CalendarReader`, then sends INIT, two halves per event, and DONE.

The project has one module per concern:

| file | module | what it holds |
|---|---|---|
| `java_lang.dfy` | `JavaLang` | Java `int` and `byte` wrap-around, `%`, `String.compareTo`, null as `Option`, exceptions as `Result` |
| `agenda_item.dfy` | `AgendaItems` | `AgendaItem` and `Line`, the wire time format, `compareTo`, `equals`, the `Bundle` encoding |
| `item_sort.dfy` | `ItemSort` | `Collections.sort` as a stable insertion sort by `compareTo`, and the trim |
| `calendar_event.dfy` | `CalendarEvents` | the legacy `CalendarEvent`, its time format and ordering |
| `calendar_reader.dfy` | `CalendarReader` | `CalendarReader.getEvents`, a loop over the cursor rows |
| `agenda_calendar_service.dfy` | `AgendaCalendar` | the calendar plugin's `getEvents`: rows become laid-out items, which are sorted and trimmed |
| `watchface_codec.dfy` | `WatchfaceCodec` | the dictionaries sent to the watch, string truncation, the one-message test, the design byte, the settings flags, and decoding of the watch's request |
| `watchface_sync.dfy` | `WatchfaceSync` | the list to sync, the new-data test, the next sync id, the notification rate limit |
| `watchface_service.dfy` | `WatchfaceService` | the class `AgendaWatchfaceService`: its fields and one method per event it reacts to |
| `pebble_comm_service.dfy` | `PebbleComm` | the class `PebbleCommService`: the legacy state machine |

Both services are classes whose methods update their fields in place.

- Each PebbleKit send appends to an `outbox` field.
- Each update notification appends to a `notifications` field.
- Clock readings are parameters (`now`).
- Preferences are parameters (`Prefs`, `RowPrefs`, `LayoutPrefs`).
- Calendar queries are a sequence of `Row`s.
- java.util.Calendar, TimeZone and String.getBytes are a `Platform` value that the
  functions take as a parameter.

Each service carries a ghost invariant (`Valid`) that ties the message awaiting its ack to the
state and to the list being synced. Every method preserves it unless an exception escapes. For the main service it says that
a sync is only recorded as successful after every index of the list went out once, in order. For
the legacy service it says that the messages since INIT are exactly the prefix of the transcript
that the state names.

`AgendaItem.equals` throws a NullPointerException when every field but the zone agrees and only
this item has a zone (line 331 calls `getID()` on the other's null zone). `List.equals` passes it on.
Both comparisons of item lists can therefore throw: the new-data test in `beginWatchSync` and the
unchanged-report test in `handleReceivedPluginData`. The model's `equals` returns a `Result`, and
the handlers that reach a comparison return the exception that escapes as `crash`. The only sync
an ack starts is `forceSync`, which passes reported id 0 and so skips the comparison: acks never
throw.

## Model

| member | source | states |
|---|---|---|
| AgendaItems.NewItem | src/de/janbo/agendawatchface/api/AgendaItem.java:256-260 | a null plugin id throws NullPointerException, and nothing else does; otherwise the item belongs to that id and has one default line, no second line, no times, no zone and priority 0 |
| AgendaItems.CompareToMeaning | src/de/janbo/agendawatchface/api/AgendaItem.java:166-177 | when nothing overflows, compareTo is negative exactly when the items are in key order: start time ascending, then priority descending, then plugin id ascending. It is 0 exactly when all three keys agree |
| AgendaItems.CompareToAntisymmetric | src/de/janbo/agendawatchface/api/AgendaItem.java:166-177 | when nothing overflows, sgn(a.compareTo(b)) == -sgn(b.compareTo(a)) |
| AgendaItems.CompareToTransitive | src/de/janbo/agendawatchface/api/AgendaItem.java:166-177 | when nothing overflows, a <= b and b <= c imply a <= c under compareTo |
| AgendaItems.CompareToOverflowExample | src/de/janbo/agendawatchface/api/AgendaItem.java:170-173 | with priorities 0 and Integer.MIN_VALUE the int subtraction overflows, and each item compares below the other |
| AgendaItems.PackRecoverable | src/de/janbo/agendawatchface/api/AgendaItem.java:230-234 | valid calendar fields read back from the packed time (minute, hour, weekday, day, month, year) |
| AgendaItems.PackFitsInt | src/de/janbo/agendawatchface/api/AgendaItem.java:230-234 | for the years 1900..2453 the packed time is a non-negative int, so the int arithmetic does not wrap |
| AgendaItems.PackMonotonic | src/de/janbo/agendawatchface/api/AgendaItem.java:230-234 | the packed time strictly increases with date and time, which is what ordering by it relies on |
| AgendaItems.ItemEqualsIsEquality | src/de/janbo/agendawatchface/api/AgendaItem.java:292-334 | equals answers true exactly when the two items are equal values, comparing the lines with Line.equals and the zones by ID |
| AgendaItems.ItemEqualsThrows | src/de/janbo/agendawatchface/api/AgendaItem.java:326-332 | equals throws exactly when every field before the zone agrees, this item has a zone and the other has none; the exception is a NullPointerException |
| AgendaItems.ListEqualsIsEquality | src/de/janbo/agendawatchface/AgendaWatchfaceService.java:294 | List.equals over items answers true exactly when the two sequences are equal |
| AgendaItems.ListEqualsThrows | src/de/janbo/agendawatchface/AgendaWatchfaceService.java:294 | List.equals over items throws exactly when the sizes agree and the first differing pair is an item with a zone against the same item without one; the exception is a NullPointerException |
| AgendaItems.LineRoundTrip | src/de/janbo/agendawatchface/api/AgendaItem.java:39-79 | new Line(line.toBundle()) gives back the line whenever its time display is a TimeDisplayType value |
| AgendaItems.BundleRoundTrip | src/de/janbo/agendawatchface/api/AgendaItem.java:237-270 | new AgendaItem(item.toBundle()) succeeds and equals the item, given real enum values and a zone TimeZone knows |
| AgendaItems.BundleDefaults | src/de/janbo/agendawatchface/api/AgendaItem.java:262-270 | an empty bundle gives no lines, no times, no zone, priority 0 and plugin id "noId"; a null line bundle gives a default line |
| ItemSort.SortPermutes | src/de/janbo/agendawatchface/AgendaWatchfaceService.java:530 | Collections.sort returns a permutation of the list |
| ItemSort.SortSorted | src/de/janbo/agendawatchface/AgendaWatchfaceService.java:530 | when compareTo cannot overflow on the items, the sorted list has every adjacent pair in compareTo order |
| ItemSort.SortedAllPairs | src/de/janbo/agendawatchface/AgendaWatchfaceService.java:530 | adjacent order extends to every pair i < j of a sorted list |
| ItemSort.Trim | src/de/janbo/agendawatchface/AgendaWatchfaceService.java:531-532 | the trim keeps a prefix of exactly max items when the list is longer, and the whole list when it fits |
| ItemSort.SortTrimContents | src/de/janbo/agendawatchface/AgendaWatchfaceService.java:530-532 | sorting then trimming keeps exactly min(size, max) items, a sub-multiset of the input |
| ItemSort.SortTrimKeepsLeast | src/de/janbo/agendawatchface/AgendaWatchfaceService.java:530-532 | when compareTo cannot overflow, every item the trim keeps compares at or below every item it drops |
| CalendarEvents.CompareMeaning | src/de/janbo/agendawatchface/CalendarEvent.java:28-37 | when nothing overflows, compareTo is negative exactly when the encoded start is earlier, or equal with an all-day event against a timed one; it is 0 exactly when the starts and the all-day flags agree |
| CalendarEvents.CompareAntisymmetric | src/de/janbo/agendawatchface/CalendarEvent.java:28-37 | when nothing overflows, compareTo is antisymmetric in sign |
| CalendarEvents.CompareTransitive | src/de/janbo/agendawatchface/CalendarEvent.java:28-37 | when nothing overflows, "compareTo <= 0" is transitive |
| CalendarEvents.CompareOverflowExample | src/de/janbo/agendawatchface/CalendarEvent.java:30 | starts encoded as 0 and as Integer.MIN_VALUE make each event compare below the other |
| CalendarEvents.EventTimeAsItemTime | src/de/janbo/agendawatchface/CalendarEvent.java:61-68 | an event's time is encoded as an AgendaItem time in UTC when the event is all-day, and in the default zone otherwise |
| CalendarEvents.EventStartRecoverable | src/de/janbo/agendawatchface/CalendarEvent.java:61-68 | for valid fields in the years 1900..2453 the encoded start is non-negative, and each field of the start, in the event's zone, reads back from it |
| CalendarReader.KeptRowsSubsequence | src/de/janbo/agendawatchface/CalendarReader.java:62-77 | the kept rows sit at strictly increasing cursor positions, in cursor order, and a row is kept exactly when it passes the three filters |
| CalendarReader.KeptRowsMembers | src/de/janbo/agendawatchface/CalendarReader.java:62-77 | a row is kept exactly when it is in the cursor and passes the filters |
| CalendarReader.EventOf | src/de/janbo/agendawatchface/CalendarReader.java:76-77 | the event copies title, location, BEGIN and END, and is all-day exactly when ALL_DAY is not 0 |
| CalendarReader.GetEvents | src/de/janbo/agendawatchface/CalendarReader.java:47-82 | the loop returns the events of the first maxNum rows that pass the filters, in cursor order; it returns none when maxNum <= 0 |
| CalendarReader.ReadEventsProperties | src/de/janbo/agendawatchface/CalendarReader.java:62-77 | the result is at most max(maxNum, 0) long and at most as long as the kept rows; element k is the event of kept row k; all kept rows are returned when they fit |
| AgendaCalendar.GetEvents | src/de/janbo/agendawatchface/calendar/AgendaCalendarService.java:81-149 | the loop's items, sorted and then trimmed, are CalendarItems of the rows; subList throws for a negative maxNum |
| AgendaCalendar.CalendarItemLayout | src/de/janbo/agendawatchface/calendar/AgendaCalendarService.java:110-136 | the item belongs to the calendar plugin and has BEGIN and END as its times. Its zone is UTC exactly for all-day rows. Line 1 shows the title for code "1" and the location otherwise, bold exactly for code "1". Each line present shows the all-day time display for all-day rows and none for timed rows, and no countdown. Line 2 is present exactly when the preference for the row's kind asks for it, and it shows the title or location by its own code, bold exactly for code "1" |
| AgendaCalendar.CalendarItemTimesAgree | src/de/janbo/agendawatchface/calendar/AgendaCalendarService.java:116-120 | an item's encoded start and end equal those of the legacy CalendarEvent for the same row |
| AgendaCalendar.CalendarItemTravels | src/de/janbo/agendawatchface/calendar/AgendaCalendarService.java:116-136 | every item the plugin builds is valid, and its Bundle round trip returns it unchanged |
| AgendaCalendar.CalendarItemComparable | src/de/janbo/agendawatchface/calendar/AgendaCalendarService.java:116-120 | an item whose start is a valid date in the years 1900..2453 cannot overflow compareTo |
| AgendaCalendar.CalendarItemsContents | src/de/janbo/agendawatchface/calendar/AgendaCalendarService.java:96-146 | getEvents throws exactly when maxNum < 0. Otherwise it returns exactly min(kept rows, maxNum) items, a sub-multiset of the kept rows' items, each built from a cursor row that passes the filters. When at most maxNum rows pass, it returns all their items, reordered |
| AgendaCalendar.CalendarItemsSorted | src/de/janbo/agendawatchface/calendar/AgendaCalendarService.java:142-146 | when every kept row starts at a valid date in the wire years, the result is sorted by compareTo, and no item the trim drops compares below one it keeps |
| AgendaCalendar.DefaultLayoutItem | src/de/janbo/agendawatchface/calendar/AgendaCalendarService.java:110-136 | under the default preferences line 1 is the title in bold; a timed event repeats that line as line 2, and an all-day event has no line 2 |
| AgendaCalendar.StartCommand | src/de/janbo/agendawatchface/calendar/AgendaCalendarService.java:50-52 | the plugin publishes getEvents(30), which never throws and holds exactly min(kept rows, 30) items |
| WatchfaceCodec.SendableString | src/de/janbo/agendawatchface/AgendaWatchfaceService.java:641-647 | a string sent to the watch is at most 50 characters |
| WatchfaceCodec.SendableStringCases | src/de/janbo/agendawatchface/AgendaWatchfaceService.java:641-647 | null becomes "(null)"; a text of at most 50 characters is sent as is; a longer one becomes its first 46 characters followed by "..." |
| WatchfaceCodec.MeasuredTextBounded | src/de/janbo/agendawatchface/AgendaWatchfaceService.java:585-590 | the measured text is at most 50 characters and is a prefix of the line's text |
| WatchfaceCodec.CanBeSentDependsOnPrefix | src/de/janbo/agendawatchface/AgendaWatchfaceService.java:585-590 | whether an item fits one message depends only on which lines are present and on the first 50 characters of their texts |
| WatchfaceCodec.DesignNeverZero | src/de/janbo/agendawatchface/AgendaWatchfaceService.java:656-684 | the design byte always has bit 0 set, so it never reads as a hidden line |
| WatchfaceCodec.DesignFields | src/de/janbo/agendawatchface/AgendaWatchfaceService.java:656-684 | the fields read back from the design byte: bold at 0x20, the countdown bit exactly when the effective time display is not NONE and the countdown is on, the time display ordinal at bits 1-3, the overflow ordinal at bits 6-7 |
| WatchfaceCodec.SettingsFlagsDecode | src/de/janbo/agendawatchface/AgendaWatchfaceService.java:448-466 | bit k of the flags word is set exactly when its preference condition holds; 0x08, 0x10 and everything from 0x2000 up stay clear |
| WatchfaceCodec.FlagsBelowIsBitsValue | src/de/janbo/agendawatchface/AgendaWatchfaceService.java:452-463 | ORing the masks in one after another builds the number whose binary digits are the conditions |
| WatchfaceCodec.JavaOddIsRemainder | src/de/janbo/agendawatchface/AgendaWatchfaceService.java:456-458 | Java's `x % 2 == 1` holds exactly for positive odd x |
| WatchfaceCodec.HalvesCarryTheItem | src/de/janbo/agendawatchface/AgendaWatchfaceService.java:598-639 | the two halves of a split item carry the same index, and together they carry every field of the one-message form |
| WatchfaceCodec.DecodeWatchRequest | src/de/janbo/agendawatchface/AgendaWatchfaceService.java:176-179 | the version is null exactly when key 0 is absent; a missing key 1 means minimum version 4; a missing key 2 means sync id 0; a sync id below 128 is kept as is |
| WatchfaceSync.UnexpiredMembers | src/de/janbo/agendawatchface/AgendaWatchfaceService.java:526-528 | an item is kept exactly when it is in the list and has no end time or ends after now |
| WatchfaceSync.GatheredMembers | src/de/janbo/agendawatchface/AgendaWatchfaceService.java:524-526 | an item is gathered exactly when some plugin in the store holds it |
| WatchfaceSync.StorePut | src/de/janbo/agendawatchface/AgendaWatchfaceService.java:301 | HashMap.put keeps the store consistent: every id listed once, and a new id added at the end |
| WatchfaceSync.BuildSyncListBounded | src/de/janbo/agendawatchface/AgendaWatchfaceService.java:523-532 | the list to send holds exactly min(unexpired items, max) items, a sub-multiset of the unexpired items, and is a permutation of all of them when they fit |
| WatchfaceSync.BuildSyncListUnexpired | src/de/janbo/agendawatchface/AgendaWatchfaceService.java:523-532 | every item sent is unexpired and supplied by some plugin in the store |
| WatchfaceSync.BuildSyncListSorted | src/de/janbo/agendawatchface/AgendaWatchfaceService.java:530-532 | the list to send is sorted by compareTo when compareTo cannot overflow on the plugins' items |
| WatchfaceSync.BuildSyncListKeepsEarliest | src/de/janbo/agendawatchface/AgendaWatchfaceService.java:530-532 | when compareTo cannot overflow on the plugins' items, every item sent compares at or below every unexpired item the trim leaves out |
| WatchfaceSync.NextSyncId | src/de/janbo/agendawatchface/AgendaWatchfaceService.java:543-544 | the next sync id is in 1..127 and differs from the current one; 127 and negative ids restart at 1 |
| WatchfaceSync.NoNewDataExactly | src/de/janbo/agendawatchface/AgendaWatchfaceService.java:537-540 | the test answers "not new", so NO_NEW_DATA is chosen, exactly when the last successful list equals the new one and the watch reports its nonzero id |
| WatchfaceSync.NewDataTestThrows | src/de/janbo/agendawatchface/AgendaWatchfaceService.java:537-540 | the test throws exactly when the comparison runs, the two lists have the same size, and the first difference is a zone present in the old list and missing from the new one; the exception is a NullPointerException |
| WatchfaceSync.ForcedSyncIsNew | src/de/janbo/agendawatchface/AgendaWatchfaceService.java:537-540 | a reported id of 0, as forceSync passes, always makes the data new |
| WatchfaceSync.NotificationsSpaced | src/de/janbo/agendawatchface/AgendaWatchfaceService.java:729-733 | at clock readings >= 0 the guard keeps the log of notification times spaced: consecutive notifications are at least an hour apart and the stamp is the last one; a notification is suppressed exactly when it falls within the hour after the last |
| WatchfaceService.AppendUnexpired | src/de/janbo/agendawatchface/AgendaWatchfaceService.java:526-528 | the inner loop appends exactly the plugin's unexpired items, in order |
| WatchfaceService.CollectUnexpired | src/de/janbo/agendawatchface/AgendaWatchfaceService.java:523-528 | the nested loops collect the unexpired items of every plugin, plugin after plugin |
| WatchfaceService.ItemsToSync | src/de/janbo/agendawatchface/AgendaWatchfaceService.java:523-532 | collecting, sorting and trimming computes BuildSyncList, whose properties are the lemmas above |
| WatchfaceService.ResendsBounded | src/de/janbo/agendawatchface/AgendaWatchfaceService.java:712-724 | whatever the number of nacks, a dictionary goes out at most three times, always the same dictionary; send j goes out under transaction id (t + 1 + j) mod 256 for the id t before it, and after k resends the id in flight is (t + 1 + k) mod 256 |
| WatchfaceService.UpdateNeeded | src/de/janbo/agendawatchface/AgendaWatchfaceService.java:398-403 | no notice exactly when the watch's minimum version is at most 9 and its version is at least 8; the Android-app notice exactly when the minimum version is missing or above 9 |
| WatchfaceService.AgendaWatchfaceService.constructor | src/de/janbo/agendawatchface/AgendaWatchfaceService.java:113-133 | the initial field values, and the invariant holds, including an empty notification log |
| WatchfaceService.AgendaWatchfaceService.SendMessage | src/de/janbo/agendawatchface/AgendaWatchfaceService.java:712-724 | each call takes the next transaction id modulo 256; a fresh send resets the retries and goes out; a resend goes out only while the retries are at most 2, and reports whether it did |
| WatchfaceService.AgendaWatchfaceService.TriggerNotification | src/de/janbo/agendawatchface/AgendaWatchfaceService.java:729-753 | the notice goes out and is logged and stamped with now, unless one went out less than an hour before; the log keeps consecutive notices at least an hour apart |
| WatchfaceService.AgendaWatchfaceService.BeginWatchSync | src/de/janbo/agendawatchface/AgendaWatchfaceService.java:507-551 | nothing changes while plugin data is being gathered. Otherwise the sync of BuildSyncList of the store is announced: INIT under the next sync id when the data is new, NO_NEW_DATA when it is not, and an escaping NullPointerException, with the state and the log untouched, when the new-data test throws |
| WatchfaceService.AgendaWatchfaceService.AnnounceSync | src/de/janbo/agendawatchface/AgendaWatchfaceService.java:534-550 | the list becomes the one to send and the index is reset; INIT or NO_NEW_DATA goes out, as the new-data test decides; when the test throws, its exception escapes before anything is sent and the sync id stays |
| WatchfaceService.AgendaWatchfaceService.SendInitDataMsg | src/de/janbo/agendawatchface/AgendaWatchfaceService.java:570-579 | the sync id advances, and INIT with the list's length as a byte, the sync id, version 8 and the settings flags goes out |
| WatchfaceService.AgendaWatchfaceService.SendNoNewDataMsg | src/de/janbo/agendawatchface/AgendaWatchfaceService.java:556-561 | NO_NEW_DATA goes out and the sync id stays |
| WatchfaceService.AgendaWatchfaceService.SendCurrentItem | src/de/janbo/agendawatchface/AgendaWatchfaceService.java:333-339 | the item at currentIndex goes out whole when it fits one message and as its first half otherwise, and its index joins the log |
| WatchfaceService.AgendaWatchfaceService.SendDone | src/de/janbo/agendawatchface/AgendaWatchfaceService.java:689-694 | once every index was sent, DONE goes out with the vibration type, or with 0 when no vibration was requested |
| WatchfaceService.AgendaWatchfaceService.AckInitSent | src/de/janbo/agendawatchface/AgendaWatchfaceService.java:325-340 | the ack of INIT sends item 0, or returns to waiting for an empty list |
| WatchfaceService.AgendaWatchfaceService.AckItemSent | src/de/janbo/agendawatchface/AgendaWatchfaceService.java:342-357 | the ack of an item or second half sends the next index, or DONE after the last |
| WatchfaceService.AgendaWatchfaceService.AckFirstHalf | src/de/janbo/agendawatchface/AgendaWatchfaceService.java:359-362 | the ack of a first half sends the second half of the same item |
| WatchfaceService.AgendaWatchfaceService.AckDone | src/de/janbo/agendawatchface/AgendaWatchfaceService.java:364-373 | the ack of DONE records the list and sync id as successful, stamps the time and clears the vibration wish; the log shows each index was sent once, in order |
| WatchfaceService.AgendaWatchfaceService.AckSending | src/de/janbo/agendawatchface/AgendaWatchfaceService.java:325-362 | the acks during INIT and item sending advance as the three cases above state |
| WatchfaceService.AgendaWatchfaceService.AckRestart | src/de/janbo/agendawatchface/AgendaWatchfaceService.java:317-319 | an ack in the restart state begins a sync as though the watch held no data; the new-data test then never compares lists, so nothing throws and the invariant holds |
| WatchfaceService.AgendaWatchfaceService.AckOther | src/de/janbo/agendawatchface/AgendaWatchfaceService.java:320-373 | an ack while waiting changes nothing; after NO_NEW_DATA the service waits; after DONE the sync completes |
| WatchfaceService.AgendaWatchfaceService.AckInFlight | src/de/janbo/agendawatchface/AgendaWatchfaceService.java:316-374 | the ack of the transaction in flight advances each state as the cases above state, never throwing and keeping the invariant |
| WatchfaceService.AgendaWatchfaceService.AckReceived | src/de/janbo/agendawatchface/AgendaWatchfaceService.java:310-375 | an ack for a foreign transaction changes nothing; otherwise each state advances as stated; a sync counts as successful only after every index went out in order |
| WatchfaceService.AgendaWatchfaceService.NackReceived | src/de/janbo/agendawatchface/AgendaWatchfaceService.java:425-441 | a nack for the transaction in flight captures the last dictionary for a resend; any other nack captures nothing |
| WatchfaceService.AgendaWatchfaceService.ResendTimerFired | src/de/janbo/agendawatchface/AgendaWatchfaceService.java:430-437 | the captured dictionary is resent only while it is still the last one sent, null included; the resend takes the next transaction id and one more retry, and when the retries run out the service waits for a request |
| WatchfaceService.AgendaWatchfaceService.ResendNothing | src/de/janbo/agendawatchface/AgendaWatchfaceService.java:712-724 | a resend of the null dictionary captured before the first send takes the next transaction id and one more retry, reports whether the retries allow it, and sends nothing |
| WatchfaceService.AgendaWatchfaceService.InitialWaitElapsed | src/de/janbo/agendawatchface/AgendaWatchfaceService.java:221-227 | the initial wait ends, the service waits for a request, and FORCE_REQUEST goes out |
| WatchfaceService.AgendaWatchfaceService.StartRequested | src/de/janbo/agendawatchface/AgendaWatchfaceService.java:272-276 | outside the initial phase, the store is emptied, gathering starts again, and FORCE_REQUEST goes out |
| WatchfaceService.AgendaWatchfaceService.RefuseRequest | src/de/janbo/agendawatchface/AgendaWatchfaceService.java:395-403 | an incompatible watch gets its update notice, rate-limited, and the service waits |
| WatchfaceService.AgendaWatchfaceService.SyncForRequest | src/de/janbo/agendawatchface/AgendaWatchfaceService.java:404-413 | a compatible watch's request returns the state machine to waiting and begins a sync against the id it reported; an exception from the new-data test escapes with the service waiting and the log untouched |
| WatchfaceService.AgendaWatchfaceService.PrepareSync | src/de/janbo/agendawatchface/AgendaWatchfaceService.java:395-396 | a sync id of 0 adopts the id the watch reported, and the state machine waits for the sync to begin (lines 406-412) |
| WatchfaceService.AgendaWatchfaceService.WatchRequestReceived | src/de/janbo/agendawatchface/AgendaWatchfaceService.java:387-418 | the reported id is always remembered. During gathering nothing else changes. Otherwise a sync id of 0 adopts the reported one, the request is refused or answered with a sync, and the watchface version is recorded (-1 when none was sent); an exception from the sync escapes with the service waiting |
| WatchfaceService.AgendaWatchfaceService.AnswerRequest | src/de/janbo/agendawatchface/AgendaWatchfaceService.java:389-416 | past the gathering guard the reported id and the version are recorded and the request is refused or answered with a sync |
| WatchfaceService.AgendaWatchfaceService.Respond | src/de/janbo/agendawatchface/AgendaWatchfaceService.java:398-413 | a watch that needs an update gets its notice and nothing raises; a compatible watch gets a sync, which may raise the new-data test's exception |
| WatchfaceService.AgendaWatchfaceService.StoreReport | src/de/janbo/agendawatchface/AgendaWatchfaceService.java:298-301 | the plugin's list replaces its earlier one, and a vibration wish is remembered |
| WatchfaceService.AgendaWatchfaceService.AcceptReport | src/de/janbo/agendawatchface/AgendaWatchfaceService.java:298-302 | the report is stored and a sync begins against the id the watch last reported; if the sync throws, the state and the log stay as they were |
| WatchfaceService.AgendaWatchfaceService.HandleReceivedPluginData | src/de/janbo/agendawatchface/AgendaWatchfaceService.java:282-303 | a report with no id, with no list, or equal to the stored list changes nothing; a comparison with the stored list that throws lets a NullPointerException escape with nothing changed; otherwise the report is stored and a sync begins |
| PebbleComm.EventsMessagesIndex | src/de/janbo/agendawatchface/PebbleCommService.java:262-294 | messages 2k and 2k+1 are the two halves of event k |
| PebbleComm.FirstHalfTexts | src/de/janbo/agendawatchface/PebbleCommService.java:262-269 | title and location are prefixes of at most 30 characters, unchanged when they fit; null gives "(no title)" and ""; the all-day flag is 1 or 0 |
| PebbleComm.SecondHalfTimes | src/de/janbo/agendawatchface/PebbleCommService.java:275-294 | a timed event is sent with the encoded times its compareTo uses; an all-day event is sent in the default zone, not in UTC |
| PebbleComm.CompletedSync | src/de/janbo/agendawatchface/PebbleCommService.java:136-174 | a completed sync of at most ten events is 2n+2 messages: INIT announcing n and version 2, the halves of event k at 2k+1 and 2k+2, and DONE last |
| PebbleComm.SecondHalfRecoverable | src/de/janbo/agendawatchface/PebbleCommService.java:282-284 | for valid fields in the wire years the watch reads each field of the start back, in the default zone |
| PebbleComm.PebbleCommService.constructor | src/de/janbo/agendawatchface/PebbleCommService.java:63-65 | the initial field values, and the invariant holds |
| PebbleComm.PebbleCommService.BeginSendingData | src/de/janbo/agendawatchface/PebbleCommService.java:234-243 | the events become CalendarReader's first ten, and INIT with their count opens a new sync |
| PebbleComm.PebbleCommService.SendInitDataMsg | src/de/janbo/agendawatchface/PebbleCommService.java:249-256 | INIT goes out with the count as a byte and version 2 |
| PebbleComm.PebbleCommService.AckReceived | src/de/janbo/agendawatchface/PebbleCommService.java:136-174 | each state advances by one message, as the cases state; the ack of DONE ends a sync whose messages were exactly INIT, both halves of every event in order, and DONE |
| PebbleComm.PebbleCommService.AckInitSent | src/de/janbo/agendawatchface/PebbleCommService.java:141-151 | the first half of event 0 goes out, or the service waits for an empty list |
| PebbleComm.PebbleCommService.AckFirstHalf | src/de/janbo/agendawatchface/PebbleCommService.java:153-156 | the second half of the same event goes out |
| PebbleComm.PebbleCommService.AckSecondHalf | src/de/janbo/agendawatchface/PebbleCommService.java:158-167 | the next event's first half goes out, or DONE after the last |
| PebbleComm.PebbleCommService.SendFirstEventHalf | src/de/janbo/agendawatchface/PebbleCommService.java:262-269 | the first half of the event goes out |
| PebbleComm.PebbleCommService.SendSecondEventHalf | src/de/janbo/agendawatchface/PebbleCommService.java:275-294 | the second half of the event goes out |
| PebbleComm.PebbleCommService.SendDoneMessage | src/de/janbo/agendawatchface/PebbleCommService.java:299-303 | DONE goes out |
| PebbleComm.PebbleCommService.RequestReceived | src/de/janbo/agendawatchface/PebbleCommService.java:181-190 | a version other than 2, or none, raises the rate-limited notice and abandons the sync; version 2 begins a new sync |
| PebbleComm.PebbleCommService.NackReceived | src/de/janbo/agendawatchface/PebbleCommService.java:195-198 | the sync is abandoned |
| PebbleComm.PebbleCommService.StartCommand | src/de/janbo/agendawatchface/PebbleCommService.java:122-131 | the guard reads `(intent present and waiting) or INIT sent`: when it holds a new sync begins, otherwise nothing changes |
| PebbleComm.PebbleCommService.TriggerUpdateNotification | src/de/janbo/agendawatchface/PebbleCommService.java:308-323 | the notice goes out and its time is logged and stamped, unless one went out less than an hour before; the log keeps consecutive notices at least an hour apart |

## Left out

- Android lifecycle, broadcast receivers and intent routing. `onStartCommand`'s other actions are left out: REFRESH_PLUGIN_DATA, plugin version checks, and parcelable unpacking. The service methods are the handlers those actions call.
- The FORCE_WATCH_SYNC intent (`sendForceRequestMessage` in the middle of a sync). It is only modelled where the initial wait and a plain start send it.
- PebbleKit transport and PebbleDictionary encoding. A send is an entry in `outbox`, carrying the message's fields.
- WatchfaceService.AgendaWatchfaceService.ResendNothing: what PebbleKit does when handed the null dictionary is not modelled; no `outbox` entry is recorded for it. This is reached by a nack that matches the initial transaction id -1 before the first send.
- Threading and `synchronized`. Each handler runs to completion.
- The Handler's 3-second delay. The delayed resend is a separate method taking the captured dictionary.
- Notification contents and `broadcastCurrentData`. Only the hourly rate limit and the kind of notice are kept.
- The ContentResolver query and its time window (`getContentUri`). The cursor is given as a sequence of rows.
- Calendar, TimeZone and String.getBytes. They are the `Platform` parameter: its field lookup, its known zone IDs and its byte length.
- Java strings count UTF-16 units, while the model counts characters.
- `Integer.parseInt` of preference strings. The preferences come already parsed, in `Prefs`.
- A negative `pref_send_num_items`. `Prefs.sendNumItems` is a `nat`, so the model leaves out the IndexOutOfBoundsException that `subList(max, size)` throws for it at line 531. The preference screens that produce these values are not part of this model.
- A `pref_layout_time_N` outside TimeDisplayType. For it `TimeDisplayType.values()[...]` at line 670 throws ArrayIndexOutOfBoundsException. `PebbleDesign` and the lemmas about it require a valid preference only for a line that has no time display of its own. The message functions and the service's sending methods require `ValidPrefs`, valid values for both lines, even when no line reads them. The preference screens that produce these values are not part of this model.
- Clock readings are assumed to be at least 0 (milliseconds since 1970). The notification handlers require `now >= 0`. A reading of -1 would collide with the "no notification yet" stamp.
- The legacy service's `addPebbleSettings` flags and design word. Its INIT message carries only the count and the version.
- HashMap iteration order. The order of `pluginData.values()` is modelled as insertion order. A real HashMap may iterate in another order, which only changes the order of equal items after the sort.
- Null items inside a plugin's list. Line 527 dereferences `item.endTime` even for a null item, which throws; every modelled item is non-null.
- Items without a plugin id. compareTo throws a NullPointerException when such an item ties another on start time and priority (line 172), so the modelled items all carry one.
- `Collections.sort` is modelled as a stable insertion sort. It gives the same list as the Java merge sort whenever compareTo is a consistent order, which the comparison lemmas prove for the no-overflow range.
- WatchfaceService.AgendaWatchfaceService.AnswerRequest: the watchface version is recorded before the answer, not after it as at line 416. No step of the answer reads it. The two orders differ only when the answer throws: the source then keeps the old version, and the model holds the new one.
- WatchfaceService.AgendaWatchfaceService.WatchRequestReceived: it records the version before the answer, as AnswerRequest does.
- After an exception escapes a handler, the fields are left as the exception found them, and the model does not promise the invariant `Valid` for them. The methods return the exception as `crash`. The process is not modelled after it.
- AgendaItems.CompareToAntisymmetric, AgendaItems.CompareToTransitive and AgendaItems.CompareToMeaning only hold for items whose start time is non-negative and whose priority is within ±2^30. Outside that range the int subtractions overflow, as `AgendaItems.CompareToOverflowExample` shows.
- CalendarEvents.CompareAntisymmetric, CalendarEvents.CompareTransitive and CalendarEvents.CompareMeaning only hold for events whose encoded start is non-negative, as `CalendarEvents.CompareOverflowExample` shows.
- ItemSort.SortSorted, WatchfaceSync.BuildSyncListSorted and AgendaCalendar.CalendarItemsSorted assume the same no-overflow range. Outside it compareTo is not an order, and the sort promises nothing.
- WatchfaceCodec.DesignFields only states the read-back for a time display ordinal below 8 and an overflow ordinal below 4. A larger time display ordinal spills into the countdown bit and the bits above it. A larger overflow ordinal loses its high bits: the byte keeps only bits 6-7 of `ordinal*0x40`, so the watch reads the ordinal modulo 4. `LowByte` models both.
- PebbleComm.SecondHalfTimes states that the legacy sender encodes all-day events in the default zone, while `CalendarEvent.getPebbleTimeFormat` uses UTC. The model keeps the source's behaviour.
- The TimeDisplayType enum and the Line's overflow mode are not part of the model's sources. They appear as ordinals supplied by `Platform`.
