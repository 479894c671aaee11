/** The SDK's persistent slots in the browser's key/value storage
    (src/util/StorageUtil.ts), plus the session, first-open and previous-page
    slots that the trackers read and write through the same store. */
module StorageUtil {
  import opened Types
  import opened Text
  import Event

  const MAX_FAILED_EVENTS_SIZE := 1024 * 512

  const PREFIX := "aws-solution/clickstream-js/"
  const DEVICE_ID_KEY := PREFIX + "deviceIdKey"
  const USER_UNIQUE_ID_KEY := PREFIX + "userUniqueIdKey"
  const BUNDLE_SEQUENCE_ID_KEY := PREFIX + "bundleSequenceIdKey"
  const USER_ATTRIBUTES_KEY := PREFIX + "userAttributesKey"
  const USER_FIRST_TOUCH_TIMESTAMP_KEY := PREFIX + "userFirstTouchTimestampKey"
  const FAILED_EVENTS_KEY := PREFIX + "failedEventsKey"
  // Slots used by the trackers; their names are this model's own.
  const SESSION_KEY := PREFIX + "sessionKey"
  const IS_FIRST_OPEN_KEY := PREFIX + "isFirstOpenKey"
  const PREVIOUS_PAGE_URL_KEY := PREFIX + "previousPageUrlKey"
  const PREVIOUS_PAGE_TITLE_KEY := PREFIX + "previousPageTitleKey"
  const PREVIOUS_PAGE_START_TIME_KEY := PREFIX + "previousPageStartTimeKey"

  /** A session as persisted: `pauseTime` is absent until the first pause. */
  datatype SessionData = SessionData(
    sessionId: string,
    sessionIndex: int,
    startTime: int,
    pauseTime: Option<int>)

  /** What one slot holds. Strings and numbers are stored as text; objects
      the source JSON-encodes are stored as the value they encode. Failed
      events are kept as their serialized texts. */
  datatype Stored =
    | StoredText(text: string)
    | StoredAttrs(attrs: map<string, UserAttr>)
    | StoredEvents(events: seq<string>)
    | StoredSession(session: SessionData)

  type Items = map<string, Stored>

  // ---------------------------------------------------------------------
  // Reading slots

  /** `getItem(key) ?? default` for a text slot. */
  function TextAt(items: Items, key: string, default: string): string {
    if key in items && items[key].StoredText? then items[key].text else default
  }

  /** A numeric slot holds text that `parseInt` reads as a number. */
  predicate NumberSlot(items: Items, key: string) {
    key in items ==> items[key].StoredText? && ParseInt(items[key].text).Some?
  }

  predicate NumberSlotsValid(items: Items) {
    NumberSlot(items, BUNDLE_SEQUENCE_ID_KEY) && NumberSlot(items, PREVIOUS_PAGE_START_TIME_KEY)
  }

  /** `parseInt(getItem(key) ?? default)`. */
  function NumberAt(items: Items, key: string, default: int): int
    requires NumberSlot(items, key)
  {
    if key in items then ParseInt(items[key].text).value else default
  }

  function DeviceIdOf(items: Items): string { TextAt(items, DEVICE_ID_KEY, "") }

  function UserUniqueIdOf(items: Items): string { TextAt(items, USER_UNIQUE_ID_KEY, "") }

  function BundleSequenceIdOf(items: Items): int
    requires NumberSlotsValid(items)
  {
    NumberAt(items, BUNDLE_SEQUENCE_ID_KEY, 1)
  }

  function UserAttributesOf(items: Items): map<string, UserAttr> {
    if USER_ATTRIBUTES_KEY in items && items[USER_ATTRIBUTES_KEY].StoredAttrs?
    then items[USER_ATTRIBUTES_KEY].attrs else map[]
  }

  function FailedEventsOf(items: Items): seq<string> {
    if FAILED_EVENTS_KEY in items && items[FAILED_EVENTS_KEY].StoredEvents?
    then items[FAILED_EVENTS_KEY].events else []
  }

  function SessionOf(items: Items): Option<SessionData> {
    if SESSION_KEY in items && items[SESSION_KEY].StoredSession?
    then Some(items[SESSION_KEY].session) else None
  }

  /** The app is opening for the first time until the flag is written. */
  function IsFirstOpenOf(items: Items): bool { IS_FIRST_OPEN_KEY !in items }

  function PreviousPageUrlOf(items: Items): string { TextAt(items, PREVIOUS_PAGE_URL_KEY, "") }

  function PreviousPageTitleOf(items: Items): string { TextAt(items, PREVIOUS_PAGE_TITLE_KEY, "") }

  function PreviousPageStartTimeOf(items: Items): int
    requires NumberSlotsValid(items)
  {
    NumberAt(items, PREVIOUS_PAGE_START_TIME_KEY, 0)
  }

  // ---------------------------------------------------------------------
  // The serialized failed-event list

  /** The events joined with ',' (`JSON.stringify` of an array whose
      elements serialize to `events`, without the brackets). */
  function Join(events: seq<string>): string {
    if events == [] then ""
    else if |events| == 1 then events[0]
    else events[0] + "," + Join(events[1..])
  }

  function Payload(events: seq<string>): string { "[" + Join(events) + "]" }

  function SumLengths(events: seq<string>): nat {
    if events == [] then 0 else |events[0]| + SumLengths(events[1..])
  }

  /** The serialized list costs two brackets, every event's text, and one
      comma between neighbours. */
  lemma {:induction false} PayloadLength(events: seq<string>)
    ensures |Payload(events)| == 2 + SumLengths(events) + (if events == [] then 0 else |events| - 1)
  {
    JoinLength(events);
  }

  lemma {:induction false} JoinLength(events: seq<string>)
    ensures |Join(events)| == SumLengths(events) + (if events == [] then 0 else |events| - 1)
  {
    if |events| > 1 {
      JoinLength(events[1..]);
    }
  }

  lemma {:induction false} SumLengthsAppend(events: seq<string>, e: string)
    ensures SumLengths(events + [e]) == SumLengths(events) + |e|
  {
    if events != [] {
      assert (events + [e])[1..] == events[1..] + [e];
      SumLengthsAppend(events[1..], e);
    }
  }

  // ---------------------------------------------------------------------
  // Writing slots: what each operation does to the whole store

  /** `getDeviceId`: keep a non-empty stored id, else store the fresh one. */
  function DeviceIdStep(items: Items, freshId: string): Items {
    if DeviceIdOf(items) != "" then items else items[DEVICE_ID_KEY := StoredText(freshId)]
  }

  /** `saveUserFirstTouchTimestamp`: the timestamp slot, and a user-attribute
      map that is replaced by the single first-touch entry. */
  function FirstTouchStep(items: Items, now: int): Items {
    items[USER_FIRST_TOUCH_TIMESTAMP_KEY := StoredText(IntToString(now))]
         [USER_ATTRIBUTES_KEY := StoredAttrs(map[Event.USER_FIRST_TOUCH_TIMESTAMP := UserAttr(Num(now), now)])]
  }

  /** `getCurrentUserUniqueId`: keep a non-empty stored id, else store the
      fresh one and record the first touch. */
  function UserUniqueIdStep(items: Items, freshId: string, now: int): Items {
    if UserUniqueIdOf(items) != "" then items
    else FirstTouchStep(items[USER_UNIQUE_ID_KEY := StoredText(freshId)], now)
  }

  function SaveBundleSequenceIdStep(items: Items, n: int): Items {
    items[BUNDLE_SEQUENCE_ID_KEY := StoredText(IntToString(n))]
  }

  function UpdateUserAttributesStep(items: Items, attrs: map<string, UserAttr>): Items {
    items[USER_ATTRIBUTES_KEY := StoredAttrs(attrs)]
  }

  /** `saveFailedEvent`: append when the serialized list stays within the
      budget, else leave the store as it was. */
  function SaveFailedEventStep(items: Items, event: string): Items {
    var all := FailedEventsOf(items) + [event];
    if |Payload(all)| <= MAX_FAILED_EVENTS_SIZE then items[FAILED_EVENTS_KEY := StoredEvents(all)]
    else items
  }

  function ClearFailedEventsStep(items: Items): Items { items - {FAILED_EVENTS_KEY} }

  /** `clearPageInfo`: the previous page's url and title become empty; the
      numeric slots are not touched. */
  function ClearPageInfoStep(items: Items): (r: Items)
    ensures NumberSlotsValid(items) ==> NumberSlotsValid(r)
  {
    KeysDistinct();
    items[PREVIOUS_PAGE_URL_KEY := StoredText("")][PREVIOUS_PAGE_TITLE_KEY := StoredText("")]
  }

  /** No key outside `keys` was added, removed or changed. */
  ghost predicate OnlyChanged(before: Items, after: Items, keys: set<string>) {
    forall k :: k !in keys ==> (k in before <==> k in after) && (k in before ==> before[k] == after[k])
  }

  // ---------------------------------------------------------------------
  // Properties of the slots

  /** The slots, in declaration order. */
  const ALL_KEYS := [DEVICE_ID_KEY, USER_UNIQUE_ID_KEY, BUNDLE_SEQUENCE_ID_KEY, USER_ATTRIBUTES_KEY,
                     USER_FIRST_TOUCH_TIMESTAMP_KEY, FAILED_EVENTS_KEY, SESSION_KEY, IS_FIRST_OPEN_KEY,
                     PREVIOUS_PAGE_URL_KEY, PREVIOUS_PAGE_TITLE_KEY, PREVIOUS_PAGE_START_TIME_KEY]

  /** No two slots share a key, so writing one never overwrites another. */
  lemma KeysDistinct()
    ensures forall i, j :: 0 <= i < j < |ALL_KEYS| ==> ALL_KEYS[i] != ALL_KEYS[j]
  {
    forall i, j | 0 <= i < j < |ALL_KEYS|
      ensures ALL_KEYS[i] != ALL_KEYS[j]
    {
      assert ALL_KEYS[i][|PREFIX|..] != ALL_KEYS[j][|PREFIX|..];
    }
  }

  /** The device id is generated at most once: a second call returns the
      first call's id and writes nothing. */
  lemma DeviceIdStable(items: Items, fresh1: string, fresh2: string)
    requires fresh1 != ""
    ensures DeviceIdOf(DeviceIdStep(items, fresh1)) != ""
    ensures DeviceIdStep(DeviceIdStep(items, fresh1), fresh2) == DeviceIdStep(items, fresh1)
    ensures DeviceIdOf(items) != "" ==> DeviceIdOf(DeviceIdStep(items, fresh1)) == DeviceIdOf(items)
    ensures OnlyChanged(items, DeviceIdStep(items, fresh1), {DEVICE_ID_KEY})
  {
  }

  /** A stored unique id is returned untouched; only when none is stored is
      a new one written together with the first-touch timestamp, which then
      is the only user attribute. */
  lemma UserUniqueIdFirstTouch(items: Items, freshId: string, now: int)
    requires freshId != ""
    ensures UserUniqueIdOf(items) != "" ==> UserUniqueIdStep(items, freshId, now) == items
    ensures UserUniqueIdOf(items) == "" ==>
      var after := UserUniqueIdStep(items, freshId, now);
      UserUniqueIdOf(after) == freshId &&
      UserAttributesOf(after) == map[Event.USER_FIRST_TOUCH_TIMESTAMP := UserAttr(Num(now), now)] &&
      TextAt(after, USER_FIRST_TOUCH_TIMESTAMP_KEY, "") == IntToString(now) &&
      OnlyChanged(items, after, {USER_UNIQUE_ID_KEY, USER_FIRST_TOUCH_TIMESTAMP_KEY, USER_ATTRIBUTES_KEY})
  {
    KeysDistinct();
  }

  /** The sequence id reads as 1 when nothing is stored, and reads back
      whatever was saved; saving touches no other slot. */
  lemma BundleSequenceIdRoundTrip(items: Items, n: int)
    requires NumberSlotsValid(items)
    ensures BUNDLE_SEQUENCE_ID_KEY !in items ==> BundleSequenceIdOf(items) == 1
    ensures NumberSlotsValid(SaveBundleSequenceIdStep(items, n))
    ensures BundleSequenceIdOf(SaveBundleSequenceIdStep(items, n)) == n
    ensures OnlyChanged(items, SaveBundleSequenceIdStep(items, n), {BUNDLE_SEQUENCE_ID_KEY})
  {
    ParseIntRoundTrip(n);
    KeysDistinct();
  }

  /** User attributes read back as saved, and as the empty map when nothing
      is stored. */
  lemma UserAttributesRoundTrip(items: Items, attrs: map<string, UserAttr>)
    ensures USER_ATTRIBUTES_KEY !in items ==> UserAttributesOf(items) == map[]
    ensures UserAttributesOf(UpdateUserAttributesStep(items, attrs)) == attrs
    ensures OnlyChanged(items, UpdateUserAttributesStep(items, attrs), {USER_ATTRIBUTES_KEY})
  {
  }

  /** A failed event is appended at the end exactly when the serialized list
      with it, 2 + the event texts + the commas, stays within the budget;
      otherwise nothing changes, so stored events are never truncated. */
  lemma SaveFailedEventBudget(items: Items, event: string)
    ensures var before := FailedEventsOf(items);
      var fits := 2 + SumLengths(before) + |before| + |event| <= MAX_FAILED_EVENTS_SIZE;
      && (fits ==> FailedEventsOf(SaveFailedEventStep(items, event)) == before + [event])
      && (!fits ==> SaveFailedEventStep(items, event) == items)
      && before <= FailedEventsOf(SaveFailedEventStep(items, event))
      && OnlyChanged(items, SaveFailedEventStep(items, event), {FAILED_EVENTS_KEY})
  {
    var before := FailedEventsOf(items);
    PayloadLength(before + [event]);
    SumLengthsAppend(before, event);
  }

  /** The stored failed list never exceeds the budget once it starts within
      it, and with every event at least `minLength` long it holds at most
      (budget - 1) / (minLength + 1) events. */
  lemma FailedEventsWithinBudget(items: Items, event: string, minLength: nat)
    requires |Payload(FailedEventsOf(items))| <= MAX_FAILED_EVENTS_SIZE
    ensures |Payload(FailedEventsOf(SaveFailedEventStep(items, event)))| <= MAX_FAILED_EVENTS_SIZE
    ensures (forall e <- FailedEventsOf(items) :: |e| >= minLength) ==>
      |FailedEventsOf(items)| * (minLength + 1) <= MAX_FAILED_EVENTS_SIZE - 1
  {
    var events := FailedEventsOf(items);
    PayloadLength(events);
    if forall e <- events :: |e| >= minLength {
      SumLengthsAtLeast(events, minLength);
    }
  }

  lemma {:induction false} SumLengthsAtLeast(events: seq<string>, minLength: nat)
    requires forall e <- events :: |e| >= minLength
    ensures SumLengths(events) >= |events| * minLength
  {
    if events != [] {
      var rest := events[1..];
      assert forall i :: 0 <= i < |rest| ==> rest[i] == events[i + 1];
      SumLengthsAtLeast(rest, minLength);
      MulSucc(|rest|, minLength);
      assert |events[0]| >= minLength;
    }
  }

  lemma MulSucc(n: nat, m: nat)
    ensures (n + 1) * m == n * m + m
  {
  }

  /** Clearing empties the failed list; reading an absent slot gives the
      empty list. */
  lemma ClearFailedEventsEmpties(items: Items)
    ensures FAILED_EVENTS_KEY !in items ==> FailedEventsOf(items) == []
    ensures FailedEventsOf(ClearFailedEventsStep(items)) == []
    ensures OnlyChanged(items, ClearFailedEventsStep(items), {FAILED_EVENTS_KEY})
  {
  }

  /** After clearing, the previous page reads as empty, and only those two
      slots change: the first-open flag and the session stay as they were. */
  lemma ClearPageInfoEffects(items: Items)
    ensures PreviousPageUrlOf(ClearPageInfoStep(items)) == ""
    ensures PreviousPageTitleOf(ClearPageInfoStep(items)) == ""
    ensures IsFirstOpenOf(ClearPageInfoStep(items)) == IsFirstOpenOf(items)
    ensures SessionOf(ClearPageInfoStep(items)) == SessionOf(items)
    ensures OnlyChanged(items, ClearPageInfoStep(items), {PREVIOUS_PAGE_URL_KEY, PREVIOUS_PAGE_TITLE_KEY})
  {
    KeysDistinct();
  }

  // ---------------------------------------------------------------------
  // The store itself

  class Storage {
    var items: Items

    ghost predicate Valid()
      reads this
    {
      NumberSlotsValid(items)
    }

    constructor ()
      ensures items == map[] && Valid()
    {
      items := map[];
    }

    /** `freshId` is the uuid the source would generate. */
    method GetDeviceId(freshId: string) returns (id: string)
      requires Valid() && freshId != ""
      modifies this
      ensures Valid()
      ensures items == DeviceIdStep(old(items), freshId)
      ensures id == DeviceIdOf(items) && id != ""
    {
      id := TextAt(items, DEVICE_ID_KEY, "");
      if id == "" {
        id := freshId;
        items := items[DEVICE_ID_KEY := StoredText(id)];
      }
    }

    method GetCurrentUserUniqueId(freshId: string, now: int) returns (id: string)
      requires Valid() && freshId != ""
      modifies this
      ensures Valid()
      ensures items == UserUniqueIdStep(old(items), freshId, now)
      ensures id == UserUniqueIdOf(items) && id != ""
    {
      KeysDistinct();
      id := TextAt(items, USER_UNIQUE_ID_KEY, "");
      if id == "" {
        id := freshId;
        items := items[USER_UNIQUE_ID_KEY := StoredText(id)];
        SaveUserFirstTouchTimestamp(now);
      }
    }

    method SaveUserFirstTouchTimestamp(now: int)
      requires Valid()
      modifies this
      ensures Valid()
      ensures items == FirstTouchStep(old(items), now)
    {
      KeysDistinct();
      items := items[USER_FIRST_TOUCH_TIMESTAMP_KEY := StoredText(IntToString(now))];
      UpdateUserAttributes(map[Event.USER_FIRST_TOUCH_TIMESTAMP := UserAttr(Num(now), now)]);
    }

    /** The stored number, or 1 while the slot is empty. */
    function GetBundleSequenceId(): (n: int)
      reads this
      requires Valid()
      ensures BUNDLE_SEQUENCE_ID_KEY !in items ==> n == 1
      ensures BUNDLE_SEQUENCE_ID_KEY in items ==> ParseInt(items[BUNDLE_SEQUENCE_ID_KEY].text) == Some(n)
    {
      BundleSequenceIdOf(items)
    }

    method SaveBundleSequenceId(n: int)
      requires Valid()
      modifies this
      ensures Valid()
      ensures items == SaveBundleSequenceIdStep(old(items), n)
      ensures GetBundleSequenceId() == n
    {
      BundleSequenceIdRoundTrip(items, n);
      items := items[BUNDLE_SEQUENCE_ID_KEY := StoredText(IntToString(n))];
    }

    method UpdateUserAttributes(attrs: map<string, UserAttr>)
      requires Valid()
      modifies this
      ensures Valid()
      ensures items == UpdateUserAttributesStep(old(items), attrs)
    {
      KeysDistinct();
      items := items[USER_ATTRIBUTES_KEY := StoredAttrs(attrs)];
    }

    /** The stored attributes, or none while the slot is empty. */
    function GetUserAttributes(): (attrs: map<string, UserAttr>)
      reads this
      ensures USER_ATTRIBUTES_KEY !in items ==> attrs == map[]
      ensures USER_ATTRIBUTES_KEY in items && items[USER_ATTRIBUTES_KEY].StoredAttrs? ==>
        items[USER_ATTRIBUTES_KEY] == StoredAttrs(attrs)
    {
      UserAttributesOf(items)
    }

    /** The stored failed events, or none while the slot is empty. */
    function GetFailedEvents(): (events: seq<string>)
      reads this
      ensures FAILED_EVENTS_KEY !in items ==> events == []
      ensures FAILED_EVENTS_KEY in items && items[FAILED_EVENTS_KEY].StoredEvents? ==>
        items[FAILED_EVENTS_KEY] == StoredEvents(events)
    {
      FailedEventsOf(items)
    }

    method SaveFailedEvent(event: string)
      requires Valid()
      modifies this
      ensures Valid()
      ensures items == SaveFailedEventStep(old(items), event)
    {
      KeysDistinct();
      var allEvents := GetFailedEvents();
      allEvents := allEvents + [event];
      var eventsStr := Payload(allEvents);
      if |eventsStr| <= MAX_FAILED_EVENTS_SIZE {
        items := items[FAILED_EVENTS_KEY := StoredEvents(allEvents)];
      }
    }

    method ClearFailedEvents()
      requires Valid()
      modifies this
      ensures Valid()
      ensures items == ClearFailedEventsStep(old(items))
    {
      items := items - {FAILED_EVENTS_KEY};
    }

    /** The saved session, if the slot holds one. */
    function GetSession(): (session: Option<SessionData>)
      reads this
      ensures session.Some? <==> SESSION_KEY in items && items[SESSION_KEY].StoredSession?
      ensures session.Some? ==> items[SESSION_KEY] == StoredSession(session.value)
    {
      SessionOf(items)
    }

    method SaveSession(session: SessionData)
      requires Valid()
      modifies this
      ensures Valid()
      ensures items == old(items)[SESSION_KEY := StoredSession(session)]
      ensures GetSession() == Some(session)
    {
      KeysDistinct();
      items := items[SESSION_KEY := StoredSession(session)];
    }

    /** True until the flag is written, whatever the flag then holds. */
    function GetIsFirstOpen(): (first: bool)
      reads this
      ensures !first <==> IS_FIRST_OPEN_KEY in items
    {
      IsFirstOpenOf(items)
    }

    method SaveIsFirstOpenToFalse()
      requires Valid()
      modifies this
      ensures Valid()
      ensures items == old(items)[IS_FIRST_OPEN_KEY := StoredText("0")]
      ensures !GetIsFirstOpen()
    {
      KeysDistinct();
      items := items[IS_FIRST_OPEN_KEY := StoredText("0")];
    }

    /** Forget the previous page's url and title. */
    method ClearPageInfo()
      requires Valid()
      modifies this
      ensures Valid()
      ensures items == ClearPageInfoStep(old(items))
    {
      items := items[PREVIOUS_PAGE_URL_KEY := StoredText("")][PREVIOUS_PAGE_TITLE_KEY := StoredText("")];
    }

    function GetPreviousPageUrl(): string
      reads this
    {
      PreviousPageUrlOf(items)
    }

    method SavePreviousPageUrl(url: string)
      requires Valid()
      modifies this
      ensures Valid()
      ensures items == old(items)[PREVIOUS_PAGE_URL_KEY := StoredText(url)]
      ensures GetPreviousPageUrl() == url
    {
      KeysDistinct();
      items := items[PREVIOUS_PAGE_URL_KEY := StoredText(url)];
    }

    function GetPreviousPageTitle(): string
      reads this
    {
      PreviousPageTitleOf(items)
    }

    method SavePreviousPageTitle(title: string)
      requires Valid()
      modifies this
      ensures Valid()
      ensures items == old(items)[PREVIOUS_PAGE_TITLE_KEY := StoredText(title)]
      ensures GetPreviousPageTitle() == title
    {
      KeysDistinct();
      items := items[PREVIOUS_PAGE_TITLE_KEY := StoredText(title)];
    }

    function GetPreviousPageStartTime(): int
      reads this
      requires Valid()
    {
      PreviousPageStartTimeOf(items)
    }

    method SavePreviousPageStartTime(time: int)
      requires Valid()
      modifies this
      ensures Valid()
      ensures items == old(items)[PREVIOUS_PAGE_START_TIME_KEY := StoredText(IntToString(time))]
      ensures GetPreviousPageStartTime() == time
    {
      KeysDistinct();
      ParseIntRoundTrip(time);
      items := items[PREVIOUS_PAGE_START_TIME_KEY := StoredText(IntToString(time))];
    }
  }
}
