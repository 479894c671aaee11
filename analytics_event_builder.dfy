/** Turning a recorded event into the event that is sent
    (src/provider/AnalyticsEventBuilder.ts): the attribute filter, the
    session and page attributes added after it, and the hash code computed
    over the finished event. */
module AnalyticsEventBuilder {
  import opened Types
  import opened StorageUtil
  import EventChecker
  import HashUtil
  import Event

  /** An attribute object; only its keys and their count matter to the
      filter, so it is a map. */
  type Attributes = map<string, Value>

  // ---------------------------------------------------------------------
  // The attribute filter

  /** One pass of the filter's loop: a null value is skipped; otherwise the
      attribute is checked against the number of keys already kept. The
      first failure is recorded as the error pair instead of the attribute;
      once an error pair is present, every later attribute is kept. */
  function FilterStep(res: Attributes, key: string, value: Value): Attributes {
    if value == Null then res
    else
      var result := EventChecker.CheckAttributes(|res|, key, value);
      if result.code > 0 && Event.ERROR_CODE !in res then
        res[Event.ERROR_CODE := Num(result.code)][Event.ERROR_MESSAGE := Str(result.message.value)]
      else
        res[key := value]
  }

  /** The filter from a partial result over the remaining entries. */
  function FilterFrom(res: Attributes, entries: seq<(string, Value)>): Attributes
    decreases |entries|
  {
    if entries == [] then res
    else FilterFrom(FilterStep(res, entries[0].0, entries[0].1), entries[1..])
  }

  function EntriesOf(attributes: Option<seq<(string, Value)>>): seq<(string, Value)> {
    match attributes
    case None => []
    case Some(entries) => entries
  }

  /** `getEventAttributesWithCheck` as a value. */
  function AttributesWithCheck(attributes: Option<seq<(string, Value)>>): Attributes {
    FilterFrom(map[], EntriesOf(attributes))
  }

  /** Reference: every non-null attribute kept as it is, later keys
      overwriting earlier ones. */
  function CopyNonNull(res: Attributes, entries: seq<(string, Value)>): Attributes
    decreases |entries|
  {
    if entries == [] then res
    else if entries[0].1 == Null then CopyNonNull(res, entries[1..])
    else CopyNonNull(res[entries[0].0 := entries[0].1], entries[1..])
  }

  /** An attribute that passes every check of `checkAttributes` when the
      result holds `count` keys. */
  predicate Passes(count: int, key: string, value: Value) {
    count < Event.MAX_NUM_OF_ATTRIBUTES && WithinLimits(key, value)
  }

  /** A name and value that pass the name and value checks. */
  predicate WithinLimits(key: string, value: Value) {
    |key| <= Event.MAX_LENGTH_OF_NAME && EventChecker.IsValidName(key)
    && |EventChecker.ValueString(value)| <= Event.MAX_LENGTH_OF_VALUE
  }

  /** `getEventAttributesWithCheck`: the for-in loop over the entries, in
      the order `ClickstreamEvent` describes. */
  method GetEventAttributesWithCheck(attributes: Option<seq<(string, Value)>>) returns (result: Attributes)
    ensures result == AttributesWithCheck(attributes)
  {
    var entries := EntriesOf(attributes);
    result := map[];
    var i := 0;
    while i < |entries|
      invariant 0 <= i <= |entries|
      invariant FilterFrom(result, entries[i..]) == AttributesWithCheck(attributes)
    {
      var key, value := entries[i].0, entries[i].1;
      assert entries[i..][1..] == entries[i + 1..];
      if value != Null {
        var currentNumber := |result|;
        var check := EventChecker.CheckAttributes(currentNumber, key, value);
        if check.code > 0 && Event.ERROR_CODE !in result {
          result := result[Event.ERROR_CODE := Num(check.code)];
          result := result[Event.ERROR_MESSAGE := Str(check.message.value)];
        } else {
          result := result[key := value];
        }
      }
      i := i + 1;
    }
    assert entries[i..] == [];
  }

  /** Running the filter over two parts is running it over the first and
      continuing with the second. */
  lemma {:induction false} FilterFromAppend(res: Attributes, xs: seq<(string, Value)>, ys: seq<(string, Value)>)
    ensures FilterFrom(res, xs + ys) == FilterFrom(FilterFrom(res, xs), ys)
    decreases |xs|
  {
    if xs != [] {
      assert (xs + ys)[1..] == xs[1..] + ys;
      FilterFromAppend(FilterStep(res, xs[0].0, xs[0].1), xs[1..], ys);
    } else {
      assert xs + ys == ys;
    }
  }

  /** Keys are never removed: whatever the partial result holds stays. */
  lemma {:induction false} FilterKeepsKeys(res: Attributes, entries: seq<(string, Value)>)
    ensures res.Keys <= FilterFrom(res, entries).Keys
    decreases |entries|
  {
    if entries != [] {
      FilterKeepsKeys(FilterStep(res, entries[0].0, entries[0].1), entries[1..]);
    }
  }

  /** Every key of the result was already there, is one of the two error
      keys, or is the key of a non-null attribute. */
  lemma {:induction false} FilterResultKeys(res: Attributes, entries: seq<(string, Value)>)
    ensures forall k <- FilterFrom(res, entries) ::
      k in res || k == Event.ERROR_CODE || k == Event.ERROR_MESSAGE ||
      exists i :: 0 <= i < |entries| && entries[i].0 == k && entries[i].1 != Null
    decreases |entries|
  {
    if entries != [] {
      var next := FilterStep(res, entries[0].0, entries[0].1);
      FilterResultKeys(next, entries[1..]);
      forall k <- FilterFrom(res, entries)
        ensures k in res || k == Event.ERROR_CODE || k == Event.ERROR_MESSAGE ||
          exists i :: 0 <= i < |entries| && entries[i].0 == k && entries[i].1 != Null
      {
        if k !in res && k != Event.ERROR_CODE && k != Event.ERROR_MESSAGE {
          if k in next {
            assert entries[0].0 == k && entries[0].1 != Null;
          } else {
            var i :| 0 <= i < |entries[1..]| && entries[1..][i].0 == k && entries[1..][i].1 != Null;
            assert entries[i + 1] == entries[1..][i];
          }
        }
      }
    }
  }

  /** Null values are dropped, and absent or empty input yields the empty
      map: the result's keys are the error keys and keys given non-null
      values, so a key given only `null` never appears. */
  lemma AttributesWithCheckKeys(attributes: Option<seq<(string, Value)>>)
    ensures var entries := EntriesOf(attributes);
      forall k <- AttributesWithCheck(attributes) ::
        k == Event.ERROR_CODE || k == Event.ERROR_MESSAGE ||
        exists i :: 0 <= i < |entries| && entries[i].0 == k && entries[i].1 != Null
    ensures attributes.None? || attributes == Some([]) ==> AttributesWithCheck(attributes) == map[]
  {
    FilterResultKeys(map[], EntriesOf(attributes));
  }

  /** Once the error pair is present, every later non-null attribute is
      kept as it is, whether it passes the checks or not. */
  lemma {:induction false} AfterErrorAllKept(res: Attributes, entries: seq<(string, Value)>)
    requires Event.ERROR_CODE in res
    ensures FilterFrom(res, entries) == CopyNonNull(res, entries)
    decreases |entries|
  {
    if entries != [] {
      AfterErrorAllKept(FilterStep(res, entries[0].0, entries[0].1), entries[1..]);
    }
  }

  /** When no error pair ends up in the result, no attribute failed: every
      non-null attribute was kept as it is. */
  lemma {:induction false} NoErrorAllKept(res: Attributes, entries: seq<(string, Value)>)
    requires Event.ERROR_CODE !in FilterFrom(res, entries)
    ensures FilterFrom(res, entries) == CopyNonNull(res, entries)
    decreases |entries|
  {
    if entries != [] {
      var next := FilterStep(res, entries[0].0, entries[0].1);
      FilterKeepsKeys(next, entries[1..]);
      assert Event.ERROR_CODE !in next;
      NoErrorAllKept(next, entries[1..]);
    }
  }

  /** Attributes that pass the checks are copied unchanged: with room for
      all of them under the 500 cap and every name and value within the
      limits, the filter keeps every non-null attribute. */
  lemma {:induction false} AllPassingKept(res: Attributes, entries: seq<(string, Value)>)
    requires |res| + |entries| <= Event.MAX_NUM_OF_ATTRIBUTES
    requires forall e <- entries :: WithinLimits(e.0, e.1)
    ensures FilterFrom(res, entries) == CopyNonNull(res, entries)
    decreases |entries|
  {
    if entries != [] {
      var e := entries[0];
      assert e in entries;
      assert EventChecker.CheckAttributes(|res|, e.0, e.1).code == Event.NO_ERROR;
      var next := FilterStep(res, e.0, e.1);
      assert |next| <= |res| + 1;
      assert forall x <- entries[1..] :: x in entries;
      AllPassingKept(next, entries[1..]);
    }
  }

  /** The first failure decides the error pair. When the attributes before
      the failing one left no error pair, the failing attribute's code and
      message become `_error_code` and `_error_message`, and every later
      non-null attribute is kept. */
  lemma FirstErrorWins(res: Attributes, before: seq<(string, Value)>, key: string, value: Value,
                       after: seq<(string, Value)>)
    requires Event.ERROR_CODE !in FilterFrom(res, before)
    requires value != Null
    requires !Passes(|FilterFrom(res, before)|, key, value)
    ensures var mid := FilterFrom(res, before);
      var check := EventChecker.CheckAttributes(|mid|, key, value);
      && check.code > 0 && check.message.Some?
      && FilterFrom(res, before + [(key, value)] + after) ==
         CopyNonNull(mid[Event.ERROR_CODE := Num(check.code)][Event.ERROR_MESSAGE := Str(check.message.value)], after)
  {
    var mid := FilterFrom(res, before);
    EventChecker.AttributeVerdict(|mid|, key, value);
    FilterFromAppend(res, before + [(key, value)], after);
    FilterFromAppend(res, before, [(key, value)]);
    var errored := FilterStep(mid, key, value);
    assert FilterFrom(mid, [(key, value)]) == errored;
    AfterErrorAllKept(errored, after);
  }

  /** Without an error pair, the result stays within the 500 cap. */
  lemma {:induction false} NoErrorWithinCap(res: Attributes, entries: seq<(string, Value)>)
    requires |res| <= Event.MAX_NUM_OF_ATTRIBUTES
    requires Event.ERROR_CODE !in FilterFrom(res, entries)
    ensures |FilterFrom(res, entries)| <= Event.MAX_NUM_OF_ATTRIBUTES
    decreases |entries|
  {
    if entries != [] {
      var next := FilterStep(res, entries[0].0, entries[0].1);
      FilterKeepsKeys(next, entries[1..]);
      assert Event.ERROR_CODE !in next;
      if entries[0].1 != Null {
        EventChecker.AttributeVerdict(|res|, entries[0].0, entries[0].1);
        assert |next| <= |res| + 1;
      }
      NoErrorWithinCap(next, entries[1..]);
    }
  }

  /** The count a check sees includes the error pair: after an invalid
      first name, the second attribute is kept, and the result holds the
      error pair and that attribute. */
  lemma ErrorPairExample()
    ensures AttributesWithCheck(Some([("1a", Num(1)), ("b", Null), ("c", Num(2))])) ==
      map[Event.ERROR_CODE := Num(Event.ATTRIBUTE_NAME_INVALID), Event.ERROR_MESSAGE := Str("1a"),
          "c" := Num(2)]
  {
    var entries := [("1a", Num(1)), ("b", Null), ("c", Num(2))];
    assert !EventChecker.IsValidName("1a") by {
      assert "1a"[0] == '1';
    }
    assert EventChecker.IsValidName("c");
    var first := FilterStep(map[], "1a", Num(1));
    assert first == map[Event.ERROR_CODE := Num(Event.ATTRIBUTE_NAME_INVALID), Event.ERROR_MESSAGE := Str("1a")];
    assert entries[1..] == [("b", Null), ("c", Num(2))];
    assert entries[1..][1..] == [("c", Num(2))];
  }

  // ---------------------------------------------------------------------
  // Session and page attributes

  const SESSION_KEYS := {Event.SESSION_ID, Event.SESSION_START_TIMESTAMP, Event.SESSION_DURATION, Event.SESSION_NUMBER}

  /** The session attributes when a session is given, then the page title
      and url; all are added after the filter, so outside its cap. */
  function Enrich(attrs: Attributes, session: Option<SessionData>, now: int,
                  pageTitle: string, pageUrl: string): Attributes
  {
    var withSession :=
      match session
      case None => attrs
      case Some(s) =>
        attrs[Event.SESSION_ID := Str(s.sessionId)]
             [Event.SESSION_START_TIMESTAMP := Num(s.startTime)]
             [Event.SESSION_DURATION := Num(now - s.startTime)]
             [Event.SESSION_NUMBER := Num(s.sessionIndex)];
    withSession[Event.PAGE_TITLE := Str(pageTitle)][Event.PAGE_URL := Str(pageUrl)]
  }

  /** A given session's four attributes are written over whatever the
      attributes held under those names (a user attribute may use them), and
      carry its id, start, duration so far and number; without a session
      those names keep what they held. The page title and url are always
      set, every other attribute is left alone, and no other name is added. */
  lemma EnrichRule(attrs: Attributes, session: Option<SessionData>, now: int, pageTitle: string, pageUrl: string)
    ensures var r := Enrich(attrs, session, now, pageTitle, pageUrl);
      && (session.Some? ==>
            && r[Event.SESSION_ID] == Str(session.value.sessionId)
            && r[Event.SESSION_START_TIMESTAMP] == Num(session.value.startTime)
            && r[Event.SESSION_DURATION] == Num(now - session.value.startTime)
            && r[Event.SESSION_NUMBER] == Num(session.value.sessionIndex))
      && (session.None? ==> forall k <- SESSION_KEYS :: k in r <==> k in attrs)
      && (forall k <- attrs :: (session.Some? ==> k !in SESSION_KEYS) && k != Event.PAGE_TITLE && k != Event.PAGE_URL ==>
            r[k] == attrs[k])
      && r[Event.PAGE_TITLE] == Str(pageTitle) && r[Event.PAGE_URL] == Str(pageUrl)
      && r.Keys == attrs.Keys + (if session.Some? then SESSION_KEYS else {}) + {Event.PAGE_TITLE, Event.PAGE_URL}
  {
  }

  // ---------------------------------------------------------------------
  // The event

  /** The event as sent. */
  datatype AnalyticsEvent = AnalyticsEvent(
    hashCode: string,
    eventType: string,
    eventId: string,
    deviceId: string,
    uniqueId: string,
    appId: string,
    timestamp: int,
    hostName: string,
    locale: string,
    systemLanguage: string,
    countryCode: string,
    zoneOffset: int,
    make: string,
    platform: string,
    screenHeight: int,
    screenWidth: int,
    sdkName: string,
    sdkVersion: string,
    user: map<string, UserAttr>,
    attributes: Attributes)

  /** What `createEvent` reads from the browser, the clock, storage and the
      uuid generator at the time of the call. */
  datatype EventEnv = EventEnv(
    eventId: string,
    deviceId: string,
    uniqueId: string,
    now: int,
    hostName: string,
    locale: string,
    systemLanguage: string,
    countryCode: string,
    zoneOffset: int,
    make: string,
    screenHeight: int,
    screenWidth: int,
    sdkVersion: string,
    pageTitle: string,
    pageUrl: string)

  const PLATFORM := "Web"
  const SDK_NAME := "aws-solution-clickstream-sdk"

  /** The event before its hash is known: `hashCode` is the empty string. */
  function Unhashed(env: EventEnv, appId: string, event: ClickstreamEvent, user: map<string, UserAttr>,
                    session: Option<SessionData>): AnalyticsEvent
  {
    var attrs := Enrich(AttributesWithCheck(event.attributes), session, env.now, env.pageTitle, env.pageUrl);
    AnalyticsEvent("", event.name, env.eventId, env.deviceId, env.uniqueId, appId, env.now,
      env.hostName, env.locale, env.systemLanguage, env.countryCode, env.zoneOffset, env.make,
      PLATFORM, env.screenHeight, env.screenWidth, SDK_NAME, env.sdkVersion, user, attrs)
  }

  /** `createEvent`: `serialize` stands for `JSON.stringify` and `digest`
      for SHA-256 of the UTF-8 text. */
  function CreateEvent(env: EventEnv, appId: string, event: ClickstreamEvent, user: map<string, UserAttr>,
                       session: Option<SessionData>, serialize: AnalyticsEvent -> string,
                       digest: string -> seq<HashUtil.Byte>): (r: AnalyticsEvent)
    ensures r.(hashCode := "") == Unhashed(env, appId, event, user, session)
    ensures r.hashCode == HashUtil.HashCode(digest(serialize(r.(hashCode := ""))))
  {
    var unhashed := Unhashed(env, appId, event, user, session);
    unhashed.(hashCode := HashUtil.HashCode(digest(serialize(unhashed))))
  }

  /** The hash is taken over the event with an empty hash code, differs
      from it in nothing else, and is eight lowercase hex digits for a
      digest of at least four bytes. The event carries the event's name,
      the filtered and enriched attributes and the fixed platform and sdk
      name. */
  lemma CreateEventShape(env: EventEnv, appId: string, event: ClickstreamEvent, user: map<string, UserAttr>,
                         session: Option<SessionData>, serialize: AnalyticsEvent -> string,
                         digest: string -> seq<HashUtil.Byte>)
    requires |digest(serialize(Unhashed(env, appId, event, user, session)))| >= 4
    ensures var r := CreateEvent(env, appId, event, user, session, serialize, digest);
      && r.(hashCode := "") == Unhashed(env, appId, event, user, session)
      && r.hashCode == HashUtil.HashCode(digest(serialize(r.(hashCode := ""))))
      && |r.hashCode| == HashUtil.HASH_CODE_LENGTH
      && (forall i :: 0 <= i < |r.hashCode| ==> HashUtil.IsLowerHex(r.hashCode[i]))
      && r.eventType == event.name && r.appId == appId && r.timestamp == env.now
      && r.platform == "Web" && r.sdkName == "aws-solution-clickstream-sdk"
      && r.user == user
      && r.attributes == Enrich(AttributesWithCheck(event.attributes), session, env.now, env.pageTitle, env.pageUrl)
  {
    HashUtil.HashCodeShape(digest(serialize(Unhashed(env, appId, event, user, session))));
  }
}
