/** The provider behind the public API (src/provider/ClickstreamProvider.ts):
    its configuration, the user profile it keeps and persists, and the name
    gate in front of the recorder. */
module ClickstreamProvider {
  import opened Types
  import opened StorageUtil
  import EventChecker
  import Event
  import EventRecorder
  import NetRequest
  import HashUtil
  import AnalyticsEventBuilder
  import opened Text

  /** The configuration a new provider starts with; the fields the source
      leaves unset are off or absent. */
  const DEFAULT_CONFIGURATION := Configuration(
    appId := "",
    endpoint := "",
    sendMode := Immediate,
    sendEventsInterval := 5000,
    pageType := MultiPageApp,
    sessionTimeoutDuration := 1800000,
    idleTimeoutDuration := None,
    searchKeyWords := None,
    authCookie := None,
    isLogEvents := false,
    isTrackPageViewEvents := true,
    isTrackUserEngagementEvents := false,
    isTrackClickEvents := false,
    isTrackScrollEvents := false,
    isTrackSearchEvents := false,
    isTrackPageLoadEvents := false,
    isTrackAppStartEvents := false,
    isTrackAppEndEvents := false)

  /** `Object.assign(configuration, patch)`: appId and endpoint always, and
      every other field the patch gives. */
  function Overlay(c: Configuration, p: ConfigPatch): Configuration {
    Configuration(
      p.appId, p.endpoint,
      OrElse(p.sendMode, c.sendMode),
      OrElse(p.sendEventsInterval, c.sendEventsInterval),
      OrElse(p.pageType, c.pageType),
      OrElse(p.sessionTimeoutDuration, c.sessionTimeoutDuration),
      if p.idleTimeoutDuration.Some? then p.idleTimeoutDuration else c.idleTimeoutDuration,
      if p.searchKeyWords.Some? then p.searchKeyWords else c.searchKeyWords,
      if p.authCookie.Some? then p.authCookie else c.authCookie,
      OrElse(p.isLogEvents, c.isLogEvents),
      OrElse(p.isTrackPageViewEvents, c.isTrackPageViewEvents),
      OrElse(p.isTrackUserEngagementEvents, c.isTrackUserEngagementEvents),
      OrElse(p.isTrackClickEvents, c.isTrackClickEvents),
      OrElse(p.isTrackScrollEvents, c.isTrackScrollEvents),
      OrElse(p.isTrackSearchEvents, c.isTrackSearchEvents),
      OrElse(p.isTrackPageLoadEvents, c.isTrackPageLoadEvents),
      OrElse(p.isTrackAppStartEvents, c.isTrackAppStartEvents),
      OrElse(p.isTrackAppEndEvents, c.isTrackAppEndEvents))
  }

  /** A patch giving only appId and endpoint. */
  function BarePatch(appId: string, endpoint: string): ConfigPatch {
    ConfigPatch(appId, endpoint, None, None, None, None, None, None, None,
                None, None, None, None, None, None, None, None, None)
  }

  /** Overlaying twice is overlaying once. */
  lemma OverlayIdempotent(c: Configuration, p: ConfigPatch)
    ensures Overlay(Overlay(c, p), p) == Overlay(c, p)
  {
    var once := Overlay(c, p);
    var twice := Overlay(once, p);
    assert twice.sendMode == once.sendMode && twice.sendEventsInterval == once.sendEventsInterval;
    assert twice.pageType == once.pageType && twice.sessionTimeoutDuration == once.sessionTimeoutDuration;
    assert twice.isLogEvents == once.isLogEvents && twice.isTrackPageViewEvents == once.isTrackPageViewEvents;
  }

  /** A bare patch changes only appId and endpoint, and a field the patch
      gives wins over the old one while a field it leaves out is kept. */
  lemma OverlayRule(c: Configuration, p: ConfigPatch)
    ensures Overlay(c, BarePatch(p.appId, p.endpoint)) == c.(appId := p.appId, endpoint := p.endpoint)
    ensures p.sendMode.Some? ==> Overlay(c, p).sendMode == p.sendMode.value
    ensures p.sendMode.None? ==> Overlay(c, p).sendMode == c.sendMode
    ensures p.sessionTimeoutDuration.Some? ==> Overlay(c, p).sessionTimeoutDuration == p.sessionTimeoutDuration.value
    ensures p.sessionTimeoutDuration.None? ==> Overlay(c, p).sessionTimeoutDuration == c.sessionTimeoutDuration
  {
  }

  /** What `configure` returns: its argument when appId or endpoint is
      empty, else the live configuration. */
  datatype ConfigureResult = Rejected(given: ConfigPatch) | Applied(configuration: Configuration)

  /** What an operation reads from outside the provider: the surroundings
      of `createEvent`, `JSON.stringify`, SHA-256, and the endpoint's
      replies. */
  datatype Outside = Outside(
    env: AnalyticsEventBuilder.EventEnv,
    serialize: AnalyticsEventBuilder.AnalyticsEvent -> string,
    digest: string -> seq<HashUtil.Byte>,
    server: nat -> NetRequest.Attempt)

  // ---------------------------------------------------------------------
  // The profile update of `setUserAttributes`, on values

  /** A rejected user attribute: the check's code and message. */
  datatype Rejection = Rejection(code: int, message: string)

  /** The profile while `setUserAttributes` runs, and each rejection so far
      with the profile as it was when the rejection was reported. */
  datatype Profile = Profile(attrs: map<string, UserAttr>, reports: seq<(Rejection, map<string, UserAttr>)>)

  /** One pass of the loop: `null` deletes the key unchecked; any other
      value is checked against the profile's current size, then stored with
      the call's timestamp or reported. */
  function ProfileStep(p: Profile, key: string, value: Value, now: int): Profile {
    if value == Null then p.(attrs := p.attrs - {key})
    else
      var check := EventChecker.CheckUserAttribute(|p.attrs|, key, value);
      if check.code > 0 then
        p.(reports := p.reports + [(Rejection(check.code, check.message.value), p.attrs)])
      else
        p.(attrs := p.attrs[key := UserAttr(value, now)])
  }

  function ProfileFrom(p: Profile, entries: seq<(string, Value)>, now: int): Profile
    decreases |entries|
  {
    if entries == [] then p
    else ProfileFrom(ProfileStep(p, entries[0].0, entries[0].1, now), entries[1..], now)
  }

  /** Reference: every entry applied without checks. */
  function ApplyAll(attrs: map<string, UserAttr>, entries: seq<(string, Value)>, now: int): map<string, UserAttr>
    decreases |entries|
  {
    if entries == [] then attrs
    else
      var e := entries[0];
      ApplyAll(if e.1 == Null then attrs - {e.0} else attrs[e.0 := UserAttr(e.1, now)], entries[1..], now)
  }

  /** The event reporting a rejected user attribute. */
  function ErrorEvent(r: Rejection): ClickstreamEvent {
    ClickstreamEvent(Event.CLICKSTREAM_ERROR,
      Some([(Event.ERROR_CODE, Num(r.code)), (Event.ERROR_MESSAGE, Str(r.message))]), false)
  }

  /** The event the recorder is handed for one report. */
  function Report(outside: Outside, appId: string, report: (Rejection, map<string, UserAttr>))
    : AnalyticsEventBuilder.AnalyticsEvent
  {
    AnalyticsEventBuilder.CreateEvent(outside.env, appId, ErrorEvent(report.0), report.1, None,
                                      outside.serialize, outside.digest)
  }

  /** The events the recorder is handed for a list of reports; the k-th
      report is built in the surroundings `outsides(k)` (its own event id,
      clock and endpoint replies). */
  function Reported(outsides: nat -> Outside, appId: string, reports: seq<(Rejection, map<string, UserAttr>)>)
    : seq<AnalyticsEventBuilder.AnalyticsEvent>
  {
    if reports == [] then []
    else
      var k := |reports| - 1;
      Reported(outsides, appId, reports[..k]) + [Report(outsides(k), appId, reports[k])]
  }

  /** What the recorder's sends for a list of reports do to its state: one
      `record` per report, in order, the k-th with the k-th surroundings. */
  ghost function SentFor(s: EventRecorder.RecorderState, mode: SendMode, outsides: nat -> Outside, appId: string,
                         reports: seq<(Rejection, map<string, UserAttr>)>): EventRecorder.RecorderState
  {
    if reports == [] then s
    else
      var k := |reports| - 1;
      var o := outsides(k);
      EventRecorder.RecordEffect(SentFor(s, mode, outsides, appId, reports[..k]), mode,
        o.serialize(Report(o, appId, reports[k])),
        NetRequest.DeliveredAsWritten(o.server, NetRequest.REQUEST_RETRY_TIMES, NetRequest.REQUEST_TIMEOUT))
  }

  lemma AppendAssoc<T>(a: seq<T>, b: seq<T>, c: seq<T>)
    ensures (a + b) + c == a + (b + c)
  {
  }

  /** One more report adds one event to `Reported`, built in the
      surroundings of its index; no new report adds none. */
  lemma ReportedStep(outsides: nat -> Outside, appId: string, base: seq<AnalyticsEventBuilder.AnalyticsEvent>,
                     reports: seq<(Rejection, map<string, UserAttr>)>, longer: seq<(Rejection, map<string, UserAttr>)>,
                     recorded: seq<AnalyticsEventBuilder.AnalyticsEvent>, recorded': seq<AnalyticsEventBuilder.AnalyticsEvent>)
    requires recorded == base + Reported(outsides, appId, reports)
    requires longer == reports ==> recorded' == recorded
    requires longer != reports ==>
      && |longer| == |reports| + 1 && longer[..|reports|] == reports
      && recorded' == recorded + [Report(outsides(|reports|), appId, longer[|reports|])]
    ensures recorded' == base + Reported(outsides, appId, longer)
  {
    if longer != reports {
      AppendAssoc(base, Reported(outsides, appId, reports), [Report(outsides(|reports|), appId, longer[|reports|])]);
    }
  }

  /** One more report adds one send to `SentFor`, in the surroundings of
      its index. */
  lemma SentForSnoc(s: EventRecorder.RecorderState, mode: SendMode, outsides: nat -> Outside, appId: string,
                    reports: seq<(Rejection, map<string, UserAttr>)>, report: (Rejection, map<string, UserAttr>))
    ensures var o := outsides(|reports|);
      SentFor(s, mode, outsides, appId, reports + [report]) ==
        EventRecorder.RecordEffect(SentFor(s, mode, outsides, appId, reports), mode,
          o.serialize(Report(o, appId, report)),
          NetRequest.DeliveredAsWritten(o.server, NetRequest.REQUEST_RETRY_TIMES, NetRequest.REQUEST_TIMEOUT))
  {
    assert (reports + [report])[..|reports|] == reports;
  }

  /** Each report costs one sequence number and one request in Immediate
      mode, and nothing in the other modes; the requests only accumulate,
      and only the sequence id and failed-event slots of the store change. */
  lemma {:induction false} SentForEffects(s: EventRecorder.RecorderState, mode: SendMode, outsides: nat -> Outside,
                                          appId: string, reports: seq<(Rejection, map<string, UserAttr>)>)
    requires NumberSlotsValid(s.items) && BundleSequenceIdOf(s.items) == s.bundleSequenceId
    ensures var r := SentFor(s, mode, outsides, appId, reports);
      && NumberSlotsValid(r.items) && BundleSequenceIdOf(r.items) == r.bundleSequenceId
      && (mode != Immediate ==> r == s)
      && (mode == Immediate ==>
            && r.bundleSequenceId == s.bundleSequenceId + |reports|
            && |r.requests| == |s.requests| + |reports|)
      && s.requests <= r.requests
      && OnlyChanged(s.items, r.items, {BUNDLE_SEQUENCE_ID_KEY, FAILED_EVENTS_KEY})
    decreases |reports|
  {
    if reports != [] {
      var k := |reports| - 1;
      var o := outsides(k);
      var prev := SentFor(s, mode, outsides, appId, reports[..k]);
      SentForEffects(s, mode, outsides, appId, reports[..k]);
      if mode == Immediate {
        var event := o.serialize(Report(o, appId, reports[k]));
        var delivered := NetRequest.DeliveredAsWritten(o.server, NetRequest.REQUEST_RETRY_TIMES, NetRequest.REQUEST_TIMEOUT);
        EventRecorder.RecordStepEffects(prev.items, prev.bundleSequenceId, event, delivered);
      }
    }
  }

  /** One more entry of the loop. */
  lemma ProfileFromCons(p: Profile, entries: seq<(string, Value)>, i: nat, now: int)
    requires i < |entries|
    ensures ProfileFrom(p, entries[i..], now) ==
      ProfileFrom(ProfileStep(p, entries[i].0, entries[i].1, now), entries[i + 1..], now)
  {
    assert entries[i..][1..] == entries[i + 1..];
  }

  lemma {:induction false} ProfileFromAppend(p: Profile, xs: seq<(string, Value)>, ys: seq<(string, Value)>, now: int)
    ensures ProfileFrom(p, xs + ys, now) == ProfileFrom(ProfileFrom(p, xs, now), ys, now)
    decreases |xs|
  {
    if xs != [] {
      assert (xs + ys)[1..] == xs[1..] + ys;
      ProfileFromAppend(ProfileStep(p, xs[0].0, xs[0].1, now), xs[1..], ys, now);
    } else {
      assert xs + ys == ys;
    }
  }

  /** Reports already made are kept, and each new one carries a user
      attribute error code and a message of at most 256 characters; there
      is at most one per entry. */
  lemma {:induction false} ProfileReports(p: Profile, entries: seq<(string, Value)>, now: int)
    ensures var r := ProfileFrom(p, entries, now);
      && p.reports <= r.reports
      && |r.reports| <= |p.reports| + |entries|
      && forall i :: |p.reports| <= i < |r.reports| ==>
           Event.USER_ATTRIBUTE_SIZE_EXCEED <= r.reports[i].0.code <= Event.USER_ATTRIBUTE_VALUE_LENGTH_EXCEED
           && |r.reports[i].0.message| <= Event.MAX_LENGTH_OF_ERROR_VALUE
    decreases |entries|
  {
    if entries != [] {
      var next := ProfileStep(p, entries[0].0, entries[0].1, now);
      if entries[0].1 != Null {
        EventChecker.UserAttributeVerdict(|p.attrs|, entries[0].0, entries[0].1);
      }
      ProfileReports(next, entries[1..], now);
    }
  }

  /** A key not in the profile and given no non-null value stays out. */
  lemma {:induction false} ProfileNotAdded(p: Profile, entries: seq<(string, Value)>, now: int, key: string)
    requires key !in p.attrs
    requires forall i :: 0 <= i < |entries| && entries[i].0 == key ==> entries[i].1 == Null
    ensures key !in ProfileFrom(p, entries, now).attrs
    decreases |entries|
  {
    if entries != [] {
      assert forall i :: 0 <= i < |entries[1..]| ==> entries[1..][i] == entries[i + 1];
      ProfileNotAdded(ProfileStep(p, entries[0].0, entries[0].1, now), entries[1..], now, key);
    }
  }

  /** In distinct entries, no entry after a key's own repeats it. */
  lemma LaterKeysDiffer(before: seq<(string, Value)>, key: string, after: seq<(string, Value)>)
    requires DistinctKeys(before + [(key, Null)] + after)
    ensures forall j :: 0 <= j < |after| ==> after[j].0 != key
  {
    var all := before + [(key, Null)] + after;
    forall j | 0 <= j < |after|
      ensures after[j].0 != key
    {
      assert all[|before|] == (key, Null);
      assert after[j] == all[|before| + 1 + j];
    }
  }

  /** The profile after the entries up to a key's `null` no longer holds
      the key. */
  lemma NullStepDeletes(p: Profile, before: seq<(string, Value)>, key: string, now: int)
    ensures key !in ProfileFrom(p, before + [(key, Null)], now).attrs
  {
    ProfileFromAppend(p, before, [(key, Null)], now);
  }

  /** `null` deletes: a key given `null` is absent from the profile
      afterwards, whatever it held before and without any check. */
  lemma NullDeletes(p: Profile, before: seq<(string, Value)>, key: string, after: seq<(string, Value)>, now: int)
    requires DistinctKeys(before + [(key, Null)] + after)
    ensures key !in ProfileFrom(p, before + [(key, Null)] + after, now).attrs
  {
    ProfileFromAppend(p, before + [(key, Null)], after, now);
    NullStepDeletes(p, before, key, now);
    LaterKeysDiffer(before, key, after);
    ProfileNotAdded(ProfileFrom(p, before + [(key, Null)], now), after, now, key);
  }

  /** Every value in the profile afterwards was either there before,
      untouched, or stored by this call from a non-null entry with the
      call's timestamp. */
  lemma {:induction false} ProfileValues(p: Profile, entries: seq<(string, Value)>, now: int)
    ensures var r := ProfileFrom(p, entries, now).attrs;
      forall k <- r ::
        (k in p.attrs && r[k] == p.attrs[k]) ||
        (r[k].setTimestamp == now && r[k].value != Null &&
         exists i :: 0 <= i < |entries| && entries[i] == (k, r[k].value))
    decreases |entries|
  {
    if entries != [] {
      var next := ProfileStep(p, entries[0].0, entries[0].1, now);
      ProfileValues(next, entries[1..], now);
      var r := ProfileFrom(p, entries, now).attrs;
      forall k <- r
        ensures (k in p.attrs && r[k] == p.attrs[k]) ||
          (r[k].setTimestamp == now && r[k].value != Null &&
           exists i :: 0 <= i < |entries| && entries[i] == (k, r[k].value))
      {
        if !(k in p.attrs && r[k] == p.attrs[k]) {
          if k in next.attrs && r[k] == next.attrs[k] {
            assert entries[0] == (k, r[k].value);
          } else {
            var i :| 0 <= i < |entries[1..]| && entries[1..][i] == (k, r[k].value);
            assert entries[i + 1] == (k, r[k].value);
          }
        }
      }
    }
  }

  /** The profile never grows past 100 attributes: a new value is only
      stored while fewer than 100 are held. */
  lemma {:induction false} ProfileWithinCap(p: Profile, entries: seq<(string, Value)>, now: int)
    requires |p.attrs| <= Event.MAX_NUM_OF_USER_ATTRIBUTES
    ensures |ProfileFrom(p, entries, now).attrs| <= Event.MAX_NUM_OF_USER_ATTRIBUTES
    decreases |entries|
  {
    if entries != [] {
      var next := ProfileStep(p, entries[0].0, entries[0].1, now);
      if entries[0].1 != Null {
        EventChecker.UserAttributeVerdict(|p.attrs|, entries[0].0, entries[0].1);
      }
      ProfileWithinCap(next, entries[1..], now);
    }
  }

  /** The count checked is the profile's size, so at 100 attributes even a
      new value for a key already held is rejected with 3001. */
  lemma FullProfileRejects(p: Profile, key: string, value: Value, now: int)
    requires |p.attrs| >= Event.MAX_NUM_OF_USER_ATTRIBUTES && value != Null
    ensures var r := ProfileStep(p, key, value, now);
      && r.attrs == p.attrs
      && |r.reports| == |p.reports| + 1
      && r.reports[|p.reports|].0.code == Event.USER_ATTRIBUTE_SIZE_EXCEED
  {
  }

  /** A name and value that pass the user attribute name and value checks. */
  predicate WithinUserLimits(key: string, value: Value) {
    |key| <= Event.MAX_LENGTH_OF_NAME && EventChecker.IsValidName(key)
    && |EventChecker.ValueString(value)| <= Event.MAX_LENGTH_OF_USER_VALUE
  }

  /** With room under the cap and every name and value within the limits,
      nothing is reported and every entry is applied as given. */
  lemma {:induction false} AllPassingApplied(p: Profile, entries: seq<(string, Value)>, now: int)
    requires |p.attrs| + |entries| <= Event.MAX_NUM_OF_USER_ATTRIBUTES
    requires forall e <- entries :: WithinUserLimits(e.0, e.1)
    ensures ProfileFrom(p, entries, now) == Profile(ApplyAll(p.attrs, entries, now), p.reports)
    decreases |entries|
  {
    if entries != [] {
      var e := entries[0];
      assert e in entries;
      if e.1 != Null {
        assert EventChecker.CheckUserAttribute(|p.attrs|, e.0, e.1).code == Event.NO_ERROR;
      }
      var next := ProfileStep(p, e.0, e.1, now);
      assert |next.attrs| <= |p.attrs| + 1;
      assert forall x <- entries[1..] :: x in entries;
      AllPassingApplied(next, entries[1..], now);
    }
  }

  /** An error report passes the attribute filter intact: its two reserved
      names are valid and its message is short. */
  lemma ErrorEventKept(r: Rejection)
    requires 0 <= r.code < 10000 && |r.message| <= Event.MAX_LENGTH_OF_ERROR_VALUE
    ensures EventChecker.CheckEventName(ErrorEvent(r).name).code == Event.NO_ERROR
    ensures AnalyticsEventBuilder.AttributesWithCheck(ErrorEvent(r).attributes) ==
      map[Event.ERROR_CODE := Num(r.code), Event.ERROR_MESSAGE := Str(r.message)]
  {
    var entries := [(Event.ERROR_CODE, Num(r.code)), (Event.ERROR_MESSAGE, Str(r.message))];
    assert EventChecker.IsValidName(Event.CLICKSTREAM_ERROR);
    EventChecker.EventNameVerdict(Event.CLICKSTREAM_ERROR);
    assert AnalyticsEventBuilder.WithinLimits(Event.ERROR_CODE, Num(r.code)) by {
      assert EventChecker.IsValidName(Event.ERROR_CODE);
      NatToStringShort(r.code);
    }
    assert AnalyticsEventBuilder.WithinLimits(Event.ERROR_MESSAGE, Str(r.message)) by {
      assert EventChecker.IsValidName(Event.ERROR_MESSAGE);
    }
    assert forall e <- entries :: AnalyticsEventBuilder.WithinLimits(e.0, e.1);
    AnalyticsEventBuilder.AllPassingKept(map[], entries);
    var rest := [(Event.ERROR_MESSAGE, Str(r.message))];
    assert entries[1..] == rest && rest[1..] == [];
    var first := map[Event.ERROR_CODE := Num(r.code)];
    assert AnalyticsEventBuilder.CopyNonNull(map[], entries) == AnalyticsEventBuilder.CopyNonNull(first, rest);
    assert AnalyticsEventBuilder.CopyNonNull(first, rest) == first[Event.ERROR_MESSAGE := Str(r.message)];
    assert AnalyticsEventBuilder.AttributesWithCheck(ErrorEvent(r).attributes) ==
      AnalyticsEventBuilder.FilterFrom(map[], entries);
  }

  // ---------------------------------------------------------------------
  // The provider

  class Provider {
    var configuration: Configuration
    var recorder: EventRecorder.Recorder?
    var userAttribute: map<string, UserAttr>
    /** The browser's local storage. */
    const store: Storage
    /** Every event handed to the recorder, oldest first. */
    ghost var recorded: seq<AnalyticsEventBuilder.AnalyticsEvent>

    /** Once configured, the recorder shares the store and the live
        configuration. */
    ghost predicate Valid()
      reads this, store, recorder
    {
      && store.Valid()
      && (recorder != null ==> recorder.store == store && recorder.config == configuration && recorder.Valid())
    }

    constructor (store: Storage)
      requires store.Valid()
      ensures this.store == store && Valid()
      ensures configuration == DEFAULT_CONFIGURATION
      ensures recorder == null && userAttribute == map[] && recorded == []
    {
      this.store := store;
      configuration := DEFAULT_CONFIGURATION;
      recorder := null;
      userAttribute := map[];
      recorded := [];
    }

    /** `configure`: `server` answers the failed-event resend. */
    method Configure(patch: ConfigPatch, server: nat -> NetRequest.Attempt) returns (r: ConfigureResult)
      requires Valid()
      modifies this, store
      ensures Valid() && recorded == old(recorded)
      ensures patch.appId == "" || patch.endpoint == "" ==>
        && r == Rejected(patch)
        && configuration == old(configuration) && recorder == old(recorder)
        && userAttribute == old(userAttribute) && store.items == old(store.items)
      ensures patch.appId != "" && patch.endpoint != "" ==>
        && configuration == Overlay(old(configuration), patch) && r == Applied(configuration)
        && recorder != null && fresh(recorder)
        && userAttribute == UserAttributesOf(old(store.items))
        && store.items == EventRecorder.SendFailedStep(old(store.items), BundleSequenceIdOf(old(store.items)),
             NetRequest.DeliveredAsWritten(server, NetRequest.REQUEST_RETRY_TIMES, NetRequest.REQUEST_TIMEOUT))
      ensures patch.appId != "" && patch.endpoint != "" ==>
        var failed := FailedEventsOf(old(store.items));
        var id := BundleSequenceIdOf(old(store.items));
        var delivered := NetRequest.DeliveredAsWritten(server, NetRequest.REQUEST_RETRY_TIMES, NetRequest.REQUEST_TIMEOUT);
        && recorder != null
        && recorder.bundleSequenceId == (if failed == [] then id else id + 1)
        && recorder.requests == (if failed == [] then [] else [EventRecorder.Request(Payload(failed), id, delivered)])
    {
      if patch.appId == "" || patch.endpoint == "" {
        return Rejected(patch);
      }
      configuration := Overlay(configuration, patch);
      var created := new EventRecorder.Recorder(configuration, store);
      recorder := created;
      userAttribute := store.GetUserAttributes();
      created.SendFailedEvents(server);
      r := Applied(configuration);
    }

    /** `record`: an event whose name fails the check is dropped; any
        other is built into the event to send and handed to the recorder.
        Before `configure` there is no recorder and nothing is recorded. */
    method Record(event: ClickstreamEvent, outside: Outside)
      requires Valid()
      modifies this, store, recorder
      ensures Valid()
      ensures configuration == old(configuration) && recorder == old(recorder) && userAttribute == old(userAttribute)
      ensures EventChecker.CheckEventName(event.name).code != Event.NO_ERROR || recorder == null ==>
        && recorded == old(recorded) && store.items == old(store.items)
        && (recorder != null ==>
              recorder.requests == old(recorder.requests) && recorder.bundleSequenceId == old(recorder.bundleSequenceId))
      ensures EventChecker.CheckEventName(event.name).code == Event.NO_ERROR && recorder != null ==>
        var sent := AnalyticsEventBuilder.CreateEvent(outside.env, configuration.appId, event, userAttribute, None,
                                                      outside.serialize, outside.digest);
        && recorded == old(recorded) + [sent]
        && (configuration.sendMode == Immediate ==>
              var delivered := NetRequest.DeliveredAsWritten(outside.server, NetRequest.REQUEST_RETRY_TIMES, NetRequest.REQUEST_TIMEOUT);
              && recorder.bundleSequenceId == old(recorder.bundleSequenceId) + 1
              && recorder.requests == old(recorder.requests) +
                   [EventRecorder.Request(Payload([outside.serialize(sent)]), old(recorder.bundleSequenceId), delivered)]
              && store.items == EventRecorder.RecordStep(old(store.items), old(recorder.bundleSequenceId),
                                                         outside.serialize(sent), delivered))
        && recorder.State() == EventRecorder.RecordEffect(old(recorder.State()), configuration.sendMode,
             outside.serialize(sent),
             NetRequest.DeliveredAsWritten(outside.server, NetRequest.REQUEST_RETRY_TIMES, NetRequest.REQUEST_TIMEOUT))
    {
      var result := EventChecker.CheckEventName(event.name);
      if result.code > 0 {
        return;
      }
      if recorder == null {
        return;
      }
      var sent := AnalyticsEventBuilder.CreateEvent(outside.env, configuration.appId, event, userAttribute, None,
                                                    outside.serialize, outside.digest);
      recorded := recorded + [sent];
      recorder.Record(outside.serialize(sent), outside.server);
    }

    /** `setUserId`: `None` stands for `null`. */
    method SetUserId(userId: Option<string>, now: int)
      requires Valid()
      modifies this, store
      ensures Valid()
      ensures configuration == old(configuration) && recorder == old(recorder) && recorded == old(recorded)
      ensures userId.None? ==> userAttribute == old(userAttribute) - {Event.USER_ID}
      ensures userId.Some? ==> userAttribute == old(userAttribute)[Event.USER_ID := UserAttr(Str(userId.value), now)]
      ensures store.items == UpdateUserAttributesStep(old(store.items), userAttribute)
      ensures store.GetUserAttributes() == userAttribute
    {
      if userId.None? {
        userAttribute := userAttribute - {Event.USER_ID};
      } else {
        userAttribute := userAttribute[Event.USER_ID := UserAttr(Str(userId.value), now)];
      }
      Persist();
    }

    /** `StorageUtil.updateUserAttributes(this.userAttribute)`. */
    method Persist()
      requires Valid()
      modifies store
      ensures Valid()
      ensures store.items == UpdateUserAttributesStep(old(store.items), userAttribute)
      ensures store.GetUserAttributes() == userAttribute
    {
      UserAttributesRoundTrip(store.items, userAttribute);
      KeysDistinct();
      store.UpdateUserAttributes(userAttribute);
    }

    /** `setUserAttributes`: the entries come in `for…in` order, as for
        `ClickstreamEvent`'s attributes; `now` is the call's single
        timestamp, and the k-th rejection is reported in the surroundings
        `outsides(k)`. */
    method SetUserAttributes(attributes: seq<(string, Value)>, now: int, outsides: nat -> Outside)
      requires Valid()
      modifies this, store, recorder
      ensures Valid()
      ensures configuration == old(configuration) && recorder == old(recorder)
      ensures var p := ProfileFrom(Profile(old(userAttribute), []), attributes, now);
        && userAttribute == p.attrs
        && store.GetUserAttributes() == userAttribute
        && recorded == old(recorded) + (if recorder == null then [] else Reported(outsides, configuration.appId, p.reports))
        && (recorder == null ==> store.items == UpdateUserAttributesStep(old(store.items), userAttribute))
      ensures recorder != null ==>
        var p := ProfileFrom(Profile(old(userAttribute), []), attributes, now);
        var sent := SentFor(old(recorder.State()), configuration.sendMode, outsides, configuration.appId, p.reports);
        && recorder.bundleSequenceId == sent.bundleSequenceId && recorder.requests == sent.requests
        && store.items == UpdateUserAttributesStep(sent.items, userAttribute)
    {
      ghost var reports := ApplyEntries(attributes, now, outsides);
      Persist();
    }

    /** The loop of `setUserAttributes`. */
    method ApplyEntries(attributes: seq<(string, Value)>, now: int, outsides: nat -> Outside)
      returns (ghost reports: seq<(Rejection, map<string, UserAttr>)>)
      requires Valid()
      modifies this, store, recorder
      ensures Valid()
      ensures configuration == old(configuration) && recorder == old(recorder)
      ensures Profile(userAttribute, reports) == ProfileFrom(Profile(old(userAttribute), []), attributes, now)
      ensures recorded == old(recorded) + (if recorder == null then [] else Reported(outsides, configuration.appId, reports))
      ensures recorder == null ==> store.items == old(store.items)
      ensures recorder != null ==>
        recorder.State() == SentFor(old(recorder.State()), configuration.sendMode, outsides, configuration.appId, reports)
    {
      ghost var target := ProfileFrom(Profile(userAttribute, []), attributes, now);
      ghost var base := recorded;
      ghost var items0 := store.items;
      ghost var state0 := if recorder == null then EventRecorder.RecorderState(map[], 0, []) else recorder.State();
      reports := [];
      var rejections := 0;
      var i := 0;
      while i < |attributes|
        invariant 0 <= i <= |attributes|
        invariant rejections == |reports|
        invariant Valid()
        invariant configuration == old(configuration) && recorder == old(recorder)
        invariant ProfileFrom(Profile(userAttribute, reports), attributes[i..], now) == target
        invariant recorded == base + (if recorder == null then [] else Reported(outsides, configuration.appId, reports))
        invariant recorder == null ==> store.items == items0
        invariant recorder != null ==>
          recorder.State() == SentFor(state0, configuration.sendMode, outsides, configuration.appId, reports)
      {
        rejections, reports := ApplyAt(attributes, i, now, outsides, rejections, reports, target, base, state0);
        i := i + 1;
      }
      assert attributes[i..] == [];
    }

    /** The loop body of `setUserAttributes`, carrying the loop's
        invariant from one index to the next. */
    method ApplyAt(attributes: seq<(string, Value)>, i: nat, now: int, outsides: nat -> Outside, rejections: nat,
                   ghost reports: seq<(Rejection, map<string, UserAttr>)>, ghost target: Profile,
                   ghost base: seq<AnalyticsEventBuilder.AnalyticsEvent>, ghost state0: EventRecorder.RecorderState)
      returns (rejections': nat, ghost reports': seq<(Rejection, map<string, UserAttr>)>)
      requires i < |attributes| && Valid() && rejections == |reports|
      requires ProfileFrom(Profile(userAttribute, reports), attributes[i..], now) == target
      requires recorded == base + (if recorder == null then [] else Reported(outsides, configuration.appId, reports))
      requires recorder != null ==>
        recorder.State() == SentFor(state0, configuration.sendMode, outsides, configuration.appId, reports)
      modifies this, store, recorder
      ensures Valid()
      ensures configuration == old(configuration) && recorder == old(recorder)
      ensures rejections' == |reports'|
      ensures ProfileFrom(Profile(userAttribute, reports'), attributes[i + 1..], now) == target
      ensures recorded == base + (if recorder == null then [] else Reported(outsides, configuration.appId, reports'))
      ensures recorder == null ==> store.items == old(store.items)
      ensures recorder != null ==>
        recorder.State() == SentFor(state0, configuration.sendMode, outsides, configuration.appId, reports')
    {
      ProfileFromCons(Profile(userAttribute, reports), attributes, i, now);
      rejections', reports' := ApplyEntry(attributes[i].0, attributes[i].1, now, outsides, rejections, reports);
      if recorder != null {
        ReportedStep(outsides, configuration.appId, base, reports, reports', old(recorded), recorded);
        if reports' != reports {
          SentForSnoc(state0, configuration.sendMode, outsides, configuration.appId, reports, reports'[|reports|]);
          assert reports' == reports + [reports'[|reports|]];
        }
      }
    }

    /** One pass of the loop of `setUserAttributes`: at most one new report,
        recorded in the surroundings of its index. */
    method ApplyEntry(key: string, value: Value, now: int, outsides: nat -> Outside, rejections: nat,
                      ghost reports: seq<(Rejection, map<string, UserAttr>)>)
      returns (rejections': nat, ghost reports': seq<(Rejection, map<string, UserAttr>)>)
      requires Valid() && rejections == |reports|
      modifies this, store, recorder
      ensures Valid()
      ensures configuration == old(configuration) && recorder == old(recorder)
      ensures Profile(userAttribute, reports') == ProfileStep(Profile(old(userAttribute), reports), key, value, now)
      ensures reports' == reports || (|reports'| == |reports| + 1 && reports'[..|reports|] == reports)
      ensures rejections' == |reports'|
      ensures reports' == reports || recorder == null ==>
        recorded == old(recorded) && store.items == old(store.items)
        && (recorder != null ==> recorder.State() == old(recorder.State()))
      ensures reports' != reports && recorder != null ==>
        var o := outsides(|reports|);
        var sent := Report(o, configuration.appId, reports'[|reports|]);
        && recorded == old(recorded) + [sent]
        && recorder.State() == EventRecorder.RecordEffect(old(recorder.State()), configuration.sendMode,
             o.serialize(sent), NetRequest.DeliveredAsWritten(o.server, NetRequest.REQUEST_RETRY_TIMES, NetRequest.REQUEST_TIMEOUT))
    {
      rejections', reports' := rejections, reports;
      if value == Null {
        userAttribute := userAttribute - {key};
      } else {
        var currentNumber := |userAttribute|;
        var result := EventChecker.CheckUserAttribute(currentNumber, key, value);
        if result.code > 0 {
          var rejection := Rejection(result.code, result.message.value);
          ReportRejection(rejection, outsides(rejections));
          rejections', reports' := rejections + 1, reports + [(rejection, userAttribute)];
        } else {
          userAttribute := userAttribute[key := UserAttr(value, now)];
        }
      }
    }

    /** Records the error event for one rejection. */
    method ReportRejection(r: Rejection, outside: Outside)
      requires Valid()
      requires 0 <= r.code < 10000 && |r.message| <= Event.MAX_LENGTH_OF_ERROR_VALUE
      modifies this, store, recorder
      ensures Valid()
      ensures configuration == old(configuration) && recorder == old(recorder) && userAttribute == old(userAttribute)
      ensures recorder != null ==>
        var sent := Report(outside, configuration.appId, (r, userAttribute));
        && recorded == old(recorded) + [sent]
        && recorder.State() == EventRecorder.RecordEffect(old(recorder.State()), configuration.sendMode,
             outside.serialize(sent), NetRequest.DeliveredAsWritten(outside.server, NetRequest.REQUEST_RETRY_TIMES, NetRequest.REQUEST_TIMEOUT))
      ensures recorder == null ==> recorded == old(recorded) && store.items == old(store.items)
    {
      ErrorEventKept(r);
      Record(ErrorEvent(r), outside);
    }
  }
}
