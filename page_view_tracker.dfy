/** Page views, engagement time and search events
    (src/tracker/PageViewTracker.ts). The source keeps the idle bookkeeping
    in static fields shared by all trackers; with one tracker per page they
    are fields of that tracker here. */
module PageViewTracker {
  import opened Types
  import opened Text
  import opened StorageUtil
  import opened Tracker
  import ScrollTracker
  import Event

  const MIN_ENGAGEMENT_TIME := 1000

  /** `Object.assign(defaults, configured)` on arrays: the configured
      keywords replace the defaults position by position, and the defaults
      beyond them stay. */
  function MergeKeywords(defaults: seq<string>, configured: Option<seq<string>>): (r: seq<string>)
    ensures configured.None? ==> r == defaults
    ensures configured.Some? ==>
      && |r| == Max(|defaults|, |configured.value|)
      && forall i :: 0 <= i < |r| ==>
           r[i] == (if i < |configured.value| then configured.value[i] else defaults[i])
  {
    match configured
    case None => defaults
    case Some(c) => if |c| >= |defaults| then c else c + defaults[|c|..]
  }

  /** `updateIdleDuration`: a gap since the last activity counts as idle
      only when it exceeds the idle timeout; an unset timeout never does. */
  function IdleAfter(idle: int, lastActive: int, timeout: Option<int>, now: int): int {
    var gap := now - lastActive;
    if timeout.Some? && gap > timeout.value then idle + gap else idle
  }

  /** `getLastEngageTime`: time on the screen minus the idle time. */
  function EngageTime(now: int, lastScreenStart: int, idle: int): int {
    now - lastScreenStart - idle
  }

  /** With a clock that does not go back, idle time never exceeds the time
      on the screen, so engagement is never negative; idle time only grows
      between screens. */
  lemma EngagementNonNegative(idle: int, lastScreenStart: int, lastActive: int, timeout: Option<int>, now: int)
    requires lastScreenStart <= lastActive <= now
    requires 0 <= idle <= lastActive - lastScreenStart
    ensures var idle2 := IdleAfter(idle, lastActive, timeout, now);
      && idle <= idle2 <= now - lastScreenStart
      && 0 <= EngageTime(now, lastScreenStart, idle2)
  {
  }

  function EngagementEvents(config: Configuration, engageTime: int, isImmediate: bool): seq<ClickstreamEvent> {
    if config.isTrackUserEngagementEvents && engageTime > MIN_ENGAGEMENT_TIME then
      [ClickstreamEvent(Event.USER_ENGAGEMENT, Some([(Event.ENGAGEMENT_TIMESTAMP, Num(engageTime))]), isImmediate)]
    else []
  }

  /** A page view is due when page views are tracked and this is the first
      page, a multi-page app, or the url or title changed. */
  predicate ShowsPageView(config: Configuration, isFirstTime: bool, prevUrl: string, prevTitle: string, page: Page) {
    config.isTrackPageViewEvents &&
    (isFirstTime || config.pageType == MultiPageApp || prevUrl != page.url || prevTitle != page.title)
  }

  /** Engagement on the previous screen is closed first only in a
      single-page app, after the first page, when a previous url is known. */
  predicate EngagesFirst(config: Configuration, isFirstTime: bool, prevUrl: string) {
    config.pageType != MultiPageApp && !isFirstTime && prevUrl != ""
  }

  function PageViewAttributes(prevUrl: string, prevTitle: string, isEntrances: bool,
                              prevStart: int, lastEngageTime: int): seq<(string, Value)>
  {
    [(Event.PAGE_REFERRER, Str(prevUrl)), (Event.PAGE_REFERRER_TITLE, Str(prevTitle)),
     (Event.ENTRANCES, Num(if isEntrances then 1 else 0))]
    + (if prevStart > 0 then [(Event.PREVIOUS_TIMESTAMP, Num(prevStart))] else [])
    + (if lastEngageTime > 0 then [(Event.ENGAGEMENT_TIMESTAMP, Num(lastEngageTime))] else [])
  }

  /** The page view carries its referrer, ENTRANCES = 1 exactly for an
      entrance, and the previous start time and engagement time only when
      they are positive. */
  lemma PageViewAttributesLookup(prevUrl: string, prevTitle: string, isEntrances: bool,
                                 prevStart: int, lastEngageTime: int)
    ensures var a := PageViewAttributes(prevUrl, prevTitle, isEntrances, prevStart, lastEngageTime);
      && Lookup(a, Event.PAGE_REFERRER) == Some(Str(prevUrl))
      && Lookup(a, Event.PAGE_REFERRER_TITLE) == Some(Str(prevTitle))
      && Lookup(a, Event.ENTRANCES) == Some(Num(if isEntrances then 1 else 0))
      && Lookup(a, Event.PREVIOUS_TIMESTAMP) == (if prevStart > 0 then Some(Num(prevStart)) else None)
      && Lookup(a, Event.ENGAGEMENT_TIMESTAMP) == (if lastEngageTime > 0 then Some(Num(lastEngageTime)) else None)
  {
    var head := [(Event.PAGE_REFERRER, Str(prevUrl)), (Event.PAGE_REFERRER_TITLE, Str(prevTitle)),
                 (Event.ENTRANCES, Num(if isEntrances then 1 else 0))];
    var prev: seq<(string, Value)> := if prevStart > 0 then [(Event.PREVIOUS_TIMESTAMP, Num(prevStart))] else [];
    var engage: seq<(string, Value)> := if lastEngageTime > 0 then [(Event.ENGAGEMENT_TIMESTAMP, Num(lastEngageTime))] else [];
    forall key | key in {Event.PAGE_REFERRER, Event.PAGE_REFERRER_TITLE, Event.ENTRANCES,
                         Event.PREVIOUS_TIMESTAMP, Event.ENGAGEMENT_TIMESTAMP}
      ensures Lookup(head + prev + engage, key) ==
        if Lookup(head, key).Some? then Lookup(head, key)
        else if Lookup(prev, key).Some? then Lookup(prev, key)
        else Lookup(engage, key)
    {
      LookupAppend(head + prev, engage, key);
      LookupAppend(head, prev, key);
    }
    // The five keys differ in length, hence pairwise.
    assert |Event.PAGE_REFERRER| == 14 && |Event.PAGE_REFERRER_TITLE| == 20 && |Event.ENTRANCES| == 10;
    assert |Event.PREVIOUS_TIMESTAMP| == 19 && |Event.ENGAGEMENT_TIMESTAMP| == 21;
    var rest := head[1..];
    assert rest[1..] == [(Event.ENTRANCES, Num(if isEntrances then 1 else 0))];
    forall key | key in {Event.PREVIOUS_TIMESTAMP, Event.ENGAGEMENT_TIMESTAMP}
      ensures Lookup(head, key).None?
    {
      assert rest[1..][1..] == [];
      assert Lookup(head, key) == Lookup(rest, key) == Lookup(rest[1..], key) == Lookup(rest[1..][1..], key);
    }
    assert Lookup(head, Event.ENTRANCES) == Lookup(rest[1..], Event.ENTRANCES);
    if prev != [] {
      assert prev[1..] == [];
      assert Lookup(prev, Event.ENGAGEMENT_TIMESTAMP) == Lookup(prev[1..], Event.ENGAGEMENT_TIMESTAMP);
    }
    if engage != [] {
      assert engage[1..] == [];
      assert Lookup(engage, Event.PREVIOUS_TIMESTAMP) == Lookup(engage[1..], Event.PREVIOUS_TIMESTAMP);
    }
  }

  function PageViewEvent(attrs: seq<(string, Value)>): ClickstreamEvent {
    ClickstreamEvent(Event.PAGE_VIEW, Some(attrs), false)
  }

  /** The first keyword, in list order, present in the query, with its
      first value. */
  function SearchHit(keywords: seq<string>, query: seq<(string, string)>): Option<(string, string)> {
    if keywords == [] then None
    else match QueryGet(query, keywords[0])
      case Some(term) => Some((keywords[0], term))
      case None => SearchHit(keywords[1..], query)
  }

  /** A hit is the first keyword the query has, and there is none exactly
      when the query has no keyword. */
  lemma {:induction false} SearchHitFirst(keywords: seq<string>, query: seq<(string, string)>)
    ensures SearchHit(keywords, query).None? <==> forall k <- keywords :: !QueryHas(query, k)
    ensures SearchHit(keywords, query).Some? ==>
      var (k, term) := SearchHit(keywords, query).value;
      && QueryGet(query, k) == Some(term)
      && exists i :: 0 <= i < |keywords| && keywords[i] == k &&
           forall j :: 0 <= j < i ==> !QueryHas(query, keywords[j])
  {
    if keywords != [] {
      QueryGetHas(query, keywords[0]);
      SearchHitFirst(keywords[1..], query);
      if QueryGet(query, keywords[0]).None? && SearchHit(keywords, query).Some? {
        var (k, term) := SearchHit(keywords, query).value;
        var i :| 0 <= i < |keywords[1..]| && keywords[1..][i] == k &&
          forall j :: 0 <= j < i ==> !QueryHas(query, keywords[1..][j]);
        assert keywords[i + 1] == k;
        forall j | 0 <= j < i + 1
          ensures !QueryHas(query, keywords[j])
        {
          if j > 0 {
            assert keywords[j] == keywords[1..][j - 1];
          }
        }
      }
      if SearchHit(keywords, query).None? {
        forall k <- keywords
          ensures !QueryHas(query, k)
        {
          if k != keywords[0] {
            assert k in keywords[1..];
          }
        }
      }
    }
  }

  function SearchEvent(keyword: string, term: string): ClickstreamEvent {
    ClickstreamEvent(Event.SEARCH, Some([(Event.SEARCH_KEY, Str(keyword)), (Event.SEARCH_TERM, Str(term))]), false)
  }

  /** At most one SEARCH event: for the first keyword the query has. */
  function SearchEvents(config: Configuration, keywords: seq<string>, query: seq<(string, string)>): (r: seq<ClickstreamEvent>)
    ensures |r| <= 1
  {
    if !config.isTrackSearchEvents then []
    else match SearchHit(keywords, query)
      case None => []
      case Some(hit) => [SearchEvent(hit.0, hit.1)]
  }

  /** The events of one `onPageChange`, from the tracker's state before the
      call: nothing unless a page view is due; otherwise the engagement on
      the previous screen when it is closed first, the page view, and at
      most one search. */
  function PageChangeEvents(config: Configuration, isFirstTime: bool, isEntrances: bool,
                            lastScreenStart: int, idle: int, lastActive: int, idleTimeout: Option<int>,
                            lastEngageTime: int, keywords: seq<string>, items: Items,
                            page: Page, now: int): seq<ClickstreamEvent>
    requires NumberSlotsValid(items)
  {
    var prevUrl := PreviousPageUrlOf(items);
    var prevTitle := PreviousPageTitleOf(items);
    if !ShowsPageView(config, isFirstTime, prevUrl, prevTitle, page) then []
    else
      var engages := EngagesFirst(config, isFirstTime, prevUrl);
      var engage := EngageTime(now, lastScreenStart, IdleAfter(idle, lastActive, idleTimeout, now));
      var lastEngage := if engages then engage else lastEngageTime;
      (if engages then EngagementEvents(config, engage, false) else [])
      + [PageViewEvent(PageViewAttributes(prevUrl, prevTitle, isEntrances,
                                          PreviousPageStartTimeOf(items), lastEngage))]
      + SearchEvents(config, keywords, page.query)
  }

  /** What `onPageChange` leaves in the store: when a page view is due, the
      new page's start time, url and title become the previous page's;
      otherwise the store is unchanged. */
  function PageChangeItems(config: Configuration, isFirstTime: bool, items: Items, page: Page, now: int): Items
    requires NumberSlotsValid(items)
  {
    if ShowsPageView(config, isFirstTime, PreviousPageUrlOf(items), PreviousPageTitleOf(items), page) then
      items[PREVIOUS_PAGE_START_TIME_KEY := StoredText(IntToString(now))]
           [PREVIOUS_PAGE_URL_KEY := StoredText(page.url)]
           [PREVIOUS_PAGE_TITLE_KEY := StoredText(page.title)]
    else items
  }

  /** After a page view the store reads back the page just entered as the
      previous page, so an unchanged page in a single-page app shows no
      second page view; no other slot changes. */
  lemma PageChangeItemsEffects(config: Configuration, isFirstTime: bool, items: Items, page: Page, now: int)
    requires NumberSlotsValid(items)
    ensures var after := PageChangeItems(config, isFirstTime, items, page, now);
      var shows := ShowsPageView(config, isFirstTime, PreviousPageUrlOf(items), PreviousPageTitleOf(items), page);
      && NumberSlotsValid(after)
      && (!shows ==> after == items)
      && (shows ==>
            && PreviousPageUrlOf(after) == page.url && PreviousPageTitleOf(after) == page.title
            && PreviousPageStartTimeOf(after) == now
            && (config.pageType != MultiPageApp ==> !ShowsPageView(config, false, page.url, page.title, page)))
      && OnlyChanged(items, after, {PREVIOUS_PAGE_START_TIME_KEY, PREVIOUS_PAGE_URL_KEY, PREVIOUS_PAGE_TITLE_KEY})
  {
    KeysDistinct();
    ParseIntRoundTrip(now);
  }

  /** A page change records exactly one page view when one is due and
      nothing otherwise; before it comes at most one engagement event, only
      in the single-page case, and after it at most one search. */
  lemma PageChangeEventsShape(config: Configuration, isFirstTime: bool, isEntrances: bool,
                              lastScreenStart: int, idle: int, lastActive: int, idleTimeout: Option<int>,
                              lastEngageTime: int, keywords: seq<string>, items: Items,
                              page: Page, now: int)
    requires NumberSlotsValid(items)
    ensures var r := PageChangeEvents(config, isFirstTime, isEntrances, lastScreenStart, idle, lastActive,
                                      idleTimeout, lastEngageTime, keywords, items, page, now);
      var prevUrl := PreviousPageUrlOf(items);
      var shows := ShowsPageView(config, isFirstTime, prevUrl, PreviousPageTitleOf(items), page);
      && (!shows ==> r == [])
      && (shows ==>
            exists i :: 0 <= i <= 1 && i < |r| && r[i].name == Event.PAGE_VIEW
              && (i == 1 ==> r[0].name == Event.USER_ENGAGEMENT && EngagesFirst(config, isFirstTime, prevUrl))
              && |r| <= i + 2
              && r[i].attributes.Some?
              && Lookup(r[i].attributes.value, Event.ENTRANCES) == Some(Num(if isEntrances then 1 else 0))
              && Lookup(r[i].attributes.value, Event.PAGE_REFERRER) == Some(Str(prevUrl))
              && (forall j :: i < j < |r| ==> r[j].name == Event.SEARCH))
  {
    var r := PageChangeEvents(config, isFirstTime, isEntrances, lastScreenStart, idle, lastActive,
                              idleTimeout, lastEngageTime, keywords, items, page, now);
    var prevUrl := PreviousPageUrlOf(items);
    var prevTitle := PreviousPageTitleOf(items);
    if ShowsPageView(config, isFirstTime, prevUrl, prevTitle, page) {
      var engages := EngagesFirst(config, isFirstTime, prevUrl);
      var engage := EngageTime(now, lastScreenStart, IdleAfter(idle, lastActive, idleTimeout, now));
      var lastEngage := if engages then engage else lastEngageTime;
      var before := if engages then EngagementEvents(config, engage, false) else [];
      var attrs := PageViewAttributes(prevUrl, prevTitle, isEntrances, PreviousPageStartTimeOf(items), lastEngage);
      var searches := SearchEvents(config, keywords, page.query);
      assert r == before + [PageViewEvent(attrs)] + searches;
      PageViewAttributesLookup(prevUrl, prevTitle, isEntrances, PreviousPageStartTimeOf(items), lastEngage);
      var i := |before|;
      assert r[i] == PageViewEvent(attrs);
      forall j | i < j < |r|
        ensures r[j].name == Event.SEARCH
      {
        assert r[j] == searches[j - i - 1];
      }
    }
  }

  /** The scroll tracker's state after a page change: a page view starts a
      fresh page for it, and otherwise it is left alone. */
  function ScrollAfter(before: Option<(bool, nat)>, shows: bool): Option<(bool, nat)> {
    if shows && before.Some? then Some((true, 0)) else before
  }

  class PageViewTracker {
    const config: Configuration
    const sink: EventSink
    const store: Storage
    const scroll: ScrollTracker.ScrollTracker?
    var isEntrances: bool
    var searchKeywords: seq<string>
    var lastEngageTime: int
    var lastScreenStartTimestamp: int
    var isFirstTime: bool
    var lastActiveTimestamp: int
    var idleDuration: int
    var idleTimeoutDuration: Option<int>

    ghost predicate Valid()
      reads this, store
    {
      store.Valid()
    }

    /** What the scroll tracker remembers of the current page: its flag and
        the SCROLL events recorded there; `None` without a scroll tracker. */
    ghost function ScrollState(): Option<(bool, nat)>
      reads this, scroll
    {
      if scroll == null then None else Some((scroll.isFirstTime, scroll.scrollsOnPage))
    }

    /** The field defaults before `init`. */
    constructor (config: Configuration, sink: EventSink, store: Storage, scroll: ScrollTracker.ScrollTracker?)
      ensures this.config == config && this.sink == sink && this.store == store && this.scroll == scroll
      ensures !isEntrances && searchKeywords == Event.KEYWORDS && lastEngageTime == 0
      ensures lastScreenStartTimestamp == 0 && isFirstTime
      ensures lastActiveTimestamp == 0 && idleDuration == 0 && idleTimeoutDuration == Some(0)
    {
      this.config := config;
      this.sink := sink;
      this.store := store;
      this.scroll := scroll;
      isEntrances := false;
      searchKeywords := Event.KEYWORDS;
      lastEngageTime := 0;
      lastScreenStartTimestamp := 0;
      isFirstTime := true;
      lastActiveTimestamp := 0;
      idleDuration := 0;
      idleTimeoutDuration := Some(0);
    }

    /** `init`: takes the idle timeout and keywords from the configuration,
      tracks the first page unless it was reloaded, and leaves the
      first-page state. Listener registration is not part of the model. */
    method Init(browser: Browser)
      requires Valid()
      modifies this, store, sink, scroll
      ensures Valid()
      ensures searchKeywords == MergeKeywords(old(searchKeywords), config.searchKeyWords)
      ensures idleTimeoutDuration == config.idleTimeoutDuration
      ensures !isFirstTime && lastActiveTimestamp == browser.now
      ensures browser.fromReload ==>
        && sink.events == old(sink.events) && store.items == old(store.items)
        && isEntrances == old(isEntrances) && lastScreenStartTimestamp == old(lastScreenStartTimestamp)
        && idleDuration == old(idleDuration) && lastEngageTime == old(lastEngageTime)
        && ScrollState() == old(ScrollState())
      ensures !browser.fromReload ==>
        var items := old(store.items);
        var prevUrl := PreviousPageUrlOf(items);
        var shows := ShowsPageView(config, old(isFirstTime), prevUrl, PreviousPageTitleOf(items), browser.page);
        var engages := shows && EngagesFirst(config, old(isFirstTime), prevUrl);
        var idle := IdleAfter(old(idleDuration), browser.now, config.idleTimeoutDuration, browser.now);
        && sink.events == old(sink.events) + PageChangeEvents(config, old(isFirstTime), old(isEntrances),
             old(lastScreenStartTimestamp), old(idleDuration), browser.now, config.idleTimeoutDuration,
             old(lastEngageTime), searchKeywords, items, browser.page, browser.now)
        && store.items == PageChangeItems(config, old(isFirstTime), items, browser.page, browser.now)
        && idleDuration == (if engages then 0 else idle)
        && lastEngageTime ==
             (if engages then EngageTime(browser.now, old(lastScreenStartTimestamp), idle) else old(lastEngageTime))
        && isEntrances == (!shows && old(isEntrances))
        && lastScreenStartTimestamp == (if shows then browser.now else old(lastScreenStartTimestamp))
        && ScrollState() == ScrollAfter(old(ScrollState()), shows)
    {
      lastActiveTimestamp := browser.now;
      idleTimeoutDuration := config.idleTimeoutDuration;
      searchKeywords := MergeKeywords(searchKeywords, config.searchKeyWords);
      if !browser.fromReload {
        OnPageChange(browser.page, browser.now);
      }
      isFirstTime := false;
    }

    method UpdateIdleDuration(now: int)
      modifies this
      ensures idleDuration == IdleAfter(old(idleDuration), old(lastActiveTimestamp), idleTimeoutDuration, now)
      ensures lastActiveTimestamp == now
      ensures lastEngageTime == old(lastEngageTime) && lastScreenStartTimestamp == old(lastScreenStartTimestamp)
      ensures isEntrances == old(isEntrances) && isFirstTime == old(isFirstTime)
      ensures searchKeywords == old(searchKeywords) && idleTimeoutDuration == old(idleTimeoutDuration)
    {
      var currentTimestamp := now;
      var idle := currentTimestamp - lastActiveTimestamp;
      if idleTimeoutDuration.Some? && idle > idleTimeoutDuration.value {
        idleDuration := idleDuration + idle;
      }
      lastActiveTimestamp := currentTimestamp;
    }

    method UpdateLastScreenStartTimestamp(now: int)
      modifies this
      ensures lastScreenStartTimestamp == now && lastActiveTimestamp == now && idleDuration == 0
      ensures lastEngageTime == old(lastEngageTime) && isEntrances == old(isEntrances)
      ensures isFirstTime == old(isFirstTime) && searchKeywords == old(searchKeywords)
      ensures idleTimeoutDuration == old(idleTimeoutDuration)
    {
      lastScreenStartTimestamp := now;
      idleDuration := 0;
      lastActiveTimestamp := lastScreenStartTimestamp;
    }

    method SetIsEntrances()
      modifies this
      ensures isEntrances
      ensures lastEngageTime == old(lastEngageTime) && lastScreenStartTimestamp == old(lastScreenStartTimestamp)
      ensures lastActiveTimestamp == old(lastActiveTimestamp) && idleDuration == old(idleDuration)
      ensures isFirstTime == old(isFirstTime) && searchKeywords == old(searchKeywords)
      ensures idleTimeoutDuration == old(idleTimeoutDuration)
    {
      isEntrances := true;
    }

    /** Returns the engagement time of the current screen and starts idle
        accounting afresh. */
    method GetLastEngageTime(now: int) returns (engageTime: int)
      modifies this
      ensures engageTime == EngageTime(now, lastScreenStartTimestamp, old(idleDuration))
      ensures idleDuration == 0
      ensures lastEngageTime == old(lastEngageTime) && lastScreenStartTimestamp == old(lastScreenStartTimestamp)
      ensures lastActiveTimestamp == old(lastActiveTimestamp) && isEntrances == old(isEntrances)
      ensures isFirstTime == old(isFirstTime) && searchKeywords == old(searchKeywords)
      ensures idleTimeoutDuration == old(idleTimeoutDuration)
    {
      var duration := now - lastScreenStartTimestamp;
      engageTime := duration - idleDuration;
      idleDuration := 0;
    }

    method RecordUserEngagement(isImmediate: bool, now: int)
      modifies this, sink
      ensures lastEngageTime == EngageTime(now, old(lastScreenStartTimestamp), old(idleDuration))
      ensures idleDuration == 0
      ensures sink.events == old(sink.events) + EngagementEvents(config, lastEngageTime, isImmediate)
      ensures lastScreenStartTimestamp == old(lastScreenStartTimestamp)
      ensures lastActiveTimestamp == old(lastActiveTimestamp) && isEntrances == old(isEntrances)
      ensures isFirstTime == old(isFirstTime) && searchKeywords == old(searchKeywords)
      ensures idleTimeoutDuration == old(idleTimeoutDuration)
    {
      lastEngageTime := GetLastEngageTime(now);
      if config.isTrackUserEngagementEvents && lastEngageTime > MIN_ENGAGEMENT_TIME {
        sink.Record(ClickstreamEvent(Event.USER_ENGAGEMENT,
          Some([(Event.ENGAGEMENT_TIMESTAMP, Num(lastEngageTime))]), isImmediate));
      }
    }

    /** Records the page view; the event's timestamp, `now`, becomes the
        start of the new screen. */
    method TrackPageView(prevUrl: string, prevTitle: string, now: int)
      requires Valid()
      modifies this, store, sink
      ensures Valid()
      ensures sink.events == old(sink.events) + [PageViewEvent(PageViewAttributes(
        prevUrl, prevTitle, old(isEntrances), PreviousPageStartTimeOf(old(store.items)), lastEngageTime))]
      ensures !isEntrances && lastScreenStartTimestamp == now
      ensures store.items == old(store.items)[PREVIOUS_PAGE_START_TIME_KEY := StoredText(IntToString(now))]
      ensures lastEngageTime == old(lastEngageTime) && lastActiveTimestamp == old(lastActiveTimestamp)
      ensures idleDuration == old(idleDuration) && isFirstTime == old(isFirstTime)
      ensures searchKeywords == old(searchKeywords) && idleTimeoutDuration == old(idleTimeoutDuration)
    {
      var previousPageStartTime := store.GetPreviousPageStartTime();
      var currentPageStartTime := now;
      var eventAttributes := PageViewAttributes(prevUrl, prevTitle, isEntrances, previousPageStartTime, lastEngageTime);
      sink.Record(PageViewEvent(eventAttributes));
      isEntrances := false;
      store.SavePreviousPageStartTime(currentPageStartTime);
      lastScreenStartTimestamp := currentPageStartTime;
    }

    /** The keyword loop: stops at the first keyword the query has. */
    method TrackSearchEvents(query: seq<(string, string)>)
      modifies sink
      ensures sink.events == old(sink.events) + SearchEvents(config, searchKeywords, query)
    {
      if !config.isTrackSearchEvents {
        return;
      }
      var i := 0;
      while i < |searchKeywords|
        invariant 0 <= i <= |searchKeywords|
        invariant SearchHit(searchKeywords[i..], query) == SearchHit(searchKeywords, query)
        invariant sink.events == old(sink.events)
      {
        var keyword := searchKeywords[i];
        assert searchKeywords[i..][1..] == searchKeywords[i + 1..];
        var searchTerm := QueryGet(query, keyword);
        if searchTerm.Some? {
          sink.Record(SearchEvent(keyword, searchTerm.value));
          break;
        }
        i := i + 1;
      }
    }

    /** `onPageChange` for the page `page` at time `now`. */
    method OnPageChange(page: Page, now: int)
      requires Valid()
      modifies this, store, sink, scroll
      ensures Valid()
      ensures lastActiveTimestamp == now
      ensures isFirstTime == old(isFirstTime) && searchKeywords == old(searchKeywords)
      ensures idleTimeoutDuration == old(idleTimeoutDuration)
      ensures sink.events == old(sink.events) + PageChangeEvents(config, isFirstTime, old(isEntrances),
        old(lastScreenStartTimestamp), old(idleDuration), old(lastActiveTimestamp), idleTimeoutDuration,
        old(lastEngageTime), searchKeywords, old(store.items), page, now)
      ensures var idle := IdleAfter(old(idleDuration), old(lastActiveTimestamp), idleTimeoutDuration, now);
        var prevUrl := PreviousPageUrlOf(old(store.items));
        var prevTitle := PreviousPageTitleOf(old(store.items));
        var shows := ShowsPageView(config, isFirstTime, prevUrl, prevTitle, page);
        var engages := shows && EngagesFirst(config, isFirstTime, prevUrl);
        var engage := EngageTime(now, old(lastScreenStartTimestamp), idle);
        && idleDuration == (if engages then 0 else idle)
        && lastEngageTime == (if engages then engage else old(lastEngageTime))
        && store.items == PageChangeItems(config, isFirstTime, old(store.items), page, now)
        && (shows ==>
              && !isEntrances && lastScreenStartTimestamp == now
              && (scroll != null ==> scroll.isFirstTime))
        && (!shows ==>
              && isEntrances == old(isEntrances)
              && lastScreenStartTimestamp == old(lastScreenStartTimestamp))
        && ScrollState() == ScrollAfter(old(ScrollState()), shows)
    {
      UpdateIdleDuration(now);
      if config.isTrackPageViewEvents {
        var previousPageUrl := store.GetPreviousPageUrl();
        var previousPageTitle := store.GetPreviousPageTitle();
        if isFirstTime || config.pageType == MultiPageApp
          || previousPageUrl != page.url || previousPageTitle != page.title
        {
          EnterPage(page, now, previousPageUrl, previousPageTitle);
        }
      }
    }

    /** Before the page view: the scroll tracker starts over, and a
        single-page app reports the engagement on the page it leaves. */
    method LeavePreviousPage(now: int, prevUrl: string)
      modifies this, sink, scroll
      ensures lastActiveTimestamp == old(lastActiveTimestamp) && lastScreenStartTimestamp == old(lastScreenStartTimestamp)
      ensures isFirstTime == old(isFirstTime) && searchKeywords == old(searchKeywords)
      ensures idleTimeoutDuration == old(idleTimeoutDuration) && isEntrances == old(isEntrances)
      ensures var engages := EngagesFirst(config, isFirstTime, prevUrl);
        var engage := EngageTime(now, old(lastScreenStartTimestamp), old(idleDuration));
        && idleDuration == (if engages then 0 else old(idleDuration))
        && lastEngageTime == (if engages then engage else old(lastEngageTime))
        && sink.events == old(sink.events) + (if engages then EngagementEvents(config, engage, false) else [])
      ensures scroll != null ==> scroll.isFirstTime
      ensures ScrollState() == ScrollAfter(old(ScrollState()), true)
    {
      if scroll != null {
        scroll.EnterNewPage();
      }
      if config.pageType != MultiPageApp && !isFirstTime && prevUrl != "" {
        RecordUserEngagement(false, now);
      }
    }

    /** The page-view branch of `onPageChange`, once a page view is due. */
    method EnterPage(page: Page, now: int, prevUrl: string, prevTitle: string)
      requires Valid()
      requires prevUrl == PreviousPageUrlOf(store.items) && prevTitle == PreviousPageTitleOf(store.items)
      modifies this, store, sink, scroll
      ensures Valid()
      ensures lastActiveTimestamp == old(lastActiveTimestamp)
      ensures isFirstTime == old(isFirstTime) && searchKeywords == old(searchKeywords)
      ensures idleTimeoutDuration == old(idleTimeoutDuration)
      ensures var engages := EngagesFirst(config, isFirstTime, prevUrl);
        var engage := EngageTime(now, old(lastScreenStartTimestamp), old(idleDuration));
        && idleDuration == (if engages then 0 else old(idleDuration))
        && lastEngageTime == (if engages then engage else old(lastEngageTime))
        && sink.events == old(sink.events)
             + (if engages then EngagementEvents(config, engage, false) else [])
             + [PageViewEvent(PageViewAttributes(prevUrl, prevTitle, old(isEntrances),
                                                 PreviousPageStartTimeOf(old(store.items)), lastEngageTime))]
             + SearchEvents(config, searchKeywords, page.query)
        && !isEntrances && lastScreenStartTimestamp == now
        && store.items == old(store.items)[PREVIOUS_PAGE_START_TIME_KEY := StoredText(IntToString(now))]
                                         [PREVIOUS_PAGE_URL_KEY := StoredText(page.url)]
                                         [PREVIOUS_PAGE_TITLE_KEY := StoredText(page.title)]
        && (scroll != null ==> scroll.isFirstTime)
        && ScrollState() == ScrollAfter(old(ScrollState()), true)
    {
      LeavePreviousPage(now, prevUrl);
      TrackPageView(prevUrl, prevTitle, now);
      TrackSearchEvents(page.query);
      store.SavePreviousPageUrl(page.url);
      store.SavePreviousPageTitle(page.title);
    }
  }
}
