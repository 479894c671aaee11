/** The session tracker: the session's life across page appear and hide,
    and the preset events FIRST_OPEN, SESSION_START, APP_START and APP_END
    (src/tracker/SessionTracker.ts). */
module SessionTracker {
  import opened Types
  import opened StorageUtil
  import opened Tracker
  import Session
  import PageViewTracker
  import Event

  // ---------------------------------------------------------------------
  // The events, as values

  function FirstOpenEvent(): ClickstreamEvent { ClickstreamEvent(Event.FIRST_OPEN, None, false) }

  function SessionStartEvent(): ClickstreamEvent { ClickstreamEvent(Event.SESSION_START, None, false) }

  /** APP_START is skipped when app-start tracking is off, and on the first
      appearance when the visitor came from this host or reloaded. */
  predicate RecordsAppStart(config: Configuration, isFirstTime: bool, fromCurrentHost: bool, fromReload: bool) {
    && config.isTrackAppStartEvents
    && !(isFirstTime && fromCurrentHost)
    && !(isFirstTime && fromReload)
  }

  function AppStartEvents(config: Configuration, isFirstTime: bool, browser: Browser): seq<ClickstreamEvent> {
    if RecordsAppStart(config, isFirstTime, browser.fromCurrentHost, browser.fromReload) then
      [ClickstreamEvent(Event.APP_START, Some([(Event.IS_FIRST_TIME, Bool(isFirstTime))]), false)]
    else []
  }

  /** Hide-time events are sent at once unless the window is closing in
      Firefox. */
  function HideIsImmediate(isWindowClosing: bool, isFirefox: bool): bool {
    !(isWindowClosing && isFirefox)
  }

  function AppEndEvents(config: Configuration, isImmediate: bool): seq<ClickstreamEvent> {
    if config.isTrackAppEndEvents then [ClickstreamEvent(Event.APP_END, None, isImmediate)] else []
  }

  /** What a page hide records: the engagement on the screen, then APP_END. */
  function HideEvents(config: Configuration, engageTime: int, isWindowClosing: bool, isFirefox: bool): seq<ClickstreamEvent> {
    var isImmediate := HideIsImmediate(isWindowClosing, isFirefox);
    PageViewTracker.EngagementEvents(config, engageTime, isImmediate) + AppEndEvents(config, isImmediate)
  }

  /** A later appearance records APP_START exactly when app-start tracking
      is on; the first one also needs a referrer from another host and no
      reload. The event says which of the two it was. */
  lemma AppStartRule(config: Configuration, isFirstTime: bool, browser: Browser)
    ensures var r := AppStartEvents(config, isFirstTime, browser);
      && |r| <= 1
      && (!isFirstTime ==> (|r| == 1 <==> config.isTrackAppStartEvents))
      && (isFirstTime ==> (|r| == 1 <==>
            config.isTrackAppStartEvents && !browser.fromCurrentHost && !browser.fromReload))
      && (|r| == 1 ==>
            && r[0].name == Event.APP_START && r[0].attributes.Some?
            && Lookup(r[0].attributes.value, Event.IS_FIRST_TIME) == Some(Bool(isFirstTime)))
  {
  }

  /** Every hide-time event is sent at once except when the window is
      closing in Firefox; APP_END comes last and exactly when app-end
      tracking is on, after at most one engagement event. */
  lemma HideEventsRule(config: Configuration, engageTime: int, isWindowClosing: bool, isFirefox: bool)
    ensures var r := HideEvents(config, engageTime, isWindowClosing, isFirefox);
      && |r| <= 2
      && (forall e <- r :: e.isImmediate <==> !(isWindowClosing && isFirefox))
      && (config.isTrackAppEndEvents <==> |r| > 0 && r[|r| - 1].name == Event.APP_END)
      && (forall i :: 0 <= i < |r| - 1 ==> r[i].name == Event.USER_ENGAGEMENT)
  {
    assert |Event.APP_END| != |Event.USER_ENGAGEMENT|;
  }

  /** What recording FIRST_OPEN leaves in the store: the flag is written
      the first time, and nothing changes afterwards. */
  function FirstOpenItems(items: Items): Items {
    if IsFirstOpenOf(items) then items[IS_FIRST_OPEN_KEY := StoredText("0")] else items
  }

  /** What starting a new session leaves in the store: the previous page is
      forgotten, and after the first appearance the page change then saves
      the current page. */
  function StartSessionItems(config: Configuration, isFirstTime: bool, pageViewFirstTime: bool,
                             items: Items, page: Page, now: int): Items
    requires NumberSlotsValid(items)
  {
    var cleared := ClearPageInfoStep(items);
    if isFirstTime then cleared else PageViewTracker.PageChangeItems(config, pageViewFirstTime, cleared, page, now)
  }

  // ---------------------------------------------------------------------
  // The visibility API

  /** What `checkEnv` can see of the document: whether there is one with
      `addEventListener`, and which of the three `hidden` properties it
      defines. */
  datatype DocumentEnv = DocumentEnv(
    hasDocument: bool,
    hasAddEventListener: bool,
    hasHidden: bool,
    hasMsHidden: bool,
    hasWebkitHidden: bool)

  /** The visibility properties in order of preference, each with its
      change event. */
  const VISIBILITY_APIS: seq<(string, string)> :=
    [("hidden", "visibilitychange"), ("msHidden", "msvisibilitychange"), ("webkitHidden", "webkitvisibilitychange")]

  predicate Defines(env: DocumentEnv, i: int) {
    (i == 0 && env.hasHidden) || (i == 1 && env.hasMsHidden) || (i == 2 && env.hasWebkitHidden)
  }

  // ---------------------------------------------------------------------
  // The tracker

  class SessionTracker {
    const config: Configuration
    const sink: EventSink
    const store: Storage
    const pageView: PageViewTracker.PageViewTracker
    /** The user's unique id, as the context holds it. */
    const uniqueId: string
    var session: Session.Session?
    var isWindowClosing: bool
    var hiddenStr: string
    var visibilityChange: string
    /** Whether `init` registered the visibility and unload listeners. */
    var listening: bool

    /** The page-view tracker is the provider's: same configuration, sink
        and store. */
    ghost predicate Valid()
      reads this, store, pageView
    {
      && store.Valid()
      && pageView.store == store && pageView.sink == sink && pageView.config == config
    }

    constructor (config: Configuration, sink: EventSink, store: Storage,
                 pageView: PageViewTracker.PageViewTracker, uniqueId: string)
      requires store.Valid()
      requires pageView.store == store && pageView.sink == sink && pageView.config == config
      ensures this.config == config && this.sink == sink && this.store == store
      ensures this.pageView == pageView && this.uniqueId == uniqueId
      ensures session == null && !isWindowClosing && !listening
      ensures Valid()
    {
      this.config := config;
      this.sink := sink;
      this.store := store;
      this.pageView := pageView;
      this.uniqueId := uniqueId;
      session := null;
      isWindowClosing := false;
      hiddenStr := "";
      visibilityChange := "";
      listening := false;
    }

    /** `init`: the first appearance, then listeners when the environment
        supports them. */
    method Init(browser: Browser, env: DocumentEnv)
      requires Valid()
      modifies this, store, sink, pageView, pageView.scroll
      ensures Valid() && session != null
      ensures session.Data() == Session.CurrentSession(None, SessionOf(old(store.items)), uniqueId,
                                                       config.sessionTimeoutDuration, browser.now)
      ensures sink.events == old(sink.events)
        + (if IsFirstOpenOf(old(store.items)) then [FirstOpenEvent()] else [])
        + (if session.IsNewSession() then [SessionStartEvent()] else [])
        + AppStartEvents(config, true, browser)
      ensures !store.GetIsFirstOpen()
      ensures store.items == (if session.IsNewSession() then ClearPageInfoStep(FirstOpenItems(old(store.items)))
                              else FirstOpenItems(old(store.items)))
      ensures pageView.ScrollState() == old(pageView.ScrollState())
      ensures isWindowClosing == old(isWindowClosing)
      ensures listening <==> env.hasDocument && env.hasAddEventListener &&
                             (env.hasHidden || env.hasMsHidden || env.hasWebkitHidden)
    {
      HandleInit(browser);
      listening := CheckEnv(env);
    }

    /** `handleInit`: the session from storage, FIRST_OPEN the first time
        the app is opened, and the first appearance. */
    method HandleInit(browser: Browser)
      requires Valid()
      modifies this, store, sink, pageView, pageView.scroll
      ensures Valid() && session != null
      ensures session.Data() == Session.CurrentSession(None, SessionOf(old(store.items)), uniqueId,
                                                       config.sessionTimeoutDuration, browser.now)
      ensures sink.events == old(sink.events)
        + (if IsFirstOpenOf(old(store.items)) then [FirstOpenEvent()] else [])
        + (if session.IsNewSession() then [SessionStartEvent()] else [])
        + AppStartEvents(config, true, browser)
      ensures !store.GetIsFirstOpen()
      ensures store.items == (if session.IsNewSession() then ClearPageInfoStep(FirstOpenItems(old(store.items)))
                              else FirstOpenItems(old(store.items)))
      ensures pageView.isEntrances == (session.IsNewSession() || old(pageView.isEntrances))
      ensures pageView.lastScreenStartTimestamp == browser.now && pageView.idleDuration == 0
      ensures pageView.lastActiveTimestamp == browser.now
      ensures pageView.lastEngageTime == old(pageView.lastEngageTime)
      ensures pageView.isFirstTime == old(pageView.isFirstTime) && pageView.searchKeywords == old(pageView.searchKeywords)
      ensures pageView.idleTimeoutDuration == old(pageView.idleTimeoutDuration)
      ensures pageView.ScrollState() == old(pageView.ScrollState())
      ensures isWindowClosing == old(isWindowClosing) && listening == old(listening)
      ensures hiddenStr == old(hiddenStr) && visibilityChange == old(visibilityChange)
    {
      LoadSession(browser.now);
      RecordFirstOpen();
      OnPageAppear(true, browser);
    }

    /** FIRST_OPEN the first time the app is opened, and never again. */
    method RecordFirstOpen()
      requires Valid()
      modifies store, sink
      ensures Valid()
      ensures sink.events == old(sink.events) + (if IsFirstOpenOf(old(store.items)) then [FirstOpenEvent()] else [])
      ensures store.items == FirstOpenItems(old(store.items))
      ensures !store.GetIsFirstOpen()
    {
      if store.GetIsFirstOpen() {
        sink.Record(FirstOpenEvent());
        store.SaveIsFirstOpenToFalse();
      }
    }

    /** `onPageAppear`: restart the screen timer, re-evaluate the session
        after the first appearance, start a new session's bookkeeping, and
        record APP_START. */
    method OnPageAppear(isFirstTime: bool, browser: Browser)
      requires Valid() && session != null
      modifies this, store, sink, pageView, pageView.scroll
      ensures Valid() && session != null
      ensures isFirstTime ==> session == old(session)
      ensures !isFirstTime ==>
        session.Data() == Session.CurrentSession(Some(old(session.Data())), None, uniqueId,
                                                 config.sessionTimeoutDuration, browser.now)
      ensures var pageChange := session.IsNewSession() && !isFirstTime;
        && sink.events == old(sink.events)
             + (if session.IsNewSession() then [SessionStartEvent()] else [])
             + (if pageChange then
                  PageViewTracker.PageChangeEvents(config, old(pageView.isFirstTime), true, browser.now, 0, browser.now,
                    old(pageView.idleTimeoutDuration), old(pageView.lastEngageTime), old(pageView.searchKeywords),
                    ClearPageInfoStep(old(store.items)), browser.page, browser.now)
                else [])
             + AppStartEvents(config, isFirstTime, browser)
      ensures store.items == (if session.IsNewSession() then
        StartSessionItems(config, isFirstTime, old(pageView.isFirstTime), old(store.items), browser.page, browser.now)
        else old(store.items))
      ensures pageView.isEntrances == (if session.IsNewSession() then
        isFirstTime || !PageViewTracker.ShowsPageView(config, old(pageView.isFirstTime), "", "", browser.page)
        else old(pageView.isEntrances))
      ensures pageView.lastScreenStartTimestamp == browser.now && pageView.idleDuration == 0
      ensures pageView.lastActiveTimestamp == browser.now
      ensures pageView.lastEngageTime == old(pageView.lastEngageTime)
      ensures pageView.isFirstTime == old(pageView.isFirstTime) && pageView.searchKeywords == old(pageView.searchKeywords)
      ensures pageView.idleTimeoutDuration == old(pageView.idleTimeoutDuration)
      ensures IsFirstOpenOf(store.items) == IsFirstOpenOf(old(store.items))
      ensures pageView.ScrollState() == PageViewTracker.ScrollAfter(old(pageView.ScrollState()),
        session.IsNewSession() && !isFirstTime &&
        PageViewTracker.ShowsPageView(config, old(pageView.isFirstTime), "", "", browser.page))
      ensures isWindowClosing == old(isWindowClosing) && listening == old(listening)
      ensures hiddenStr == old(hiddenStr) && visibilityChange == old(visibilityChange)
    {
      pageView.UpdateLastScreenStartTimestamp(browser.now);
      if !isFirstTime {
        RefreshSession(browser.now);
      }
      assert store.items == old(store.items) && sink.events == old(sink.events);
      assert pageView.ScrollState() == old(pageView.ScrollState());
      StartIfNew(isFirstTime, browser);
      RecordAppStart(isFirstTime, browser);
    }

    /** The new-session step of `onPageAppear`: only a new session starts. */
    method StartIfNew(isFirstTime: bool, browser: Browser)
      requires Valid() && session != null
      requires pageView.lastActiveTimestamp == browser.now && pageView.idleDuration == 0
      requires pageView.lastScreenStartTimestamp == browser.now
      modifies store, sink, pageView, pageView.scroll
      ensures Valid()
      ensures sink.events == old(sink.events)
        + (if session.IsNewSession() then [SessionStartEvent()] else [])
        + (if session.IsNewSession() && !isFirstTime then
             PageViewTracker.PageChangeEvents(config, old(pageView.isFirstTime), true, browser.now, 0, browser.now,
               old(pageView.idleTimeoutDuration), old(pageView.lastEngageTime), old(pageView.searchKeywords),
               ClearPageInfoStep(old(store.items)), browser.page, browser.now)
           else [])
      ensures store.items == (if session.IsNewSession() then
        StartSessionItems(config, isFirstTime, old(pageView.isFirstTime), old(store.items), browser.page, browser.now)
        else old(store.items))
      ensures pageView.isEntrances == (if session.IsNewSession() then
        isFirstTime || !PageViewTracker.ShowsPageView(config, old(pageView.isFirstTime), "", "", browser.page)
        else old(pageView.isEntrances))
      ensures pageView.lastScreenStartTimestamp == browser.now && pageView.idleDuration == 0
      ensures pageView.lastActiveTimestamp == browser.now
      ensures pageView.lastEngageTime == old(pageView.lastEngageTime)
      ensures pageView.isFirstTime == old(pageView.isFirstTime) && pageView.searchKeywords == old(pageView.searchKeywords)
      ensures pageView.idleTimeoutDuration == old(pageView.idleTimeoutDuration)
      ensures pageView.ScrollState() == PageViewTracker.ScrollAfter(old(pageView.ScrollState()),
        session.IsNewSession() && !isFirstTime &&
        PageViewTracker.ShowsPageView(config, old(pageView.isFirstTime), "", "", browser.page))
      ensures IsFirstOpenOf(store.items) == IsFirstOpenOf(old(store.items))
    {
      if session.IsNewSession() {
        StartSession(isFirstTime, browser);
      }
    }

    /** `getCurrentSession` with no previous session: from storage. */
    method LoadSession(now: int)
      modifies this
      ensures session != null
      ensures session.Data() == Session.CurrentSession(None, SessionOf(store.items), uniqueId,
                                                       config.sessionTimeoutDuration, now)
      ensures isWindowClosing == old(isWindowClosing) && listening == old(listening)
      ensures hiddenStr == old(hiddenStr) && visibilityChange == old(visibilityChange)
    {
      ghost var stored := SessionOf(store.items);
      var current := Session.GetCurrentSession(store, uniqueId, config.sessionTimeoutDuration, null, now);
      ghost var data := current.Data();
      assert data == Session.CurrentSession(None, stored, uniqueId, config.sessionTimeoutDuration, now);
      session := current;
      assert session.Data() == data;
    }

    /** `getCurrentSession` with the live session as the previous one. */
    method RefreshSession(now: int)
      requires session != null
      modifies this
      ensures session != null
      ensures session.Data() == Session.CurrentSession(Some(old(session.Data())), None, uniqueId,
                                                       config.sessionTimeoutDuration, now)
      ensures isWindowClosing == old(isWindowClosing) && listening == old(listening)
      ensures hiddenStr == old(hiddenStr) && visibilityChange == old(visibilityChange)
    {
      var current := Session.GetCurrentSession(store, uniqueId, config.sessionTimeoutDuration, session, now);
      session := current;
    }

    /** The new-session branch of `onPageAppear`. */
    method StartSession(isFirstTime: bool, browser: Browser)
      requires Valid() && session != null
      requires pageView.lastActiveTimestamp == browser.now && pageView.idleDuration == 0
      requires pageView.lastScreenStartTimestamp == browser.now
      modifies store, sink, pageView, pageView.scroll
      ensures Valid()
      ensures sink.events == old(sink.events) + [SessionStartEvent()]
        + (if !isFirstTime then
             PageViewTracker.PageChangeEvents(config, pageView.isFirstTime, true, browser.now, 0, browser.now,
               pageView.idleTimeoutDuration, old(pageView.lastEngageTime), pageView.searchKeywords,
               ClearPageInfoStep(old(store.items)), browser.page, browser.now)
           else [])
      ensures store.items == StartSessionItems(config, isFirstTime, old(pageView.isFirstTime), old(store.items),
                                               browser.page, browser.now)
      ensures pageView.isEntrances == (isFirstTime || !PageViewTracker.ShowsPageView(config, old(pageView.isFirstTime), "", "", browser.page))
      ensures pageView.idleDuration == 0 && pageView.lastScreenStartTimestamp == browser.now
      ensures pageView.lastEngageTime == old(pageView.lastEngageTime)
      ensures pageView.lastActiveTimestamp == browser.now
      ensures pageView.isFirstTime == old(pageView.isFirstTime)
      ensures pageView.idleTimeoutDuration == old(pageView.idleTimeoutDuration)
      ensures pageView.searchKeywords == old(pageView.searchKeywords)
      ensures pageView.ScrollState() == PageViewTracker.ScrollAfter(old(pageView.ScrollState()),
        !isFirstTime && PageViewTracker.ShowsPageView(config, old(pageView.isFirstTime), "", "", browser.page))
      ensures IsFirstOpenOf(store.items) == IsFirstOpenOf(old(store.items))
    {
      pageView.SetIsEntrances();
      store.ClearPageInfo();
      ClearPageInfoEffects(old(store.items));
      sink.Record(SessionStartEvent());
      if !isFirstTime {
        pageView.OnPageChange(browser.page, browser.now);
      }
    }

    method RecordAppStart(isFirstTime: bool, browser: Browser)
      modifies sink
      ensures sink.events == old(sink.events) + AppStartEvents(config, isFirstTime, browser)
    {
      if !config.isTrackAppStartEvents {
        return;
      }
      if isFirstTime && browser.fromCurrentHost {
        return;
      }
      if isFirstTime && browser.fromReload {
        return;
      }
      sink.Record(ClickstreamEvent(Event.APP_START, Some([(Event.IS_FIRST_TIME, Bool(isFirstTime))]), false));
    }

    /** `onPageHide`: the session is paused and persisted, then the screen's
        engagement and APP_END are recorded. */
    method OnPageHide(browser: Browser)
      requires Valid() && session != null
      modifies this, store, sink, pageView, session
      ensures Valid() && session == old(session)
      ensures session.Data() == old(session.Data()).(pauseTime := Some(browser.now))
      ensures !session.IsNewSession()
      ensures store.items == old(store.items)[SESSION_KEY := StoredSession(session.Data())]
      ensures var idle := PageViewTracker.IdleAfter(old(pageView.idleDuration), old(pageView.lastActiveTimestamp),
                                                    pageView.idleTimeoutDuration, browser.now);
        var engage := PageViewTracker.EngageTime(browser.now, pageView.lastScreenStartTimestamp, idle);
        && pageView.lastEngageTime == engage
        && sink.events == old(sink.events) + HideEvents(config, engage, isWindowClosing, browser.isFirefox)
      ensures pageView.lastActiveTimestamp == browser.now && pageView.idleDuration == 0
      ensures pageView.lastScreenStartTimestamp == old(pageView.lastScreenStartTimestamp)
      ensures pageView.idleTimeoutDuration == old(pageView.idleTimeoutDuration)
      ensures pageView.isEntrances == old(pageView.isEntrances) && pageView.isFirstTime == old(pageView.isFirstTime)
      ensures pageView.searchKeywords == old(pageView.searchKeywords)
      ensures isWindowClosing == old(isWindowClosing) && listening == old(listening)
      ensures hiddenStr == old(hiddenStr) && visibilityChange == old(visibilityChange)
    {
      StoreSession(browser.now);
      var isImmediate := !(isWindowClosing && browser.isFirefox);
      RecordUserEngagement(isImmediate, browser.now);
      RecordAppEnd(isImmediate);
    }

    method RecordUserEngagement(isImmediate: bool, now: int)
      requires Valid()
      modifies pageView, sink
      ensures var idle := PageViewTracker.IdleAfter(old(pageView.idleDuration), old(pageView.lastActiveTimestamp),
                                                    pageView.idleTimeoutDuration, now);
        var engage := PageViewTracker.EngageTime(now, pageView.lastScreenStartTimestamp, idle);
        && pageView.lastEngageTime == engage
        && sink.events == old(sink.events) + PageViewTracker.EngagementEvents(pageView.config, engage, isImmediate)
      ensures pageView.lastActiveTimestamp == now && pageView.idleDuration == 0
      ensures pageView.lastScreenStartTimestamp == old(pageView.lastScreenStartTimestamp)
      ensures pageView.idleTimeoutDuration == old(pageView.idleTimeoutDuration)
      ensures pageView.isEntrances == old(pageView.isEntrances) && pageView.isFirstTime == old(pageView.isFirstTime)
      ensures pageView.searchKeywords == old(pageView.searchKeywords)
    {
      pageView.UpdateIdleDuration(now);
      pageView.RecordUserEngagement(isImmediate, now);
    }

    method RecordAppEnd(isImmediate: bool)
      modifies sink
      ensures sink.events == old(sink.events) + AppEndEvents(config, isImmediate)
    {
      if !config.isTrackAppEndEvents {
        return;
      }
      sink.Record(ClickstreamEvent(Event.APP_END, None, isImmediate));
    }

    /** The flag only ever goes up: no method of the tracker lowers it. */
    method OnBeforeUnload()
      modifies this
      ensures isWindowClosing
      ensures session == old(session) && listening == old(listening)
      ensures hiddenStr == old(hiddenStr) && visibilityChange == old(visibilityChange)
    {
      isWindowClosing := true;
    }

    /** `onVisibilityChange`: `visibilityState` is the document's state at
        the time, compared with the property name `checkEnv` chose. */
    method OnVisibilityChange(visibilityState: string, browser: Browser)
      requires Valid() && session != null
      modifies this, store, sink, pageView, pageView.scroll, session
      ensures Valid() && session != null
      ensures visibilityState == hiddenStr ==> !session.IsNewSession() && session == old(session)
      ensures visibilityState != hiddenStr ==> pageView.lastActiveTimestamp == browser.now
      ensures isWindowClosing == old(isWindowClosing)
    {
      if visibilityState == hiddenStr {
        OnPageHide(browser);
      } else {
        OnPageAppear(false, browser);
      }
    }

    method StoreSession(now: int)
      requires Valid() && session != null
      modifies session, store
      ensures Valid()
      ensures session.Data() == old(session.Data()).(pauseTime := Some(now))
      ensures store.items == old(store.items)[SESSION_KEY := StoredSession(session.Data())]
      ensures store.GetSession() == Some(session.Data())
    {
      session.Pause(now);
      store.SaveSession(session.Data());
    }

    /** `checkEnv`: picks the first visibility property the document
        defines, in order hidden, msHidden, webkitHidden. */
    method CheckEnv(env: DocumentEnv) returns (ok: bool)
      modifies this
      ensures ok <==> env.hasDocument && env.hasAddEventListener &&
                      (env.hasHidden || env.hasMsHidden || env.hasWebkitHidden)
      ensures ok ==> exists i :: 0 <= i < |VISIBILITY_APIS| && Defines(env, i)
                       && (forall j :: 0 <= j < i ==> !Defines(env, j))
                       && (hiddenStr, visibilityChange) == VISIBILITY_APIS[i]
      ensures !ok ==> hiddenStr == old(hiddenStr) && visibilityChange == old(visibilityChange)
      ensures session == old(session) && isWindowClosing == old(isWindowClosing) && listening == old(listening)
    {
      if !env.hasDocument || !env.hasAddEventListener {
        return false;
      }
      if env.hasHidden {
        hiddenStr := "hidden";
        visibilityChange := "visibilitychange";
        assert Defines(env, 0);
      } else if env.hasMsHidden {
        hiddenStr := "msHidden";
        visibilityChange := "msvisibilitychange";
        assert Defines(env, 1);
      } else if env.hasWebkitHidden {
        hiddenStr := "webkitHidden";
        visibilityChange := "webkitvisibilitychange";
        assert Defines(env, 2);
      } else {
        return false;
      }
      return true;
    }
  }

  /** A session kept across a hide and an appear within the timeout is the
      same session, so no SESSION_START; after the timeout the next session
      starts and SESSION_START is recorded. */
  lemma HideThenAppear(data: SessionData, uniqueId: string, timeout: int, hideAt: int, appearAt: int)
    ensures var paused := data.(pauseTime := Some(hideAt));
      var next := Session.CurrentSession(Some(paused), None, uniqueId, timeout, appearAt);
      && (appearAt - hideAt < timeout ==> next == paused && next.pauseTime.Some?)
      && (appearAt - hideAt >= timeout ==>
            next.pauseTime.None? && next.sessionIndex == data.sessionIndex + 1 && next.startTime == appearAt)
  {
    Session.CurrentSessionRule(Some(data.(pauseTime := Some(hideAt))), None, uniqueId, timeout, appearAt);
  }

  /** On a new session after the first appearance, the page view that
      follows SESSION_START is an entrance with an empty referrer, whatever
      page was seen before. */
  lemma NewSessionPageViewIsEntrance(config: Configuration, isFirstTime: bool, idleTimeout: Option<int>,
                                     lastEngageTime: int, keywords: seq<string>, items: Items,
                                     page: Page, now: int)
    requires NumberSlotsValid(items) && config.isTrackPageViewEvents
    requires page.url != "" || isFirstTime || config.pageType == MultiPageApp
    ensures var r := PageViewTracker.PageChangeEvents(config, isFirstTime, true, now, 0, now, idleTimeout,
                                                      lastEngageTime, keywords, ClearPageInfoStep(items), page, now);
      && r != [] && r[0].name == Event.PAGE_VIEW && r[0].attributes.Some?
      && Lookup(r[0].attributes.value, Event.ENTRANCES) == Some(Num(1))
      && Lookup(r[0].attributes.value, Event.PAGE_REFERRER) == Some(Str(""))
  {
    var cleared := ClearPageInfoStep(items);
    ClearPageInfoEffects(items);
    PageViewTracker.PageChangeEventsShape(config, isFirstTime, true, now, 0, now, idleTimeout,
                                          lastEngageTime, keywords, cleared, page, now);
  }
}
