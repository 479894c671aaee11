/** The scroll tracker: one SCROLL event per page, once the reader has
    scrolled past 90% of it (src/tracker/ScrollTracker.ts). */
module ScrollTracker {
  import opened Types
  import opened StorageUtil
  import opened Tracker
  import Event

  /** `scrollY > 0` and `scrollY + innerHeight > 0.9 * scrollHeight`, in
      integers. */
  predicate PastNinetyPercent(scrollY: int, innerHeight: int, scrollHeight: int) {
    scrollY > 0 && 10 * (scrollY + innerHeight) > 9 * scrollHeight
  }

  /** `window.scrollY || document.documentElement.scrollTop`. */
  function ScrollPosition(windowScrollY: int, documentScrollTop: int): int {
    if windowScrollY != 0 then windowScrollY else documentScrollTop
  }

  function ScrollEvent(engagementTime: int): ClickstreamEvent {
    ClickstreamEvent(Event.SCROLL, Some([(Event.ENGAGEMENT_TIMESTAMP, Num(engagementTime))]), false)
  }

  class ScrollTracker {
    const config: Configuration
    const sink: EventSink
    const store: Storage
    var isFirstTime: bool
    /** SCROLL events recorded since the page was entered. */
    ghost var scrollsOnPage: nat

    /** The flag is down exactly when this page's SCROLL was recorded, so
        there is never more than one. */
    ghost predicate Valid()
      reads this
    {
      scrollsOnPage == (if isFirstTime then 0 else 1)
    }

    /** Construction followed by `init`. */
    constructor Init(config: Configuration, sink: EventSink, store: Storage)
      ensures this.config == config && this.sink == sink && this.store == store
      ensures isFirstTime && Valid()
    {
      this.config := config;
      this.sink := sink;
      this.store := store;
      isFirstTime := true;
      scrollsOnPage := 0;
    }

    method EnterNewPage()
      modifies this
      ensures isFirstTime && scrollsOnPage == 0 && Valid()
    {
      isFirstTime := true;
      scrollsOnPage := 0;
    }

    /** `trackScroll` with the window's measurements at the time. */
    method TrackScroll(windowScrollY: int, documentScrollTop: int, innerHeight: int, scrollHeight: int, now: int)
      requires Valid() && store.Valid()
      modifies this, sink
      ensures Valid() && scrollsOnPage <= 1
      ensures var fires := config.isTrackScrollEvents && old(isFirstTime) &&
        PastNinetyPercent(ScrollPosition(windowScrollY, documentScrollTop), innerHeight, scrollHeight);
        && (fires ==> sink.events == old(sink.events) + [ScrollEvent(now - store.GetPreviousPageStartTime())]
                      && !isFirstTime && scrollsOnPage == 1)
        && (!fires ==> sink.events == old(sink.events) && isFirstTime == old(isFirstTime)
                       && scrollsOnPage == old(scrollsOnPage))
    {
      if !config.isTrackScrollEvents {
        return;
      }
      var scrollY := ScrollPosition(windowScrollY, documentScrollTop);
      if PastNinetyPercent(scrollY, innerHeight, scrollHeight) && isFirstTime {
        var engagementTime := now - store.GetPreviousPageStartTime();
        sink.Record(ScrollEvent(engagementTime));
        isFirstTime := false;
        scrollsOnPage := scrollsOnPage + 1;
      }
    }
  }

  /** The 90% rule agrees with the real-number comparison it replaces:
      past the line exactly when the viewed height exceeds nine tenths of
      the page. */
  lemma NinetyPercentExact(scrollY: int, innerHeight: int, scrollHeight: int)
    ensures PastNinetyPercent(scrollY, innerHeight, scrollHeight) <==>
      scrollY > 0 && (scrollY + innerHeight) as real > 0.9 * scrollHeight as real
  {
  }

  /** Scrolling back up does not fire; any position below the line with the
      page's flag set does. */
  lemma ScrollThreshold(innerHeight: int, scrollHeight: int)
    requires innerHeight >= 0 && scrollHeight > 0
    ensures !PastNinetyPercent(0, innerHeight, scrollHeight)
    ensures PastNinetyPercent(scrollHeight, innerHeight, scrollHeight)
  {
  }
}
