/** What the trackers see of the provider and the browser. The provider is
    reduced to the list of events handed to its `record`; the browser to the
    values the trackers read from `window`, `document` and `navigator` at the
    moment of a call. */
module Tracker {
  import opened Types

  /** The provider as the trackers use it: every event they record, in
      order. */
  class EventSink {
    var events: seq<ClickstreamEvent>

    constructor ()
      ensures events == []
    {
      events := [];
    }

    method Record(event: ClickstreamEvent)
      modifies this
      ensures events == old(events) + [event]
    {
      events := events + [event];
    }
  }

  /** The current page: its url, its title and its query string already
      split into (key, value) pairs in order (empty when there is none). */
  datatype Page = Page(url: string, title: string, query: seq<(string, string)>)

  /** The browser at one moment: the clock, the page, whether the referrer
      is on this host, whether the page was reloaded, and whether the browser
      is Firefox. */
  datatype Browser = Browser(
    now: int,
    page: Page,
    fromCurrentHost: bool,
    fromReload: bool,
    isFirefox: bool)

  /** `URLSearchParams.get`: the first value under `key`. */
  function QueryGet(query: seq<(string, string)>, key: string): Option<string> {
    if query == [] then None
    else if query[0].0 == key then Some(query[0].1)
    else QueryGet(query[1..], key)
  }

  /** `URLSearchParams.has`. */
  predicate QueryHas(query: seq<(string, string)>, key: string) {
    exists i :: 0 <= i < |query| && query[i].0 == key
  }

  lemma {:induction false} QueryGetHas(query: seq<(string, string)>, key: string)
    ensures QueryGet(query, key).Some? <==> QueryHas(query, key)
    ensures QueryGet(query, key).Some? ==>
      exists i :: 0 <= i < |query| && query[i] == (key, QueryGet(query, key).value)
  {
    if query != [] && query[0].0 != key {
      QueryGetHas(query[1..], key);
      if QueryHas(query, key) {
        var i :| 0 <= i < |query| && query[i].0 == key;
        assert query[1..][i - 1].0 == key;
      }
      if QueryGet(query, key).Some? {
        var i :| 0 <= i < |query[1..]| && query[1..][i] == (key, QueryGet(query, key).value);
        assert query[i + 1] == (key, QueryGet(query, key).value);
      }
    }
  }

  /** The value recorded under `key` in an ordered attribute list. */
  function Lookup(attrs: seq<(string, Value)>, key: string): Option<Value> {
    if attrs == [] then None
    else if attrs[0].0 == key then Some(attrs[0].1)
    else Lookup(attrs[1..], key)
  }

  /** Looking up in a concatenation: the first part wins when it has the
      key, else the second part answers. */
  lemma {:induction false} LookupAppend(xs: seq<(string, Value)>, ys: seq<(string, Value)>, key: string)
    ensures Lookup(xs + ys, key) == if Lookup(xs, key).Some? then Lookup(xs, key) else Lookup(ys, key)
  {
    if xs != [] {
      assert (xs + ys)[1..] == xs[1..] + ys;
      LookupAppend(xs[1..], ys, key);
    } else {
      assert xs + ys == ys;
    }
  }
}
