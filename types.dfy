/** Value types shared by the SDK: attribute values, configuration, events and
    the error record returned by the validators. */
module Types {

  datatype Option<+T> = None | Some(value: T)

  /** An attribute value: `string | number | boolean | null`. Numbers are
      integers here. */
  datatype Value = Str(s: string) | Num(n: int) | Bool(b: bool) | Null

  datatype SendMode = Immediate | Batch

  datatype PageType = SPA | MultiPageApp

  /** One entry of the user-profile map: the value and when it was set. */
  datatype UserAttr = UserAttr(value: Value, setTimestamp: int)

  /** The result of a validator: a numeric code, 0 for no error, and a
      message that is present exactly when the code is not 0. */
  datatype EventError = EventError(code: int, message: Option<string>)

  /** An event as handed to `record`: name, optional attributes and the
      immediate-send hint. The attributes come in `for…in` order: keys that
      look like array indices first, ascending, then the others in insertion
      order, no key twice. The model accepts any order and repeated keys,
      and what it proves holds for all of them. */
  datatype ClickstreamEvent = ClickstreamEvent(
    name: string,
    attributes: Option<seq<(string, Value)>>,
    isImmediate: bool)

  /** The live configuration. A boolean flag the SDK leaves unset is
      `undefined` in the source and behaves as `false`; a timeout left unset
      is `None`. */
  datatype Configuration = Configuration(
    appId: string,
    endpoint: string,
    sendMode: SendMode,
    sendEventsInterval: int,
    pageType: PageType,
    sessionTimeoutDuration: int,
    idleTimeoutDuration: Option<int>,
    searchKeyWords: Option<seq<string>>,
    authCookie: Option<string>,
    isLogEvents: bool,
    isTrackPageViewEvents: bool,
    isTrackUserEngagementEvents: bool,
    isTrackClickEvents: bool,
    isTrackScrollEvents: bool,
    isTrackSearchEvents: bool,
    isTrackPageLoadEvents: bool,
    isTrackAppStartEvents: bool,
    isTrackAppEndEvents: bool)

  /** The argument of `configure`: appId and endpoint are required, every
      other field is present only when the caller gave it. */
  datatype ConfigPatch = ConfigPatch(
    appId: string,
    endpoint: string,
    sendMode: Option<SendMode>,
    sendEventsInterval: Option<int>,
    pageType: Option<PageType>,
    sessionTimeoutDuration: Option<int>,
    idleTimeoutDuration: Option<int>,
    searchKeyWords: Option<seq<string>>,
    authCookie: Option<string>,
    isLogEvents: Option<bool>,
    isTrackPageViewEvents: Option<bool>,
    isTrackUserEngagementEvents: Option<bool>,
    isTrackClickEvents: Option<bool>,
    isTrackScrollEvents: Option<bool>,
    isTrackSearchEvents: Option<bool>,
    isTrackPageLoadEvents: Option<bool>,
    isTrackAppStartEvents: Option<bool>,
    isTrackAppEndEvents: Option<bool>)

  function OrElse<T>(o: Option<T>, d: T): T {
    match o
    case Some(v) => v
    case None => d
  }

  /** Keys of an ordered attribute list. */
  function Keys<V>(entries: seq<(string, V)>): set<string> {
    set i | 0 <= i < |entries| :: entries[i].0
  }

  /** A source object never has two entries under one key. */
  predicate DistinctKeys<V>(entries: seq<(string, V)>) {
    forall i, j :: 0 <= i < j < |entries| ==> entries[i].0 != entries[j].0
  }
}
