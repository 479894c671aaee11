# clickstream-web event bookkeeping, in Dafny

This project models the client-side bookkeeping of the Clickstream web SDK and proves
properties of it. The SDK does the following:

- it validates event names and attributes against fixed cascades of checks;
- it builds the event to send, with a hash code over its serialized form;
- it keeps a user profile and persists it in the browser's local storage;
- it sends each event as it is recorded, with a bundle sequence number and a retry loop;
- it keeps events that failed to send, within a character budget;
- it follows the visit session across page appear and hide, and records the preset events
  (first open, session start, app start and end, page view, engagement, search, scroll).

One Dafny module stands for each source file:

| module | file | source |
|---|---|---|
| `Types`, `Event` | types.dfy, event.dfy | src/types/Analytics.ts, src/provider/Event.ts (constants and enums) |
| `Text` | text.dfy | JavaScript string and number helpers the source relies on |
| `HashUtil` | hash_util.dfy | src/util/HashUtil.ts |
| `BrowserInfo` | browser_info.dfy | src/browser/BrowserInfo.ts (`initLocalInfo`) |
| `StorageUtil` | storage_util.dfy | src/util/StorageUtil.ts |
| `NetRequest` | net_request.dfy | src/network/NetRequest.ts |
| `EventRecorder` | event_recorder.dfy | src/provider/EventRecorder.ts |
| `EventChecker` | event_checker.dfy | src/provider/EventChecker.ts |
| `AnalyticsEventBuilder` | analytics_event_builder.dfy | src/provider/AnalyticsEventBuilder.ts |
| `ClickstreamProvider` | clickstream_provider.dfy | src/provider/ClickstreamProvider.ts |
| `ClickstreamAnalytics` | clickstream_analytics.dfy | src/ClickstreamAnalytics.ts |
| `Session` | session.dfy | src/tracker/Session.ts |
| `Tracker` | tracker_sink.dfy | what the trackers see of the provider and the browser |
| `ScrollTracker` | scroll_tracker.dfy | src/tracker/ScrollTracker.ts |
| `PageViewTracker` | page_view_tracker.dfy | src/tracker/PageViewTracker.ts |
| `SessionTracker` | session_tracker.dfy | src/tracker/SessionTracker.ts |

**How the model is built:**

- Stateful source objects are classes whose methods change fields, under `modifies` clauses:
  - the storage, the recorder, the provider, the session and the three trackers;
  - the init-once facade;
  - an item object that `checkItems` deletes from.
- Each method's `ensures` ties the new state to pure functions of the old state. Most
  properties are proved as lemmas about those functions.
- Local storage is one map from key to slot, held by a `Storage` object that every component
  shares.
- The environment comes in as parameters:
  - the clock: `now`;
  - the uuid generator: `freshId` and `EventEnv.eventId`;
  - the browser: `Browser`, `Page`, `DocumentEnv` and the window measurements;
  - the endpoint: `server`, which gives the reply and its duration for each attempt;
  - `JSON.stringify`: `serialize`;
  - SHA-256: `digest`.
- The recorder sends through the retry loop as the source writes it: one timer and one abort
  signal for all attempts (`NetRequest.SendRequestAsWritten`). The loop with a timer per
  attempt (`NetRequest.SendRequest`) is the corrected version under "## Findings" and nothing
  else uses it.
- Every event the provider builds gets its own surroundings (`Outside`): its event id, its
  clock, the serializer, the digest and the endpoint's replies. In `setUserAttributes` the
  k-th rejection's error event uses `outsides(k)`.
- Trackers hand their events to an `EventSink`, a list of recorded `ClickstreamEvent`s that
  stands for the provider's `record`.

**Where the source's files do not fit together, the model follows what the code calls:**

- `ClickstreamProvider.record` and `setUserAttributes` call `Event.checkEventName` and
  `Event.checkUserAttribute`. src/provider/Event.ts defines neither, so these calls are bound
  to the `EventChecker` functions.
- `getEventAttributesWithCheck` (src/provider/AnalyticsEventBuilder.ts:85-86) takes
  `checkAttributes` from `Event` in the same way, and `Event` does not define it either. As
  written, the call would throw a TypeError on the first non-null attribute. The model binds
  it to `EventChecker.CheckAttributes` (src/provider/EventChecker.ts:49).
- `record` passes `(event, userAttribute, clickstream)` to `createEvent`, whose parameters are
  `(context, event, userAttributes, session?)`. The model passes each argument by its role and
  passes no session.
- The trackers call storage functions that src/util/StorageUtil.ts lacks:
  - `getSession` and `saveSession`;
  - `getIsFirstOpen` and `saveIsFirstOpenToFalse`;
  - `clearPageInfo`;
  - the getters and setters for the previous page's url, title and start time.

  The model gives these plain slots in the same store. The key names are the model's own.
  An absent url or title reads as "" and an absent start time as 0. The first-open flag reads
  as set until it is written. `clearPageInfo` empties the url and the title.

## Model

| member | source | states |
|---|---|---|
| BrowserInfo.InitLocalInfo | src/browser/BrowserInfo.ts:33-41 | The language is a prefix of the locale. It is the whole locale exactly when no '-' occurs after the first character. Otherwise it is non-empty and holds no '-'. The country code holds no lowercase ASCII letter. |
| BrowserInfo.LocalInfoSplit | src/browser/BrowserInfo.ts:33-41 | The first '-' is at index i. If i > 0, the language is the text before it and the country is the next '-'-separated segment, upper-cased. If i = 0, the whole locale is the language and the country is empty. |
| BrowserInfo.LocalInfoNoDash | src/browser/BrowserInfo.ts:37-40 | A locale without '-' is its own language, with an empty country code. |
| BrowserInfo.LanguageIsPrefix | src/browser/BrowserInfo.ts:33-41 | The language is always a prefix of the locale. The country code is empty whenever no '-' occurs after the first character. |
| BrowserInfo.LocalInfoExamples | test/browser/BrowserInfo.test.ts:53-66 | '' gives ('', ''), 'en' gives ('en', '') and 'fr-fr' gives ('fr', 'FR'). |
| Text.IndexOf | src/browser/BrowserInfo.ts:34 | `indexOf` is -1 exactly when the character is absent. Otherwise it is the first position holding the character. |
| Text.ToUpperAscii | src/browser/BrowserInfo.ts:36 | Upper-casing keeps the length and maps each character independently. |
| Text.Prefix | src/provider/EventChecker.ts:115-117 | `substring(0, n)` is a prefix of length min(n, length). |
| Text.PadStart | src/tracker/Session.ts:86-92 | `padStart` has length max(width, length). It ends with the original text, and every position before it holds the fill character. |
| Text.SliceLast | src/tracker/Session.ts:80 | `slice(-n)` is the last min(n, length) characters. |
| Text.ParseIntRoundTrip | src/util/StorageUtil.ts:65-76 | `parseInt(String(n))` gives back n for every integer n, negative ones included. |
| Text.ParsePadded | src/tracker/Session.ts:86-93 | A zero-padded decimal reads back as the number it pads. |
| HashUtil.ByteToHexDigits | src/util/HashUtil.ts:24 | A byte becomes its high and then its low nibble, as lowercase hex digits. |
| HashUtil.ToHex | src/util/HashUtil.ts:23-27 | The hex text has two characters per byte. Positions 2i and 2i+1 hold the high and the low nibble of byte i. |
| HashUtil.ToHexIsLowerHex | src/util/HashUtil.ts:23-27 | Every character of the hex text is in [0-9a-f]. |
| HashUtil.ToHexAppend | src/util/HashUtil.ts:23-27 | hex(a + b) = hex(a) + hex(b). |
| HashUtil.FromHexToHex | src/util/HashUtil.ts:23-27 | Reading the pairs of digits back gives the bytes. |
| HashUtil.HashCodeShape | src/util/HashUtil.ts:16-21 | For a digest of at least four bytes, such as SHA-256's 32, the hash code is 8 lowercase hex digits. It is a prefix of the full hex text. |
| HashUtil.HashCode | src/util/HashUtil.ts:16-21 | The hash code has min(8, 2n) characters for an n-byte digest. For a digest of at least four bytes it is the hex text of the first four bytes. |
| StorageUtil.KeysDistinct | src/util/StorageUtil.ts:23-30 | No two slots share a key. |
| StorageUtil.PayloadLength | src/util/StorageUtil.ts:101-102 | The serialized failed list is 2 + the sum of the event lengths + one comma between neighbours. |
| StorageUtil.DeviceIdStable | src/util/StorageUtil.ts:32-39 | A stored non-empty id is kept. Otherwise the fresh id is stored. A second call changes nothing and returns the same id. Only the device-id slot is written. |
| StorageUtil.UserUniqueIdFirstTouch | src/util/StorageUtil.ts:41-63 | A stored id leaves storage untouched. Otherwise the fresh id and the first-touch timestamp are written. The user-attribute map is then replaced by that single entry, whose value and set time are the same instant. |
| StorageUtil.BundleSequenceIdRoundTrip | src/util/StorageUtil.ts:65-76 | The id reads as 1 when nothing is stored. A saved id reads back as saved. No other slot changes. |
| StorageUtil.UserAttributesRoundTrip | src/util/StorageUtil.ts:78-89 | Saved attributes read back as saved. With nothing stored they read as the empty map. No other slot changes. |
| StorageUtil.SaveFailedEventBudget | src/util/StorageUtil.ts:97-108 | The event is appended at the end exactly when the serialized list stays within 524,288 characters. Otherwise storage is left as it was, so stored events are never truncated. |
| StorageUtil.FailedEventsWithinBudget | src/util/StorageUtil.ts:21-108 | A list within the budget stays within it. With every event at least m characters long, the list holds at most (budget - 1) / (m + 1) events. |
| StorageUtil.ClearFailedEventsEmpties | src/util/StorageUtil.ts:91-112 | An absent slot reads as the empty list. Clearing empties the list and touches no other slot. |
| StorageUtil.ClearPageInfoEffects | src/tracker/SessionTracker.ts:73-74 | After `clearPageInfo` the previous url and title read as "". The first-open flag and the session are unchanged. Only the url and title slots change. |
| StorageUtil.Storage.GetDeviceId | src/util/StorageUtil.ts:32-39 | Returns the non-empty stored id, or stores and returns the fresh one. |
| StorageUtil.Storage.GetCurrentUserUniqueId | src/util/StorageUtil.ts:41-49 | Same for the unique id. A new id also writes the first touch. |
| StorageUtil.Storage.SaveUserFirstTouchTimestamp | src/util/StorageUtil.ts:51-63 | Writes the timestamp slot. Replaces the user attributes with the single first-touch entry. |
| StorageUtil.Storage.SaveBundleSequenceId | src/util/StorageUtil.ts:71-76 | Writes the id's slot. The getter then returns the saved value. |
| StorageUtil.Storage.UpdateUserAttributes | src/util/StorageUtil.ts:78-83 | Writes the attribute slot. |
| StorageUtil.Storage.SaveFailedEvent | src/util/StorageUtil.ts:97-108 | Storage becomes the budgeted append of the event. |
| StorageUtil.Storage.ClearFailedEvents | src/util/StorageUtil.ts:110-112 | Removes the failed-event slot. |
| StorageUtil.Storage.SaveSession | src/tracker/SessionTracker.ts:126 | Writes the session slot. It then reads back as that session. |
| StorageUtil.Storage.SaveIsFirstOpenToFalse | src/tracker/SessionTracker.ts:60 | Writes the flag, which then reads as not first open. |
| StorageUtil.Storage.ClearPageInfo | src/tracker/SessionTracker.ts:74 | Storage becomes the cleared page info. |
| StorageUtil.Storage.SavePreviousPageUrl | src/tracker/PageViewTracker.ts:83 | Writes the url slot, which then reads back. |
| StorageUtil.Storage.SavePreviousPageTitle | src/tracker/PageViewTracker.ts:84 | Writes the title slot, which then reads back. |
| StorageUtil.Storage.SavePreviousPageStartTime | src/tracker/PageViewTracker.ts:114 | Writes the start time as text, which reads back as the number. |
| StorageUtil.Storage.GetBundleSequenceId | src/util/StorageUtil.ts:65-69 | 1 when the slot is absent. Otherwise the stored text parses to the returned number. |
| StorageUtil.Storage.GetUserAttributes | src/util/StorageUtil.ts:85-89 | The empty map when the slot is absent. Otherwise the map stored in the slot. |
| StorageUtil.Storage.GetFailedEvents | src/util/StorageUtil.ts:91-95 | The empty list when the slot is absent. Otherwise the list stored in the slot. |
| StorageUtil.Storage.GetSession | src/tracker/Session.ts:60 | A session is returned exactly when one is stored, and it is the stored one. |
| StorageUtil.Storage.GetIsFirstOpen | src/tracker/SessionTracker.ts:56 | The app counts as first opened exactly when the flag slot is absent. |
| NetRequest.ReplyOfStatus | src/network/NetRequest.ts:60 | A response counts as success exactly when its status is 200. Each attempt's reply in the sending loop is derived from its status through it, and a rejected `fetch` counts as thrown. |
| NetRequest.Query | src/network/NetRequest.ts:32-37 | The query carries platform=Web, the appId and the sequence id, which reads back as the number. |
| NetRequest.SendRequestAsWritten | src/network/NetRequest.ts:39-73 | The loop with the single timer and signal. Success holds exactly when an attempt within the budget answers 200. At most `retryTimes` attempts are made, and the loop stops at the first success. A failure uses the whole budget. |
| NetRequest.FirstTimeoutDoomsRetries | src/network/NetRequest.ts:39-70 | When the first attempt takes the timeout or longer, every attempt fails as written. |
| NetRequest.AsWrittenSlowFirstAttempt | src/network/NetRequest.ts:39-70 | A slow 200 on attempt 0 and a fast 200 on attempt 1 make all three attempts fail as written. |
| NetRequest.SendRequest | src/network/NetRequest.ts:56-73 | The loop with a timer per attempt. Success holds exactly when some attempt within the budget answers 200 in time. The loop stops at the first such attempt and otherwise makes exactly `retryTimes` attempts. |
| NetRequest.CorrectedSlowFirstAttempt | src/network/NetRequest.ts:56-73 | With a timer per attempt, the same server is delivered to. |
| NetRequest.VersionsAgreeWithoutTimeouts | src/network/NetRequest.ts:39-73 | When every attempt within the budget answers before the timeout, each attempt gets the same reply in both versions, and both deliver or both fail. |
| NetRequest.NoBudgetNoDelivery | src/network/NetRequest.ts:56-73 | With `retryTimes` <= 0, no attempt is made and the result is false. |
| EventRecorder.RecordStepEffects | src/provider/EventRecorder.ts:38-52 | In Immediate mode a send consumes exactly one sequence number, whatever the outcome. A failed send appends the event to the failure store under the budget. A delivered send leaves the store alone. Only those two slots change. |
| EventRecorder.SendFailedStepEffects | src/provider/EventRecorder.ts:55-71 | An empty failure list changes nothing. Otherwise the id advances once, and the list is cleared exactly when the send succeeded. |
| EventRecorder.SequenceIdMonotone | src/provider/EventRecorder.ts:38-76 | No recorder operation lowers the sequence id. |
| EventRecorder.Recorder.constructor | src/provider/EventRecorder.ts:25-28 | The sequence id is read from storage, where it defaults to 1. No request has been made. |
| EventRecorder.Recorder.PlusSequenceId | src/provider/EventRecorder.ts:73-76 | The id rises by exactly 1, and storage holds the new value. |
| EventRecorder.Recorder.Record | src/provider/EventRecorder.ts:30-53 | In Immediate mode, the one-element list is sent through the single-timer retry loop, with the pre-increment id, and the id rises by one. The request is logged with that loop's outcome. Storage becomes the record step of that outcome, so an undelivered event joins the failed list. Other modes change nothing. |
| EventRecorder.Recorder.SendFailedEvents | src/provider/EventRecorder.ts:55-71 | An empty store sends nothing and keeps the id. Otherwise the whole list is sent as one payload through the single-timer retry loop. The id advances once, and the list is cleared exactly when that loop delivers. |
| EventChecker.GetLimitString | src/provider/EventChecker.ts:115-117 | The result is a prefix of at most 256 characters. A text already that short is unchanged. |
| EventChecker.FirstFailingRule | src/provider/EventChecker.ts:49-113 | A cascade yields 0 exactly when no rule fires. Otherwise it yields the code of a firing rule with none firing before it. |
| EventChecker.CheckEventName | src/provider/EventChecker.ts:20-42 | A message is present exactly when the code is non-zero. |
| EventChecker.CheckAttributes | src/provider/EventChecker.ts:49-113 | A message is present exactly when the code is non-zero, and it has at most 256 characters. |
| EventChecker.CheckUserAttribute | src/provider/EventChecker.ts:119-186 | The same, for user attributes. |
| EventChecker.EventNameVerdict | src/provider/EventChecker.ts:20-47 | A name is accepted exactly when it is a valid name of at most 50 characters. An invalid name gives 1001 whatever its length. |
| EventChecker.AttributeVerdict | src/provider/EventChecker.ts:49-113 | The cascade runs count (2004), name length (2001), name (2002), then value length (2003). The code is 0 exactly when all four hold. 2003 is only reported for a valid, short name under the cap. |
| EventChecker.UserAttributeVerdict | src/provider/EventChecker.ts:119-186 | The same cascade with limits 100 and 256 and codes 3001 to 3004. |
| EventChecker.ValidNameExamples | test/provider/EventChecker.test.ts:34-46 | The names the tests accept are valid, and the names they reject are not. |
| EventChecker.NamePatternAgrees | src/provider/EventChecker.ts:44-47 | `IsValidName` agrees with a left-to-right run of /^(?![0-9])[0-9a-zA-Z_]+$/: a non-empty name with no leading digit, made only of letters, digits and '_'. |
| EventChecker.MatchesAfterStart | src/provider/EventChecker.ts:45 | Past the first character, the pattern matches exactly the texts made only of name characters. |
| EventChecker.KeepShortExact | src/provider/EventChecker.ts:204-214 | An item entry survives exactly when it is not both truthy and over 256 characters. Survivors keep their order. |
| EventChecker.KeepShortLength | src/provider/EventChecker.ts:204-214 | No entry is added. |
| EventChecker.LastTooLongRule | src/provider/EventChecker.ts:204-214 | The reported entry is the last too-long one. There is none exactly when every entry is short. |
| EventChecker.ItemObject.Delete | src/provider/EventChecker.ts:212 | `delete item[key]` removes that key's entry. |
| EventChecker.CheckItems | src/provider/EventChecker.ts:188-230 | At the cap: 4001, with the item unchanged. Otherwise every too-long entry is deleted in place. The result is 4002, naming the last deleted entry, exactly when one was deleted, and 0 otherwise. Messages have at most 256 characters. |
| EventChecker.DeleteTooLong | src/provider/EventChecker.ts:204-214 | The loop deletes exactly the truthy entries over 256 characters, in place. It reports a deletion exactly when there was one, naming the last. |
| AnalyticsEventBuilder.GetEventAttributesWithCheck | src/provider/AnalyticsEventBuilder.ts:77-97 | The for-in loop computes the filter. |
| AnalyticsEventBuilder.FilterKeepsKeys | src/provider/AnalyticsEventBuilder.ts:80-95 | The loop never removes a key. |
| AnalyticsEventBuilder.AttributesWithCheckKeys | src/provider/AnalyticsEventBuilder.ts:80-96 | Every key of the result is an error key or was given a non-null value. Absent or empty input gives the empty map. |
| AnalyticsEventBuilder.AfterErrorAllKept | src/provider/AnalyticsEventBuilder.ts:88-92 | Once the error pair is present, every later non-null attribute is copied, failing or not. |
| AnalyticsEventBuilder.NoErrorAllKept | src/provider/AnalyticsEventBuilder.ts:81-95 | Without an error pair in the result, every non-null attribute was copied unchanged. |
| AnalyticsEventBuilder.AllPassingKept | src/provider/AnalyticsEventBuilder.ts:86-92 | Attributes that pass the checks, with room under the 500 cap, are copied unchanged. |
| AnalyticsEventBuilder.FirstErrorWins | src/provider/AnalyticsEventBuilder.ts:88-90 | The first failing attribute is not copied. Its code and message become the error pair, and every later non-null attribute is copied. |
| AnalyticsEventBuilder.NoErrorWithinCap | src/provider/AnalyticsEventBuilder.ts:84-92 | Without an error pair the result holds at most 500 attributes. |
| AnalyticsEventBuilder.ErrorPairExample | src/provider/AnalyticsEventBuilder.ts:84-92 | The count a check sees includes the error pair. An invalid first name, then a null, then a valid attribute give the error pair and that attribute. |
| AnalyticsEventBuilder.EnrichRule | src/provider/AnalyticsEventBuilder.ts:36-47 | With a session, the four session attributes are set to its id, start, duration so far and index, overwriting any user attribute of the same name. Without one, those keys are as given. The page title and url are always set, last. Every other key keeps its value, and no other key is added. |
| AnalyticsEventBuilder.CreateEvent | src/provider/AnalyticsEventBuilder.ts:28-75 | The event is the unhashed event with its hash code filled in. The hash code is the hash of the serialized event with an empty hash code. |
| AnalyticsEventBuilder.CreateEventShape | src/provider/AnalyticsEventBuilder.ts:49-73 | The hash is computed over the event with an empty hash code, and the event differs from that in nothing else. The hash is 8 lowercase hex digits. The event carries the name, the appId, `now`, "Web", the sdk name, the user map and the enriched, filtered attributes. |
| ClickstreamProvider.OverlayIdempotent | src/provider/ClickstreamProvider.ts:56 | Applying the same configuration twice is applying it once. |
| ClickstreamProvider.OverlayRule | src/provider/ClickstreamProvider.ts:56 | A field the patch gives wins, and a field it omits is kept. A bare patch changes only appId and endpoint. |
| ClickstreamProvider.ProfileFromAppend | src/provider/ClickstreamProvider.ts:113-137 | Running the loop over two parts is running it over the first and then the second. |
| ClickstreamProvider.ReportedStep | src/provider/ClickstreamProvider.ts:122-129 | One more report adds exactly one error event, built in the surroundings of its index. No new report adds none. |
| ClickstreamProvider.SentForSnoc | src/provider/ClickstreamProvider.ts:122-129 | One more report adds exactly one recorder send, with the serialized error event and that report's delivery outcome. |
| ClickstreamProvider.SentForEffects | src/provider/ClickstreamProvider.ts:121-129 | In Immediate mode each report costs one sequence number and one request. Other modes change nothing. Requests only accumulate, and only the sequence-id and failed-event slots change. |
| ClickstreamProvider.ProfileReports | src/provider/ClickstreamProvider.ts:117-129 | Reports only accumulate, at most one per entry. Each carries a code from 3001 to 3004 and a message of at most 256 characters. |
| ClickstreamProvider.ProfileNotAdded | src/provider/ClickstreamProvider.ts:113-137 | A key absent before and given no non-null value stays absent. |
| ClickstreamProvider.NullStepDeletes | src/provider/ClickstreamProvider.ts:115-116 | The step for a null value leaves the key absent. |
| ClickstreamProvider.LaterKeysDiffer | src/provider/ClickstreamProvider.ts:113 | In a list of distinct keys, no later entry repeats a given key. |
| ClickstreamProvider.NullDeletes | src/provider/ClickstreamProvider.ts:115-116 | A key given null is absent afterwards, whatever it held, without any check. |
| ClickstreamProvider.ProfileValues | src/provider/ClickstreamProvider.ts:112-135 | Every value afterwards is either untouched from before, or a non-null entry of this call stamped with the call's single timestamp. |
| ClickstreamProvider.ProfileWithinCap | src/provider/ClickstreamProvider.ts:117-135 | The profile never exceeds 100 attributes. |
| ClickstreamProvider.FullProfileRejects | src/provider/ClickstreamProvider.ts:118-129 | At 100 attributes, even a new value for a key already held is rejected with 3001 and changes nothing. |
| ClickstreamProvider.AllPassingApplied | src/provider/ClickstreamProvider.ts:117-135 | With room under the cap and every entry within the limits, nothing is reported and every entry is applied as given. |
| ClickstreamProvider.ErrorEventKept | src/provider/ClickstreamProvider.ts:122-129 | The CLICKSTREAM_ERROR event passes the name gate. Its code and message survive the attribute filter intact. |
| ClickstreamProvider.Provider.constructor | src/provider/ClickstreamProvider.ts:38-49 | The defaults are Immediate, 5000, page views on, multi-page app, logging off and a 1,800,000 ms timeout. There is no recorder yet. |
| ClickstreamProvider.Provider.Configure | src/provider/ClickstreamProvider.ts:51-69 | An empty appId or endpoint returns the argument and changes nothing. Otherwise the patch is overlaid, a fresh recorder is made, and the profile is loaded from storage. Storage becomes the resend step of the single-timer loop's outcome. The new recorder's sequence id goes up by one exactly when failed events were stored, and its request log is then the one resend of that list, under the old id, with the single-timer outcome; otherwise it is empty. |
| ClickstreamProvider.Provider.Record | src/provider/ClickstreamProvider.ts:79-97 | A name that fails the check, or a missing recorder, records nothing and leaves storage and the recorder alone. Otherwise the built event is handed to the recorder. In Immediate mode one request is logged with the next id and the single-timer loop's outcome, and storage becomes the record step. |
| ClickstreamProvider.Provider.SetUserId | src/provider/ClickstreamProvider.ts:99-109 | null removes USER_ID. Otherwise USER_ID is set with `now`. The whole map is persisted. |
| ClickstreamProvider.Provider.Persist | src/provider/ClickstreamProvider.ts:108 | The profile is written and reads back. |
| ClickstreamProvider.Provider.SetUserAttributes | src/provider/ClickstreamProvider.ts:111-139 | The profile becomes the loop's result and is persisted once, at the end. Each rejection records one error event, built in its own surroundings. The recorder's id, requests and storage are those of one send per rejection, in order. |
| ClickstreamProvider.Provider.ApplyEntries | src/provider/ClickstreamProvider.ts:113-137 | The loop computes the profile fold. The recorded events and the recorder's state extend by one send per report. |
| ClickstreamProvider.Provider.ApplyEntry | src/provider/ClickstreamProvider.ts:114-136 | One pass of the loop: one profile step. A rejection adds one report, one error event and one send. Otherwise nothing is recorded and storage is unchanged. |
| ClickstreamProvider.Provider.ReportRejection | src/provider/ClickstreamProvider.ts:122-129 | Records the error event carrying the rejection's code and message. The recorder's state takes one record step with the single-timer loop's outcome. |
| ClickstreamAnalytics.Analytics.constructor | src/ClickstreamAnalytics.ts:22-24 | There is no provider before `init`. |
| ClickstreamAnalytics.Analytics.Init | src/ClickstreamAnalytics.ts:31-39 | Returns true exactly on the first call, which creates a provider. With an empty appId or endpoint that provider keeps the defaults and storage is unchanged. Otherwise it is configured, the profile is loaded and the failed events are resent: the new recorder's sequence id and request log are those of the resend, as for `Provider.Configure`. Every later call returns false and leaves the provider and storage alone. |
| ClickstreamAnalytics.Analytics.Record | src/ClickstreamAnalytics.ts:41-43 | Forwards to the provider's `record`. A rejected name records nothing and leaves storage alone. Otherwise one event is recorded and the recorder takes one record step. |
| ClickstreamAnalytics.Analytics.SetUserId | src/ClickstreamAnalytics.ts:45-47 | Forwards to `setUserId`. Null removes USER_ID, anything else sets it with `now`. Storage changes only by persisting the profile. |
| ClickstreamAnalytics.Analytics.SetUserAttributes | src/ClickstreamAnalytics.ts:49-51 | Forwards to `setUserAttributes`: the profile fold, one error event and one recorder send per rejection, then the profile is persisted. |
| Session.CivilFromDays | src/tracker/Session.ts:86-88 | The UTC month is 1 to 12 and the day is 1 to 31. |
| Session.CivilRoundTrip | src/tracker/Session.ts:86-88 | The calendar date of a day count gives back the day count. |
| Session.UtcOf | src/tracker/Session.ts:85-92 | Every UTC field is in its range. |
| Session.UtcRoundTrip | src/tracker/Session.ts:85-92 | The UTC fields give back the instant. |
| Session.PadShape | src/tracker/Session.ts:86-92 | A field that fits its width pads to exactly that width and reads back. |
| Session.FormatDateShape | src/tracker/Session.ts:86-88 | YYYYMMDD is 8 characters, and each field reads back from its place. |
| Session.FormatClockShape | src/tracker/Session.ts:89-92 | HHMMSSmmm is 9 characters, and each field reads back from its place. |
| Session.FormatFieldsShape | src/tracker/Session.ts:84-94 | For years 0 to 9999 the token is 18 characters, with '-' at position 8 and every field at its fixed place. |
| Session.FormatTimeShape | src/tracker/Session.ts:84-94 | For years 0 to 9999 the token of an instant is 18 characters, with '-' at position 8. Its seven fields read back as the instant's UTC fields, and those give back the instant. |
| Session.SessionIdShape | src/tracker/Session.ts:79-82 | The id is the last min(8, length) characters of the unique id, then '-', then the time token. For years 0 to 9999 it is 19 characters longer than that tail, and its last 18 characters read back as the instant. |
| Session.CurrentSessionRule | src/tracker/Session.ts:54-77 | A session is kept exactly when it was paused less than the timeout ago, and a kept session is not new. Otherwise the next session is new, starts now and has the next index. With no session at all, the next index is 1. A never-paused session is always replaced. |
| Session.Session.constructor | src/tracker/Session.ts:30-40 | The session holds the given fields. |
| Session.Session.GetDuration | src/tracker/Session.ts:46-48 | start + duration = now. |
| Session.Session.Pause | src/tracker/Session.ts:50-52 | The pause time becomes now, and the session is no longer new. |
| Session.CreateSession | src/tracker/Session.ts:22-28 | A fresh, never-paused session with the given index, starting now. |
| Session.GetCurrentSession | src/tracker/Session.ts:54-77 | With no previous session, the session rule is applied to the stored one. Otherwise it is applied to the previous session. A kept previous session is returned as the same object. |
| Tracker.QueryGetHas | src/tracker/PageViewTracker.ts:159-162 | `get` finds a value exactly when `has` holds, and the value is the first under that key. |
| ScrollTracker.ScrollTracker.Init | src/tracker/ScrollTracker.ts:21-25 | The flag is up after `init`. |
| ScrollTracker.ScrollTracker.EnterNewPage | src/tracker/ScrollTracker.ts:27-29 | The flag is up again, with no SCROLL yet on the page. |
| ScrollTracker.ScrollTracker.TrackScroll | src/tracker/ScrollTracker.ts:31-47 | SCROLL is recorded exactly when tracking is on, the flag is up and the reader is past 90%. Its engagement time is now minus the stored page start, and recording lowers the flag. Otherwise nothing changes. There is at most one SCROLL per page. |
| ScrollTracker.NinetyPercentExact | src/tracker/ScrollTracker.ts:33-36 | The integer test agrees with the real comparison scrollY > 0 and scrollY + innerHeight > 0.9 × scrollHeight. |
| ScrollTracker.ScrollThreshold | src/tracker/ScrollTracker.ts:33-36 | Position 0 never fires, and the bottom of the page does. |
| PageViewTracker.MergeKeywords | src/tracker/PageViewTracker.ts:37-38 | Configured keywords replace the defaults position by position. Defaults beyond them stay. |
| PageViewTracker.EngagementNonNegative | src/tracker/PageViewTracker.ts:144-182 | With a clock that does not go back, idle time only grows and never exceeds the time on screen, so engagement is never negative. |
| PageViewTracker.PageViewAttributesLookup | src/tracker/PageViewTracker.ts:96-108 | The page view carries the referrer url and title. ENTRANCES is 1 exactly for an entrance. The previous start time and the engagement time appear only when positive. |
| PageViewTracker.SearchHitFirst | src/tracker/PageViewTracker.ts:155-173 | The hit is the first keyword, in list order, that the query has. There is none exactly when the query has no keyword. |
| PageViewTracker.SearchEvents | src/tracker/PageViewTracker.ts:155-173 | At most one SEARCH event. |
| PageViewTracker.PageChangeItemsEffects | src/tracker/PageViewTracker.ts:83-114 | After a page view, the store reads back the page just entered as the previous page, with its start time. Without one, it is unchanged. In a single-page app the same page then shows no second page view. Only those three slots change. |
| PageViewTracker.PageChangeEventsShape | src/tracker/PageViewTracker.ts:59-87 | A page change records exactly one page view when one is due and nothing otherwise. Before it comes at most one engagement event, and only when engagement is closed first. After it comes at most one search. |
| PageViewTracker.PageViewTracker.constructor | src/tracker/PageViewTracker.ts:24-31 | The field defaults. |
| PageViewTracker.PageViewTracker.Init | src/tracker/PageViewTracker.ts:33-48 | Keywords are merged, and the idle timeout is taken from the configuration. The tracker leaves its first-page state. After a reload nothing else changes: no event, the same storage, fields and scroll state. Otherwise it runs the first page change: its events, its stored items, the entrance flag, the screen start, the idle and engagement times, and the scroll state reset exactly when a page view is shown. |
| PageViewTracker.PageViewTracker.UpdateIdleDuration | src/tracker/PageViewTracker.ts:175-182 | The gap is added to idle time only when it exceeds the timeout. The last-active time becomes now. |
| PageViewTracker.PageViewTracker.UpdateLastScreenStartTimestamp | src/tracker/PageViewTracker.ts:122-126 | Screen start and last active become now, and idle time becomes 0. |
| PageViewTracker.PageViewTracker.SetIsEntrances | src/tracker/PageViewTracker.ts:118-120 | Sets the entrance flag and nothing else. |
| PageViewTracker.PageViewTracker.GetLastEngageTime | src/tracker/PageViewTracker.ts:144-149 | Returns time on screen minus idle time, and resets idle time to 0. |
| PageViewTracker.PageViewTracker.RecordUserEngagement | src/tracker/PageViewTracker.ts:128-142 | Always updates the engagement time. Records USER_ENGAGEMENT only when tracking is on and the time exceeds 1000. |
| PageViewTracker.PageViewTracker.TrackPageView | src/tracker/PageViewTracker.ts:89-116 | Records the page view and clears the entrance flag. The page start time is saved, and the screen starts now. |
| PageViewTracker.PageViewTracker.TrackSearchEvents | src/tracker/PageViewTracker.ts:155-173 | The loop records exactly the search events of the first hit. |
| PageViewTracker.PageViewTracker.OnPageChange | src/tracker/PageViewTracker.ts:59-87 | The events are the page-change events. A page view happens exactly when one is due. Engagement comes first only in the single-page case after the first page. The current page becomes the stored previous page. The scroll tracker starts a fresh page exactly when a page view is shown, and is otherwise untouched. |
| PageViewTracker.PageViewTracker.LeavePreviousPage | src/tracker/PageViewTracker.ts:72-79 | The scroll tracker starts a fresh page. Engagement is recorded only in the single-page case, after the first page, with a known previous url. |
| PageViewTracker.PageViewTracker.EnterPage | src/tracker/PageViewTracker.ts:72-85 | Engagement, then the page view, then the search, then the url and title are saved. The scroll tracker starts a fresh page. |
| SessionTracker.AppStartRule | src/tracker/SessionTracker.ts:81-89 | APP_START is recorded on a later appearance exactly when tracking is on. On the first appearance it also needs a referrer from another host and no reload. IS_FIRST_TIME says which kind of appearance it was. |
| SessionTracker.HideEventsRule | src/tracker/SessionTracker.ts:100-117 | Hide-time events are immediate unless the window is closing in Firefox. APP_END comes last, exactly when tracking is on. |
| SessionTracker.HideThenAppear | src/tracker/Session.ts:50-72 | A hide and an appear within the timeout keep the same session. After the timeout, the next session starts. |
| SessionTracker.NewSessionPageViewIsEntrance | src/tracker/SessionTracker.ts:72-79 | On a new session after the first appearance, the page view is an entrance with an empty referrer. |
| SessionTracker.SessionTracker.constructor | src/tracker/SessionTracker.ts:23-27 | No session yet, and the window is not closing. |
| SessionTracker.SessionTracker.Init | src/tracker/SessionTracker.ts:29-44 | The session, events and storage of `handleInit`. Then listeners are registered exactly when `checkEnv` succeeds. The scroll tracker is untouched. |
| SessionTracker.SessionTracker.HandleInit | src/tracker/SessionTracker.ts:54-63 | The session rule is applied to the stored session. FIRST_OPEN is recorded only while the flag is absent, and the flag is then written. SESSION_START follows for a new session, and the page info is then cleared. The first appearance's APP_START comes last. The screen timer restarts. The scroll tracker is untouched. |
| SessionTracker.SessionTracker.RecordFirstOpen | src/tracker/SessionTracker.ts:56-61 | FIRST_OPEN exactly when the flag is set. The flag is cleared. |
| SessionTracker.SessionTracker.OnPageAppear | src/tracker/SessionTracker.ts:65-90 | The screen timer restarts, and the session is re-evaluated except on the first appearance. A new session records SESSION_START and clears the page info. After the first appearance it also runs the page change, with its events and saved page. APP_START follows the rule. The scroll tracker starts a fresh page exactly when that page change shows a page view. |
| SessionTracker.SessionTracker.StartIfNew | src/tracker/SessionTracker.ts:72-80 | The new-session branch runs exactly when the session is new. Its events, storage, entrance flag and scroll reset are those of `StartSession`. Otherwise nothing changes. |
| SessionTracker.SessionTracker.LoadSession | src/tracker/SessionTracker.ts:55 | The session rule applied to the stored session. |
| SessionTracker.SessionTracker.RefreshSession | src/tracker/SessionTracker.ts:70 | The session rule applied to the live session. |
| SessionTracker.SessionTracker.StartSession | src/tracker/SessionTracker.ts:73-79 | Entrance set, page info cleared, SESSION_START. Unless it is the first appearance, the page change follows over the cleared store, with its events and saved page, and the scroll tracker starts a fresh page exactly when it shows a page view. |
| SessionTracker.SessionTracker.RecordAppStart | src/tracker/SessionTracker.ts:81-89 | Records the APP_START events of the rule. |
| SessionTracker.SessionTracker.OnPageHide | src/tracker/SessionTracker.ts:96-104 | The session is paused and persisted before the engagement and APP_END events, with the hide-time immediacy. The page-view tracker's entrance flag, first-page flag, keywords and idle timeout are unchanged. |
| SessionTracker.SessionTracker.RecordUserEngagement | src/tracker/SessionTracker.ts:106-109 | Idle time is updated, then the screen's engagement is recorded. The page-view tracker's entrance flag, first-page flag, keywords, idle timeout and screen start are unchanged. |
| SessionTracker.SessionTracker.RecordAppEnd | src/tracker/SessionTracker.ts:111-117 | APP_END exactly when tracking is on. |
| SessionTracker.SessionTracker.OnBeforeUnload | src/tracker/SessionTracker.ts:119-122 | Sets the closing flag. Nothing lowers it. |
| SessionTracker.SessionTracker.OnVisibilityChange | src/tracker/SessionTracker.ts:46-52 | The hidden state pauses the session. Any other state is an appearance. |
| SessionTracker.SessionTracker.StoreSession | src/tracker/SessionTracker.ts:124-127 | Pauses the session at now and writes it to storage, where it reads back. |
| SessionTracker.SessionTracker.CheckEnv | src/tracker/SessionTracker.ts:129-148 | Succeeds exactly with a document that has listeners and one of the three properties. It picks the first of hidden, msHidden and webkitHidden, and leaves the names unchanged on failure. |

## Left out

- Batch mode has no implementation in these files and is not modelled. This covers the event queue, flush splitting, `sendEventsInBackground`, `StorageUtil.saveEvent` and `getAllEvents`.
- `onPageHide` ends with `StorageUtil.checkClickstreamId()` and `provider.sendEventsInBackground(...)`. Neither function exists in the provider or storage files, so both calls are left out.
- `onPageAppear` sets `session.isRecorded`, a field `Session` does not declare. It is not modelled.
- `updateConfigure` calls a provider method that src/provider/ClickstreamProvider.ts does not have, so it is not modelled.
- `trackPageView` calls `provider.createEvent` and `provider.recordEvent`, which the provider does not have. The model records a PAGE_VIEW event whose attributes are the page-view attributes, and `now` stands for the event's timestamp.
- Network I/O is left out: `fetch`, `AbortController`, the timers, the headers and the body. Each attempt is a scripted reply with a duration.
- Promises and `async` are left out. Each operation runs to completion, and a send's result is applied before the call returns. In particular, `createEvent` reads the user profile at the time of the call, where the source holds a live reference that later changes could reach.
- `JSON.stringify` is the parameter `serialize`, SHA-256 is the parameter `digest`, and uuid v4 is an input. Objects the source JSON-encodes into storage are stored as the value itself, so they read back exactly.
- `getDeviceId` inside `createEvent` writes storage. In the model the device id is an input of `EventEnv`.
- The logger and `isLogEvents` output only log, so they are not modelled.
- The DOM is not modelled: listeners, `history` patching (src/util/MethodEmbed.ts, `trackPageViewForSPA`), `window.location`, `URLSearchParams` parsing and `document.referrer`. The query string arrives already split into pairs. `isFromReload` and `isFromCurrentHost` are booleans of `Browser`. Listener registration is reduced to the flag `listening`.
- The BrowserInfo constructor (navigator, timezone offset), PageLoadTracker and ClickTracker are not part of this model.
- `0.9 * scrollHeight` is replaced by the exact integer comparison 10 × viewed > 9 × scrollHeight. Numbers in attribute values are integers.
- `toUpperCase` is ASCII-only.
- Lengths: a Dafny string is a sequence of Unicode code points, while JavaScript's `length`, `substring` and `slice` count UTF-16 code units. The two counts differ only for characters outside the Basic Multilingual Plane, which count once here and twice in the source. This affects the members below.
- EventChecker.CheckEventName: the 50-character name limit counts code points.
- EventChecker.CheckAttributes: the name and value limits count code points.
- EventChecker.CheckUserAttribute: the name and value limits count code points.
- EventChecker.GetLimitString: keeps the first 256 code points.
- EventChecker.CheckItems: the 256-character value limit counts code points.
- StorageUtil.SaveFailedEventStep: the 524,288-character budget counts code points.
- Text.SliceLast: takes the last code points, so `Session.SessionId` keeps up to 8 code points of the unique id.
- Attribute lists: a `seq<(string, Value)>` stands for an object walked by `for…in`. The source visits integer-like keys first, in ascending order, and never repeats a key. The model takes the entries in any order, with repeats allowed, and its lemmas hold for every such list.
- The PageViewTracker keeps `lastActiveTimestamp`, `idleDuration` and `idleTimeoutDuration` in static fields. The model keeps them in the one tracker instance. An unset idle timeout is `None`, and then no gap counts as idle, as with `undefined` in the source comparison.
- `Object.assign` aliasing is not modelled. The configured keywords overwrite the shared default KEYWORDS array in the source. The model merges them into the tracker's own list. Likewise the recorder receives the configuration as a value.
- The provider's `userAttribute` is undefined before `configure`, and `record` before `configure` fails inside the promise. The model starts with an empty profile and records nothing while there is no recorder.
- ClickstreamAnalytics.Analytics.Record: requires an initialised provider. Before `init` the source fails with a TypeError on the undefined provider. The same holds for `SetUserId` and `SetUserAttributes`.
- SessionTracker.SessionTracker.OnVisibilityChange: states the branch taken, not the events. Those are the events of `OnPageHide` and `OnPageAppear`, which are specified in full.
- AnalyticsEventBuilder.GetEventAttributesWithCheck: follows the source past the first error. Every later non-null attribute is copied even when it fails its check, and even beyond the 500 cap. This is proved as `AfterErrorAllKept`.

## Findings

| source | as written | input that shows it | evidently intended | confidence | as-written member | corrected member |
|---|---|---|---|---|---|---|
| src/network/NetRequest.ts:39-70 | One abort timer and one signal serve every attempt. The timer is cleared in the first attempt's `finally`. An aborted signal stays aborted. So a first attempt that times out makes every retry fail at once, and attempts after the first have no time bound. | Timeout 3000, retryTimes 3. Attempt 0 answers 200 after 5000 ms and attempt 1 answers 200 after 10 ms. As written, all three attempts fail and the result is false. | Each attempt is bounded by its own timer, so the second attempt's 200 is delivered. | not executed | NetRequest.AsWrittenSlowFirstAttempt | NetRequest.CorrectedSlowFirstAttempt |
