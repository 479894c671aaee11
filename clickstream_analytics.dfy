/** The SDK's entry point (src/ClickstreamAnalytics.ts): one provider,
    created by the first `init`, and calls forwarded to it. The class's
    static fields are the fields of one `Analytics` object. */
module ClickstreamAnalytics {
  import opened Types
  import opened StorageUtil
  import Event
  import EventChecker
  import NetRequest
  import AnalyticsEventBuilder
  import EventRecorder
  import opened ClickstreamProvider

  class Analytics {
    var provider: Provider?
    /** The browser's local storage, shared by every provider. */
    const store: Storage

    ghost predicate Valid()
      reads this, store, provider, if provider == null then null else provider.recorder
    {
      && store.Valid()
      && (provider != null ==> provider.store == store && provider.Valid())
    }

    constructor (store: Storage)
      requires store.Valid()
      ensures this.store == store && provider == null && Valid()
    {
      this.store := store;
      provider := null;
    }

    /** `init`: only the first call creates and configures a provider and
        answers true; every later call answers false and leaves the
        provider, its configuration and the store as they were. */
    method Init(patch: ConfigPatch, server: nat -> NetRequest.Attempt) returns (ok: bool)
      requires Valid()
      modifies this, store
      ensures Valid()
      ensures ok <==> old(provider) == null
      ensures provider != null
      ensures old(provider) != null ==>
        provider == old(provider) && provider.configuration == old(provider.configuration) &&
        store.items == old(store.items)
      ensures old(provider) == null && (patch.appId == "" || patch.endpoint == "") ==>
        && fresh(provider) && provider.recorded == []
        && provider.configuration == DEFAULT_CONFIGURATION && provider.recorder == null
        && provider.userAttribute == map[] && store.items == old(store.items)
      ensures old(provider) == null && patch.appId != "" && patch.endpoint != "" ==>
        && fresh(provider) && provider.recorded == []
        && provider.configuration == Overlay(DEFAULT_CONFIGURATION, patch) && provider.recorder != null
        && provider.userAttribute == UserAttributesOf(old(store.items))
        && store.items == EventRecorder.SendFailedStep(old(store.items), BundleSequenceIdOf(old(store.items)),
             NetRequest.DeliveredAsWritten(server, NetRequest.REQUEST_RETRY_TIMES, NetRequest.REQUEST_TIMEOUT))
      ensures old(provider) == null && patch.appId != "" && patch.endpoint != "" ==>
        var failed := FailedEventsOf(old(store.items));
        var id := BundleSequenceIdOf(old(store.items));
        var delivered := NetRequest.DeliveredAsWritten(server, NetRequest.REQUEST_RETRY_TIMES, NetRequest.REQUEST_TIMEOUT);
        && provider.recorder != null
        && provider.recorder.bundleSequenceId == (if failed == [] then id else id + 1)
        && provider.recorder.requests ==
             (if failed == [] then [] else [EventRecorder.Request(Payload(failed), id, delivered)])
    {
      if provider != null {
        return false;
      }
      var created := new Provider(store);
      provider := created;
      var _ := created.Configure(patch, server);
      return true;
    }

    /** `record`, forwarded. */
    method Record(event: ClickstreamEvent, outside: Outside)
      requires Valid() && provider != null
      modifies provider, store, provider.recorder
      ensures Valid() && provider == old(provider)
      ensures provider.recorder == old(provider.recorder) && provider.userAttribute == old(provider.userAttribute)
      ensures provider.configuration == old(provider.configuration)
      ensures var accepted := Event.NO_ERROR == EventChecker.CheckEventName(event.name).code && provider.recorder != null;
        && (!accepted ==> provider.recorded == old(provider.recorded) && store.items == old(store.items))
        && (accepted ==>
              var sent := AnalyticsEventBuilder.CreateEvent(outside.env, provider.configuration.appId, event,
                            provider.userAttribute, None, outside.serialize, outside.digest);
              && provider.recorded == old(provider.recorded) + [sent]
              && provider.recorder.State() == EventRecorder.RecordEffect(old(provider.recorder.State()),
                   provider.configuration.sendMode, outside.serialize(sent),
                   NetRequest.DeliveredAsWritten(outside.server, NetRequest.REQUEST_RETRY_TIMES, NetRequest.REQUEST_TIMEOUT)))
    {
      provider.Record(event, outside);
    }

    /** `setUserId`, forwarded. */
    method SetUserId(userId: Option<string>, now: int)
      requires Valid() && provider != null
      modifies provider, store
      ensures Valid() && provider == old(provider)
      ensures provider.userAttribute == (match userId
        case None => old(provider.userAttribute) - {Event.USER_ID}
        case Some(id) => old(provider.userAttribute)[Event.USER_ID := UserAttr(Str(id), now)])
      ensures store.items == UpdateUserAttributesStep(old(store.items), provider.userAttribute)
      ensures store.GetUserAttributes() == provider.userAttribute
    {
      provider.SetUserId(userId, now);
    }

    /** `setUserAttributes`, forwarded. */
    method SetUserAttributes(attributes: seq<(string, Value)>, now: int, outsides: nat -> Outside)
      requires Valid() && provider != null
      modifies provider, store, provider.recorder
      ensures Valid() && provider == old(provider)
      ensures provider.recorder == old(provider.recorder) && provider.configuration == old(provider.configuration)
      ensures var p := ProfileFrom(Profile(old(provider.userAttribute), []), attributes, now);
        && provider.userAttribute == p.attrs
        && store.GetUserAttributes() == provider.userAttribute
        && provider.recorded == old(provider.recorded)
             + (if provider.recorder == null then [] else Reported(outsides, provider.configuration.appId, p.reports))
        && (provider.recorder == null ==> store.items == UpdateUserAttributesStep(old(store.items), provider.userAttribute))
      ensures provider.recorder != null ==>
        var p := ProfileFrom(Profile(old(provider.userAttribute), []), attributes, now);
        var sent := SentFor(old(provider.recorder.State()), provider.configuration.sendMode, outsides,
                            provider.configuration.appId, p.reports);
        && provider.recorder.bundleSequenceId == sent.bundleSequenceId && provider.recorder.requests == sent.requests
        && store.items == UpdateUserAttributesStep(sent.items, provider.userAttribute)
    {
      provider.SetUserAttributes(attributes, now, outsides);
    }
  }
}
