/** The recorder that sends each event as it happens and keeps the bundle
    sequence number (src/provider/EventRecorder.ts). Sends go through the
    retry loop as the source writes it, with one timer for all attempts, and
    are awaited in place: a send's outcome is applied before the call
    returns. */
module EventRecorder {
  import opened Types
  import opened StorageUtil
  import NetRequest

  /** One POST to the endpoint: the serialized event list, the sequence id
      in its query, and whether it was delivered. */
  datatype Request = Request(payload: string, bundleSequenceId: int, delivered: bool)

  /** What `record` leaves in the store in Immediate mode: the advanced
      sequence id, and the event in the failure list when the send failed. */
  function RecordStep(items: Items, id: int, event: string, delivered: bool): Items {
    var advanced := SaveBundleSequenceIdStep(items, id + 1);
    if delivered then advanced else SaveFailedEventStep(advanced, event)
  }

  /** What `sendFailedEvents` leaves in the store: nothing changes when the
      failure list is empty; otherwise the id advances and the list is
      cleared only when the send succeeded. */
  function SendFailedStep(items: Items, id: int, delivered: bool): Items {
    if FailedEventsOf(items) == [] then items
    else
      var advanced := SaveBundleSequenceIdStep(items, id + 1);
      if delivered then ClearFailedEventsStep(advanced) else advanced
  }

  /** A recorded event consumes exactly one sequence number whatever the
      outcome; a failed send appends the event to the failure list under
      the budget rule, and a delivered one leaves the list alone. No other
      slot changes. */
  lemma RecordStepEffects(items: Items, id: int, event: string, delivered: bool)
    requires NumberSlotsValid(items)
    ensures var after := RecordStep(items, id, event, delivered);
      && NumberSlotsValid(after)
      && BundleSequenceIdOf(after) == id + 1
      && FailedEventsOf(after) == (if delivered then FailedEventsOf(items)
                                   else FailedEventsOf(SaveFailedEventStep(items, event)))
      && OnlyChanged(items, after, {BUNDLE_SEQUENCE_ID_KEY, FAILED_EVENTS_KEY})
  {
    var advanced := SaveBundleSequenceIdStep(items, id + 1);
    BundleSequenceIdRoundTrip(items, id + 1);
    KeysDistinct();
    assert FailedEventsOf(advanced) == FailedEventsOf(items);
    SaveFailedEventBudget(advanced, event);
    SaveFailedEventBudget(items, event);
  }

  /** With an empty failure list nothing is sent and nothing changes; with
      a non-empty one the id advances once, and the list is emptied exactly
      when the send succeeded. */
  lemma SendFailedStepEffects(items: Items, id: int, delivered: bool)
    requires NumberSlotsValid(items)
    ensures var after := SendFailedStep(items, id, delivered);
      && NumberSlotsValid(after)
      && (FailedEventsOf(items) == [] ==> after == items)
      && (FailedEventsOf(items) != [] ==>
            && BundleSequenceIdOf(after) == id + 1
            && FailedEventsOf(after) == (if delivered then [] else FailedEventsOf(items)))
      && OnlyChanged(items, after, {BUNDLE_SEQUENCE_ID_KEY, FAILED_EVENTS_KEY})
  {
    BundleSequenceIdRoundTrip(items, id + 1);
    KeysDistinct();
    var advanced := SaveBundleSequenceIdStep(items, id + 1);
    ClearFailedEventsEmpties(advanced);
  }

  /** What a recorder changes: the store, its sequence id and the requests
      it has issued. */
  datatype RecorderState = RecorderState(items: Items, bundleSequenceId: int, requests: seq<Request>)

  /** What one `record` does to that state: in Immediate mode one request
      with the current id, the id advanced and the store's record step; in
      the other modes nothing. */
  function RecordEffect(s: RecorderState, mode: SendMode, event: string, delivered: bool): RecorderState {
    if mode == Immediate then
      RecorderState(RecordStep(s.items, s.bundleSequenceId, event, delivered), s.bundleSequenceId + 1,
                    s.requests + [Request(Payload([event]), s.bundleSequenceId, delivered)])
    else s
  }

  class Recorder {
    const config: Configuration
    const store: Storage
    var bundleSequenceId: int
    /** The requests issued so far, oldest first. */
    var requests: seq<Request>

    /** The stored sequence id mirrors the field, and every request carried
        an id below the current one, in increasing order. */
    ghost predicate Valid()
      reads this, store
    {
      && store.Valid()
      && store.GetBundleSequenceId() == bundleSequenceId
      && (forall i :: 0 <= i < |requests| ==> requests[i].bundleSequenceId < bundleSequenceId)
      && (forall i, j :: 0 <= i < j < |requests| ==> requests[i].bundleSequenceId < requests[j].bundleSequenceId)
    }

    function State(): RecorderState
      reads this, store
    {
      RecorderState(store.items, bundleSequenceId, requests)
    }

    constructor (config: Configuration, store: Storage)
      requires store.Valid()
      ensures this.config == config && this.store == store
      ensures bundleSequenceId == store.GetBundleSequenceId()
      ensures requests == []
      ensures Valid()
    {
      this.config := config;
      this.store := store;
      bundleSequenceId := store.GetBundleSequenceId();
      requests := [];
    }

    method PlusSequenceId()
      requires Valid()
      modifies this, store
      ensures Valid()
      ensures bundleSequenceId == old(bundleSequenceId) + 1
      ensures store.items == SaveBundleSequenceIdStep(old(store.items), bundleSequenceId)
      ensures requests == old(requests)
    {
      bundleSequenceId := bundleSequenceId + 1;
      store.SaveBundleSequenceId(bundleSequenceId);
    }

    /** `event` is the event already serialized; `server` scripts the
        endpoint for the send. */
    method Record(event: string, server: nat -> NetRequest.Attempt)
      requires Valid()
      modifies this, store
      ensures Valid()
      ensures config.sendMode == Immediate ==>
        var delivered := NetRequest.DeliveredAsWritten(server, NetRequest.REQUEST_RETRY_TIMES, NetRequest.REQUEST_TIMEOUT);
        && bundleSequenceId == old(bundleSequenceId) + 1
        && requests == old(requests) + [Request(Payload([event]), old(bundleSequenceId), delivered)]
        && store.items == RecordStep(old(store.items), old(bundleSequenceId), event, delivered)
      ensures config.sendMode != Immediate ==>
        bundleSequenceId == old(bundleSequenceId) && requests == old(requests) && store.items == old(store.items)
      ensures State() == RecordEffect(old(State()), config.sendMode, event,
        NetRequest.DeliveredAsWritten(server, NetRequest.REQUEST_RETRY_TIMES, NetRequest.REQUEST_TIMEOUT))
    {
      if config.sendMode == Immediate {
        var eventsJson := Payload([event]);
        var result, _ := NetRequest.SendRequestAsWritten(server, NetRequest.REQUEST_RETRY_TIMES, NetRequest.REQUEST_TIMEOUT);
        var sentWith := bundleSequenceId;
        PlusSequenceId();
        requests := requests + [Request(eventsJson, sentWith, result)];
        if !result {
          store.SaveFailedEvent(event);
        }
        assert store.items == RecordStep(old(store.items), sentWith, event, result);
        RecordStepEffects(old(store.items), sentWith, event, result);
      }
    }

    method SendFailedEvents(server: nat -> NetRequest.Attempt)
      requires Valid()
      modifies this, store
      ensures Valid()
      ensures var failed := FailedEventsOf(old(store.items));
        var delivered := NetRequest.DeliveredAsWritten(server, NetRequest.REQUEST_RETRY_TIMES, NetRequest.REQUEST_TIMEOUT);
        && store.items == SendFailedStep(old(store.items), old(bundleSequenceId), delivered)
        && (failed == [] ==> bundleSequenceId == old(bundleSequenceId) && requests == old(requests))
        && (failed != [] ==>
              && bundleSequenceId == old(bundleSequenceId) + 1
              && requests == old(requests) + [Request(Payload(failed), old(bundleSequenceId), delivered)])
    {
      var failedEvents := store.GetFailedEvents();
      if |failedEvents| > 0 {
        var eventsJson := Payload(failedEvents);
        var result, _ := NetRequest.SendRequestAsWritten(server, NetRequest.REQUEST_RETRY_TIMES, NetRequest.REQUEST_TIMEOUT);
        var sentWith := bundleSequenceId;
        PlusSequenceId();
        requests := requests + [Request(eventsJson, sentWith, result)];
        if result {
          store.ClearFailedEvents();
        }
        SendFailedStepEffects(old(store.items), sentWith, result);
      }
    }
  }

  /** The sequence number never goes down: each recorder operation either
      keeps it or raises it by one. */
  lemma SequenceIdMonotone(items: Items, id: int, event: string, delivered: bool)
    requires NumberSlotsValid(items) && BundleSequenceIdOf(items) == id
    ensures BundleSequenceIdOf(RecordStep(items, id, event, delivered)) >= id
    ensures BundleSequenceIdOf(SendFailedStep(items, id, delivered)) >= id
  {
    RecordStepEffects(items, id, event, delivered);
    SendFailedStepEffects(items, id, delivered);
  }
}
