/**
 * The consumer side of the event stream: a subscription reads the store's
 * events in publication order from the point it subscribed; a consumer can
 * wait for the first event of a given type, and the priming loop writes a
 * desired LRP until the first event arrives.
 */
module EventStream {
  import opened Wrappers
  import opened Errors
  import opened Models
  import opened Events
  import opened EtcdDB

  class EventSource {
    const store: Store
    /** The index of the next event this subscription delivers. */
    var position: nat

    ghost predicate Valid()
      reads this, store
    {
      position <= |store.events|
    }

    /** Subscribes: only events published from now on are delivered. */
    constructor (store: Store)
      ensures this.store == store && position == |store.events| && Valid()
    {
      this.store := store;
      position := |store.events|;
    }

    /** The next undelivered event, or None when none has been published yet (where a real read would block). */
    method Next() returns (e: Option<Event>)
      requires Valid()
      modifies this`position
      ensures Valid()
      ensures old(position) < |store.events| ==> e == Some(store.events[old(position)]) && position == old(position) + 1
      ensures old(position) == |store.events| ==> e == None && position == old(position)
    {
      if position < |store.events| {
        e := Some(store.events[position]);
        position := position + 1;
      } else {
        e := None;
      }
    }

    /**
     * Receives events one at a time until one of type t arrives, dropping the
     * others: the result is the first pending event of that type, or None when
     * every pending event has been received and none had the type.
     */
    method ReceiveUntil(t: EventType) returns (e: Option<Event>)
      requires Valid()
      modifies this`position
      ensures Valid()
      ensures match FirstOfType(store.events, old(position), t)
        case Some(i) => e == Some(store.events[i]) && position == i + 1
        case None => e == None && position == |store.events|
    {
      e := None;
      while e.None? && position < |store.events|
        invariant Valid() && old(position) <= position
        invariant e.Some? ==> old(position) < position && e == Some(store.events[position - 1])
        invariant FirstOfType(store.events, old(position), t) ==
          if e.None? then FirstOfType(store.events, position, t) else Some(position - 1)
        decreases |store.events| - position, e.None?
      {
        var next := Next();
        if TypeOf(next.value) == t {
          e := next;
        }
      }
    }
  }

  /** The event a write of desired LRP d publishes. */
  predicate WritesDesiredLRP(e: Event, d: DesiredLRP)
  {
    (e.DesiredLRPCreated? && e.desiredLRP == d) || (e.DesiredLRPChanged? && e.afterDesired == d)
  }

  /**
   * The priming loop: while no event is pending, write the primer desired LRP;
   * then receive the first pending event. A fresh subscription receives the
   * event of the one primer write.
   */
  method Prime(source: EventSource, primer: DesiredLRP) returns (first: Event)
    requires source.Valid() && source.store.Valid() && source.store.available
    modifies source.store`desiredLRPs, source.store`events, source`position
    ensures source.Valid() && source.store.Valid()
    ensures source.position == old(source.position) + 1
    ensures first == source.store.events[old(source.position)]
    ensures old(source.position) == old(|source.store.events|) ==>
      && source.store.events == old(source.store.events) + [first]
      && source.store.desiredLRPs == old(source.store.desiredLRPs)[primer.processGuid := Record(primer)]
      && WritesDesiredLRP(first, primer)
    ensures old(source.position) < old(|source.store.events|) ==>
      source.store.events == old(source.store.events) && source.store.desiredLRPs == old(source.store.desiredLRPs)
  {
    var store := source.store;
    while source.position == |store.events|
      invariant source.Valid() && store.Valid() && store.available
      invariant source.position == old(source.position)
      invariant
        || (store.events == old(store.events) && store.desiredLRPs == old(store.desiredLRPs))
        || (&& old(source.position) == old(|store.events|)
            && |store.events| == old(|store.events|) + 1
            && store.events == old(store.events) + [store.events[old(|store.events|)]]
            && store.desiredLRPs == old(store.desiredLRPs)[primer.processGuid := Record(primer)]
            && WritesDesiredLRP(store.events[old(|store.events|)], primer))
      decreases if source.position == |store.events| then 1 else 0
    {
      store.SetRawDesiredLRP(primer);
    }
    var e := source.Next();
    first := e.value;
  }

  const PrimerLRP := DesiredLRP("primer-guid", "primer-domain", 0, "primer:rootfs")

  /**
   * The event scenario for one slot: writing a Running record publishes
   * Created with the group then read back; claiming it with its own instance
   * key succeeds and publishes Changed with the groups read before and after.
   */
  method ReceivesEvents(start: int)
    returns (created: Option<Event>, claimErr: Option<Error>, changed: Option<Event>,
             groupBefore: Result<ActualLRPGroup, Error>, groupAfter: Result<ActualLRPGroup, Error>)
    ensures groupBefore.Success? && created == Some(ActualLRPCreated(groupBefore.value))
    ensures claimErr == None
    ensures groupAfter.Success? && changed == Some(ActualLRPChanged(groupBefore.value, groupAfter.value))
    ensures groupBefore.value != groupAfter.value
  {
    var store := new Store(start);
    var source := new EventSource(store);
    var primed := Prime(source, PrimerLRP);

    var key := ActualLRPKey("some-process-guid", 0, "some-domain");
    var instanceKey := ActualLRPInstanceKey("instance-guid", "cell-id");
    var baseLRP := ActualLRP(key, instanceKey, ActualLRPNetInfo("1.1.1.1", []), Running, store.now, 0, "", ModificationTag("", 0));

    store.SetRawActualLRP(baseLRP);
    groupBefore := store.ActualLRPGroupByProcessGuidAndIndex("some-process-guid", 0);
    created := source.ReceiveUntil(ActualLRPCreatedType);

    claimErr := store.ClaimActualLRP("some-process-guid", 0, instanceKey);
    groupAfter := store.ActualLRPGroupByProcessGuidAndIndex("some-process-guid", 0);
    changed := source.ReceiveUntil(ActualLRPChangedType);
  }
}
