/** The events the store publishes for writes of actual and desired LRPs. */
module Events {
  import opened Wrappers
  import opened Models

  datatype Event =
    | ActualLRPCreated(actualLRPGroup: ActualLRPGroup)
    | ActualLRPChanged(before: ActualLRPGroup, after: ActualLRPGroup)
    | ActualLRPRemoved(actualLRPGroup: ActualLRPGroup)
    | DesiredLRPCreated(desiredLRP: DesiredLRP)
    | DesiredLRPChanged(beforeDesired: DesiredLRP, afterDesired: DesiredLRP)
    | DesiredLRPRemoved(desiredLRP: DesiredLRP)

  /** The event types a consumer can wait for. */
  datatype EventType =
    | ActualLRPCreatedType | ActualLRPChangedType | ActualLRPRemovedType
    | DesiredLRPCreatedType | DesiredLRPChangedType | DesiredLRPRemovedType

  function TypeOf(e: Event): EventType
  {
    match e
    case ActualLRPCreated(_) => ActualLRPCreatedType
    case ActualLRPChanged(_, _) => ActualLRPChangedType
    case ActualLRPRemoved(_) => ActualLRPRemovedType
    case DesiredLRPCreated(_) => DesiredLRPCreatedType
    case DesiredLRPChanged(_, _) => DesiredLRPChangedType
    case DesiredLRPRemoved(_) => DesiredLRPRemovedType
  }

  /** The index of the first event of type t at or after `from`, if any. */
  function FirstOfType(events: seq<Event>, from: nat, t: EventType): (i: Option<nat>)
    requires from <= |events|
    decreases |events| - from
    ensures i.Some? ==> from <= i.value < |events| && TypeOf(events[i.value]) == t
    ensures i.Some? ==> forall j :: from <= j < i.value ==> TypeOf(events[j]) != t
    ensures i.None? ==> forall j :: from <= j < |events| ==> TypeOf(events[j]) != t
  {
    if from == |events| then None
    else if TypeOf(events[from]) == t then Some(from)
    else FirstOfType(events, from + 1, t)
  }
}
