/**
 * The store: instance and evacuating actual-LRP records in two separate maps,
 * desired LRPs and tasks as possibly malformed stored values, the injected
 * clock, the backend's availability, the event stream the store appends to and
 * the auctioneer it calls.
 */
module EtcdDB {
  import opened Wrappers
  import opened Errors
  import opened Models
  import opened Events
  import opened ActualLRPStateMachine
  import opened AuctionClient
  import DesiredLRPDB
  import TaskDB

  /** Every actual-LRP record is stored under its own process guid and index. */
  predicate KeyedByPath(m: map<ActualLRPPath, ActualLRP>)
  {
    forall p :: p in m ==> PathOf(m[p].key) == p
  }

  function Find(m: map<ActualLRPPath, ActualLRP>, p: ActualLRPPath): Option<ActualLRP>
  {
    if p in m then Some(m[p]) else None
  }

  class Store {
    var instances: map<ActualLRPPath, ActualLRP>
    var evacuating: map<ActualLRPPath, ActualLRP>
    var desiredLRPs: map<string, Stored<DesiredLRP>>
    var tasks: map<string, Stored<Task>>
    var available: bool
    /** The fake clock, in nanoseconds. */
    var now: int
    /** Every event published so far, oldest first. */
    var events: seq<Event>
    const auctioneer: FakeClient

    ghost predicate Valid()
      reads this
    {
      && KeyedByPath(instances) && KeyedByPath(evacuating)
      && DesiredLRPDB.KeyedByProcessGuid(desiredLRPs) && TaskDB.KeyedByTaskGuid(tasks)
    }

    /** An empty, reachable store whose clock reads `start` and whose auctioneer has recorded nothing. */
    constructor (start: int)
      ensures Valid() && fresh(auctioneer)
      ensures instances == map[] && evacuating == map[] && desiredLRPs == map[] && tasks == map[]
      ensures available && now == start && events == []
      ensures auctioneer.lrpAuctionCalls == [] && auctioneer.requestLRPAuctionsStub == None && auctioneer.lrpAuctionsResult == None
    {
      instances, evacuating, desiredLRPs, tasks := map[], map[], map[], map[];
      available, now, events := true, start, [];
      auctioneer := new FakeClient();
    }

    /** Advances the fake clock. */
    method AdvanceClock(duration: nat)
      modifies this`now
      ensures now == old(now) + duration
    {
      now := now + duration;
    }

    /** Makes the backend unreachable; every read then fails with ErrUnknownError. */
    method StopBackend()
      modifies this`available
      ensures !available
    {
      available := false;
    }

    method StartBackend()
      modifies this`available
      ensures available
    {
      available := true;
    }

    /** The instance and evacuating records of one slot. */
    function ActualLRPGroupByProcessGuidAndIndex(processGuid: string, index: nat): (r: Result<ActualLRPGroup, Error>)
      reads this
      ensures !available ==> r == Failure(ErrUnknownError)
      ensures available ==>
        (r == Failure(ErrResourceNotFound) <==>
         ActualLRPPath(processGuid, index) !in instances && ActualLRPPath(processGuid, index) !in evacuating)
      ensures available && (ActualLRPPath(processGuid, index) in instances || ActualLRPPath(processGuid, index) in evacuating) ==>
        r.Success?
      ensures r.Success? ==>
        && r.value.instance == Find(instances, ActualLRPPath(processGuid, index))
        && r.value.evacuating == Find(evacuating, ActualLRPPath(processGuid, index))
        && (r.value.instance.Some? || r.value.evacuating.Some?)
    {
      var p := ActualLRPPath(processGuid, index);
      if !available then Failure(ErrUnknownError)
      else if p !in instances && p !in evacuating then Failure(ErrResourceNotFound)
      else Success(ActualLRPGroup(Find(instances, p), Find(evacuating, p)))
    }

    /** Writes an instance record; publishes Created for an empty slot and Changed otherwise. */
    method SetRawActualLRP(lrp: ActualLRP)
      requires Valid() && available
      modifies this`instances, this`events
      ensures Valid()
      ensures instances == old(instances)[PathOf(lrp.key) := lrp]
      ensures events == old(events) + [
        if PathOf(lrp.key) in old(instances)
        then ActualLRPChanged(InstanceGroup(old(instances)[PathOf(lrp.key)]), InstanceGroup(lrp))
        else ActualLRPCreated(InstanceGroup(lrp))]
    {
      var p := PathOf(lrp.key);
      var e := if p in instances then ActualLRPChanged(InstanceGroup(instances[p]), InstanceGroup(lrp))
               else ActualLRPCreated(InstanceGroup(lrp));
      instances := instances[p := lrp];
      events := events + [e];
    }

    /** Writes an evacuating record, kept apart from the instance record of the same slot. */
    method SetRawEvacuatingActualLRP(lrp: ActualLRP)
      requires Valid() && available
      modifies this`evacuating, this`events
      ensures Valid()
      ensures evacuating == old(evacuating)[PathOf(lrp.key) := lrp]
      ensures events == old(events) + [
        if PathOf(lrp.key) in old(evacuating)
        then ActualLRPChanged(EvacuatingGroup(old(evacuating)[PathOf(lrp.key)]), EvacuatingGroup(lrp))
        else ActualLRPCreated(EvacuatingGroup(lrp))]
    {
      var p := PathOf(lrp.key);
      var e := if p in evacuating then ActualLRPChanged(EvacuatingGroup(evacuating[p]), EvacuatingGroup(lrp))
               else ActualLRPCreated(EvacuatingGroup(lrp));
      evacuating := evacuating[p := lrp];
      events := events + [e];
    }

    /** Writes a desired LRP under its process guid; publishes Changed over a decodable one and Created otherwise. */
    method SetRawDesiredLRP(d: DesiredLRP)
      requires Valid() && available
      modifies this`desiredLRPs, this`events
      ensures Valid()
      ensures desiredLRPs == old(desiredLRPs)[d.processGuid := Record(d)]
      ensures events == old(events) + [
        if d.processGuid in old(desiredLRPs) && old(desiredLRPs)[d.processGuid].Record?
        then DesiredLRPChanged(old(desiredLRPs)[d.processGuid].value, d)
        else DesiredLRPCreated(d)]
    {
      var e := if d.processGuid in desiredLRPs && desiredLRPs[d.processGuid].Record?
               then DesiredLRPChanged(desiredLRPs[d.processGuid].value, d)
               else DesiredLRPCreated(d);
      desiredLRPs := desiredLRPs[d.processGuid := Record(d)];
      events := events + [e];
    }

    /** Creates an undecodable desired-LRP entry; like any create it fails when the key is taken. */
    method CreateMalformedDesiredLRP(processGuid: string) returns (created: bool)
      requires Valid() && available
      modifies this`desiredLRPs
      ensures Valid()
      ensures created <==> processGuid !in old(desiredLRPs)
      ensures desiredLRPs == if created then old(desiredLRPs)[processGuid := Malformed] else old(desiredLRPs)
    {
      created := processGuid !in desiredLRPs;
      if created {
        desiredLRPs := desiredLRPs[processGuid := Malformed];
      }
    }

    /** Deletes a desired-LRP entry; publishes Removed when it was decodable. Fails when there is no entry. */
    method DeleteDesiredLRP(processGuid: string) returns (deleted: bool)
      requires Valid() && available
      modifies this`desiredLRPs, this`events
      ensures Valid()
      ensures deleted <==> processGuid in old(desiredLRPs)
      ensures desiredLRPs == old(desiredLRPs) - {processGuid}
      ensures events == old(events) +
        (if deleted && old(desiredLRPs)[processGuid].Record? then [DesiredLRPRemoved(old(desiredLRPs)[processGuid].value)] else [])
    {
      deleted := processGuid in desiredLRPs;
      if deleted && desiredLRPs[processGuid].Record? {
        events := events + [DesiredLRPRemoved(desiredLRPs[processGuid].value)];
      }
      desiredLRPs := desiredLRPs - {processGuid};
    }

    /** Writes a task under its guid. */
    method SetRawTask(t: Task)
      requires Valid() && available
      modifies this`tasks
      ensures Valid()
      ensures tasks == old(tasks)[t.taskGuid := Record(t)]
    {
      tasks := tasks[t.taskGuid := Record(t)];
    }

    /** Records a new task, not yet placed on a cell, with the given definition. */
    method DesireTask(taskGuid: string, domain: string, definition: TaskDefinition) returns (err: Option<Error>)
      requires Valid()
      modifies this`tasks
      ensures Valid()
      ensures !available ==> err == Some(ErrUnknownError) && tasks == old(tasks)
      ensures available ==> err == None && tasks == old(tasks)[taskGuid := Record(Task(taskGuid, domain, "", definition))]
    {
      if !available {
        return Some(ErrUnknownError);
      }
      tasks := tasks[taskGuid := Record(Task(taskGuid, domain, "", definition))];
      err := None;
    }

    /** Claims the instance record of a slot for an instance, publishing Changed with the records before and after. */
    method ClaimActualLRP(processGuid: string, index: nat, instanceKey: ActualLRPInstanceKey) returns (err: Option<Error>)
      requires Valid()
      modifies this`instances, this`events
      ensures Valid()
      ensures var p := ActualLRPPath(processGuid, index);
        if !available then
          err == Some(ErrUnknownError) && instances == old(instances) && events == old(events)
        else if p !in old(instances) then
          err == Some(ErrResourceNotFound) && instances == old(instances) && events == old(events)
        else match ClaimRecord(old(instances)[p], instanceKey, now)
          case Failure(e) => err == Some(e) && instances == old(instances) && events == old(events)
          case Success(claimed) =>
            && err == None
            && instances == old(instances)[p := claimed]
            && events == old(events) + [ActualLRPChanged(InstanceGroup(old(instances)[p]), InstanceGroup(claimed))]
    {
      var p := ActualLRPPath(processGuid, index);
      if !available {
        return Some(ErrUnknownError);
      }
      if p !in instances {
        return Some(ErrResourceNotFound);
      }
      var before := instances[p];
      match ClaimRecord(before, instanceKey, now)
      case Failure(e) =>
        err := Some(e);
      case Success(claimed) =>
        instances := instances[p := claimed];
        events := events + [ActualLRPChanged(InstanceGroup(before), InstanceGroup(claimed))];
        err := None;
    }

    /**
     * Applies a crash report to the instance record of the key's slot.
     * A refused report changes nothing. An accepted report that leaves the
     * record Crashed only rewrites it. One that leaves it Unclaimed reads the
     * desired LRP first: when it is there the record is rewritten and exactly
     * one auction is requested, for that desired LRP and this index only; when
     * it is gone the record is deleted instead and the call still succeeds;
     * when it cannot be read the rewritten record stands, no auction is
     * requested and the read error is returned.
     */
    method CrashActualLRP(key: ActualLRPKey, instanceKey: ActualLRPInstanceKey, errorMessage: string) returns (err: Option<Error>)
      requires Valid()
      modifies this`instances, this`events, auctioneer`lrpAuctionCalls
      ensures Valid()
      ensures var p := PathOf(key);
        var untouched := instances == old(instances) && events == old(events) && auctioneer.lrpAuctionCalls == old(auctioneer.lrpAuctionCalls);
        if !available then err == Some(ErrUnknownError) && untouched
        else if p !in old(instances) then err == Some(ErrResourceNotFound) && untouched
        else
          var before := old(instances)[p];
          match CrashRecord(before, instanceKey, errorMessage, now)
          case Failure(e) => err == Some(e) && untouched
          case Success(crashed) =>
            if !crashed.auction then
              && err == None
              && instances == old(instances)[p := crashed.lrp]
              && events == old(events) + [ActualLRPChanged(InstanceGroup(before), InstanceGroup(crashed.lrp))]
              && auctioneer.lrpAuctionCalls == old(auctioneer.lrpAuctionCalls)
            else match DesiredLRPDB.DesiredLRPByProcessGuid(available, desiredLRPs, key.processGuid)
              case Success(d) =>
                && err == None
                && instances == old(instances)[p := crashed.lrp]
                && events == old(events) + [ActualLRPChanged(InstanceGroup(before), InstanceGroup(crashed.lrp))]
                && auctioneer.lrpAuctionCalls == old(auctioneer.lrpAuctionCalls) + [[LRPStartRequest(d, [key.index])]]
              case Failure(e) =>
                if e == ErrResourceNotFound then
                  && err == None
                  && instances == old(instances) - {p}
                  && events == old(events) + [ActualLRPRemoved(InstanceGroup(before))]
                  && auctioneer.lrpAuctionCalls == old(auctioneer.lrpAuctionCalls)
                else
                  && err == Some(e)
                  && instances == old(instances)[p := crashed.lrp]
                  && events == old(events) + [ActualLRPChanged(InstanceGroup(before), InstanceGroup(crashed.lrp))]
                  && auctioneer.lrpAuctionCalls == old(auctioneer.lrpAuctionCalls)
    {
      var p := PathOf(key);
      if !available {
        return Some(ErrUnknownError);
      }
      if p !in instances {
        return Some(ErrResourceNotFound);
      }
      var before := instances[p];
      var outcome := CrashRecord(before, instanceKey, errorMessage, now);
      if outcome.Failure? {
        return Some(outcome.error);
      }
      var crashed := outcome.value;
      if !crashed.auction {
        instances := instances[p := crashed.lrp];
        events := events + [ActualLRPChanged(InstanceGroup(before), InstanceGroup(crashed.lrp))];
        return None;
      }
      match DesiredLRPDB.DesiredLRPByProcessGuid(available, desiredLRPs, key.processGuid)
      case Success(d) =>
        instances := instances[p := crashed.lrp];
        events := events + [ActualLRPChanged(InstanceGroup(before), InstanceGroup(crashed.lrp))];
        var auctionErr := auctioneer.RequestLRPAuctions([LRPStartRequest(d, [key.index])]);
        err := None;
      case Failure(e) =>
        if e == ErrResourceNotFound {
          instances := instances - {p};
          events := events + [ActualLRPRemoved(InstanceGroup(before))];
          err := None;
        } else {
          instances := instances[p := crashed.lrp];
          events := events + [ActualLRPChanged(InstanceGroup(before), InstanceGroup(crashed.lrp))];
          err := Some(e);
        }
    }
  }
}
