/**
 * The crash decision table as data: each row builds a record in one state,
 * crashes it with reason "crashed" after the clock moved 600ns, and states the
 * expected outcome. The methods run a row against a fresh store and prove
 * every expectation the table makes of it.
 */
module CrashTests {
  import opened Wrappers
  import opened Errors
  import opened Models
  import opened ActualLRPStateMachine
  import opened EtcdDB
  import DesiredLRPDB

  const OverTime: int := CrashResetTimeout + Minute

  /** The message of every crash request in the table. */
  const CrashMessage: string := "crashed"

  /** How far the clock moves between building the record and crashing it, in nanoseconds. */
  const ClockStep: nat := 600

  datatype CrashTestResult = CrashTestResult(
    state: ActualLRPState,
    crashCount: nat,
    crashReason: string,
    shouldUpdate: bool,
    auction: bool,
    returnedErr: Option<Error>)

  /**
   * An expectation hangs together: the record is updated exactly when no error
   * is expected, an auction is expected only for an update that ends Unclaimed,
   * and an update always carries the crash reason and a positive count.
   */
  predicate Consistent(r: CrashTestResult)
  {
    && (r.shouldUpdate <==> r.returnedErr.None?)
    && (r.auction ==> r.shouldUpdate && r.state == Unclaimed)
    && (r.shouldUpdate ==> r.crashReason == CrashMessage && r.crashCount >= 1)
    && (r.returnedErr.Some? ==> r.returnedErr.value == ErrActualLRPCannotBeCrashed)
  }

  /** A crash that sends the record back to be auctioned, with a fresh count of one. */
  function ItUnclaimsTheLRP(): (r: CrashTestResult)
    ensures Consistent(r) && r.auction && r.state == Unclaimed && r.crashCount == 1
  {
    CrashTestResult(Unclaimed, 1, CrashMessage, true, true, None)
  }

  /** A crash that parks the record as Crashed at count five, with no auction. */
  function ItCrashesTheLRP(): (r: CrashTestResult)
    ensures Consistent(r) && r.shouldUpdate && !r.auction && r.state == Crashed && r.crashCount == 5
  {
    CrashTestResult(Crashed, 5, CrashMessage, true, false, None)
  }

  /** A refused crash of an Unclaimed record with four crashes: no update, no reason recorded. */
  function ItDoesNotChangeTheUnclaimedLRP(): (r: CrashTestResult)
    ensures Consistent(r) && !r.shouldUpdate && !r.auction && r.state == Unclaimed && r.crashCount == 4 && r.crashReason == ""
  {
    CrashTestResult(Unclaimed, 4, "", false, false, Some(ErrActualLRPCannotBeCrashed))
  }

  /** A refused crash of a Crashed record with four crashes: no update, its old reason kept. */
  function ItDoesNotChangeTheCrashedLRP(): (r: CrashTestResult)
    ensures Consistent(r) && !r.shouldUpdate && !r.auction && r.state == Crashed && r.crashCount == 4 && r.crashReason == CrashMessage
  {
    CrashTestResult(Crashed, 4, CrashMessage, false, false, Some(ErrActualLRPCannotBeCrashed))
  }

  /** A row: the state the record is built in, how long it has been there, its crash count, and the expectation. */
  datatype CrashTest = CrashTest(state: ActualLRPState, timeInState: int, crashCount: nat, result: CrashTestResult)

  /** The three explicit rows followed by the four "reset only running LRPs" rows. */
  function CrashTestTable(): (table: seq<CrashTest>)
    ensures |table| == 7
    ensures forall i :: 0 <= i < |table| ==> Consistent(table[i].result)
    ensures forall i :: 0 <= i < |table| ==>
      (table[i].result.returnedErr.Some? <==> table[i].state == Unclaimed || table[i].state == Crashed)
    ensures forall i :: 0 <= i < |table| && table[i].result.returnedErr.Some? ==>
      table[i].result.state == table[i].state && table[i].result.crashCount == table[i].crashCount
  {
    [ CrashTest(Running, Minute, 4, ItCrashesTheLRP()),
      CrashTest(Running, Minute, 0, ItUnclaimsTheLRP()),
      CrashTest(Running, OverTime, 4, ItUnclaimsTheLRP()),
      CrashTest(Unclaimed, OverTime, 4, ItDoesNotChangeTheUnclaimedLRP()),
      CrashTest(Claimed, OverTime, 4, ItCrashesTheLRP()),
      CrashTest(Running, OverTime, 4, ItUnclaimsTheLRP()),
      CrashTest(Crashed, OverTime, 4, ItDoesNotChangeTheCrashedLRP()) ]
  }

  const FixtureKey := ActualLRPKey("some-process-guid", 1, "tests")
  const FixtureInstanceKey := ActualLRPInstanceKey("some-instance-guid", "some-cell")
  const FixtureNetInfo := ActualLRPNetInfo("1.2.3.4", [PortMapping(1234, 5678)])

  /**
   * The test record for a state: only Claimed and Running records name an
   * instance, only Running ones have net info, only Crashed ones carry a crash
   * reason; `since` lies timeInState before now.
   */
  function LrpForState(state: ActualLRPState, timeInState: int, now: int): (lrp: ActualLRP)
    ensures lrp.key == FixtureKey && lrp.state == state && lrp.since == now - timeInState
    ensures lrp.instanceKey == if state == Claimed || state == Running then FixtureInstanceKey else EmptyInstanceKey
    ensures lrp.netInfo == if state == Running then FixtureNetInfo else EmptyNetInfo
    ensures lrp.crashReason == if state == Crashed then CrashMessage else ""
    ensures lrp.crashCount == 0 && lrp.modificationTag == ModificationTag("", 0)
  {
    var base := ActualLRP(FixtureKey, EmptyInstanceKey, EmptyNetInfo, state, now - timeInState, 0, "", ModificationTag("", 0));
    match state
    case Unclaimed => base
    case Crashed => base.(crashReason := CrashMessage)
    case Claimed => base.(instanceKey := FixtureInstanceKey)
    case Running => base.(instanceKey := FixtureInstanceKey, netInfo := FixtureNetInfo)
  }

  /** The fixture record of a row: the state's record with the row's crash count. */
  function SetupLRP(t: CrashTest, now: int): (lrp: ActualLRP)
    ensures lrp.key == FixtureKey && lrp.state == t.state && lrp.since == now - t.timeInState
    ensures lrp.crashCount == t.crashCount
    ensures lrp.instanceKey == LrpForState(t.state, t.timeInState, now).instanceKey
    ensures lrp.netInfo == LrpForState(t.state, t.timeInState, now).netInfo
    ensures lrp.crashReason == LrpForState(t.state, t.timeInState, now).crashReason
    ensures lrp.modificationTag == ModificationTag("", 0)
  {
    LrpForState(t.state, t.timeInState, now).(crashCount := t.crashCount)
  }

  /** The desired LRP each row stores for its record. */
  function FixtureDesiredLRP(key: ActualLRPKey): (d: DesiredLRP)
    ensures d.processGuid == key.processGuid && d.domain == key.domain
    ensures key.index < d.instances
  {
    DesiredLRP(key.processGuid, key.domain, key.index + 1, "foo:bar")
  }

  /** For every row, what the model decides is what the row expects. */
  lemma CrashTableAgreesWithModel(t: CrashTest, start: int)
    requires t in CrashTestTable()
    ensures var lrp := SetupLRP(t, start);
      var out := CrashRecord(lrp, lrp.instanceKey, CrashMessage, start + ClockStep);
      && (out.Failure? <==> t.result.returnedErr.Some?)
      && (out.Failure? ==> t.result.returnedErr == Some(out.error) && !t.result.shouldUpdate && !t.result.auction)
      && (out.Failure? ==> lrp.state == t.result.state && lrp.crashCount == t.result.crashCount && lrp.crashReason == t.result.crashReason)
      && (out.Success? ==> t.result.shouldUpdate && out.value.auction == t.result.auction)
      && (out.Success? ==> out.value.lrp.state == t.result.state && out.value.lrp.crashCount == t.result.crashCount)
      && (out.Success? ==> out.value.lrp.crashReason == t.result.crashReason)
  {
  }

  /**
   * Runs a row the way the test does and reads the outcome back: the returned
   * error, the stored record's count, reason, state, `since` and tag, and the
   * auction calls, whose only call asks for the stored desired LRP at this index.
   */
  method RunCrashTest(t: CrashTest, start: int)
    returns (crashErr: Option<Error>, initial: ActualLRP, stored: Result<ActualLRPGroup, Error>, clockNow: int,
             callCount: nat, requested: seq<LRPStartRequest>, desired: Result<DesiredLRP, Error>)
    requires t in CrashTestTable()
    ensures crashErr == t.result.returnedErr
    ensures stored.Success? && stored.value.instance.Some?
    ensures var lrp := stored.value.instance.value;
      && lrp.crashCount == t.result.crashCount
      && lrp.crashReason == t.result.crashReason
      && lrp.state == t.result.state
      && (t.result.shouldUpdate ==>
            lrp.since == clockNow && lrp.modificationTag.index == (initial.modificationTag.index + 1) % TagIndexBound)
      && (!t.result.shouldUpdate ==>
            lrp.since == initial.since && lrp.modificationTag.index == initial.modificationTag.index)
    ensures t.result.auction ==>
      && callCount == 1 && |requested| == 1 && desired.Success?
      && requested[0].desiredLRP == desired.value
      && multiset(requested[0].indices) == multiset{initial.key.index}
    ensures !t.result.auction ==> callCount == 0
  {
    var store := new Store(start);
    initial := SetupLRP(t, store.now);
    store.SetRawDesiredLRP(FixtureDesiredLRP(initial.key));
    store.SetRawActualLRP(initial);
    store.AdvanceClock(ClockStep);
    CrashTableAgreesWithModel(t, start);
    crashErr := store.CrashActualLRP(initial.key, initial.instanceKey, CrashMessage);
    stored := store.ActualLRPGroupByProcessGuidAndIndex(initial.key.processGuid, initial.key.index);
    clockNow := store.now;
    callCount := store.auctioneer.RequestLRPAuctionsCallCount();
    if callCount > 0 {
      requested := store.auctioneer.RequestLRPAuctionsArgsForCall(0);
    } else {
      requested := [];
    }
    desired := DesiredLRPDB.DesiredLRPByProcessGuid(store.available, store.desiredLRPs, initial.key.processGuid);
  }

  /** A row that auctions, with the desired LRP deleted first: the crash succeeds and the slot is gone. */
  method RunCrashTestWithoutDesiredLRP(t: CrashTest, start: int) returns (crashErr: Option<Error>, group: Result<ActualLRPGroup, Error>)
    requires t in CrashTestTable() && t.result.auction
    ensures crashErr == None
    ensures group == Failure(ErrResourceNotFound)
  {
    var store := new Store(start);
    var initial := SetupLRP(t, store.now);
    store.SetRawDesiredLRP(FixtureDesiredLRP(initial.key));
    store.SetRawActualLRP(initial);
    var deleted := store.DeleteDesiredLRP(initial.key.processGuid);
    store.AdvanceClock(ClockStep);
    CrashTableAgreesWithModel(t, start);
    crashErr := store.CrashActualLRP(initial.key, initial.instanceKey, CrashMessage);
    group := store.ActualLRPGroupByProcessGuidAndIndex(initial.key.processGuid, initial.key.index);
  }

  /** Any row, crashed under another instance guid: refused, and the group reads back exactly as before. */
  method RunCrashTestForOtherInstance(t: CrashTest, start: int)
    returns (crashErr: Option<Error>, before: Result<ActualLRPGroup, Error>, after: Result<ActualLRPGroup, Error>)
    requires t in CrashTestTable()
    ensures crashErr == Some(ErrActualLRPCannotBeCrashed)
    ensures before.Success? && after == before
  {
    var store := new Store(start);
    var initial := SetupLRP(t, store.now);
    store.SetRawDesiredLRP(FixtureDesiredLRP(initial.key));
    store.SetRawActualLRP(initial);
    before := store.ActualLRPGroupByProcessGuidAndIndex(initial.key.processGuid, initial.key.index);
    var otherInstance := initial.instanceKey.(instanceGuid := "another-guid");
    store.AdvanceClock(ClockStep);
    crashErr := store.CrashActualLRP(initial.key, otherInstance, CrashMessage);
    after := store.ActualLRPGroupByProcessGuidAndIndex(initial.key.processGuid, initial.key.index);
  }
}
