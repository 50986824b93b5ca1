/**
 * The decisions the store makes for a crash report and for a claim, as pure
 * functions of the current record and the request.
 */
module ActualLRPStateMachine {
  import opened Wrappers
  import opened Errors
  import opened Models

  /** What a crash report decides: refused, or the state and crash count the record ends with and whether the slot is auctioned again. */
  datatype CrashDecision = CannotCrash | Crash(state: ActualLRPState, crashCount: nat, auction: bool)

  /** Only a Running record that has been in its state for the reset timeout forgets its earlier crashes. */
  predicate ResetsCrashCount(state: ActualLRPState, elapsed: int)
  {
    state == Running && elapsed >= CrashResetTimeout
  }

  /**
   * The crash decision table. `elapsed` is the time since the record last changed
   * state and `sameInstance` says whether the request names the record's instance.
   */
  function DecideCrash(state: ActualLRPState, crashCount: nat, elapsed: int, sameInstance: bool): (d: CrashDecision)
    ensures d.CannotCrash? <==> state == Unclaimed || state == Crashed || !sameInstance
    ensures d.Crash? ==> d.crashCount == (if ResetsCrashCount(state, elapsed) then 0 else crashCount) + 1
    ensures d.Crash? ==> (d.state == Crashed <==> d.crashCount > CrashThreshold)
    ensures d.Crash? ==> (d.state == Unclaimed || d.state == Crashed) && (d.auction <==> d.state == Unclaimed)
  {
    if state == Unclaimed || state == Crashed || !sameInstance then CannotCrash
    else
      var count := (if ResetsCrashCount(state, elapsed) then 0 else crashCount) + 1;
      if count > CrashThreshold then Crash(Crashed, count, false) else Crash(Unclaimed, count, true)
  }

  /** Inside the reset window, and for every Claimed record, a crash adds one to the count. */
  lemma CrashWithinWindowIncrements(state: ActualLRPState, crashCount: nat, elapsed: int)
    requires state == Claimed || (state == Running && elapsed < CrashResetTimeout)
    ensures DecideCrash(state, crashCount, elapsed, true).Crash?
    ensures DecideCrash(state, crashCount, elapsed, true).crashCount == crashCount + 1
  {
  }

  /** A Running record past the reset timeout restarts at count 1 and is auctioned, whatever its count was. */
  lemma RunningPastTimeoutRestarts(crashCount: nat, elapsed: int)
    requires elapsed >= CrashResetTimeout
    ensures DecideCrash(Running, crashCount, elapsed, true) == Crash(Unclaimed, 1, true)
  {
  }

  /** A Claimed record is never reset: with four crashes it stays down even past the reset timeout. */
  lemma ClaimedIsNeverReset(elapsed: int)
    ensures DecideCrash(Claimed, 4, elapsed, true) == Crash(Crashed, 5, false)
  {
  }

  /** The rows of the decision table that fix concrete values. */
  lemma CrashDecisionExamples()
    ensures DecideCrash(Running, 0, Minute, true) == Crash(Unclaimed, 1, true)
    ensures DecideCrash(Running, 4, Minute, true) == Crash(Crashed, 5, false)
    ensures DecideCrash(Running, 4, CrashResetTimeout + Minute, true) == Crash(Unclaimed, 1, true)
    ensures DecideCrash(Unclaimed, 4, CrashResetTimeout + Minute, true) == CannotCrash
    ensures DecideCrash(Crashed, 4, CrashResetTimeout + Minute, true) == CannotCrash
  {
  }

  /** A request naming another instance is refused from every state. */
  lemma OtherInstanceCannotCrash(state: ActualLRPState, crashCount: nat, elapsed: int)
    ensures DecideCrash(state, crashCount, elapsed, false) == CannotCrash
  {
  }

  /**
   * More previous crashes never make a restart more likely: if a record with
   * count c1 ends Crashed, the same record with a larger count does too.
   */
  lemma MoreCrashesNeverRestartSooner(state: ActualLRPState, c1: nat, c2: nat, elapsed: int)
    requires c1 <= c2
    requires DecideCrash(state, c1, elapsed, true).Crash?
    ensures DecideCrash(state, c2, elapsed, true).Crash?
    ensures DecideCrash(state, c1, elapsed, true).state == Crashed ==> DecideCrash(state, c2, elapsed, true).state == Crashed
  {
  }

  /** The record written for a successful crash, and whether an auction must follow. */
  datatype CrashedRecord = CrashedRecord(lrp: ActualLRP, auction: bool)

  /**
   * Applies a crash report to a stored record at time `now`. A refused report
   * yields ErrActualLRPCannotBeCrashed. An accepted one takes state and count
   * from the decision table, records the reason, restarts `since`, bumps the
   * modification tag and clears the instance key and net info; the key stays.
   */
  function CrashRecord(lrp: ActualLRP, instanceKey: ActualLRPInstanceKey, message: string, now: int): (r: Result<CrashedRecord, Error>)
    ensures r.Failure? <==> lrp.state == Unclaimed || lrp.state == Crashed || lrp.instanceKey != instanceKey
    ensures r.Failure? ==> r.error == ErrActualLRPCannotBeCrashed
    ensures r.Success? ==>
      var d := DecideCrash(lrp.state, lrp.crashCount, now - lrp.since, true);
      && r.value.lrp.key == lrp.key
      && r.value.lrp.state == d.state
      && r.value.lrp.crashCount == d.crashCount
      && r.value.auction == d.auction
      && r.value.lrp.crashReason == message
      && r.value.lrp.since == now
      && r.value.lrp.modificationTag.epoch == lrp.modificationTag.epoch
      && r.value.lrp.modificationTag.index == (lrp.modificationTag.index + 1) % TagIndexBound
      && r.value.lrp.instanceKey == EmptyInstanceKey
      && r.value.lrp.netInfo == EmptyNetInfo
  {
    match DecideCrash(lrp.state, lrp.crashCount, now - lrp.since, lrp.instanceKey == instanceKey)
    case CannotCrash => Failure(ErrActualLRPCannotBeCrashed)
    case Crash(state, count, auction) =>
      Success(CrashedRecord(
        lrp.(state := state, crashCount := count, crashReason := message, since := now,
             modificationTag := Increment(lrp.modificationTag),
             instanceKey := EmptyInstanceKey, netInfo := EmptyNetInfo),
        auction))
  }

  /** The record that ends Unclaimed is exactly the one that asks for an auction. */
  lemma CrashAuctionsExactlyWhenUnclaimed(lrp: ActualLRP, instanceKey: ActualLRPInstanceKey, message: string, now: int)
    requires CrashRecord(lrp, instanceKey, message, now).Success?
    ensures CrashRecord(lrp, instanceKey, message, now).value.auction <==> CrashRecord(lrp, instanceKey, message, now).value.lrp.state == Unclaimed
    ensures CrashRecord(lrp, instanceKey, message, now).value.lrp.crashCount >= 1
  {
  }

  /**
   * Applies a claim at time `now`. An Unclaimed record can be claimed by any
   * instance; a Claimed or Running one only by the instance it already names.
   * The claimed record names that instance, has no net info, restarts `since`
   * and bumps the tag; its crash count and reason are kept.
   */
  function ClaimRecord(lrp: ActualLRP, instanceKey: ActualLRPInstanceKey, now: int): (r: Result<ActualLRP, Error>)
    ensures r.Success? <==>
      lrp.state == Unclaimed || ((lrp.state == Claimed || lrp.state == Running) && lrp.instanceKey == instanceKey)
    ensures r.Failure? ==> r.error == ErrActualLRPCannotBeClaimed
    ensures r.Success? ==>
      && r.value.key == lrp.key
      && r.value.state == Claimed
      && r.value.instanceKey == instanceKey
      && r.value.netInfo == EmptyNetInfo
      && r.value.since == now
      && r.value.modificationTag == Increment(lrp.modificationTag)
      && r.value.crashCount == lrp.crashCount && r.value.crashReason == lrp.crashReason
  {
    var allowed := lrp.state == Unclaimed || ((lrp.state == Claimed || lrp.state == Running) && lrp.instanceKey == instanceKey);
    if !allowed then Failure(ErrActualLRPCannotBeClaimed)
    else Success(lrp.(state := Claimed, instanceKey := instanceKey, netInfo := EmptyNetInfo, since := now,
                      modificationTag := Increment(lrp.modificationTag)))
  }

  /** A Running record claimed with its own instance key is claimed, and the claimed record differs from it. */
  lemma ClaimOwnRunningRecord(lrp: ActualLRP, now: int)
    requires lrp.state == Running
    ensures ClaimRecord(lrp, lrp.instanceKey, now).Success?
    ensures ClaimRecord(lrp, lrp.instanceKey, now).value != lrp
  {
  }
}
