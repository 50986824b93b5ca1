/**
 * The recording test double of the auctioneer client: every call is appended
 * to a per-operation log, and the returned error comes from a stub function
 * when one is set, or from a configured result otherwise.
 */
module AuctionClient {
  import opened Wrappers
  import opened Errors
  import opened Models

  class FakeClient {
    var requestLRPAuctionsStub: Option<seq<LRPStartRequest> -> Option<GoError>>
    var lrpAuctionCalls: seq<seq<LRPStartRequest>>
    var lrpAuctionsResult: Option<GoError>
    var requestTaskAuctionsStub: Option<seq<Task> -> Option<GoError>>
    var taskAuctionCalls: seq<seq<Task>>
    var taskAuctionsResult: Option<GoError>

    /** A fake with no stubs, no recorded calls and nil results. */
    constructor ()
      ensures requestLRPAuctionsStub == None && lrpAuctionCalls == [] && lrpAuctionsResult == None
      ensures requestTaskAuctionsStub == None && taskAuctionCalls == [] && taskAuctionsResult == None
    {
      requestLRPAuctionsStub, lrpAuctionCalls, lrpAuctionsResult := None, [], None;
      requestTaskAuctionsStub, taskAuctionCalls, taskAuctionsResult := None, [], None;
    }

    /** Records the call, then answers from the stub if one is set and from the configured result otherwise. */
    method RequestLRPAuctions(lrpStart: seq<LRPStartRequest>) returns (err: Option<GoError>)
      modifies this`lrpAuctionCalls
      ensures lrpAuctionCalls == old(lrpAuctionCalls) + [lrpStart]
      ensures taskAuctionCalls == old(taskAuctionCalls)
      ensures err == if requestLRPAuctionsStub.Some? then requestLRPAuctionsStub.value(lrpStart) else lrpAuctionsResult
    {
      lrpAuctionCalls := lrpAuctionCalls + [lrpStart];
      if requestLRPAuctionsStub.Some? {
        err := requestLRPAuctionsStub.value(lrpStart);
      } else {
        err := lrpAuctionsResult;
      }
    }

    /** The number of LRP auction calls made so far. */
    method RequestLRPAuctionsCallCount() returns (n: nat)
      ensures n == |lrpAuctionCalls|
    {
      n := |lrpAuctionCalls|;
    }

    /** The argument of the i-th LRP auction call (indexing past the log is a Go runtime panic). */
    method RequestLRPAuctionsArgsForCall(i: nat) returns (lrpStart: seq<LRPStartRequest>)
      requires i < |lrpAuctionCalls|
      ensures lrpStart == lrpAuctionCalls[i]
    {
      lrpStart := lrpAuctionCalls[i];
    }

    /** Drops the stub and sets the result later calls return; the call log is untouched. */
    method RequestLRPAuctionsReturns(result1: Option<GoError>)
      modifies this`requestLRPAuctionsStub, this`lrpAuctionsResult
      ensures requestLRPAuctionsStub == None && lrpAuctionsResult == result1
    {
      requestLRPAuctionsStub := None;
      lrpAuctionsResult := result1;
    }

    /** Records the call, then answers from the stub if one is set and from the configured result otherwise. */
    method RequestTaskAuctions(tasks: seq<Task>) returns (err: Option<GoError>)
      modifies this`taskAuctionCalls
      ensures taskAuctionCalls == old(taskAuctionCalls) + [tasks]
      ensures lrpAuctionCalls == old(lrpAuctionCalls)
      ensures err == if requestTaskAuctionsStub.Some? then requestTaskAuctionsStub.value(tasks) else taskAuctionsResult
    {
      taskAuctionCalls := taskAuctionCalls + [tasks];
      if requestTaskAuctionsStub.Some? {
        err := requestTaskAuctionsStub.value(tasks);
      } else {
        err := taskAuctionsResult;
      }
    }

    /** The number of task auction calls made so far. */
    method RequestTaskAuctionsCallCount() returns (n: nat)
      ensures n == |taskAuctionCalls|
    {
      n := |taskAuctionCalls|;
    }

    /** The argument of the i-th task auction call. */
    method RequestTaskAuctionsArgsForCall(i: nat) returns (tasks: seq<Task>)
      requires i < |taskAuctionCalls|
      ensures tasks == taskAuctionCalls[i]
    {
      tasks := taskAuctionCalls[i];
    }

    /** Drops the stub and sets the result later calls return; the call log is untouched. */
    method RequestTaskAuctionsReturns(result1: Option<GoError>)
      modifies this`requestTaskAuctionsStub, this`taskAuctionsResult
      ensures requestTaskAuctionsStub == None && taskAuctionsResult == result1
    {
      requestTaskAuctionsStub := None;
      taskAuctionsResult := result1;
    }
  }

  /**
   * A sequence of calls observed through the fake's own accessors: every call is
   * logged in order, the count is the number of calls, a configured result is
   * returned, and task calls leave the LRP log alone.
   */
  method RecordsCallsInOrder(first: seq<LRPStartRequest>, second: seq<LRPStartRequest>, tasks: seq<Task>, failure: GoError)
    returns (count: nat, args0: seq<LRPStartRequest>, args1: seq<LRPStartRequest>, returned: Option<GoError>, lrpCountAfterTasks: nat)
    ensures count == 2 && args0 == first && args1 == second
    ensures returned == Some(failure)
    ensures lrpCountAfterTasks == 2
  {
    var fake := new FakeClient();
    var e0 := fake.RequestLRPAuctions(first);
    fake.RequestLRPAuctionsReturns(Some(failure));
    returned := fake.RequestLRPAuctions(second);
    count := fake.RequestLRPAuctionsCallCount();
    args0 := fake.RequestLRPAuctionsArgsForCall(0);
    args1 := fake.RequestLRPAuctionsArgsForCall(1);
    var e1 := fake.RequestTaskAuctions(tasks);
    lrpCountAfterTasks := fake.RequestLRPAuctionsCallCount();
  }
}
