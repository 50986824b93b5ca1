# BBS actual-LRP store: a verified model

This project models the core of the BBS, the diego bulletin board system.
Its centre is the **ActualLRP crash transition**, which the etcd-backed store
performs when a cell reports that an instance of a long-running process crashed.

Instance records are keyed by `(processGuid, index)`. Crashing one does the following:
- It refuses records that are Unclaimed or Crashed, and requests that name another instance.
- It increments the crash count. A Running record past the reset timeout restarts its count from 0.
- It records the crash reason and the clock's current time.
- It advances the modification tag.
- It sends the record back to Unclaimed with one auction request. Once the crash count passes the threshold, it parks the record as Crashed instead.
- If the desired LRP has disappeared, it deletes the record instead of auctioning it.

Around the crash transition the model holds these pieces:
- the store's other operations: desired-LRP and task lookups and listings with their error classification, task creation, and the claim that the event stream observes;
- the event stream those writes append to, and a subscriber reading it;
- the typed error values and their type-only equality;
- the recording fake auctioneer client, whose call log the crash contract is stated against.

Modules, one per file:

| file | module | contents |
|---|---|---|
| wrappers.dfy | Wrappers | `Option`, `Result` |
| errors.dfy | Errors | error type constants, the error values, `Error()` text, `Equal` |
| models.dfy | Models | keys, net info, states, modification tag (uint32 index), records, groups, desired LRPs, tasks, stored values that may be malformed |
| events.dfy | Events | the six event kinds, and the first event of a kind in a stream |
| actual_lrp_state_machine.dfy | ActualLRPStateMachine | the pure crash decision, and the crash and claim transitions of one record |
| auction_client.dfy | AuctionClient | `FakeClient`: a call-recording auctioneer client |
| records.dfy | Records | generic lookup and filtered listing over a map of stored values |
| desired_lrp_db.dfy | DesiredLRPDB | `DesiredLRPByProcessGuid`, `DesiredLRPs` with a domain filter |
| task_db.dfy | TaskDB | `TaskByGuid`, `Tasks`, `TasksByDomain`, `TasksByCellID` |
| etcd_db.dfy | EtcdDB | `Store`: the instance and evacuating maps, desired LRPs, tasks, backend availability, the clock, the event stream, the auctioneer; the raw writers, claim, crash and desire-task operations |
| event_stream.dfy | EventStream | `EventSource`: a cursor over the store's event stream; the priming loop; the receive-events scenario |
| crash_tests.dfy | CrashTests | the crash decision table as data, and methods that run each row against a fresh store |
| task_tests.dfy | TaskTests | the task getters over two stored tasks, and desiring a task then reading it back |

Conventions:
- Time is an integer count of nanoseconds held by the store. It is set at construction and advanced only by `AdvanceClock`, like the injected fake clock.
- `CrashResetTimeout` is five minutes and the crash threshold is 3.
- The tag index is a uint32 and wraps modulo 2^32.
- Stored desired LRPs and tasks are either a record or `Malformed`. Malformed stands for a value that fails to decode; no bytes or JSON are modelled. Actual-LRP records are always well-formed (see "## Left out").

Decisions about the crash and claim rules:
- **Claimed records are not reset.** Only Running records have their crash count reset after the timeout. The crash table in `db/etcd/actual_lrp_crashing_test.go:72-76` crashes a Claimed record aged past the timeout from count 4 to count 5.
- **Claiming a Running record with its own instance key succeeds** (`cmd/bbs/event_stream_test.go:85-112`). That is the only claim case the tests pin. Re-claiming a Claimed record with its own instance key, claiming an Unclaimed record with any key, and refusing every claim of a Crashed record are choices of this model.
- **The reset boundary is inclusive.** The reset applies once elapsed time is at least the timeout. No test pins the equality case.
- **A count above 3 ends Crashed.** The test names mention 3, and the tests fix only count 0 → Unclaimed and count 4 → Crashed.

## Model

| member | source | states |
|---|---|---|
| Errors.Message | models/errors.go:5-7 | a typed error's text is its message; an invalid-field error's text is "Invalid field: " followed by the field, and an invalid-modification error's text is "attempt to make invalid change to field: " followed by the field; a plain error's text is its own text |
| Errors.EqualIgnoresMessage | models/errors.go:90-95 | two typed errors are Equal exactly when their types agree, whatever either message is |
| Errors.EqualIsEquivalence | models/errors.go:90-95 | Equal on typed errors is reflexive, symmetric and transitive |
| Errors.SerializeEqualsDeserialize | models/errors.go:49-57 | ErrSerializeJSON and ErrDeserializeJSON are different values yet Equal both ways (same InvalidJSON type) |
| Errors.NeverEqualToUntyped | models/errors.go:90-103 | a typed error is never Equal to an invalid-field, invalid-modification or plain error |
| Errors.CannotBeErrorsDistinct | models/errors.go:25-30 | each of the six ErrActualLRPCannotBe* values carries its own type constant, and no two of them are Equal |
| Errors.InvalidFieldMessageInjective | models/errors.go:97-111 | an invalid-field or invalid-modification message determines the field it names |
| Models.Increment | db/etcd/actual_lrp_crashing_test.go:223-227 | bumping a tag keeps its epoch, adds one to the index modulo 2^32, and always yields a different tag |
| Events.FirstOfType | cmd/bbs/event_stream_test.go:102-105 | the index found is the first position at or after the start whose event has the wanted type, and None means no such position exists |
| ActualLRPStateMachine.DecideCrash | db/etcd/actual_lrp_crashing_test.go:14-150 | a crash is refused exactly for Unclaimed or Crashed records or another instance; otherwise the new count is one more than the old count (or than 0 for a Running record past the reset timeout), the record ends Crashed exactly when that count exceeds 3, and it ends Unclaimed with an auction exactly otherwise |
| ActualLRPStateMachine.CrashWithinWindowIncrements | db/etcd/actual_lrp_crashing_test.go:19-32 | a crash of a Claimed record, or of a Running record inside the reset window, by its own instance is accepted and the new count is the old count plus one |
| ActualLRPStateMachine.RunningPastTimeoutRestarts | db/etcd/actual_lrp_crashing_test.go:35-41 | a Running record past the reset timeout ends Unclaimed with count 1 and an auction, whatever its old count |
| ActualLRPStateMachine.ClaimedIsNeverReset | db/etcd/actual_lrp_crashing_test.go:53-76 | a Claimed record with count 4 past the reset timeout still ends Crashed with count 5 and no auction |
| ActualLRPStateMachine.CrashDecisionExamples | db/etcd/actual_lrp_crashing_test.go:17-86 | the concrete rows: Running a minute in state with count 0 ends Unclaimed with count 1 and an auction, with count 4 ends Crashed with count 5 and none; past the timeout Running with count 4 ends Unclaimed with count 1, and Unclaimed and Crashed are refused |
| ActualLRPStateMachine.OtherInstanceCannotCrash | db/etcd/actual_lrp_crashing_test.go:280-297 | a request naming another instance is refused from every state, count and age |
| ActualLRPStateMachine.MoreCrashesNeverRestartSooner | db/etcd/actual_lrp_crashing_test.go:19-41 | with the same state and age, a larger old count never ends Unclaimed when a smaller one ends Crashed |
| ActualLRPStateMachine.CrashRecord | db/etcd/actual_lrp_crashing_test.go:152-246 | fails with ErrActualLRPCannotBeCrashed exactly when the decision refuses; on success it keeps the key, takes state and count from the decision, sets the reason to the message and Since to now, keeps the tag epoch and adds one to its index modulo 2^32, and clears the instance key and net info |
| ActualLRPStateMachine.CrashAuctionsExactlyWhenUnclaimed | db/etcd/actual_lrp_crashing_test.go:248-278 | a successful crash asks for an auction exactly when the new record is Unclaimed, and leaves a crash count of at least one |
| ActualLRPStateMachine.ClaimRecord | cmd/bbs/event_stream_test.go:110-125 | claiming succeeds exactly for an Unclaimed record or a Claimed or Running one with the same instance key, otherwise fails with ErrActualLRPCannotBeClaimed; on success the record is Claimed by the new instance with no net info, Since now and its tag bumped, its crash count and reason kept |
| ActualLRPStateMachine.ClaimOwnRunningRecord | cmd/bbs/event_stream_test.go:85-112 | claiming a Running record with its own instance key succeeds and changes the record |
| AuctionClient.FakeClient.constructor | auctionhandlers/fakes/fake_client.go:12-29 | a new client has empty call logs, no stubs and no configured errors |
| AuctionClient.FakeClient.RequestLRPAuctions | auctionhandlers/fakes/fake_client.go:31-42 | appends exactly its argument to the LRP call log and leaves the task log alone; returns the stub's result when a stub is set, otherwise the configured result |
| AuctionClient.FakeClient.RequestLRPAuctionsCallCount | auctionhandlers/fakes/fake_client.go:44-48 | the number of LRP auction calls recorded |
| AuctionClient.FakeClient.RequestLRPAuctionsArgsForCall | auctionhandlers/fakes/fake_client.go:50-54 | the argument of the i-th LRP auction call, for i below the call count |
| AuctionClient.FakeClient.RequestLRPAuctionsReturns | auctionhandlers/fakes/fake_client.go:56-61 | clears the LRP stub and sets the configured result, leaving the call logs alone |
| AuctionClient.FakeClient.RequestTaskAuctions | auctionhandlers/fakes/fake_client.go:63-74 | appends exactly its argument to the task call log and leaves the LRP log alone; returns the stub's result when set, otherwise the configured result |
| AuctionClient.FakeClient.RequestTaskAuctionsCallCount | auctionhandlers/fakes/fake_client.go:76-80 | the number of task auction calls recorded |
| AuctionClient.FakeClient.RequestTaskAuctionsArgsForCall | auctionhandlers/fakes/fake_client.go:82-86 | the argument of the i-th task auction call, for i below the call count |
| AuctionClient.FakeClient.RequestTaskAuctionsReturns | auctionhandlers/fakes/fake_client.go:88-93 | clears the task stub and sets the configured result, leaving the call logs alone |
| AuctionClient.RecordsCallsInOrder | auctionhandlers/fakes/fake_client.go:31-93 | on a fresh client, two LRP calls are recorded in order, the configured failure is returned, and a task call leaves the LRP count at two |
| Records.Lookup | db/etcd/desired_lrp_db_test.go:89-136 | an unavailable backend gives ErrUnknownError, a missing key ErrResourceNotFound, a malformed value ErrDeserializeJSON, and a stored record itself; success means the record is stored under that key |
| Records.LookupAfterWrite | cmd/bbs/task_test.go:50-55 | looking a key up right after writing a record there returns that record |
| Records.NotFoundIsNotMalformed | db/etcd/desired_lrp_db_test.go:105-121 | the not-found and deserialize errors are not Equal, so a missing key and a bad value are told apart |
| Records.MatchingInStep | db/etcd/desired_lrp_db_test.go:29-48 | adding one well-formed key to the scanned keys adds its value to the selection exactly when the filter keeps it |
| Records.List | db/etcd/desired_lrp_db_test.go:29-86 | an unavailable backend gives ErrUnknownError; any malformed entry fails the whole listing with ErrDeserializeJSON; otherwise the result holds exactly the stored values the filter keeps, as a multiset |
| DesiredLRPDB.DomainFilterSelects | db/etcd/desired_lrp_db_test.go:40-48 | for a non-empty domain, an LRP is selected exactly when the unfiltered listing selects it and it has that domain |
| DesiredLRPDB.DesiredLRPByProcessGuid | db/etcd/desired_lrp_db_test.go:89-136 | the stored LRP unchanged, ErrResourceNotFound for a missing guid, ErrDeserializeJSON for a malformed value, ErrUnknownError when the backend is down |
| DesiredLRPDB.DesiredLRPs | db/etcd/desired_lrp_db_test.go:29-86 | exactly the stored LRPs of the filter's domain (all with the empty filter) as a multiset, an empty list from an empty store, ErrDeserializeJSON if any entry is malformed, ErrUnknownError when the backend is down |
| TaskDB.FiltersSelect | cmd/bbs/task_test.go:23-46 | for a non-empty domain or cell, a task is selected exactly when the unfiltered listing selects it and it has that domain or cell |
| TaskDB.TasksByFilter | cmd/bbs/task_test.go:23-46 | exactly the stored tasks the filter selects, as a multiset, with the same error classification as the desired-LRP listing |
| TaskDB.Tasks | cmd/bbs/task_test.go:23-29 | exactly the stored tasks as a multiset; every stored task is in the result |
| TaskDB.TasksByDomain | cmd/bbs/task_test.go:32-38 | exactly the stored tasks of that domain as a multiset |
| TaskDB.TasksByCellID | cmd/bbs/task_test.go:41-46 | exactly the stored tasks on that cell as a multiset |
| TaskDB.TaskByGuid | cmd/bbs/task_test.go:50-55 | the stored task unchanged, or the not-found, deserialize or unknown error as for desired LRPs |
| EtcdDB.Store.constructor | db/etcd/etcd_suite_test.go:52 | a new store has empty maps, is available, has no events, has its clock at the given start, and has a fresh auctioneer with an empty LRP call log and no LRP stub or configured result |
| EtcdDB.Store.AdvanceClock | db/etcd/actual_lrp_crashing_test.go:189-192 | advances the clock by the given nanoseconds and nothing else |
| EtcdDB.Store.StopBackend | db/etcd/desired_lrp_db_test.go:73-80 | makes the backend unavailable, changing nothing else |
| EtcdDB.Store.StartBackend | db/etcd/desired_lrp_db_test.go:78-80 | makes the backend available again, changing nothing else |
| EtcdDB.Store.ActualLRPGroupByProcessGuidAndIndex | db/etcd/actual_lrp_crashing_test.go:267-295 | ErrUnknownError when the backend is down, ErrResourceNotFound exactly when neither the instance nor the evacuating map has the slot, otherwise the group of the instance and evacuating records there |
| EtcdDB.Store.SetRawActualLRP | db/etcd/internal/test_helpers/creators.go:12-20 | writes the record at its slot in the instance map only, and publishes Created with the instance-only group of the new record when the slot held no instance record, otherwise Changed with the instance-only groups of the old and new records |
| EtcdDB.Store.SetRawEvacuatingActualLRP | db/etcd/internal/test_helpers/creators.go:22-30 | writes the record at its slot in the evacuating map only, publishing Created or Changed with evacuating-only groups, decided by the evacuating map alone |
| EtcdDB.Store.SetRawDesiredLRP | db/etcd/internal/test_helpers/creators.go:32-40 | stores the desired LRP under its process guid, publishing DesiredLRPChanged when a record was there and DesiredLRPCreated otherwise |
| EtcdDB.Store.CreateMalformedDesiredLRP | db/etcd/internal/test_helpers/creators.go:76-90 | creates a malformed value under a free guid and reports success; fails and changes nothing when the guid is taken; publishes nothing |
| EtcdDB.Store.DeleteDesiredLRP | db/etcd/actual_lrp_crashing_test.go:261-265 | removes the guid's entry, reporting whether there was one, and publishes DesiredLRPRemoved when it was a record |
| EtcdDB.Store.SetRawTask | db/etcd/internal/test_helpers/creators.go:42-50 | stores the task under its guid, changing nothing else |
| EtcdDB.Store.DesireTask | cmd/bbs/task_test.go:59-69 | ErrUnknownError with nothing changed when the backend is down; otherwise stores, under the guid, a task with that guid, domain and definition and no cell |
| EtcdDB.Store.ClaimActualLRP | cmd/bbs/event_stream_test.go:110-125 | unknown error, not found, or the claim's refusal with nothing changed; on success writes the claimed record and publishes Changed with the instance-only groups of the record before and after the claim |
| EtcdDB.Store.CrashActualLRP | db/etcd/actual_lrp_crashing_test.go:189-297 | unknown error, not found, or the crash's refusal with nothing changed; a crash ending Crashed writes the record and publishes Changed without an auction; one ending Unclaimed looks up the desired LRP and, if found, writes the record, publishes Changed and appends exactly one auction call of one request for that desired LRP at this index; if not found, deletes the record, publishes Removed and succeeds; any other lookup error (a malformed desired LRP) is returned, but the crashed record is still written and Changed published, with no auction |
| EventStream.EventSource.constructor | cmd/bbs/event_stream_test.go:33-36 | a new subscription starts at the end of the store's stream |
| EventStream.EventSource.Next | cmd/bbs/event_stream_test.go:41-51 | delivers the next unread event and advances by one, or reports none pending and stays put |
| EventStream.EventSource.ReceiveUntil | cmd/bbs/event_stream_test.go:101-121 | skips events until one of the wanted type and returns it, stopping just after it; returns none after reading everything if no pending event has that type |
| EventStream.Prime | cmd/bbs/event_stream_test.go:67-76 | writes the primer only while nothing is pending, then receives exactly one event; on a caught-up subscription that event is the primer's desired-LRP write, which is the only change to the stream |
| EventStream.ReceivesEvents | cmd/bbs/event_stream_test.go:94-125 | writing a Running record publishes Created with the group read back afterwards; claiming it with its own instance key succeeds and publishes Changed whose before and after are the groups read before and after the claim, and these differ |
| Errors.Equal | models/errors.go:90-95 | Equal holds only when the other error is a typed error, and then exactly when the two types agree |
| CrashTests.ItUnclaimsTheLRP | db/etcd/actual_lrp_crashing_test.go:109-118 | a consistent expectation of a crash that ends Unclaimed with count 1 and an auction |
| CrashTests.ItCrashesTheLRP | db/etcd/actual_lrp_crashing_test.go:120-129 | a consistent expectation of an updating crash that ends Crashed with count 5 and no auction |
| CrashTests.ItDoesNotChangeTheUnclaimedLRP | db/etcd/actual_lrp_crashing_test.go:131-139 | a consistent expectation of a refusal that leaves an Unclaimed record at count 4 with no reason, no update and no auction |
| CrashTests.ItDoesNotChangeTheCrashedLRP | db/etcd/actual_lrp_crashing_test.go:141-150 | a consistent expectation of a refusal that leaves a Crashed record at count 4 with reason "crashed", no update and no auction |
| CrashTests.CrashTestTable | db/etcd/actual_lrp_crashing_test.go:17-90 | seven rows, each expectation consistent (update exactly when no error, auction only for an update ending Unclaimed); a row expects an error exactly when it starts Unclaimed or Crashed, and then expects the record's state and count unchanged |
| CrashTests.SetupLRP | db/etcd/actual_lrp_crashing_test.go:20-24 | a row's record: the state's fixture record, aged by the row's time in state, carrying the row's crash count |
| CrashTests.FixtureDesiredLRP | db/etcd/actual_lrp_crashing_test.go:171-177 | the desired LRP for a key carries its process guid and domain and has enough instances to cover the key's index |
| TaskTests.ExpectedTasks | cmd/bbs/task_test.go:15-17 | two tasks with different guids and domains; only the second is on "b-cell", in "b-domain" |
| CrashTests.LrpForState | db/etcd/actual_lrp_crashing_test.go:301-323 | the fixture record for a state: fixed key, Since the given time before now, an instance key only when Claimed or Running, net info only when Running, reason "crashed" only when Crashed, count 0 |
| CrashTests.CrashTableAgreesWithModel | db/etcd/actual_lrp_crashing_test.go:17-150 | for every row of the crash table, the modelled crash fails exactly when the row expects an error, and otherwise ends with the row's state, count, reason and auction |
| CrashTests.RunCrashTest | db/etcd/actual_lrp_crashing_test.go:152-278 | for every row, after storing the fixture and its desired LRP and moving the clock 600ns, the crash returns the row's error; the stored record has the row's count, reason and state; Since and the tag index are updated (to now, old+1) or kept, as the row says; an auctioning row makes exactly one call of one request for the stored desired LRP with indices exactly {index}, any other row none |
| CrashTests.RunCrashTestWithoutDesiredLRP | db/etcd/actual_lrp_crashing_test.go:261-272 | for every auctioning row with the desired LRP deleted first, the crash succeeds and the group lookup then returns ErrResourceNotFound |
| TaskTests.ValidTask | cmd/bbs/task_test.go:15 | the fixture task carries the given guid, the default domain and no cell |
| TaskTests.Getters | cmd/bbs/task_test.go:14-56 | after the two fixture tasks are written one by one (the second in "b-domain" on "b-cell"), listing all returns both as a multiset, filtering by the first task's domain returns exactly the first, filtering by "b-cell" returns exactly the second, and looking up the first guid returns the first task |
| TaskTests.DesireThenLookup | cmd/bbs/task_test.go:59-69 | for any guid, domain and definition, desiring the task succeeds and looking its guid up then returns a task with that guid, domain and definition |
| CrashTests.RunCrashTestForOtherInstance | db/etcd/actual_lrp_crashing_test.go:280-297 | for every row, crashing with another instance guid returns ErrActualLRPCannotBeCrashed and the group reads back exactly as before |

## Left out

- client.go is not part of this model: it is HTTP plumbing, request generation and protobuf decoding over a network. Its hub error values are declarations only.
- The model has no event hub: no fan-out, no slow-consumer eviction, no close. The stream is one appended sequence that each subscription reads with its own cursor, and a read that would block returns None.
- Concurrency is left out: the fake client's mutexes, and the goroutine, channels, `Eventually` polling and 50ms timer around the event tests. Calls are sequential, and the priming loop writes the primer once per empty poll.
- etcd, consul and their process runners, JSON encoding and TTLs are left out. A stored value is a record or `Malformed`, and the evacuating record's TTL is not modelled.
- The etcd store implementation (db/etcd) is not modelled: no compare-and-swap retries, no write conflicts, and no tag epochs beyond keeping them unchanged. The crash and claim behaviour is the one db/etcd/actual_lrp_crashing_test.go and cmd/bbs/event_stream_test.go assert.
- The instance and evacuating maps hold well-formed actual LRPs only. The malformed actual-LRP writers (db/etcd/internal/test_helpers/creators.go:68-74) are not modelled, so a group lookup, claim or crash never meets an undecodable record.
- EtcdDB.Store.CrashActualLRP: two cases are choices the tests leave open. A malformed desired LRP on the auction path keeps the crashed record and returns ErrDeserializeJSON, because a failed read after the write does not undo it. The auctioneer's returned error is dropped, not reported. A third case is pinned by db/etcd/actual_lrp_crashing_test.go:261-272: a missing desired LRP deletes the record and returns no error.
- EtcdDB.Store.DesireTask: writing a guid that already holds a task overwrites it. No test pins the duplicate case, and no duplicate-task error is modelled.
- EtcdDB.Store.CrashActualLRP: the crash count is an unbounded natural number, so the int32 overflow of a very large count is not modelled.
- EtcdDB.Store.CrashActualLRP: clearing the instance key and net info on a successful crash matches how lrpForState builds records (db/etcd/actual_lrp_crashing_test.go:311-320): only Claimed and Running records carry an instance key, and only Running ones carry net info. No test observes these fields after a crash.
- EtcdDB.Store.ClaimActualLRP: an actual-LRP event's group holds only the record written, never the evacuating record of the same slot. So when an evacuating record is present, the groups in Created, Changed and Removed events differ from what ActualLRPGroupByProcessGuidAndIndex returns. The same holds for EtcdDB.Store.SetRawActualLRP, EtcdDB.Store.SetRawEvacuatingActualLRP and EtcdDB.Store.CrashActualLRP, and SetRawActualLRP chooses between Created and Changed from the instance map alone. The event test (cmd/bbs/event_stream_test.go:94-125) uses a slot with no evacuating record, where the two agree.
- Records.List: the listing's error kinds are this model's choice, reusing the lookup's: ErrUnknownError for an unavailable backend and ErrDeserializeJSON for a malformed entry. db/etcd/desired_lrp_db_test.go:60-86 asserts only that listing fails, and cmd/bbs/task_test.go tests no listing error. The same choice holds for DesiredLRPDB.DesiredLRPs, TaskDB.TasksByFilter, TaskDB.Tasks, TaskDB.TasksByDomain and TaskDB.TasksByCellID.
- The evacuation flow is left out: the commented-out part of the event test is not behaviour, and the test is skipped before it. Only the separate evacuating map and its writer are kept.
- Start, fail, remove and retire of actual LRPs are named by error values here but implemented in files outside the model, so only their error values are modelled.
- The desired LRP carries process guid, domain, instance count and root file system. Actions, routes and the remaining fields are left out, as no modelled behaviour reads them. A task definition is a root file system and an abstract action string. The valid-task helper is not part of this model, so TaskTests.ValidTask uses placeholder values; the scenarios depend only on its guid, domain and cell.
- Errors.Equal compares a typed error with another error value. A nil `*Error` receiver or argument is not modelled.
