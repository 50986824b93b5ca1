/**
 * The records the store keeps: actual LRPs with their keys, groups, desired
 * LRPs, tasks, the start requests sent to the auctioneer, and the constants of
 * the crash policy.
 */
module Models {
  import opened Wrappers

  /** One minute in nanoseconds, the unit of `Since` and of the clock. */
  const Minute: int := 60 * 1000000000

  /** How long a Running instance must stay in its state before its crash count starts again from zero. */
  const CrashResetTimeout: int := 5 * Minute

  /** A crash that brings the count above this leaves the instance Crashed instead of restarting it. */
  const CrashThreshold: nat := 3

  /** Modification indices are unsigned 32-bit integers. */
  const TagIndexBound: int := 0x1_0000_0000
  type Uint32 = x: int | 0 <= x < TagIndexBound

  datatype ActualLRPKey = ActualLRPKey(processGuid: string, index: nat, domain: string)

  datatype ActualLRPInstanceKey = ActualLRPInstanceKey(instanceGuid: string, cellId: string)

  const EmptyInstanceKey := ActualLRPInstanceKey("", "")

  datatype PortMapping = PortMapping(containerPort: nat, hostPort: nat)

  datatype ActualLRPNetInfo = ActualLRPNetInfo(address: string, ports: seq<PortMapping>)

  const EmptyNetInfo := ActualLRPNetInfo("", [])

  datatype ActualLRPState = Unclaimed | Claimed | Running | Crashed

  /** The optimistic-concurrency stamp of a record; only its index is modelled as changing. */
  datatype ModificationTag = ModificationTag(epoch: string, index: Uint32)

  /** The next tag: same epoch, index one higher, wrapping as a uint32 does. */
  function Increment(tag: ModificationTag): (r: ModificationTag)
    ensures r.epoch == tag.epoch
    ensures r.index == (tag.index + 1) % TagIndexBound
    ensures r != tag
  {
    tag.(index := (tag.index + 1) % TagIndexBound)
  }

  datatype ActualLRP = ActualLRP(
    key: ActualLRPKey,
    instanceKey: ActualLRPInstanceKey,
    netInfo: ActualLRPNetInfo,
    state: ActualLRPState,
    since: int,
    crashCount: nat,
    crashReason: string,
    modificationTag: ModificationTag)

  /** The instance record and the evacuating record of one slot, each possibly absent. */
  datatype ActualLRPGroup = ActualLRPGroup(instance: Option<ActualLRP>, evacuating: Option<ActualLRP>)

  function InstanceGroup(lrp: ActualLRP): ActualLRPGroup { ActualLRPGroup(Some(lrp), None) }

  function EvacuatingGroup(lrp: ActualLRP): ActualLRPGroup { ActualLRPGroup(None, Some(lrp)) }

  datatype DesiredLRP = DesiredLRP(processGuid: string, domain: string, instances: nat, rootFs: string)

  /** A request to place the listed indices of a desired LRP. */
  datatype LRPStartRequest = LRPStartRequest(desiredLRP: DesiredLRP, indices: seq<nat>)

  datatype TaskDefinition = TaskDefinition(rootFs: string, action: string)

  datatype Task = Task(taskGuid: string, domain: string, cellId: string, taskDefinition: TaskDefinition)

  /** A stored value: one that decodes to a record, or bytes that do not. */
  datatype Stored<T> = Record(value: T) | Malformed

  /** The store location of an actual LRP: process guid and index (the domain is not part of it). */
  datatype ActualLRPPath = ActualLRPPath(processGuid: string, index: nat)

  function PathOf(key: ActualLRPKey): ActualLRPPath { ActualLRPPath(key.processGuid, key.index) }
}
