/** The state of one server (core/include/raft_state.h, core/include/raft_entry.h) and the Raft messages. */
module Types {
  import opened Basics
  import opened Ring

  /** `Entry::committed`: the pointer dropped, still waiting, or signalled. */
  datatype Signal = Dropped | Waiting | Signalled

  /** One element of the in-memory log vector. An empty command with a non-zero ring slot stands for a
      command that is still on the device. */
  datatype Entry = Entry(command: seq<Byte>, term: nat, committed: Signal, ringSlot: nat, cmdLen: nat)

  const SENTINEL: Entry := Entry([], 0, Waiting, 0, 0)

  datatype Role = Leader | Follower | Candidate

  datatype Member = Member(nextIndex: nat, matchIndex: nat, votedFor: nat, inflight: bool)

  /** Everything that `Server::mu` protects: Raft state, ring bookkeeping, and the term and vote that
      the header sector on disk holds. Indexes are unbounded. */
  datatype Node = Node(
    currentTerm: nat, log: seq<Entry>, id: nat, commitIndex: nat, lastApplied: nat, role: Role,
    cluster: seq<Member>, clusterIndex: nat,
    tailLogIndex: nat, tailSlot: nat, headSlot: nat, gcUpTo: nat, gcHasRun: bool, logSlotMap: LogSlotMap,
    ringSlots: nat, logTrimThreshold: nat,
    persistedInit: bool, persistedTerm: nat, persistedVotedFor: nat,
    diskTerm: nat, diskVotedFor: nat)

  /** The vector starts with a sentinel and holds the newest entries, the oldest at index 1 or later. */
  predicate LogOk(n: Node) {
    1 <= |n.log| <= n.tailLogIndex
  }

  predicate ClusterOk(n: Node) {
    n.clusterIndex < |n.cluster|
  }

  /** `oldest_log_index`: absolute index of the oldest entry still in the vector. */
  function Oldest(n: Node): (i: nat)
    requires LogOk(n)
    ensures 1 <= i <= n.tailLogIndex
  {
    n.tailLogIndex - (|n.log| - 1)
  }

  /** `log_slice`: position of an absolute index in the vector. */
  function LogSlice(n: Node, idx: nat): nat
    requires LogOk(n) && Oldest(n) <= idx
  {
    1 + (idx - Oldest(n))
  }

  function EntryAt(n: Node, idx: nat): Entry
    requires LogOk(n) && Oldest(n) <= idx < n.tailLogIndex
  {
    n.log[LogSlice(n, idx)]
  }

  function EntrySlots(e: Entry): nat {
    SlotsForEntry(if e.command != [] then |e.command| else e.cmdLen)
  }

  /** `slots_for_log_index`: the recorded slot count, or the one the entry implies. */
  function SlotsForLogIndex(n: Node, idx: nat): nat
    requires LogOk(n) && (idx in n.logSlotMap || Oldest(n) <= idx < n.tailLogIndex)
  {
    if idx in n.logSlotMap then n.logSlotMap[idx].numSlots else EntrySlots(EntryAt(n, idx))
  }

  function VotedFor(n: Node): nat
    requires ClusterOk(n)
  {
    n.cluster[n.clusterIndex].votedFor
  }

  function WithMember(n: Node, i: nat, m: Member): Node
    requires i < |n.cluster|
  {
    n.(cluster := n.cluster[i := m])
  }

  // ---------------------------------------------------------------- messages

  datatype EntryMeta = EntryMeta(term: nat, cmdLen: nat)

  datatype AERequest = AERequest(term: nat, prevLogIndex: nat, prevLogTerm: nat, leaderCommit: nat,
                                 pbaSrc: nat, blockLength: nat, numEntries: nat, startSlot: nat, metas: seq<EntryMeta>)

  datatype AEResponse = AEResponse(term: nat, success: bool, conflictTerm: nat, conflictIndex: nat)

  datatype RVRequest = RVRequest(term: nat, candidateId: nat, lastLogIndex: nat, lastLogTerm: nat)

  datatype RVResponse = RVResponse(term: nat, voteGranted: bool)
}
