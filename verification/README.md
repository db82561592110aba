# Raft over block-address replication: a Dafny model

The modelled system is a Raft implementation in which AppendEntries carries only metadata and a physical block
address. A leader encodes log entries into the slots of a circular file on its own device; a storage node copies
the sectors from the leader's device to the follower's; the follower rebuilds its log from metadata and decodes a
command only when it needs it. This project models both halves, the consensus state machine and the circular log
with its replication by address, and proves properties of whole runs.

## How it is organised

- Values and geometry: `Basics`, `Extents` (extent index), `Types` (server state and messages).
- The circular log: `EntryCodec` (entries on a device), `Ring` (capacity check, placement, head), `RingRuns`
  (append and collection runs with device contents).
- The copy: `Chunks` (splitting at extent, ring and chunk limits), `BlockCopy` (striped workers as a state machine),
  `EndToEnd` (encoder to decoder).
- State transformations: `Batch`, `Progress` (leader side of AppendEntries), `Fragments` (a leader's ring in several
  extents), `Follower`, `Commit`, `Election`.
- Runs: `LeaderLog` (trimmed against unbounded log), `Replication` and `ReplicationRuns` (one leader's term),
  `Succession`, `CatchUp`, `CatchUpRuns` and `CatchUpLimits` (members behind a new leader), `SlotAgreement`,
  `FirstLeader` (slot map and collection), `SlotLimits`, `DataPath` (the leader's device along such a run, up to what a
  follower decodes), `Mirror`, `MirrorLog`, `Spill` and `SlotReuse` (a follower's device and log along such a run),
  `WritePointer` and `PointerLimits` (its write pointer), `ElectionRuns`, `ElectionLimits`, `ElectionProgress`.
- The server object: `Server.dfy` holds the class whose methods change the fields as the handlers do. Each method
  is proved equal to the state transformation the run theorems speak about, so a theorem about the transformation
  is a theorem about the method.

`dafny verify dfyconfig.toml` checks the whole project.

## Reading the theorems

A step is what a handler does under one hold of the server's mutex; an RPC separates two steps of its worker.
Messages are sets that only grow, so a message can be lost, delivered late, out of order, or more than once.
`Server.View()` is the state as a value; `old(View())` is what a step starts from.

Some statements hold only under a condition, because of how the code is written. The code is kept as it is, the
condition is in the contract, and a concrete case shows what happens without it:

- Vote replies are compared with the request's term only, and `become_leader` does not look at the role again.
  `ElectionSafety` assumes timely replies and an atomic main-loop iteration; `LateReplyMakesTwoLeaders` and
  `StaleRoleMakesTwoLeaders` are runs without either. `CurrentTermTestIsExact` and `RoleTestIsExact` say that the
  tests the code could make instead, of the term and of the role, are exactly what is needed.
- The capacity check takes a full ring for an empty one, does not notice a second wrap, and checks nothing while no
  record is live. `AcceptedSoundIff` is the exact condition, `SafeBatch`, for every slot map that has a record at slot 0
  once it has wrapped, as runs keep it; `EmptyMapSoundIff` says what it comes to on an empty one. The cases are
  `FullRingOverwrites`, `SecondWrapOverwrites`, `EmptyMapAcceptsOversized`, `EmptyMapCrossesHead` and
  `EmptyMapOverwritesItself`. Runs of the ring and of a first leader assume that client batches are safe;
  `AppendKeepsRingIff` says that nothing weaker would do.
- `apply_pending` clears command and slot, so an applied entry is announced with length 0. `SlotAgreementIff` is the
  exact condition for leader and follower to agree on slots; `AppliedEntryShiftsSlots` is a run where they do not.
- The copy length is rounded up to a page. `CopyEffect`, `RoundingSpillsIff` and `SpillOverwrites` say when and where
  it spills, and with what. For uncollected entries that is harmless inside the ring; going round at the ring end it is
  harmless exactly as `SpillTestIsExact` says, and `RoundingHitsNoop` is a run in which it is not.
- A follower counts its write pointer from the announced lengths, and a failed copy takes it back to the start of the
  batch. `PointerBehindBatch` is the good case. `NoopHitsIff` is the exact condition for a promotion to write its no-op
  over an uncollected entry; `FailedRetryHits` is a run that ends in such a state.
- `leader_pba_for_range` rounds what is left of an extent up to a page, as a comment there remarks. `BatchInOnePieceIff`
  is the exact condition for the announced batch to lie behind the announced address; `RoundedPastExtent` is a case.
- A batch whose metadata count is wrong is confirmed without being stored: `MalformedBatch`.
- A collected slot is used again while followers keep the entry that lay there. `ReusedSlotsDecodeIff` says when such
  an entry still decodes; `SlotIsReused` and `ReusedSlotReadsOther` are a run in which it does not.
- A deferred entry at ring slot 0 looks like one that needs no loading. `PromotedFollowerHasCommandIff` says so, and
  `SlotZeroStaysEmpty` is such an entry.
- Entries can be sent only from an index with a slot record, and a leader has records of its own leaderships only.
  `MemberGrowsIff` and `MemberServedIff` are the exact conditions for a member to get anything in a term;
  `PromotedFollowerStrandsMember` and `FailedCopyPinsMember` are cases with nothing trimmed.
- A comment in core/src/raft_append_entries.cpp says that a next index below the oldest entry in memory cannot occur.
  `NextStaysInMemoryIff` and `PrevNamedIff` are the exact conditions over the runs of a term: where the member's log
  ends, what is recorded, and what a failed copy can make of it. `PrevAlwaysNamed` proves them for a leader whose log
  reaches back to index 1; `TrimmedLeaderFallsSilent` is a run without. No access is out of bounds in either case
  (`AlwaysReady`).

## Model

| member | source | states |
|---|---|---|
| `DataPath.FollowerDecodesWhatWasAppended` | core/src/raft_handle_append_entries.cpp:26-114 | over every run of a first leader: a batch of not yet applied entries is announced; while its worker is out the leader goes on appending, and the follower, on any layout, splits and copies the batch with any number of copy workers in any interleaving, each read at its own moment, without error; then the decoder returns, at every slot the follower computed, the term and command appended at that index |
| `Mirror.UncollectedEntriesDecode` | core/src/raft_handle_append_entries.cpp:190-254 | in every state of every run of a first leader, with copies that work or fail and read the leader's device at different moments: an uncollected entry a follower holds decodes on the follower's own device, at the leader's recorded slot, to what was appended at its index, unless a copy has spilled onto it |
| `MirrorLog.FollowerLogDecodes` | core/src/raft_election.cpp:188-206 | the same at the slot the follower's own log gives, where a later promotion reads, if no batch went out to it with an applied multi-slot entry in front of its last one, the condition of `AnnouncedSlotsAgreeIff` |
| `MirrorLog.PromotionHandsOutIff` | core/src/raft_election.cpp:188-220 | a follower promoted at any point of a run, loading from its own device: if none of its committed entries is collected or spilled onto, its state machine gets exactly the leader's commands, in order, if and only if no committed entry with a command lies at ring slot 0 |
| `MirrorLog.PromotionHandsOut` | core/src/raft_election.cpp:188-220 | in general it gets them if every committed entry reads right, whatever lies in its slots by now |
| `MirrorLog.ReusedSlotsDecodeIff` | core/src/raft_commit.cpp:235-248 | an entry of the follower's log whose slots were all used again, by one entry or several, from the beginning or the middle of them, decodes to its own content if and only if those entries, as slot map and log have them, look like it from that slot on |
| `MirrorLog.ReusedStartDecodesIff` | core/src/raft_commit.cpp:235-248 | where the new entry begins at the old one's slot, that is if and only if the two have the same content |
| `SlotReuse.SlotIsReused` | core/src/raft_commit.cpp:235-248 | three servers, a run: a follower's log has two entries at one slot after a collection |
| `SlotReuse.ReusedSlotReadsOther` | core/src/raft_election.cpp:188-206 | whatever the devices were in that run, the older entry reads as the newer one's command |
| `Spill.SpillTestIsExact` | core/src/raft_handle_append_entries.cpp:43-97 | an uncollected entry of the follower survives a copy, whatever lies behind the leader's ring, if and only if the copy does not reach the entry's first slot by going round at the ring end |
| `Spill.SpillKeepsEntryIff` | core/src/raft_handle_append_entries.cpp:43-97 | one given copy leaves the entry on the device if and only if the sectors it brings from behind the leader's ring are what was there |
| `WritePointer.NoopHitsIff` | core/src/raft_handle_append_entries.cpp:190-292 | in every state of every run of a first leader: the slot a promotion of a follower would use for its no-op belongs to an uncollected entry of its log in exactly these cases. Its last copy failed, and the batch began with an uncollected entry it has. Or that copy worked, and the slots it counted end inside the batch, at an uncollected entry, or behind it, while the leader has nothing newer and an uncollected record starts there |
| `WritePointer.PointerBehindBatch` | core/src/raft_handle_append_entries.cpp:256-292 | once a follower has received a batch that was announced before the leader applied it, and until its next copy, its log ends with the batch and its write pointer is the slot right behind the leader's record of the last entry, or 0 if that ends where the ring does |
| `WritePointer.NoopBehindBatchHitsIff` | core/src/raft_handle_append_entries.cpp:286-292 | behind such a batch the no-op hits an uncollected entry if and only if that batch still holds the leader's newest entry, uncollected, and an uncollected record starts at the pointer, so the ring is full |
| `WritePointer.NothingToHit` | core/src/raft_handle_append_entries.cpp:190-292 | before the first copy a follower has nothing the no-op could hit |
| `WritePointer.NoopPlaced` | core/src/raft_election.cpp:218-224 | a promotion records its no-op at that slot |
| `WritePointer.NoopKeepsEntryIff` | core/src/raft_persist.cpp:113-152 | writing the no-op leaves an entry on the device if and only if it does not lie on one of its slots, or looks like what it replaces |
| `WritePointer.OnlyNextBehind` | core/src/raft_persist.cpp:78-81 | of all uncollected records only the next entry's can cover the slot right behind a record, gaps at the ring end or not, except for one that starts there when the ring is full |
| `WritePointer.PointerMoves` | core/src/raft_handle_append_entries.cpp:211-292 | a request moves the write pointer exactly if it makes the follower copy: over the counted slots of the whole batch, or back to its start if the copy fails |
| `PointerLimits.FailedRetryHits` | core/src/raft_handle_append_entries.cpp:211-254 | three servers, a run: the answer to the first entry is lost, it is sent again with a batch behind it, that copy fails, and the no-op of a promotion would be written over the entry |
| `SlotReuse.RoundingHitsNoop` | core/src/raft_handle_append_entries.cpp:43-43 | three servers, a run: a batch of 15 slots on a ring of 16 is rounded up and overwrites the uncollected no-op of the follower |
| `Mirror.ReplicatedLands` | storage/raft_blockcopy_server.cpp:249-276 | an error-free striped copy puts the leader's sectors where these runs say and leaves every other slot |
| `DataPath.DeviceRunKeepsRecords` | core/src/raft_persist.cpp:73-152 | along every such run the leader's device holds the encoding of every recorded entry, in bounds and apart from the others |
| `DataPath.FlightOnDevice` | core/src/raft_append_entries.cpp:111-211 | while a batch is in flight its records lie on the leader's device one behind the other from the announced slot on, and their slots add up to the announced length |
| `DataPath.AnnouncedInFullLength` | core/src/raft_append_entries.cpp:223-238 | entries the leader has not applied are announced with their real term and length |
| `DataPath.AnnouncedAddress` | core/src/raft_append_entries.cpp:178-211 | the announced address is that of the start slot |
| `DataPath.FirstDevice` | core/src/raft_election.cpp:218-224 | the device after the first promotion, with the no-op written, is one these runs can start with |
| `ReplicationRuns.FollowersStayPrefixes` | core/src/raft_handle_append_entries.cpp:166-304 | in every run of one leader's term (loss, duplication, delay, reordering; the handler is one step) a follower's log is a prefix of the leader's, an entry once there never changes, and `match_index` never decreases and never exceeds what the follower holds |
| `ReplicationRuns.CommittedIsHeldByMajority` | core/src/raft_commit.cpp:56-105 | in every run, every index at or below any server's commit index is held by a strict majority, and whoever has it in memory has the leader's entry |
| `ReplicationRuns.TrimmedLogReadsLikeUntrimmed` | core/src/raft_commit.cpp:297-319 | in every run, `log_slice` on the trimmed vector reads the entry of the unbounded log (signalled and cleared as far as commit and apply went), and the state machine got exactly the non-empty commands of the applied indexes, in order, once each |
| `ReplicationRuns.PrevAlwaysNamed` | core/src/raft_append_entries.cpp:60-80 | in every run of a leader whose log reached back to index 1 at promotion, the entry in front of every follower's next one is in memory and every request names its term |
| `ReplicationRuns.InflightExclusion` | core/src/raft_append_entries.cpp:85-91 | over all interleavings, copy and RPC failures included, one data-bearing worker is outstanding for a follower while its flag is set and none otherwise |
| `ReplicationRuns.CommitRule` | core/src/raft_commit.cpp:56-105 | the leader's commit index moves in a commit step only, forward only, exactly when the largest index known to be on a strict majority is ahead and its entry is of the current term, and then to that index |
| `ReplicationRuns.ApplyRule` | core/src/raft_commit.cpp:157-205 | in every run an apply step hands out everything up to the commit index, so that the state machine has all non-empty commands up to it, in order; no other step hands out anything |
| `ReplicationRuns.SignalledBeforeDropped` | core/src/raft_commit.cpp:169-186 | an entry whose signal `apply_pending` drops was committed and signalled before |
| `ReplicationRuns.RunGoesForward` | core/src/raft_append_entries.cpp:428-453 | between any two states of a run logs, commit, apply and match indexes only move forward and keep what they had |
| `ReplicationRuns.PromotionStarts` | core/src/raft_election.cpp:176-237 | promotion of a server whose log extends everyone else's, trimmed before or not, puts the system into a state these runs start from; previous entries can always be named from there exactly if it was not trimmed |
| `ReplicationRuns.RunKeepsInv` | core/src/raft_append_entries.cpp:53-96 | the invariant behind these theorems holds in every state of every run |
| `Replication.StepKeepsInv` | core/src/raft_append_entries.cpp:44-408 | every step (append, Lock B, delivery, Lock C, commit, apply, collection) keeps that invariant |
| `Replication.AlwaysReady` | core/src/raft_append_entries.cpp:60-127 | in every invariant state, of a leader with a trimmed log too, the log accesses of Lock B and Lock C are in bounds |
| `Replication.CommitIsHeld` | core/src/raft_commit.cpp:57-72 | the quorum index computed from the match list is held by a strict majority of the servers' logs |
| `Replication.SendFacts` | core/src/raft_append_entries.cpp:53-255 | Lock B either changes nothing or describes entries of the log from the next index on, with a device address, and sets the flag only if it was clear |
| `Replication.ReplyFacts` | core/src/raft_append_entries.cpp:309-453 | Lock C clears the flag of a data-bearing worker and leaves the indexes, moves both up to what a success confirms, or lowers the next index without passing what is confirmed |
| `Replication.BlockedIff` | core/src/raft_append_entries.cpp:85-91 | a worker is turned away exactly if a data-bearing one is out and the member lacks entries; without entries to send a heartbeat always goes out |
| `Replication.OnlyItsTermCounts` | core/src/raft_append_entries.cpp:309-325 | a lost reply, and one that does not answer in the request's and the leader's term, changes nothing but the flag |
| `Replication.OvertakenRejection` | core/src/raft_append_entries.cpp:464-472 | a rejection that arrives after the next index has been moved by another worker moves neither index |
| `Replication.DeliverIs` | core/src/raft_handle_append_entries.cpp:122-320 | a delivered request extends the follower's log by entries of the batch and lets its commit index follow |
| `Succession.AcceptedIff` | core/src/raft_handle_append_entries.cpp:165-304 | in every run of a leader whose log reached back to index 1 at promotion, a request is accepted exactly if the follower's log reaches up to it and the copy it needs works; a term conflict never arises and a short log is reported with its end |
| `Succession.TrimmedNextGetsHeartbeats` | core/src/raft_append_entries.cpp:72-127 | a member whose next index lies below the oldest entry in memory gets heartbeats with previous term 0 and nothing else; nothing is read out of bounds |
| `CatchUpRuns.MemberGrowsIff` | core/src/raft_append_entries.cpp:111-127 | from the beginning of a term: some run brings a member an entry it did not have if and only if the index where its log ends is recorded in the leader's slot map, with a record that fits ring and batch limits; otherwise no run does, trimmed log or not |
| `CatchUpRuns.MemberServedIff` | core/src/raft_append_entries.cpp:428-519 | in any state of any run: a member that has confirmed everything in front of its next index and has no request out confirms more in some continuation if and only if that index is recorded and fits |
| `CatchUpRuns.PrevNamedIff` | core/src/raft_append_entries.cpp:60-80 | in all runs of the term every request to a member names the entry in front of it if and only if the leader's log reaches back to index 1, the member's log is empty, or from some index that is in memory behind the oldest one and not beyond the member's end a request does not reach beyond that end |
| `CatchUpRuns.NextStaysInMemoryIff` | core/src/raft_append_entries.cpp:464-519 | in all runs of the term the next index stays in memory if and only if the log reaches back to index 1, or the member's log ends in memory and there is such an index or the member no longer has the entry in front of the leader's oldest one |
| `CatchUpRuns.NeverGrows` | core/src/raft_append_entries.cpp:111-127 | without that record the member's log is the same in every state of every run of the term |
| `CatchUp.FloorStep` | core/src/raft_append_entries.cpp:464-519 | every step keeps the floor under a member's next index: requests above it, answers above it, and at it nothing that could be rejected |
| `CatchUp.PinnedStep` | core/src/raft_append_entries.cpp:111-127 | every step leaves a confirmed member without a record at its next index where it is |
| `CatchUp.StopsShort` | core/src/raft_append_entries.cpp:129-175 | how far a batch reaches, decided by the records alone |
| `CatchUpLimits.PromotedFresh` | core/src/raft_election.cpp:176-237 | a promotion begins the term in this sense for every member, with the slot map the server had before and the no-op's record |
| `CatchUpLimits.TrimmedLeaderFallsSilent` | core/src/raft_append_entries.cpp:72-127 | three servers, a run: the no-op request is rejected with the end of a log that ends below the leader's oldest entry, and the next request is a heartbeat with previous term 0; no run of that term brings the member an entry |
| `CatchUpLimits.PromotedFollowerStrandsMember` | core/src/raft_handle_append_entries.cpp:274-284 | three servers: a leader that was a follower before, with its whole log in memory, cannot serve a shorter member either |
| `CatchUpLimits.FailedCopyPinsMember` | core/src/raft_append_entries.cpp:464-519 | three servers, a run: a member that some run serves is out of reach for the rest of the term after one failed copy and one accepted heartbeat |
| `Succession.ShortLogHintHits` | core/src/raft_append_entries.cpp:464-519 | after a rejection for shortness the next index is exactly the end of the follower's log |
| `Succession.TermHintHits` | core/src/raft_append_entries.cpp:485-508 | after a term conflict the next index is one past the leader's last entry of the conflicting term, if that lies between what is confirmed and the rejected entry |
| `Succession.TermHintMisses` | core/src/raft_append_entries.cpp:485-508 | if the leader has no entry of that term at or below the rejected one, the next index is the conflict index, as long as that lies between what is confirmed and the rejected entry |
| `Succession.UselessHint` | core/src/raft_append_entries.cpp:464-519 | a hint that names no index below the rejected one takes the next index down by one |
| `Succession.ConflictSkipsTerm` | core/src/raft_handle_append_entries.cpp:176-184 | follower and leader together, after a term conflict: the next index stays above every entry on whose term both agree, goes down, and in front of it lies an entry of an earlier term of the follower, one of that term of the leader, or what is confirmed |
| `Succession.ScanBackFindsLast` | core/src/raft_append_entries.cpp:489-508 | the backward scan finds the last entry of the conflicting term at or below its start, or there is none |
| `Succession.NextLeaderHoldsCommitted` | core/src/raft_election.cpp:141-150 | at any point of a term, a server that a majority finds up to date holds every index any server takes for committed |
| `Succession.UpToDateHolds` | core/src/raft_election.cpp:147-148 | a voter that holds an index finds up to date only candidates that hold it too |
| `Election.UpToDateIsOrder` | core/src/raft_election.cpp:92-102 | of any two servers at least one finds the other up to date, the relation is transitive, and it compares last term, then last index |
| `Election.SomeoneIsUpToDate` | core/src/raft_election.cpp:141-148 | in any set of servers there is one that all of them find up to date |
| `Election.VoteGrantedIff` | core/src/raft_election.cpp:129-158 | the vote is given exactly if the candidate's term is not earlier, its log is at least as long in that order, and, in an equal term, no vote has gone elsewhere; and what the server is afterwards in each case |
| `Election.CountedTerm` | core/src/raft_election.cpp:113-123 | after a vote reply the term is the larger one; if it rose the server is a follower that has not voted; otherwise exactly that peer's vote is recorded, if granted in the request's term |
| `Election.TimeoutBegins` | core/src/raft_election.cpp:57-69 | a timeout makes a candidate of the next term that has its own vote and no other, on disk too |
| `LeaderLog.AppendTracks` | core/src/raft_apply.cpp:132-157 | appending keeps the vector equal to the newest part of the unbounded log |
| `LeaderLog.CommitTracks` | core/src/raft_commit.cpp:74-100 | committing changes nothing but the signals of the newly committed entries |
| `LeaderLog.ApplyTracks` | core/src/raft_commit.cpp:157-205 | applying clears exactly the applied entries and hands out their non-empty commands in order |
| `LeaderLog.GcTracks` | core/src/raft_commit.cpp:219-262 | collecting and trimming leave what remains in the vector as it was and keep the slowest member's previous entry |
| `LeaderLog.TrimBounds` | core/src/raft_commit.cpp:297-319 | trimming removes something exactly if a threshold is set and at least so many entries in memory lie below both the least match and the apply index, and then exactly up to the smaller of them; so fewer than the threshold remain |
| `LeaderLog.SignalsExactly` | core/src/raft_commit.cpp:84-96 | a commit raises the signal of an entry exactly if it is newly committed and its signal has not been dropped, and changes nothing else of it |
| `LeaderLog.OnlyLeadersAct` | core/src/raft_commit.cpp:39-262 | a server that does not lead commits, applies, collects and takes nothing |
| `FirstLeader.MapIsUncollected` | core/src/raft_commit.cpp:219-262 | in every run of a first leader the slot map's domain is exactly (gc_up_to, tail), its records do not overlap, and collection stays behind every member |
| `FirstLeader.AppendKeepsRingIff` | core/src/raft_ring_helpers.cpp:79-97 | in any state of such a run a batch the capacity check takes keeps the leader's ring sound if and only if it is safe, so the condition these runs put on client batches is the weakest |
| `FirstLeader.FlightsKeepTheirRecords` | core/src/raft_append_entries.cpp:111-175 | no record of a batch whose worker has not reached Lock C is freed or moved, and the batch lies in one piece from the announced start slot |
| `FirstLeader.SendNeverFallsBack` | core/src/raft_append_entries.cpp:111-127 | the branches that send a heartbeat because a record is missing are never taken: a member that lacks entries and has no flight gets at least one |
| `FirstLeader.AnnouncedSlotsAgreeIff` | core/src/raft_handle_append_entries.cpp:256-293 | in every run of a first leader the slots a follower computes for an announced batch are the leader's recorded starts exactly if no entry but the last was applied before, one-slot entries aside |
| `FirstLeader.StepInStep` | core/src/raft_append_entries.cpp:111-175 | every step keeps the ring invariant: next index right behind the match index, records chained up to the write pointer, flights intact |
| `FirstLeader.FirstPromotion` | core/src/raft_election.cpp:176-237 | promotion of a fresh server puts the system into the state these runs start from |
| `FirstLeader.BatchFound` | core/src/raft_append_entries.cpp:129-211 | with its first record present, a batch of at least one entry is found at the recorded start, ends inside the ring, and has its linear device address |
| `FirstLeader.AppendRing` | core/src/raft_persist.cpp:73-152 | appending inside the free arc keeps the leader's ring: domain, sizes, chain, no overlap |
| `FirstLeader.CollectRing` | core/src/raft_commit.cpp:219-262 | collecting keeps it too, and never passes a member's match index |
| `FirstLeader.SlotCountsStay` | core/src/raft_ring_helpers.cpp:53-70 | in every run every entry in memory counts the slots its command needs, recorded or collected, before it is applied and after |
| `SlotAgreement.BatchContiguous` | core/src/raft_persist.cpp:78-81 | every selected batch is contiguous: each start is the start slot plus the slots before it, although the ring has gaps at its end |
| `SlotAgreement.SlotAgreementIff` | core/src/raft_handle_append_entries.cpp:216-292 | for any batch of a leader's own entries, the follower's reconstructed slots equal the recorded starts if and only if every entry but the last is unapplied or fits one slot |
| `SlotAgreement.ReannouncedIff` | core/src/raft_append_entries.cpp:223-238 | an entry a follower was told is announced by it later, should it lead, as it was told exactly if it does not lie at slot 0 or has no command |
| `SlotAgreement.LoadedAnnounced` | core/src/raft_election.cpp:191-206 | once loaded it is announced with the length of the command read, and is not loaded again |
| `SlotAgreement.AppliedKeepsSlotsIff` | core/src/raft_commit.cpp:180-184 | applying an entry leaves the slots it implies as they were exactly if its command was in memory or needed one slot |
| `SlotLimits.AppliedEntryShiftsSlots` | core/src/raft_commit.cpp:180-184 | a run of three servers: one follower confirms a batch, the leader commits and applies it, and the batch then announced to the other follower makes that one compute a wrong slot |
| `EndToEnd.FollowerDecodesWhatLeaderEncoded` | core/src/raft_pba.cpp:50-108 | single-extent leader, any follower layout, unapplied batch whose rounded length fits the ring, error-free copy: the decoder at every slot the follower computed returns the leader's term and command |
| `EndToEnd.PromotedFollowerHasCommandIff` | core/src/raft_election.cpp:188-206 | a promoted follower's loading pass gives an entry the leader's command if and only if it does not lie at slot 0 or has no command |
| `EndToEnd.SlotZeroStaysEmpty` | core/src/raft_election.cpp:188-206 | an entry with a one-byte command at slot 0 that stays empty although the device has it |
| `EndToEnd.CopiedSector` | storage/raft_blockcopy_server.cpp:249-276 | every sector of the tiled range arrives at its ring slot, for every worker count and interleaving |
| `EndToEnd.OtherSlotsUntouched` | storage/raft_blockcopy_server.cpp:249-276 | slots outside the copied window are unchanged |
| `EndToEnd.CopyEffect` | core/src/raft_handle_append_entries.cpp:43-97 | what an error-free copy does to every slot of the follower, for any start: a slot within the rounded length behind the start gets the leader's sector at that distance, every other slot keeps its bytes |
| `EndToEnd.RoundingSpillsIff` | core/src/raft_handle_append_entries.cpp:43-43 | some follower slot is overwritten that does not belong to the batch if and only if the batch does not fill whole pages |
| `EndToEnd.SpillOverwrites` | core/src/raft_handle_append_entries.cpp:43-97 | each such slot gets the leader's sector of the same slot, or, going round at the ring end, a sector from behind the leader's ring |
| `EndToEnd.LiveBatchOnLeader` | core/src/raft_persist.cpp:73-152 | in every run of the ring, live records that lie one behind the other are on the leader's device as the end-to-end theorem needs them |
| `ElectionRuns.ElectionSafety` | core/src/raft_election.cpp:54-174 | over all runs of any cluster size in which replies are taken in time and a main-loop iteration is atomic, at most one node is ever promoted in a term, so no two nodes lead the same term |
| `ElectionRuns.DurableVote` | core/src/raft_persist.cpp:160-198 | in every run, at every release of the lock, term and vote on disk are those in memory although most header writes are skipped, and all votes a node casts in a term name one candidate |
| `ElectionRuns.TermsNeverDecrease` | core/src/raft_election.cpp:271-281 | over any stretch of a run no term decreases and no vote is taken back |
| `ElectionRuns.NeverBelowToldTerm` | core/src/raft_election.cpp:271-281 | in every run no server is ever in a term below one that a vote request, a vote reply or an AppendEntries told it of (the reply to an AppendEntries is only compared) |
| `ElectionRuns.StepTellsTerm` | core/src/raft_election.cpp:271-281 | in each step the server that acts takes exactly the larger of its term and the one it is told in this way, and is a follower if it rose, a timeout aside |
| `ElectionRuns.BatchesTakenByOneNode` | core/src/raft_apply.cpp:101-112 | in careful runs client batches of one term are taken by one server only |
| `ElectionProgress.ElectionCanSucceed` | core/src/raft_election.cpp:54-174 | from any state of any run in which nobody leads, at any cluster size and with any logs and votes, some careful continuation promotes a server |
| `ElectionProgress.UpToDateServerCanLead` | core/src/raft_election.cpp:54-174 | more exactly, any server that all of them find up to date can be promoted from there, in a term later than all terms so far |
| `ElectionRuns.CountedVoteGenuineIff` | core/src/raft_election.cpp:115-123 | a counted reply leaves a candidate with genuine votes if and only if it was asked for in the current term or that peer voted for it there as well |
| `ElectionRuns.StepKeepsVotes` | core/src/raft_election.cpp:92-158 | every step, timely or not, keeps the vote records unique and durable |
| `ElectionRuns.StepKeepsInv` | core/src/raft_election.cpp:163-174 | every careful step keeps counted votes genuine and leaderships backed by a majority |
| `ElectionRuns.MajoritiesMeet` | core/src/raft_election.cpp:166-171 | two vote sets that reach the quorum share a voter |
| `ElectionRuns.SendKeepsBallot` | core/src/raft_append_entries.cpp:53-255 | Lock B leaves role, term and votes alone |
| `ElectionRuns.ReplyKeepsBallot` | core/src/raft_append_entries.cpp:304-408 | Lock C leaves role, term and votes alone |
| `ElectionRuns.CommitKeepsBallot` | core/src/raft_commit.cpp:39-205 | commit and apply leave role, term and votes alone |
| `ElectionRuns.GcKeepsBallot` | core/src/raft_commit.cpp:219-262 | collection leaves role, term and votes alone |
| `ElectionRuns.AppendKeepsBallot` | core/src/raft_apply.cpp:132-157 | appending leaves role, term and votes alone and disk and memory in agreement |
| `ElectionLimits.LateReplyMakesTwoLeaders` | core/src/raft_election.cpp:115-123 | a run of three servers with one late vote reply ends with two leaders of term 2 |
| `ElectionLimits.StaleRoleMakesTwoLeaders` | core/src/raft_lifecycle.cpp:216-237 | a run of three servers in which `become_leader` runs on a node that is no longer a candidate ends with two leaders of term 2 |
| `ElectionLimits.CurrentTermTestIsExact` | core/src/raft_election.cpp:115-123 | counting a reply keeps the recorded votes genuine in every situation if and only if the request was made in the candidate's current term |
| `ElectionLimits.RoleTestIsExact` | core/src/raft_election.cpp:163-174 | promotion is backed by a majority of votes of the node's term in every situation if and only if the node is not a follower |
| `Election.SupportersAreBackers` | core/src/raft_election.cpp:166-171 | the quorum countdown counts the members with a recorded vote for this node |
| `Election.BecomeLeaderBallot` | core/src/raft_election.cpp:173-237 | promotion keeps term and votes, and disk and memory in agreement |
| `Election.PersistHeaderDurable` | core/src/raft_persist.cpp:160-198 | the conditional header write re-establishes agreement of disk and memory |
| `Follower.HandleAEGrows` | core/src/raft_handle_append_entries.cpp:165-304 | a request extends the log at its end by entries of the batch, each at the index the batch gives it; a success means the whole batch is there; the commit index follows the leader's up to the end of the log |
| `Follower.HandleAEBallot` | core/src/raft_handle_append_entries.cpp:145-161 | whatever the request, the term becomes the larger one, the vote of an unchanged term stays, nobody becomes candidate or leader, and disk and memory agree |
| `Follower.ConflictStart` | core/src/raft_handle_append_entries.cpp:176-184 | the conflict hint is the first index of the stretch of equal terms |
| `Follower.AcceptedExactly` | core/src/raft_handle_append_entries.cpp:145-304 | any request to any server is accepted exactly if the server is in no later term and does not lead the same one, the entry in front matches where it can be compared, and a copy that is needed works; a server that is not addressed does not change, and a mismatch changes no entry |
| `Follower.ConflictHint` | core/src/raft_handle_append_entries.cpp:165-188 | the answer to a mismatch: term 0 and the end of the log if it is too short, else the conflicting term with the first index of its stretch, in front of which another term or the oldest entry lies |
| `Follower.MalformedBatch` | core/src/raft_handle_append_entries.cpp:256-262 | a copied batch whose metadata count is wrong is confirmed although no entry is added, and leaves the write pointer at its start |
| `Follower.StoresExactly` | core/src/raft_handle_append_entries.cpp:165-292 | a request adds to the log exactly if it comes from a leader the server listens to, the entry in front matches, the batch goes beyond the log, names an address and describes every entry, and the copy works; otherwise the log stays as it is |
| `Ring.CheckCanWriteAll` | core/src/raft_ring_helpers.cpp:79-97 | the loop decides exactly the capacity predicate |
| `Ring.AcceptedSoundIff` | core/src/raft_ring_helpers.cpp:79-97 | for every slot map, empty or not, that has a record at slot 0 once it has wrapped: a batch the capacity check accepts leaves the ring sound (in bounds, no overlap, free arc intact) if and only if no entry runs into the ring end a second time and, with records live, the ring is not full, with none, each entry passes the test the check skips |
| `Ring.UnanchoredRing` | core/src/raft_ring_helpers.cpp:79-97 | a wrapped slot map without a record at slot 0, where an accepted second wrap does no harm |
| `Ring.EmptyMapSoundIff` | core/src/raft_ring_helpers.cpp:80-82 | with no live record a batch leaves the ring sound if and only if the write pointer moves over at most one lap |
| `Ring.AcceptedStaysInArcIff` | core/src/raft_ring_helpers.cpp:79-97 | for every slot map, the same condition is the one under which an accepted batch stays inside the free arc |
| `Ring.ShortCommandsNeverRewrap` | core/src/raft_ring_helpers.cpp:85-93 | commands no longer than the stretch behind the head rule out a second wrap |
| `Ring.AcceptedBatchSound` | core/src/raft_persist.cpp:73-152 | an accepted batch that meets this condition is placed in bounds, pairwise apart and apart from every live record, each entry at its place |
| `Ring.PlaceSound` | core/src/raft_persist.cpp:78-81 | any batch inside the free arc leaves the ring sound with exactly the remaining arc free |
| `Ring.FreeSound` | core/src/raft_commit.cpp:235-248 | freeing records and recomputing the head keeps the ring sound |
| `Ring.RecomputeHead` | core/src/raft_ring_helpers.cpp:103-127 | the head is the first live start met when moving forward from the tail, wrapping once |
| `Ring.HeadIsUnique` | core/src/raft_ring_helpers.cpp:103-127 | that head is unique |
| `Ring.FullRingOverwrites` | core/src/raft_ring_helpers.cpp:80-93 | a full ring accepts one more entry on top of a live record |
| `Ring.FullRingReachable` | core/src/raft_ring_helpers.cpp:80-93 | such a full ring is reached by accepted appends and one collection |
| `Ring.SecondWrapOverwrites` | core/src/raft_ring_helpers.cpp:85-93 | a long command wraps a second time onto live records |
| `Ring.EmptyMapAcceptsOversized` | core/src/raft_ring_helpers.cpp:80-82 | with no live record a command larger than the ring is accepted and placed beyond its end |
| `Ring.EmptyMapCrossesHead` | core/src/raft_ring_helpers.cpp:80-82 | with no live record a command that fits the ring is put across the head, and the next one is accepted on top of it |
| `Ring.EmptyMapOverwritesItself` | core/src/raft_ring_helpers.cpp:80-82 | with no live record two entries of one batch are put on the same slots |
| `RingRuns.LiveRecordsReadBack` | core/src/raft_persist.cpp:73-152 | in every run of safely accepted appends and collections every live record is in bounds, apart from every other, and decodes to the entry appended at its index |
| `RingRuns.PersistEntries` | core/src/raft_persist.cpp:73-152 | collecting entries in a run buffer that is flushed on wrap and at the end leaves device, places and write pointer as writing them one by one would |
| `RingRuns.AppendedIs` | core/src/raft_persist.cpp:145-151 | appending one by one and in a batch come to the same slot map, write pointer and device |
| `EntryCodec.WriteReadRoundTrip` | core/src/raft_pba.cpp:50-108 | for every command length and every injective sector-aligned layout, decoding a written entry yields its term and command and the slot right behind it modulo the ring |
| `EntryCodec.ReadEntryDirect` | core/src/raft_pba.cpp:50-108 | the page-wise decoder computes, for any device contents, what its slot-wise specification says |
| `EntryCodec.ReadStored` | core/src/raft_pba.cpp:50-108 | a stored encoding reads back as its record |
| `EntryCodec.EncodeInto` | core/src/raft_persist.cpp:113-143 | the region of an entry is header, command and zero padding; nothing else in the buffer changes and nothing stale remains |
| `EntryCodec.WriteConcat` | core/src/raft_persist.cpp:56-66 | one write of two adjacent runs is two writes |
| `EntryCodec.WriteBlock` | core/src/raft_persist.cpp:56-66 | a write stores its block and touches no other slot |
| `Basics.PutU64Le` | core/include/raft_basics.h:88-92 | writes the little-endian bytes of the value and nothing else |
| `Basics.GetU64Le` | core/include/raft_basics.h:94-100 | reads the value of eight little-endian bytes |
| `Basics.LeRoundTrip` | core/include/raft_basics.h:88-100 | decoding an encoded value that fits returns it |
| `Basics.LeRoundTripBytes` | core/include/raft_basics.h:88-100 | encoding a decoded byte string returns it |
| `Basics.RoundedSectors` | core/include/raft_basics.h:105-107 | page rounding in sectors: at most seven more than asked for |
| `Basics.RoundedIsAligned` | core/include/raft_basics.h:105-107 | in bytes it is the alignment of the source to 4096 |
| `Basics.SlotsForEntry` | core/src/raft_ring_helpers.cpp:13-15 | the least number of slots that holds metadata and command |
| `Extents.Lookup` | blockio/cached_fd.cpp:96-118 | binary search answers as a linear scan does: the unique covering extent, cut to the request, or an error |
| `Extents.RemainingAt` | blockio/cached_fd.cpp:120-148 | the same answer for every hint |
| `Extents.Build` | blockio/cached_fd.cpp:63-86 | a gap-free cover of the whole file out of the file system's answers, or the first hole |
| `Extents.SlotMapOn` | blockio/cached_fd.cpp:96-118 | any sector-aligned, injective layout gives every ring slot its own sector |
| `Extents.PhysInjective` | blockio/cached_fd.cpp:96-118 | different file offsets live at different device addresses |
| `Chunks.SplitCopy` | core/src/raft_handle_append_entries.cpp:26-97 | on a complete layout the splitter terminates without error and its chunks tile the page-rounded range over the ring slots from the destination slot on |
| `Chunks.NextChunk` | core/src/raft_handle_append_entries.cpp:60-86 | a chunk is non-empty and stops at the first of extent end, ring end, range end and 256 MiB; the two error exits cannot be taken |
| `Chunks.CarrierOf` | core/src/raft_handle_append_entries.cpp:43-97 | every source sector is carried by a chunk, to the physical address of ring slot (dst + i) mod ring size |
| `Chunks.ChunksDisjoint` | core/src/raft_handle_append_entries.cpp:43-97 | no two chunks write the same byte as long as the range is at most one lap |
| `BlockCopy.ParallelCopy` | storage/raft_blockcopy_server.cpp:249-276 | for every worker count and interleaving, and however the source changes meanwhile, an error-free return has copied each chunk exactly once, each byte of it as the source had it at some moment, and left every other byte |
| `BlockCopy.ParallelRefinesSequential` | storage/raft_blockcopy_server.cpp:249-276 | with an unchanging source the destination is as copying chunk by chunk would leave it |
| `BlockCopy.CopyInOrderAt` | storage/raft_blockcopy_server.cpp:36-58 | with disjoint destinations every chunk's data survives and every other byte is unchanged |
| `BlockCopy.PlanBatch` | storage/raft_blockcopy_server.cpp:164-232 | a non-empty request is accepted exactly if its lists agree, its devices exist and its sizes are usable; the plan has between one and `count` workers |
| `Batch.SelectBatch` | core/src/raft_append_entries.cpp:129-175 | the first two passes together choose the longest prefix within entry cap, byte cap (one entry always allowed) and ring end |
| `Batch.ClampToExtent` | core/src/raft_append_entries.cpp:178-211 | the third pass cuts it to the longest prefix that also fits the extent |
| `Batch.BatchNotEmpty` | core/src/raft_append_entries.cpp:129-175 | the batch is not empty when its first entry fits the limit |
| `Batch.BatchLenIs` | core/src/raft_append_entries.cpp:129-175 | a size that fits while the next does not is the longest |
| `Progress.BackoffDescends` | core/src/raft_append_entries.cpp:464-519 | whatever the hints, a rejection never takes the next index below the confirmed part and takes it strictly down until it is there |
| `Progress.RejectionsReachFloor` | core/src/raft_append_entries.cpp:464-519 | after any k rejections the next index is k lower or at its floor, so at most next - match - 1 of them lower it |
| `Fragments.RangeAnswer` | core/src/raft_pba.cpp:16-42 | on any sorted extents: an answer comes exactly if the start is mapped to a non-zero address; it is the address of the start slot and the rounded length, cut to the page-rounded rest of the extent, less than a page more than the rest |
| `Fragments.RangeSectors` | core/src/raft_pba.cpp:27-42 | every whole sector in front of the extent's end lies at its distance behind the answered address |
| `Fragments.BatchInOnePieceIff` | core/src/raft_append_entries.cpp:178-211 | on any layout without adjacent extents the chosen batch lies at its distance behind the announced address, slot by slot, if and only if its bytes do not exceed the rest of the extent, that is exactly if rounding down instead of up would have chosen the same batch |
| `Fragments.BatchLimits` | core/src/raft_append_entries.cpp:129-211 | on any sorted extents the chosen batch respects entry cap, byte cap (one entry always allowed) and ring end, and one more entry would break one of them or reach beyond the extent |
| `Fragments.RoundedPastExtent` | core/src/raft_pba.cpp:37-39 | two extents, a rest of four sectors: the answer is a whole page, so the batch is cut to eight slots, of which four lie elsewhere |
| `Progress.OneExtentRange` | core/src/raft_pba.cpp:16-42 | on a single extent a range inside the ring is never cut and its address is linear in the slot |
| `Commit.QuorumIndexIsLargest` | core/src/raft_commit.cpp:57-72 | position size/2 of the descending match list is the largest index a strict majority has reached, for every cluster size |
| `Commit.SortKeeps` | core/src/raft_commit.cpp:70-71 | sorting yields a descending list that counts the same above every threshold |
| `Servers.Server.constructor` | core/src/raft_lifecycle.cpp:105-146 | the fresh state, durable and well formed |
| `Servers.Server.UpdateTerm` | core/src/raft_election.cpp:271-281 | refines the term update of the election model |
| `Servers.Server.ElectionTimeout` | core/src/raft_election.cpp:57-69 | refines the timeout of the election model: candidate, next term, own vote only, header written |
| `Servers.Server.HandleRequestVote` | core/src/raft_election.cpp:129-158 | refines the vote handler of the election model, state and reply |
| `Servers.Server.MakeVoteRequest` | core/src/raft_election.cpp:95-106 | builds the request of the election model |
| `Servers.Server.TakeVoteReply` | core/src/raft_election.cpp:114-123 | the new state is exactly the counting step of the election runs |
| `Servers.Server.CountVotes` | core/src/raft_election.cpp:166-173 | the countdown reaches zero exactly if a majority of recorded votes is for this node |
| `Servers.Server.BecomeLeader` | core/src/raft_election.cpp:163-239 | the new state is exactly the promotion that `PromotionStarts` and `FirstPromotion` begin a term with; the state machine gets the pending commands and the ring the encoded no-op, and nothing happens without a quorum |
| `Servers.Server.LoadDeferred` | core/src/raft_election.cpp:191-206 | the loading loop loads exactly the entries with an empty command and a non-zero slot whose read works |
| `Servers.Server.ApplyLoaded` | core/src/raft_election.cpp:211-220 | the apply loop of promotion hands out the pending non-empty commands in order and clears nothing |
| `Servers.Server.WriteHeader` | core/src/raft_persist.cpp:160-198 | writes the header exactly if term or vote differ from what was last written |
| `Servers.Server.PersistCircular` | core/src/raft_persist.cpp:21-208 | refines persistence: slots, slot map, header cache, and the bytes on the ring |
| `Servers.Server.AppendBatch` | core/src/raft_apply.cpp:101-160 | takes a batch exactly if the server leads and the capacity check passes, and then refines the append |
| `Servers.Server.AdvanceCommitIndex` | core/src/raft_commit.cpp:56-105 | the new state is exactly the commit step of `CommitRule` and `CommitTracks` |
| `Servers.Server.CollectMatches` | core/src/raft_commit.cpp:60-67 | the match list with the leader's own last index |
| `Servers.Server.SignalCommitted` | core/src/raft_commit.cpp:84-96 | raises exactly the signals in the committed range that are still there |
| `Servers.Server.ApplyCommitted` | core/src/raft_commit.cpp:157-205 | refines the apply step and hands out its commands in order |
| `Servers.Server.CollectSlots` | core/src/raft_commit.cpp:219-262 | the new state is exactly the collection step of `GcTracks` and `MapIsUncollected` |
| `Servers.Server.LeastMatch` | core/src/raft_commit.cpp:226-234 | the least match index of the other members, at most the own last index |
| `Servers.Server.FreeRecords` | core/src/raft_commit.cpp:236-244 | removes exactly the records in (gc_up_to, min_match] and tells whether there were any |
| `Servers.Server.TrimLog` | core/src/raft_commit.cpp:297-319 | removes exactly the entries below both the least match and the apply index, once there are enough of them |
| `Servers.Server.HandleAppendEntries` | core/src/raft_handle_append_entries.cpp:122-320 | refines the follower's handler, state and reply |
| `Servers.Server.CheckPrev` | core/src/raft_handle_append_entries.cpp:165-188 | the consistency check and its hint |
| `Servers.Server.BuildLog` | core/src/raft_handle_append_entries.cpp:256-292 | builds exactly the new entries, each with its counted slot, and moves the write pointer over the whole batch |
| `Servers.Server.SendAppendEntries` | core/src/raft_append_entries.cpp:53-255 | refines Lock B: blocked, failed or launched with the specified request |
| `Servers.Server.PickBatch` | core/src/raft_append_entries.cpp:111-211 | slot-map lookup, clamp passes and address lookup together choose the specified batch |
| `Servers.Server.PbaForRange` | core/src/raft_pba.cpp:16-42 | address and contiguous length of a slot range, or an error |
| `Servers.Server.MakeMetas` | core/src/raft_append_entries.cpp:223-238 | term and announced length of every entry of the batch |
| `Servers.Server.SlotCounts` | core/src/raft_ring_helpers.cpp:63-70 | recorded or implied slot counts from the next index to the end of the log |
| `Servers.Server.TakeAppendReply` | core/src/raft_append_entries.cpp:304-408 | the new state is exactly the Lock C step of the replication runs |
| `Servers.Server.ApplyAeSuccess` | core/src/raft_append_entries.cpp:428-453 | next index up to what is confirmed, never down, and the match index right below it |
| `Servers.Server.ApplyAeFailureBackoff` | core/src/raft_append_entries.cpp:464-519 | refines the backoff, and tells whether the rejection was stale |
| `Servers.Server.FindTerm` | core/src/raft_append_entries.cpp:489-508 | the backward scan loop computes the specified scan, every index in bounds |

## Left out

- Log matching and leader completeness across several terms: a follower keeps a conflicting suffix and replies of an earlier leadership are not filtered, so replication is proved within one leader's term; `NextLeaderHoldsCommitted` covers the step to the next election.
- Crash and restart: start-up clears the ring file and restores no indexes; runs begin with fresh servers.
- Two follower handlers that overlap while the copy runs without the lock: the handler is one step.
- I/O failure during persistence and the rollback after it: writes succeed; only the block copy and RPCs can fail.
- Fragmented leader rings in placement (the extent skip of `persist_circular`) and in the data claims: there the leader's ring is one extent, the follower's is any layout. Extent index, address lookup and batch choice are for any layout.
- Leader-side copying (`ReplicationMode::LeaderSide`): for a run it is a delivery whose copy has already worked, or a worker that ends without reply; its timing is not modelled.
- Slots, ring and device contents of a leader that is promoted a second time: the slot map and the data theorems are about a first leader; the log theorems are about any.
- Timers, heartbeats as real time, election liveness (`ElectionCanSucceed` says that a promotion stays possible, not that it happens), thread lifetime and condition variables, including the waiting part of `apply_internal` and the wake-up policy of the slot collector.
- Result callbacks of entries and the concrete state machines: the state machine is the sequence of commands it receives.
- Timing, profiling, diagnostics, the `slots_per_entry` field of a request, and the fields of the file header beyond term and vote, which nothing reads back.
- Networking, serialisation and the command-line programs.
- Buffer pools and aligned buffers.
- 64-bit overflow of terms and indexes: they are unbounded, except in the encoder, where the 64-bit fields are explicit.
- Fragments.BatchInOnePieceIff: extents that happen to adjoin on the device are excluded, since a batch across them lies in one piece although it exceeds the extent.
- WritePointer.NoopHitsIff: about a follower that starts the term with an empty log, as the other theorems on a follower's slots.
- Servers.Server.AppendBatch: requires every command to fit the ring, because the write beyond the ring end that the code would do (Ring.EmptyMapAcceptsOversized) is outside the model of the device.
- Servers.Server.PersistCircular: requires entries that fit the ring, for the same reason.
- Servers.Server.BecomeLeader: reading a deferred entry is a parameter; EntryCodec.ReadEntryDirect is the reader.
- Servers.Server.HandleAppendEntries: whether the block copy worked is a parameter; Chunks.SplitCopy and BlockCopy.ParallelRefinesSequential are about the copy itself.
- Mirror.UncollectedEntriesDecode: an entry that a copy has spilled onto is not covered, since Spill.SpillTestIsExact proves that it can be lost; a copy that fails has written each sector as a whole or not at all.
- MirrorLog.FollowerLogDecodes: as Mirror.UncollectedEntriesDecode, and batches go out early enough; FirstLeader.AnnouncedSlotsAgreeIff makes that the exact condition for the follower's slots to be right.
- MirrorLog.ReusedSlotsDecodeIff: an entry of which only some slots were used again is covered only as MirrorLog.ReusedStartDecodesIff says.
- CatchUpRuns.MemberGrowsIff: the leader's ring is one extent, as in the other slot theorems.
- Ring.AcceptedSoundIff: a wrapped slot map without a record at slot 0 is not covered; no append and no collection leads to one (FirstLeader.AppendRing, FirstLeader.CollectRing), and Ring.UnanchoredRing shows that the condition differs there.
- ElectionRuns.CountedVoteGenuineIff: its second half is the history of votes; ElectionLimits.CurrentTermTestIsExact is the version with the test a candidate can make.
- FirstLeader.MapIsUncollected: client batches outside Ring.SafeBatch are not part of the runs, because the code then overwrites live records; FirstLeader.AppendKeepsRingIff proves that this excludes no other batch.
