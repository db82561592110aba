/** Terms, votes and leadership as state transformations (core/src/raft_election.cpp). */
module Election {
  import opened Basics
  import opened Ring
  import opened Types
  import opened Commit

  function SetVotedFor(n: Node, v: nat): Node
    requires ClusterOk(n)
  {
    WithMember(n, n.clusterIndex, n.cluster[n.clusterIndex].(votedFor := v))
  }

  /** `update_term`: a message from a later term makes the node a follower that has not voted. */
  function UpdateTerm(n: Node, term: nat): Node
    requires ClusterOk(n)
  {
    if term > n.currentTerm then PersistHeader(SetVotedFor(n.(currentTerm := term, role := Follower), 0)) else n
  }

  /** The member list with the node's own vote for itself and every other vote forgotten. */
  function OwnVoteOnly(n: Node): (c: seq<Member>)
    ensures |c| == |n.cluster|
    ensures forall i :: 0 <= i < |c| ==> c[i] == n.cluster[i].(votedFor := if i == n.clusterIndex then n.id else 0)
  {
    seq(|n.cluster|, i requires 0 <= i < |n.cluster| =>
      n.cluster[i].(votedFor := if i == n.clusterIndex then n.id else 0))
  }

  /** `timeout`, once the election timer has run out. */
  function Timeout(n: Node): Node
    requires ClusterOk(n)
  {
    PersistHeader(n.(role := Candidate, currentTerm := n.currentTerm + 1, cluster := OwnVoteOnly(n)))
  }

  function LastTerm(n: Node): nat
    requires LogOk(n)
  {
    if |n.log| > 1 then n.log[|n.log| - 1].term else 0
  }

  /** What `request_vote_worker` sends. The worker reads the term when it runs, not when it is spawned. */
  function VoteRequest(n: Node): RVRequest
    requires LogOk(n)
  {
    RVRequest(n.currentTerm, n.id, n.tailLogIndex - 1, LastTerm(n))
  }

  /** The candidate's log is at least as up to date. */
  predicate UpToDate(n: Node, req: RVRequest)
    requires LogOk(n)
  {
    req.lastLogTerm > LastTerm(n) || (req.lastLogTerm == LastTerm(n) && req.lastLogIndex >= n.tailLogIndex - 1)
  }

  predicate Grants(n: Node, req: RVRequest)
    requires LogOk(n) && ClusterOk(n)
  {
    req.term == n.currentTerm && UpToDate(n, req) && (VotedFor(n) == 0 || VotedFor(n) == req.candidateId)
  }

  /** `handle_request_vote_request`. */
  function HandleVote(n: Node, req: RVRequest): (r: (Node, RVResponse))
    requires LogOk(n) && ClusterOk(n)
  {
    var n1 := UpdateTerm(n, req.term);
    if req.term >= n1.currentTerm && Grants(n1, req) then
      (PersistHeader(SetVotedFor(n1, req.candidateId)), RVResponse(n1.currentTerm, true))
    else (n1, RVResponse(n1.currentTerm, false))
  }

  /** The reply part of `request_vote_worker`: compared with the term of the request, not with the current one. */
  function CountVote(n: Node, peer: nat, req: RVRequest, rsp: RVResponse): Node
    requires ClusterOk(n) && peer < |n.cluster|
  {
    if rsp.term > n.currentTerm then UpdateTerm(n, rsp.term)
    else if rsp.term == req.term && rsp.voteGranted then WithMember(n, peer, n.cluster[peer].(votedFor := n.id))
    else n
  }

  // ---------------------------------------------------------------- who gets a vote

  /** The order of logs that elections go by: the last entry has an earlier term, or the same and the log is not
      longer. */
  predicate LogAtMost(a: Node, b: Node)
    requires LogOk(a) && LogOk(b)
  {
    LastTerm(a) < LastTerm(b) || (LastTerm(a) == LastTerm(b) && a.tailLogIndex <= b.tailLogIndex)
  }

  /** A voter finds a candidate up to date exactly if its own log is at most the candidate's. So of any two servers one
      finds the other up to date, and whom a server finds up to date is found so by everybody it finds up to date. */
  lemma UpToDateIsOrder(a: Node, b: Node, c: Node)
    requires LogOk(a) && LogOk(b) && LogOk(c)
    ensures UpToDate(a, VoteRequest(b)) <==> LogAtMost(a, b)
    ensures UpToDate(a, VoteRequest(b)) || UpToDate(b, VoteRequest(a))
    ensures UpToDate(a, VoteRequest(b)) && UpToDate(b, VoteRequest(c)) ==> UpToDate(a, VoteRequest(c))
  {}

  /** In every cluster some server is found up to date by all of them. */
  lemma {:induction false} SomeoneIsUpToDate(nodes: seq<Node>) returns (i: nat)
    requires nodes != [] && forall j :: 0 <= j < |nodes| ==> LogOk(nodes[j])
    ensures i < |nodes| && forall j :: 0 <= j < |nodes| ==> UpToDate(nodes[j], VoteRequest(nodes[i]))
  {
    var last := |nodes| - 1;
    UpToDateIsOrder(nodes[last], nodes[last], nodes[last]);
    if last == 0 {
      i := 0;
    } else {
      i := SomeoneIsUpToDate(nodes[..last]);
      UpToDateIsOrder(nodes[last], nodes[i], nodes[i]);
      if !UpToDate(nodes[last], VoteRequest(nodes[i])) {
        forall j | 0 <= j < last ensures UpToDate(nodes[j], VoteRequest(nodes[last])) {
          assert UpToDate(nodes[..last][j], VoteRequest(nodes[i]));
          UpToDateIsOrder(nodes[j], nodes[i], nodes[last]);
        }
        i := last;
      }
    }
  }

  /** When a server gives its vote to the candidate `c` that asks for it: exactly if it is in no later term, its log is
      at most the candidate's, and it has not voted for another one in the candidate's term. The reply names the later
      of the two terms, and the server is then in it. */
  lemma VoteGrantedIff(n: Node, c: Node)
    requires LogOk(n) && ClusterOk(n) && LogOk(c)
    ensures var (n', rsp) := HandleVote(n, VoteRequest(c));
            && (rsp.voteGranted <==>
                  && n.currentTerm <= c.currentTerm && LogAtMost(n, c)
                  && (n.currentTerm == c.currentTerm ==> VotedFor(n) == 0 || VotedFor(n) == c.id))
            && ClusterOk(n') && rsp.term == n'.currentTerm == Max(n.currentTerm, c.currentTerm)
            && (rsp.voteGranted ==> VotedFor(n') == c.id)
            && (!rsp.voteGranted && n.currentTerm < c.currentTerm ==> VotedFor(n') == 0 && n'.role.Follower?)
            && (!rsp.voteGranted && n.currentTerm >= c.currentTerm ==> n' == n)
  {}

  /** Taking a reply brings the candidate to the later of its term and the reply's, as a follower without a vote if that
      is a new one. Otherwise only the peer's vote can be noted, and it is exactly if the reply grants it in the term
      that was asked about. */
  lemma CountedTerm(n: Node, peer: nat, req: RVRequest, rsp: RVResponse)
    requires ClusterOk(n) && peer < |n.cluster| && Durable(n)
    ensures var n' := CountVote(n, peer, req, rsp);
            && n'.currentTerm == Max(n.currentTerm, rsp.term) && ClusterOk(n')
            && (peer != n.clusterIndex ==> Durable(n')) && |n'.cluster| == |n.cluster|
            && (rsp.term > n.currentTerm ==> n'.role.Follower? && VotedFor(n') == 0)
            && (rsp.term <= n.currentTerm ==>
                  && n'.role == n.role
                  && (forall j :: 0 <= j < |n.cluster| && j != peer ==> n'.cluster[j] == n.cluster[j])
                  && n'.cluster[peer].votedFor ==
                     (if rsp.voteGranted && rsp.term == req.term then n.id else n.cluster[peer].votedFor))
  {}

  /** The election timer begins the next term, with the node's own vote and no other. */
  lemma TimeoutBegins(n: Node)
    requires ClusterOk(n) && Durable(n) && n.id > 0
    ensures var n' := Timeout(n);
            && n'.currentTerm == n.currentTerm + 1 && n'.role.Candidate? && ClusterOk(n') && Durable(n')
            && VotedFor(n') == n.id && n'.id == n.id && Backers(n', |n'.cluster|) == {n.clusterIndex}
            && n'.log == n.log && n'.tailLogIndex == n.tailLogIndex
  {
    var n' := Timeout(n);
    assert forall j :: 0 <= j < |n'.cluster| && j != n.clusterIndex ==> n'.cluster[j].votedFor == 0;
  }

  // ---------------------------------------------------------------- leadership

  /** Members among the first `k` whose recorded vote is for this node. */
  function Supporters(n: Node, k: nat): (c: nat)
    requires k <= |n.cluster|
    ensures c <= k
  {
    if k == 0 then 0 else Supporters(n, k - 1) + (if n.cluster[k - 1].votedFor == n.id then 1 else 0)
  }

  predicate Elected(n: Node) {
    Supporters(n, |n.cluster|) >= |n.cluster| / 2 + 1
  }

  /** Reads the command of the entry at a ring slot, unless the read fails. */
  type Reader = nat -> Option<seq<Byte>>

  function Loaded(e: Entry, read: Reader): Entry {
    if e.command == [] && e.ringSlot != 0 && read(e.ringSlot).Some?
        then e.(command := read(e.ringSlot).value, ringSlot := 0)
    else e
  }

  /** Entries known only by their ring slot get their commands; a failed read is skipped. */
  function LoadLog(log: seq<Entry>, read: Reader): (r: seq<Entry>)
    requires log != []
    ensures |r| == |log| && r[0] == log[0]
    ensures forall p :: 1 <= p < |r| ==> r[p] == Loaded(log[p], read)
  {
    seq<Entry>(|log|, p requires 0 <= p < |log| => if p == 0 then log[0] else Loaded(log[p], read))
  }

  function FreshProgress(c: seq<Member>, next: nat): (r: seq<Member>)
    ensures |r| == |c|
    ensures forall i :: 0 <= i < |r| ==> r[i] == c[i].(nextIndex := next, matchIndex := 0)
  {
    seq(|c|, i requires 0 <= i < |c| => c[i].(nextIndex := next, matchIndex := 0))
  }

  /** The first half of a promotion: head recomputed, deferred commands loaded, committed entries applied. */
  ghost function Promoted(n: Node, read: Reader): (n': Node)
    requires LogOk(n)
    ensures LogOk(n') && n'.tailLogIndex == n.tailLogIndex && n'.cluster == n.cluster
  {
    var n1 := n.(role := Leader, headSlot := HeadOf(n.logSlotMap, n.tailSlot), gcUpTo := 0, gcHasRun := false,
                 log := LoadLog(n.log, read));
    n1.(lastApplied := ApplyEnd(n1))
  }

  /** `become_leader`. It does not look at the role. */
  ghost function BecomeLeader(n: Node, read: Reader): Node
    requires LogOk(n) && ClusterOk(n)
  {
    if !Elected(n) then n
    else
      var n1 := Promoted(n, read);
      var n2 := PersistLog(n1.(log := n1.log + [Entry([], n.currentTerm, Waiting, 0, 0)],
                               tailLogIndex := n1.tailLogIndex + 1), 1);
      n2.(cluster := FreshProgress(n2.cluster, n2.tailLogIndex - 1))
  }

  /** Members whose recorded vote is for this node. */
  ghost function Backers(n: Node, k: nat): set<nat>
    requires k <= |n.cluster|
  {
    set i: nat | i < k && n.cluster[i].votedFor == n.id
  }

  /** The vote count is the number of members that recorded a vote for this node. */
  lemma {:induction false} SupportersAreBackers(n: Node, k: nat)
    requires k <= |n.cluster|
    ensures |Backers(n, k)| == Supporters(n, k)
  {
    if k > 0 {
      SupportersAreBackers(n, k - 1);
      if n.cluster[k - 1].votedFor == n.id {
        assert Backers(n, k) == Backers(n, k - 1) + {k - 1};
      } else {
        assert Backers(n, k) == Backers(n, k - 1);
      }
    } else {
      assert Backers(n, 0) == {};
    }
  }

  // ---------------------------------------------------------------- what each step does to term and vote

  /** Nothing that elections look at has changed. */
  predicate SameBallot(n: Node, n': Node) {
    && n'.currentTerm == n.currentTerm && n'.id == n.id && n'.clusterIndex == n.clusterIndex
    && |n'.cluster| == |n.cluster|
    && (forall i :: 0 <= i < |n.cluster| ==> n'.cluster[i].votedFor == n.cluster[i].votedFor)
  }

  lemma PersistHeaderDurable(n: Node)
    requires ClusterOk(n)
    requires n.persistedInit ==> n.persistedTerm == n.diskTerm && n.persistedVotedFor == n.diskVotedFor
    ensures Durable(PersistHeader(n)) && SameBallot(n, PersistHeader(n)) && PersistHeader(n).role == n.role
  {}

  /** A promoted node keeps term and votes, leads, and stays durable. */
  lemma BecomeLeaderBallot(n: Node, read: Reader)
    requires LogOk(n) && ClusterOk(n) && Durable(n) && Elected(n)
    ensures var n' := BecomeLeader(n, read);
            SameBallot(n, n') && n'.role.Leader? && Durable(n') && LogOk(n')
  {
    var n1 := Promoted(n, read);
    assert Durable(n1);
  }
}
