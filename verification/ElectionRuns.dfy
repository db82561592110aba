/** Elections over whole runs: any number of servers, messages lost, duplicated, delayed and reordered, and
    every other activity of a server in between. */
module ElectionRuns {
  import opened Basics
  import opened Types
  import opened Commit
  import opened Election
  import opened Follower
  import opened Progress

  /** A vote request in flight, and the reply to one. Nothing is ever removed from the network. */
  datatype Call = Call(from: nat, to: nat, req: RVRequest)
  datatype Answer = Answer(call: Call, rsp: RVResponse)

  /** History: every vote ever cast, and every term a node was promoted in. */
  datatype Grant = Grant(voter: nat, term: nat, candidate: nat)
  datatype Leadership = Leadership(term: nat, node: nat)

  datatype Sys = Sys(nodes: seq<Node>, calls: set<Call>, answers: set<Answer>, grants: set<Grant>,
                     leaders: set<Leadership>)

  datatype Step =
    | Expire(i: nat)                                  // the election timer of node i runs out
    | Ask(i: nat, peer: nat)                          // a vote worker of node i sends its request
    | Vote(call: Call)                                // the receiver of a request handles it
    | Count(answer: Answer)                           // the sender of a request takes the reply
    | Lead(i: nat, read: Reader)                      // node i runs become_leader
    | Append(i: nat, req: AERequest, copyOk: bool)    // node i handles an AppendEntries, whatever its content
    | Local(i: nat, node: Node)                       // node i does anything that leaves role, term and votes alone

  // ---------------------------------------------------------------- runs

  /** Fresh servers with distinct positive ids. */
  ghost predicate Init(s: Sys) {
    && s.calls == {} && s.answers == {} && s.grants == {} && s.leaders == {}
    && s.nodes != []
    && (forall i :: 0 <= i < |s.nodes| ==> FreshNode(s.nodes[i], i, |s.nodes|))
    && (forall i, j :: 0 <= i < j < |s.nodes| ==> s.nodes[i].id != s.nodes[j].id)
  }

  predicate FreshNode(n: Node, i: nat, size: nat) {
    && n.id > 0 && n.clusterIndex == i && |n.cluster| == size && i < size
    && n.role.Follower? && n.currentTerm == 0 && VotedFor(n) == 0
    && n.log == [SENTINEL] && n.tailLogIndex == 1
    && n.diskTerm == 0 && n.diskVotedFor == 0 && !n.persistedInit
  }

  ghost predicate Enabled(s: Sys, step: Step) {
    match step
    case Expire(i) => i < |s.nodes| && NodeOk(s, i) && !s.nodes[i].role.Leader?
    case Ask(i, peer) => i < |s.nodes| && NodeOk(s, i) && peer < |s.nodes| && peer != i
    case Vote(call) => call in s.calls && call.to < |s.nodes| && NodeOk(s, call.to)
    case Count(a) => a in s.answers && a.call.from < |s.nodes| && NodeOk(s, a.call.from) && a.call.to < |s.nodes|
    case Lead(i, _) => i < |s.nodes| && NodeOk(s, i)
    case Append(i, _, _) => i < |s.nodes| && NodeOk(s, i)
    case Local(i, n') => i < |s.nodes| && NodeOk(s, i) && KeepsBallot(s.nodes[i], n')
  }

  /** Steps of a server that elections do not see. */
  predicate KeepsBallot(n: Node, n': Node) {
    ClusterOk(n) && SameBallot(n, n') && n'.role == n.role && LogOk(n') && (Durable(n) ==> Durable(n'))
  }

  predicate NodeOk(s: Sys, i: nat)
    requires i < |s.nodes|
  {
    LogOk(s.nodes[i]) && s.nodes[i].clusterIndex == i && |s.nodes[i].cluster| == |s.nodes|
  }

  ghost function Do(s: Sys, step: Step): Sys
    requires Enabled(s, step)
  {
    match step
    case Expire(i) =>
      var n := Timeout(s.nodes[i]);
      s.(nodes := s.nodes[i := n], grants := s.grants + {Grant(i, n.currentTerm, n.id)})
    case Ask(i, peer) => s.(calls := s.calls + {Call(i, peer, VoteRequest(s.nodes[i]))})
    case Vote(call) =>
      var (n, rsp) := HandleVote(s.nodes[call.to], call.req);
      s.(nodes := s.nodes[call.to := n], answers := s.answers + {Answer(call, rsp)},
         grants := if rsp.voteGranted then s.grants + {Grant(call.to, rsp.term, call.req.candidateId)} else s.grants)
    case Count(a) =>
      s.(nodes := s.nodes[a.call.from := CountVote(s.nodes[a.call.from], a.call.to, a.call.req, a.rsp)])
    case Lead(i, read) =>
      s.(nodes := s.nodes[i := BecomeLeader(s.nodes[i], read)],
         leaders := if Elected(s.nodes[i]) then s.leaders + {Leadership(s.nodes[i].currentTerm, i)} else s.leaders)
    case Append(i, req, copyOk) => s.(nodes := s.nodes[i := HandleAE(s.nodes[i], req, copyOk).0])
    case Local(i, n') => s.(nodes := s.nodes[i := n'])
  }

  ghost predicate IsRun(run: seq<Sys>, steps: seq<Step>) {
    && |run| == |steps| + 1 && Init(run[0])
    && forall k :: 0 <= k < |steps| ==> Enabled(run[k], steps[k]) && run[k + 1] == Do(run[k], steps[k])
  }

  /** A reply is taken only while its receiver is still in the term it asked in. */
  ghost predicate TimelyReply(s: Sys, step: Step) {
    step.Count? && step.answer.call.from < |s.nodes| ==>
      s.nodes[step.answer.call.from].currentTerm <= step.answer.call.req.term
  }

  /** become_leader runs on a node that is a candidate: the main loop has read the role and nothing came between. */
  ghost predicate AtomicLoop(s: Sys, step: Step) {
    step.Lead? && step.i < |s.nodes| ==> s.nodes[step.i].role.Candidate?
  }

  ghost predicate AllTimely(run: seq<Sys>, steps: seq<Step>)
    requires |run| == |steps| + 1
  {
    forall k :: 0 <= k < |steps| ==> TimelyReply(run[k], steps[k])
  }

  ghost predicate AllAtomic(run: seq<Sys>, steps: seq<Step>)
    requires |run| == |steps| + 1
  {
    forall k :: 0 <= k < |steps| ==> AtomicLoop(run[k], steps[k])
  }

  // ---------------------------------------------------------------- invariant

  /** Nodes that cast a vote for `candidate` in `term`. */
  ghost function Voters(grants: set<Grant>, term: nat, candidate: nat, size: nat): set<nat> {
    set v: nat | v < size && Grant(v, term, candidate) in grants
  }

  ghost predicate GrantOk(s: Sys, g: Grant) {
    && g.voter < |s.nodes| && ClusterOk(s.nodes[g.voter]) && g.candidate != 0
    && g.term <= s.nodes[g.voter].currentTerm
    && (g.term == s.nodes[g.voter].currentTerm ==> VotedFor(s.nodes[g.voter]) == g.candidate)
  }

  /** The vote a node remembers was really cast. */
  ghost predicate VoteRecorded(s: Sys, i: nat)
    requires i < |s.nodes| && NodeOk(s, i)
  {
    VotedFor(s.nodes[i]) != 0 ==> Grant(i, s.nodes[i].currentTerm, VotedFor(s.nodes[i])) in s.grants
  }

  /** Every vote a candidate has counted was cast for it in its current term. */
  ghost predicate CountsOk(s: Sys, i: nat)
    requires i < |s.nodes| && NodeOk(s, i)
  {
    s.nodes[i].role.Candidate? ==>
      forall j: nat :: j < |s.nodes| && s.nodes[i].cluster[j].votedFor == s.nodes[i].id ==>
        Grant(j, s.nodes[i].currentTerm, s.nodes[i].id) in s.grants
  }

  ghost predicate LeadershipOk(s: Sys, l: Leadership) {
    l.node < |s.nodes| && |Voters(s.grants, l.term, s.nodes[l.node].id, |s.nodes|)| >= |s.nodes| / 2 + 1
  }

  ghost predicate AnswerOk(s: Sys, a: Answer) {
    && a.call in s.calls
    && (a.rsp.voteGranted ==>
          a.rsp.term == a.call.req.term && Grant(a.call.to, a.rsp.term, a.call.req.candidateId) in s.grants)
  }

  ghost predicate CallOk(s: Sys, c: Call) {
    c.from < |s.nodes| && c.to != c.from && c.req.candidateId == s.nodes[c.from].id
  }

  /** The part that does not depend on how replies are taken. */
  ghost predicate VoteInv(s: Sys) {
    && (forall i :: 0 <= i < |s.nodes| ==>
          NodeOk(s, i) && s.nodes[i].id > 0 && Durable(s.nodes[i]) && VoteRecorded(s, i))
    && (forall i, j :: 0 <= i < j < |s.nodes| ==> s.nodes[i].id != s.nodes[j].id)
    && (forall g :: g in s.grants ==> GrantOk(s, g))
    && (forall g, h :: g in s.grants && h in s.grants && g.voter == h.voter && g.term == h.term ==>
          g.candidate == h.candidate)
    && (forall c :: c in s.calls ==> CallOk(s, c))
    && (forall a :: a in s.answers ==> AnswerOk(s, a))
    && (forall i :: 0 <= i < |s.nodes| && s.nodes[i].role.Leader? ==>
          Leadership(s.nodes[i].currentTerm, i) in s.leaders)
  }

  ghost predicate Inv(s: Sys) {
    && VoteInv(s)
    && (forall i :: 0 <= i < |s.nodes| ==> CountsOk(s, i))
    && (forall l :: l in s.leaders ==> LeadershipOk(s, l))
  }

  // ---------------------------------------------------------------- one node changes

  /** How one node may change in any step: its identity stays, its term does not go back, and a vote once
      cast in a term stays. */
  ghost predicate NodeMoves(n: Node, n': Node) {
    && ClusterOk(n) && LogOk(n') && Durable(n)
    && n'.id == n.id && n'.clusterIndex == n.clusterIndex && |n'.cluster| == |n.cluster|
    && Durable(n') && n.currentTerm <= n'.currentTerm
    && (n'.currentTerm == n.currentTerm && VotedFor(n) != 0 ==> VotedFor(n') == VotedFor(n))
  }

  /** Node `i` moves, and the vote it then holds is on record. */
  ghost predicate OneMoves(s: Sys, s': Sys, i: nat) {
    && i < |s.nodes| && NodeOk(s, i) && |s'.nodes| == |s.nodes| && s'.nodes == s.nodes[i := s'.nodes[i]]
    && NodeMoves(s.nodes[i], s'.nodes[i])
    && s'.calls == s.calls
    && (forall g :: g in s'.grants <==>
          g in s.grants ||
                   (g == Grant(i, s'.nodes[i].currentTerm, VotedFor(s'.nodes[i])) && VotedFor(s'.nodes[i]) != 0))
    && s.leaders <= s'.leaders
    && (s'.nodes[i].role.Leader? ==> Leadership(s'.nodes[i].currentTerm, i) in s'.leaders)
  }

  lemma OneMovesKeeps(s: Sys, s': Sys, i: nat)
    requires VoteInv(s) && OneMoves(s, s', i)
    requires forall a :: a in s'.answers ==> AnswerOk(s', a)
    ensures VoteInv(s')
  {
    var n, n' := s.nodes[i], s'.nodes[i];
    forall g | g in s'.grants ensures GrantOk(s', g) {
      assert g in s.grants ==> GrantOk(s, g);
    }
    forall g, h | g in s'.grants && h in s'.grants && g.voter == h.voter && g.term == h.term
      ensures g.candidate == h.candidate
    {
      assert g in s.grants ==> GrantOk(s, g);
      assert h in s.grants ==> GrantOk(s, h);
    }
    forall c | c in s'.calls ensures CallOk(s', c) {
      assert CallOk(s, c);
    }
    forall j | 0 <= j < |s'.nodes|
      ensures NodeOk(s', j) && s'.nodes[j].id > 0 && Durable(s'.nodes[j]) && VoteRecorded(s', j)
    {
      assert NodeOk(s, j) && VoteRecorded(s, j);
    }
  }

  lemma AnswersKept(s: Sys, s': Sys)
    requires VoteInv(s) && s'.answers == s.answers && s'.calls == s.calls && s.grants <= s'.grants
    ensures forall a :: a in s'.answers ==> AnswerOk(s', a)
  {
    forall a | a in s'.answers ensures AnswerOk(s', a) {
      assert AnswerOk(s, a);
    }
  }

  /** A candidate stays one in the same term, with the votes of the other members as they were. */
  ghost predicate SameCount(n: Node, n': Node) {
    && n.role.Candidate? && n'.currentTerm == n.currentTerm && n'.id == n.id
    && n'.clusterIndex == n.clusterIndex && |n'.cluster| == |n.cluster|
    && forall j :: 0 <= j < |n.cluster| && j != n.clusterIndex ==> n'.cluster[j].votedFor == n.cluster[j].votedFor
  }

  /** The counted votes stay genuine: they were, or this is a new candidate with its own vote only. */
  lemma CountsKept(s: Sys, s': Sys, i: nat)
    requires Inv(s) && VoteInv(s') && OneMoves(s, s', i)
    requires SameCount(s.nodes[i], s'.nodes[i]) || !s'.nodes[i].role.Candidate?
             || (forall j :: 0 <= j < |s.nodes| && j != i ==> s'.nodes[i].cluster[j].votedFor != s'.nodes[i].id)
    requires forall l :: l in s'.leaders ==> l in s.leaders || LeadershipOk(s', l)
    ensures Inv(s')
  {
    forall j | 0 <= j < |s'.nodes| ensures CountsOk(s', j) {
      assert CountsOk(s, j) && NodeOk(s', j) && VoteRecorded(s', j);
    }
    forall l | l in s'.leaders ensures LeadershipOk(s', l) {
      if l in s.leaders {
        assert LeadershipOk(s, l);
        VotersGrow(s.grants, s'.grants, l.term, s.nodes[l.node].id, |s.nodes|);
      }
    }
  }

  lemma VotersGrow(a: set<Grant>, b: set<Grant>, term: nat, candidate: nat, size: nat)
    requires a <= b
    ensures |Voters(a, term, candidate, size)| <= |Voters(b, term, candidate, size)|
  {
    SubsetSmaller(Voters(a, term, candidate, size), Voters(b, term, candidate, size));
  }

  lemma {:induction false} SubsetSmaller(a: set<nat>, b: set<nat>)
    requires a <= b
    ensures |a| <= |b|
  {
    if a != {} {
      var x :| x in a;
      SubsetSmaller(a - {x}, b - {x});
    }
  }

  lemma ExpireMoves(s: Sys, i: nat)
    requires VoteInv(s) && Enabled(s, Expire(i))
    ensures OneMoves(s, Do(s, Expire(i)), i)
    ensures Do(s, Expire(i)).nodes[i].role.Candidate?
  {
    var n := s.nodes[i];
    PersistHeaderDurable(n.(role := Candidate, currentTerm := n.currentTerm + 1, cluster := OwnVoteOnly(n)));
  }

  lemma UpdateTermMoves(n: Node, term: nat)
    requires ClusterOk(n) && LogOk(n) && Durable(n)
    ensures var n' := UpdateTerm(n, term);
            && NodeMoves(n, n') && n'.log == n.log && n'.tailLogIndex == n.tailLogIndex
            && n'.currentTerm == Max(n.currentTerm, term)
            && (n'.currentTerm > n.currentTerm ==> n'.role.Follower? && VotedFor(n') == 0)
            && (n'.currentTerm == n.currentTerm ==> n' == n)
  {}

  lemma VoteMoves(s: Sys, call: Call)
    requires VoteInv(s) && Enabled(s, Vote(call))
    ensures OneMoves(s, Do(s, Vote(call)), call.to)
    ensures var n, n' := s.nodes[call.to], Do(s, Vote(call)).nodes[call.to];
            !n'.role.Candidate? || SameCount(n, n')
    ensures AnswerOk(Do(s, Vote(call)), Answer(call, HandleVote(s.nodes[call.to], call.req).1))
  {
    var n := s.nodes[call.to];
    var n1 := UpdateTerm(n, call.req.term);
    UpdateTermMoves(n, call.req.term);
    assert CallOk(s, call);
  }

  lemma CountMoves(s: Sys, a: Answer)
    requires VoteInv(s) && Enabled(s, Count(a))
    ensures OneMoves(s, Do(s, Count(a)), a.call.from)
  {
    UpdateTermMoves(s.nodes[a.call.from], a.rsp.term);
    assert CallOk(s, a.call) by {
      assert AnswerOk(s, a);
    }
    assert VoteRecorded(s, a.call.from);
  }

  lemma LeadMoves(s: Sys, i: nat, read: Reader)
    requires VoteInv(s) && Enabled(s, Lead(i, read))
    ensures OneMoves(s, Do(s, Lead(i, read)), i)
  {
    hide BecomeLeader;
    hide Elected;
    assert VoteRecorded(s, i);
    if Elected(s.nodes[i]) {
      BecomeLeaderBallot(s.nodes[i], read);
    } else {
      NotElected(s.nodes[i], read);
    }
  }

  lemma NotElected(n: Node, read: Reader)
    requires LogOk(n) && ClusterOk(n) && !Elected(n)
    ensures BecomeLeader(n, read) == n
  {}

  lemma AppendMoves(s: Sys, i: nat, req: AERequest, copyOk: bool)
    requires VoteInv(s) && Enabled(s, Append(i, req, copyOk))
    ensures OneMoves(s, Do(s, Append(i, req, copyOk)), i)
    ensures var n, n' := s.nodes[i], Do(s, Append(i, req, copyOk)).nodes[i];
            !n'.role.Candidate? || SameCount(n, n')
  {
    hide HandleAE;
    HandleAEBallot(s.nodes[i], req, copyOk);
    assert VoteRecorded(s, i);
  }

  lemma LocalMoves(s: Sys, i: nat, n': Node)
    requires VoteInv(s) && Enabled(s, Local(i, n'))
    ensures OneMoves(s, Do(s, Local(i, n')), i)
  {
    assert VoteRecorded(s, i);
  }

  // ---------------------------------------------------------------- every step

  /** The node a step changes, if it changes one. */
  function Actor(step: Step): Option<nat> {
    match step
    case Expire(i) => Some(i)
    case Ask(_, _) => None
    case Vote(call) => Some(call.to)
    case Count(a) => Some(a.call.from)
    case Lead(i, _) => Some(i)
    case Append(i, _, _) => Some(i)
    case Local(i, _) => Some(i)
  }

  lemma StepMoves(s: Sys, step: Step)
    requires VoteInv(s) && Enabled(s, step) && !step.Ask?
    ensures OneMoves(s, Do(s, step), Actor(step).value)
  {
    hide OneMoves;
    hide VoteInv;
    match step
    case Expire(i) => ExpireMoves(s, i);
    case Vote(call) => VoteMoves(s, call);
    case Count(a) => CountMoves(s, a);
    case Lead(i, read) => LeadMoves(s, i, read);
    case Append(i, req, copyOk) => AppendMoves(s, i, req, copyOk);
    case Local(i, n') => LocalMoves(s, i, n');
  }

  lemma AskKeeps(s: Sys, i: nat, peer: nat)
    requires VoteInv(s) && Enabled(s, Ask(i, peer))
    ensures VoteInv(Do(s, Ask(i, peer)))
  {
    var s' := Do(s, Ask(i, peer));
    forall c | c in s'.calls ensures CallOk(s', c) {
      assert c in s.calls ==> CallOk(s, c);
    }
    forall a | a in s'.answers ensures AnswerOk(s', a) {
      assert AnswerOk(s, a);
    }
    forall g | g in s'.grants ensures GrantOk(s', g) {
      assert GrantOk(s, g);
    }
    forall j | 0 <= j < |s'.nodes| ensures NodeOk(s', j) && VoteRecorded(s', j) {
      assert NodeOk(s, j) && VoteRecorded(s, j);
    }
  }

  /** Votes: kept by every step, timely or not. */
  lemma StepKeepsVotes(s: Sys, step: Step)
    requires VoteInv(s) && Enabled(s, step)
    ensures VoteInv(Do(s, step))
  {
    hide VoteInv;
    hide OneMoves;
    hide HandleVote;
    hide AnswerOk;
    var s' := Do(s, step);
    if step.Ask? {
      AskKeeps(s, step.i, step.peer);
    } else {
      StepMoves(s, step);
      if step.Vote? {
        VoteMoves(s, step.call);
        OldAnswersKept(s, s', Actor(step).value);
      } else {
        GrantsGrow(s, s', Actor(step).value);
        AnswersKept(s, s');
      }
      OneMovesKeeps(s, s', Actor(step).value);
    }
  }

  lemma GrantsGrow(s: Sys, s': Sys, i: nat)
    requires OneMoves(s, s', i)
    ensures s.grants <= s'.grants
  {}

  lemma OldAnswersKept(s: Sys, s': Sys, i: nat)
    requires VoteInv(s) && OneMoves(s, s', i)
    ensures forall a :: a in s.answers ==> AnswerOk(s', a)
  {
    forall a | a in s.answers ensures AnswerOk(s', a) {
      assert AnswerOk(s, a);
    }
  }

  /** A reply that is taken in time adds a genuine vote. */
  lemma CountKeeps(s: Sys, a: Answer)
    requires Inv(s) && Enabled(s, Count(a)) && TimelyReply(s, Count(a)) && VoteInv(Do(s, Count(a)))
    ensures Inv(Do(s, Count(a)))
  {
    var s', i := Do(s, Count(a)), a.call.from;
    var n, n' := s.nodes[i], s'.nodes[i];
    CountMoves(s, a);
    assert AnswerOk(s, a) && CallOk(s, a.call);
    UpdateTermMoves(n, a.rsp.term);
    if a.rsp.term > n.currentTerm {
      CountsKept(s, s', i);
    } else {
      assert CountsOk(s, i);
      assert s'.grants == s.grants;
      forall j | 0 <= j < |s'.nodes| ensures CountsOk(s', j) {
        assert CountsOk(s, j);
      }
      forall l | l in s'.leaders ensures LeadershipOk(s', l) {
        assert LeadershipOk(s, l);
      }
    }
  }

  /** A candidate with enough genuine votes is chosen by a majority of the nodes. */
  lemma LeadKeeps(s: Sys, i: nat, read: Reader)
    requires Inv(s) && Enabled(s, Lead(i, read)) && AtomicLoop(s, Lead(i, read)) && VoteInv(Do(s, Lead(i, read)))
    ensures Inv(Do(s, Lead(i, read)))
  {
    hide BecomeLeader;
    hide OneMoves;
    hide LogOk;
    hide Supporters;
    var s', n := Do(s, Lead(i, read)), s.nodes[i];
    LeadMoves(s, i, read);
    GrantsGrow(s, s', i);
    if Elected(n) {
      BecomeLeaderBallot(n, read);
      SupportersAreBackers(n, |n.cluster|);
      assert CountsOk(s, i);
      SubsetSmaller(Backers(n, |n.cluster|), Voters(s.grants, n.currentTerm, n.id, |s.nodes|));
      VotersGrow(s.grants, s'.grants, n.currentTerm, n.id, |s.nodes|);
      assert LeadershipOk(s', Leadership(n.currentTerm, i));
    } else {
      NotElected(n, read);
    }
    CountsKept(s, s', i);
  }

  lemma StepKeepsInv(s: Sys, step: Step)
    requires Inv(s) && Enabled(s, step) && TimelyReply(s, step) && AtomicLoop(s, step)
    ensures Inv(Do(s, step))
  {
    hide VoteInv;
    hide OneMoves;
    hide BecomeLeader;
    hide HandleVote;
    hide HandleAE;
    hide CountVote;
    StepKeepsVotes(s, step);
    match step
    case Expire(i) => ExpireMoves(s, i); ExpireAlone(s, i); CountsKept(s, Do(s, step), i);
    case Ask(_, _) => SameCounts(s, Do(s, step));
    case Vote(call) => VoteMoves(s, call); CountsKept(s, Do(s, step), call.to);
    case Count(a) => CountKeeps(s, a);
    case Lead(i, read) => LeadKeeps(s, i, read);
    case Append(i, req, copyOk) => AppendMoves(s, i, req, copyOk); CountsKept(s, Do(s, step), i);
    case Local(i, n') => LocalMoves(s, i, n'); CountsKept(s, Do(s, step), i);
  }

  lemma SameCounts(s: Sys, s': Sys)
    requires Inv(s) && VoteInv(s') && s'.nodes == s.nodes && s'.grants == s.grants && s'.leaders == s.leaders
    ensures Inv(s')
  {
    forall j | 0 <= j < |s'.nodes| ensures CountsOk(s', j) {
      assert CountsOk(s, j);
    }
    forall l | l in s'.leaders ensures LeadershipOk(s', l) {
      assert LeadershipOk(s, l);
    }
  }

  lemma ExpireAlone(s: Sys, i: nat)
    requires VoteInv(s) && Enabled(s, Expire(i))
    ensures var n' := Do(s, Expire(i)).nodes[i];
            |n'.cluster| == |s.nodes| && forall j :: 0 <= j < |s.nodes| && j != i ==> n'.cluster[j].votedFor != n'.id
  {}

  // ---------------------------------------------------------------- whole runs

  lemma InitInv(s: Sys)
    requires Init(s)
    ensures Inv(s)
  {
    forall i | 0 <= i < |s.nodes| ensures NodeOk(s, i) && VoteRecorded(s, i) && Durable(s.nodes[i]) && CountsOk(s, i) {
      assert FreshNode(s.nodes[i], i, |s.nodes|);
    }
  }

  lemma {:induction false} RunKeepsVotes(run: seq<Sys>, steps: seq<Step>, k: nat)
    requires IsRun(run, steps) && k < |run|
    ensures VoteInv(run[k]) && |run[k].nodes| == |run[0].nodes|
  {
    hide VoteInv;
    hide Do;
    if k == 0 {
      InitInv(run[0]);
      InvVotes(run[0]);
    } else {
      RunKeepsVotes(run, steps, k - 1);
      StepKeepsVotes(run[k - 1], steps[k - 1]);
      SameSize(run[k - 1], steps[k - 1]);
    }
  }

  lemma InvVotes(s: Sys)
    requires Inv(s)
    ensures VoteInv(s)
  {}

  lemma SameSize(s: Sys, step: Step)
    requires Enabled(s, step)
    ensures |Do(s, step).nodes| == |s.nodes|
  {}

  lemma {:induction false} CarefulRunKeepsInv(run: seq<Sys>, steps: seq<Step>, k: nat)
    requires IsRun(run, steps) && AllTimely(run, steps) && AllAtomic(run, steps) && k < |run|
    ensures Inv(run[k])
  {
    hide Inv;
    hide Do;
    if k == 0 {
      InitInv(run[0]);
    } else {
      CarefulRunKeepsInv(run, steps, k - 1);
      assert TimelyReply(run[k - 1], steps[k - 1]) && AtomicLoop(run[k - 1], steps[k - 1]);
      StepKeepsInv(run[k - 1], steps[k - 1]);
    }
  }

  /** In every run, at every release of the lock, the term and vote on disk are those in memory, although
      most header writes are skipped; and all votes a node casts in one term name one candidate. */
  lemma DurableVote(run: seq<Sys>, steps: seq<Step>, k: nat, i: nat)
    requires IsRun(run, steps) && k < |run| && i < |run[0].nodes|
    ensures |run[k].nodes| == |run[0].nodes| && ClusterOk(run[k].nodes[i])
    ensures run[k].nodes[i].diskTerm == run[k].nodes[i].currentTerm
    ensures run[k].nodes[i].diskVotedFor == VotedFor(run[k].nodes[i])
    ensures forall g, h :: g in run[k].grants && h in run[k].grants && g.voter == h.voter && g.term == h.term ==> g == h
    ensures forall g :: g in run[k].grants && g.voter == i && g.term == run[k].nodes[i].currentTerm ==>
              run[k].nodes[i].diskVotedFor == g.candidate
  {
    RunKeepsVotes(run, steps, k);
    assert NodeOk(run[k], i);
    forall g | g in run[k].grants ensures GrantOk(run[k], g) {}
  }

  /** Terms never decrease, and votes are never taken back. */
  lemma {:induction false} TermsNeverDecrease(run: seq<Sys>, steps: seq<Step>, j: nat, k: nat, i: nat)
    requires IsRun(run, steps) && j <= k < |run| && i < |run[0].nodes|
    ensures |run[j].nodes| == |run[k].nodes| == |run[0].nodes|
    ensures run[j].nodes[i].currentTerm <= run[k].nodes[i].currentTerm
    ensures run[j].grants <= run[k].grants
    decreases k - j
  {
    hide VoteInv;
    hide Do;
    RunKeepsVotes(run, steps, k);
    RunKeepsVotes(run, steps, j);
    if j < k {
      TermsNeverDecrease(run, steps, j, k - 1, i);
      RunKeepsVotes(run, steps, k - 1);
      StepNotBack(run[k - 1], steps[k - 1], i);
    }
  }

  lemma StepNotBack(s: Sys, step: Step, i: nat)
    requires VoteInv(s) && Enabled(s, step) && i < |s.nodes|
    ensures var s' := Do(s, step);
            |s'.nodes| == |s.nodes| && s.nodes[i].currentTerm <= s'.nodes[i].currentTerm && s.grants <= s'.grants
  {
    if !step.Ask? {
      hide Do;
      StepMoves(s, step);
      GrantsGrow(s, Do(s, step), Actor(step).value);
    }
  }

  /** The term a step tells its node of: the timer the next one, a message its own. */
  function ToldTerm(s: Sys, step: Step): nat {
    match step
    case Expire(i) => if i < |s.nodes| then s.nodes[i].currentTerm + 1 else 0
    case Vote(call) => call.req.term
    case Count(a) => a.rsp.term
    case Append(_, req, _) => req.term
    case _ => 0
  }

  /** A step takes its node to the later of its term and the one it is told of, no further; a message of a later term
      makes it a follower, and a reply or an AppendEntries of a later term leaves it without a vote. */
  lemma StepTellsTerm(s: Sys, step: Step)
    requires VoteInv(s) && Enabled(s, step) && !step.Ask?
    ensures var i, s' := Actor(step).value, Do(s, step);
            && i < |s.nodes| == |s'.nodes| && ClusterOk(s'.nodes[i])
            && s'.nodes[i].currentTerm == Max(s.nodes[i].currentTerm, ToldTerm(s, step))
            && (!step.Expire? && s'.nodes[i].currentTerm > s.nodes[i].currentTerm ==>
                  s'.nodes[i].role.Follower? && (!step.Vote? ==> VotedFor(s'.nodes[i]) == 0))
  {
    hide HandleAE;
    hide BecomeLeader;
    hide Elected;
    assert NodeOk(s, Actor(step).value);
    match step
    case Expire(i) =>
    case Vote(call) => UpdateTermMoves(s.nodes[call.to], call.req.term);
    case Count(a) => CountedTerm(s.nodes[a.call.from], a.call.to, a.call.req, a.rsp);
    case Lead(i, read) =>
      if Elected(s.nodes[i]) {
        BecomeLeaderBallot(s.nodes[i], read);
      } else {
        NotElected(s.nodes[i], read);
      }
    case Append(i, req, copyOk) => HandleAEBallot(s.nodes[i], req, copyOk);
    case Local(i, n') =>
  }

  /** In every run no node is ever again in a term below one that it was told of. */
  lemma NeverBelowToldTerm(run: seq<Sys>, steps: seq<Step>, j: nat, k: nat)
    requires IsRun(run, steps) && j < k < |run| && !steps[j].Ask?
    ensures Actor(steps[j]).value < |run[j].nodes| == |run[k].nodes|
    ensures ToldTerm(run[j], steps[j]) <= run[k].nodes[Actor(steps[j]).value].currentTerm
  {
    hide VoteInv;
    hide Do;
    RunKeepsVotes(run, steps, j);
    StepTellsTerm(run[j], steps[j]);
    TermsNeverDecrease(run, steps, j + 1, k, Actor(steps[j]).value);
  }

  /** Two majorities share a node. */
  lemma MajoritiesMeet(a: set<nat>, b: set<nat>, size: nat)
    requires (forall x :: x in a ==> x < size) && (forall x :: x in b ==> x < size)
    requires |a| >= size / 2 + 1 && |b| >= size / 2 + 1
    ensures exists x :: x in a && x in b
  {
    if a * b == {} {
      SubsetSmaller(a + b, UpTo(size));
    } else {
      var x :| x in a * b;
    }
  }

  function UpTo(size: nat): (r: set<nat>)
    ensures |r| == size && forall x: nat :: x in r <==> x < size
  {
    if size == 0 then {} else UpTo(size - 1) + {size - 1}
  }

  /** Election safety. Over every run of any number of servers in which replies are taken in time and the
      main loop is atomic, at most one node is ever promoted in a term, so no two nodes lead the same term. */
  lemma ElectionSafety(run: seq<Sys>, steps: seq<Step>, k: nat, a: nat, b: nat)
    requires IsRun(run, steps) && AllTimely(run, steps) && AllAtomic(run, steps) && k < |run|
    ensures forall t: nat :: Leadership(t, a) in run[k].leaders && Leadership(t, b) in run[k].leaders ==> a == b
    ensures a < |run[k].nodes| && b < |run[k].nodes| ==>
              var x, y := run[k].nodes[a], run[k].nodes[b];
              x.role.Leader? && y.role.Leader? && x.currentTerm == y.currentTerm ==> a == b
  {
    CarefulRunKeepsInv(run, steps, k);
    forall t: nat | Leadership(t, a) in run[k].leaders && Leadership(t, b) in run[k].leaders ensures a == b {
      OneLeader(run[k], t, a, b);
    }
  }

  lemma OneLeader(s: Sys, t: nat, a: nat, b: nat)
    requires Inv(s) && Leadership(t, a) in s.leaders && Leadership(t, b) in s.leaders
    ensures a == b
  {
    assert LeadershipOk(s, Leadership(t, a)) && LeadershipOk(s, Leadership(t, b));
    var x, y := s.nodes[a].id, s.nodes[b].id;
    MajoritiesMeet(Voters(s.grants, t, x, |s.nodes|), Voters(s.grants, t, y, |s.nodes|), |s.nodes|);
    var v :| v in Voters(s.grants, t, x, |s.nodes|) && v in Voters(s.grants, t, y, |s.nodes|);
    assert Grant(v, t, x).candidate == Grant(v, t, y).candidate;
  }

  lemma {:induction false} LeadershipsStay(run: seq<Sys>, steps: seq<Step>, j: nat, k: nat)
    requires IsRun(run, steps) && j <= k < |run|
    ensures run[j].leaders <= run[k].leaders
    decreases k - j
  {
    hide VoteInv;
    hide Do;
    if j < k {
      LeadershipsStay(run, steps, j, k - 1);
      RunKeepsVotes(run, steps, k - 1);
      StepKeepsLeaders(run[k - 1], steps[k - 1]);
    }
  }

  lemma StepKeepsLeaders(s: Sys, step: Step)
    requires VoteInv(s) && Enabled(s, step)
    ensures s.leaders <= Do(s, step).leaders
  {}

  /** In such runs only one node ever takes client batches in a term. */
  lemma BatchesTakenByOneNode(run: seq<Sys>, steps: seq<Step>, j: nat, k: nat, a: nat, b: nat, batch: seq<seq<Byte>>,
                              other: seq<seq<Byte>>)
    requires IsRun(run, steps) && AllTimely(run, steps) && AllAtomic(run, steps) && j <= k < |run|
    requires a < |run[j].nodes| && b < |run[k].nodes|
    requires TakesBatch(run[j].nodes[a], batch) && TakesBatch(run[k].nodes[b], other)
    requires run[j].nodes[a].currentTerm == run[k].nodes[b].currentTerm
    ensures a == b
  {
    hide Do;
    RunKeepsVotes(run, steps, j);
    RunKeepsVotes(run, steps, k);
    LeadershipsStay(run, steps, j, k);
    CarefulRunKeepsInv(run, steps, k);
    OneLeader(run[k], run[k].nodes[b].currentTerm, a, b);
  }

  /** Exactly when taking a granted reply leaves a candidate with genuine votes only: the request was made in
      the current term, or that peer happens to have voted for it in the current term as well. */
  lemma CountedVoteGenuineIff(s: Sys, a: Answer)
    requires Inv(s) && Enabled(s, Count(a)) && a.rsp.voteGranted
    requires s.nodes[a.call.from].role.Candidate? && a.rsp.term <= s.nodes[a.call.from].currentTerm
    ensures NodeOk(Do(s, Count(a)), a.call.from)
    ensures CountsOk(Do(s, Count(a)), a.call.from) <==>
            var n := s.nodes[a.call.from];
            a.call.req.term == n.currentTerm || Grant(a.call.to, n.currentTerm, n.id) in s.grants
  {
    var i := a.call.from;
    assert AnswerOk(s, a) && CallOk(s, a.call) && CountsOk(s, i);
    var n' := Do(s, Count(a)).nodes[i];
    assert n'.cluster[a.call.to].votedFor == n'.id;
  }

  // ---------------------------------------------------------------- the other steps of a server

  lemma SendKeepsBallot(n: Node, fi: nat, cfg: Config)
    requires SendReady(n, fi) && ClusterOk(n)
    ensures var o := SendAE(n, fi, cfg); o.Crashed? || KeepsBallot(n, o.node)
  {
    hide ChooseBatch;
    hide RequestFor;
  }

  lemma ReplyKeepsBallot(n: Node, w: Worker, rsp: Option<AEResponse>)
    requires LogOk(n) && ClusterOk(n) && w.fi < |n.cluster| && w.req.prevLogIndex < n.tailLogIndex
    ensures KeepsBallot(n, TakeReply(n, w, rsp))
  {
    hide BackedOff;
  }

  lemma CommitKeepsBallot(n: Node)
    requires CommitReady(n)
    ensures KeepsBallot(n, AdvanceCommit(n)) && KeepsBallot(n, ApplyPending(n))
  {
    hide QuorumIndex;
  }

  lemma GcKeepsBallot(n: Node)
    requires LogOk(n) && ClusterOk(n)
    ensures KeepsBallot(n, DoSlotGc(n))
  {}

  lemma AppendKeepsBallot(n: Node, commands: seq<seq<Byte>>)
    requires LogOk(n) && ClusterOk(n)
    ensures KeepsBallot(n, AppendCommands(n, commands))
  {}
}
