/** Both assumptions of election safety are needed: two runs of three servers, each breaking one of them
    once, that end with two leaders of term 2. */
module ElectionLimits {
  import opened Basics
  import opened Types
  import opened Commit
  import opened Election
  import opened ElectionRuns

  /** What node `i` of three shows of itself: it has id i + 1, nothing but the sentinel in its log, and holds
      the given role, term and recorded votes. */
  ghost predicate Shows(s: Sys, i: nat, role: Role, term: nat, votes: seq<nat>) {
    && |s.nodes| == 3 && i < 3 && NodeOk(s, i) && |votes| == 3
    && var n := s.nodes[i];
       && n.id == i + 1 && n.role == role && n.currentTerm == term && Durable(n)
       && n.log == [SENTINEL] && n.tailLogIndex == 1
       && (forall j :: 0 <= j < 3 ==> n.cluster[j].votedFor == votes[j])
  }

  /** Two of the three votes are for `id`. */
  predicate TwoFor(votes: seq<nat>, id: nat) {
    && |votes| == 3
    && ((votes[0] == id && votes[1] == id) || (votes[0] == id && votes[2] == id) || (votes[1] == id && votes[2] == id))
  }

  /** Only node `i` may have changed, and nothing is forgotten. */
  ghost predicate OnlyNode(s: Sys, s': Sys, i: nat) {
    && |s'.nodes| == |s.nodes| && (forall j :: 0 <= j < |s.nodes| && j != i ==> s'.nodes[j] == s.nodes[j])
    && s.calls <= s'.calls && s.answers <= s'.answers && s.leaders <= s'.leaders
  }

  lemma ExpireShows(s: Sys, i: nat, role: Role, term: nat, votes: seq<nat>)
    requires Shows(s, i, role, term, votes) && !role.Leader?
    ensures Enabled(s, Expire(i)) && OnlyNode(s, Do(s, Expire(i)), i)
    ensures Shows(Do(s, Expire(i)), i, Candidate, term + 1, [0, 0, 0][i := i + 1])
  {}

  lemma AskShows(s: Sys, i: nat, peer: nat, role: Role, term: nat, votes: seq<nat>)
    requires Shows(s, i, role, term, votes) && peer < 3 && peer != i
    ensures var s' := Do(s, Ask(i, peer));
            s'.nodes == s.nodes && OnlyNode(s, s', i) && Call(i, peer, RVRequest(term, i + 1, 0, 0)) in s'.calls
  {}

  lemma VoteShows(s: Sys, from: nat, to: nat, t: nat, role: Role, term: nat, votes: seq<nat>)
    requires Shows(s, to, role, term, votes) && term < t && from < 3
    requires Call(from, to, RVRequest(t, from + 1, 0, 0)) in s.calls
    ensures var call := Call(from, to, RVRequest(t, from + 1, 0, 0));
            && Enabled(s, Vote(call)) && OnlyNode(s, Do(s, Vote(call)), to)
            && Answer(call, RVResponse(t, true)) in Do(s, Vote(call)).answers
            && Shows(Do(s, Vote(call)), to, Follower, t, votes[to := from + 1])
  {}

  lemma CountShows(s: Sys, from: nat, to: nat, t: nat, role: Role, term: nat, votes: seq<nat>)
    requires Shows(s, from, role, term, votes) && t <= term && to < 3 && to != from
    requires Answer(Call(from, to, RVRequest(t, from + 1, 0, 0)), RVResponse(t, true)) in s.answers
    ensures var a := Answer(Call(from, to, RVRequest(t, from + 1, 0, 0)), RVResponse(t, true));
            && Enabled(s, Count(a)) && OnlyNode(s, Do(s, Count(a)), from)
            && Shows(Do(s, Count(a)), from, role, term, votes[to := from + 1])
  {}

  lemma LeadShows(s: Sys, i: nat, read: Reader, role: Role, term: nat, votes: seq<nat>)
    requires Shows(s, i, role, term, votes)
    requires TwoFor(votes, i + 1)
    ensures Enabled(s, Lead(i, read)) && OnlyNode(s, Do(s, Lead(i, read)), i)
    ensures var s' := Do(s, Lead(i, read));
            s'.nodes[i].role.Leader? && s'.nodes[i].currentTerm == term && Leadership(term, i) in s'.leaders
  {
    hide BecomeLeader;
    var n := s.nodes[i];
    assert Supporters(n, 3) == (if n.cluster[0].votedFor == n.id then 1 else 0)
        + (if n.cluster[1].votedFor == n.id then 1 else 0) + (if n.cluster[2].votedFor == n.id then 1 else 0) by {
      assert Supporters(n, 0) == 0;
      assert Supporters(n, 1) == Supporters(n, 0) + (if n.cluster[0].votedFor == n.id then 1 else 0);
      assert Supporters(n, 2) == Supporters(n, 1) + (if n.cluster[1].votedFor == n.id then 1 else 0);
    }
    assert Elected(n);
    BecomeLeaderBallot(n, read);
  }

  ghost function Last(run: seq<Sys>): Sys
    requires run != []
  {
    run[|run| - 1]
  }

  /** A run goes on with any enabled step. */
  lemma Extend(run: seq<Sys>, steps: seq<Step>, step: Step) returns (run': seq<Sys>, steps': seq<Step>)
    requires IsRun(run, steps) && Enabled(Last(run), step)
    ensures steps' == steps + [step] && run' == run + [Do(Last(run), step)]
    ensures IsRun(run', steps')
    ensures AllTimely(run, steps) && TimelyReply(Last(run), step) ==> AllTimely(run', steps')
    ensures AllAtomic(run, steps) && AtomicLoop(Last(run), step) ==> AllAtomic(run', steps')
  {
    hide Do;
    hide Enabled;
    hide TimelyReply;
    hide AtomicLoop;
    hide Init;
    steps' := steps + [step];
    run' := run + [Do(Last(run), step)];
    assert run'[0] == run[0];
  }

  ghost function StartNode(i: nat): Node {
    Node(0, [SENTINEL], i + 1, 0, 1, Follower, [Member(0, 0, 0, false), Member(0, 0, 0, false), Member(0, 0, 0, false)],
         i,
         1, 0, 0, 0, false, map[], 100, 0, false, 0, 0, 0, 0)
  }

  lemma Begin() returns (run: seq<Sys>, steps: seq<Step>)
    ensures IsRun(run, steps) && AllTimely(run, steps) && AllAtomic(run, steps)
    ensures forall i :: 0 <= i < 3 ==> Shows(Last(run), i, Follower, 0, [0, 0, 0])
  {
    steps := [];
    run := [Sys([StartNode(0), StartNode(1), StartNode(2)], {}, {}, {}, {})];
    assert Init(run[0]);
  }

  lemma StillShows(s: Sys, s': Sys, i: nat, j: nat, role: Role, term: nat, votes: seq<nat>)
    requires OnlyNode(s, s', i) && j != i && Shows(s, j, role, term, votes)
    ensures Shows(s', j, role, term, votes)
  {}

  /** Node `from` asks node `to`, which is in an earlier term and grants its vote. The reply stays in flight. */
  lemma Poll(run: seq<Sys>, steps: seq<Step>, from: nat, to: nat, role: Role, t: nat, votes: seq<nat>, role2: Role,
             t2: nat, votes2: seq<nat>) returns (run': seq<Sys>, steps': seq<Step>)
    requires IsRun(run, steps) && from != to && t2 < t
    requires Shows(Last(run), from, role, t, votes) && Shows(Last(run), to, role2, t2, votes2)
    ensures IsRun(run', steps') && OnlyNode(Last(run), Last(run'), to)
    ensures Shows(Last(run'), from, role, t, votes) && Shows(Last(run'), to, Follower, t, votes2[to := from + 1])
    ensures Answer(Call(from, to, RVRequest(t, from + 1, 0, 0)), RVResponse(t, true)) in Last(run').answers
    ensures AllTimely(run, steps) ==> AllTimely(run', steps')
    ensures AllAtomic(run, steps) ==> AllAtomic(run', steps')
  {
    var s := Last(run);
    hide Do;
    hide IsRun;
    hide Shows;
    hide AllTimely;
    hide AllAtomic;
    assert to < 3 && Enabled(s, Ask(from, to)) by {
      AskEnabled(s, from, to, role, t, votes, role2, t2, votes2);
    }
    AskShows(s, from, to, role, t, votes);
    run', steps' := Extend(run, steps, Ask(from, to));
    var s1 := Last(run');
    SameNodesShow(s, s1, to, role2, t2, votes2);
    SameNodesShow(s, s1, from, role, t, votes);
    VoteShows(s1, from, to, t, role2, t2, votes2);
    run', steps' := Extend(run', steps', Vote(Call(from, to, RVRequest(t, from + 1, 0, 0))));
    StillShows(s1, Last(run'), to, from, role, t, votes);
  }

  lemma AskEnabled(s: Sys, from: nat, to: nat, role: Role, t: nat, votes: seq<nat>, role2: Role, t2: nat,
                   votes2: seq<nat>)
    requires from != to && Shows(s, from, role, t, votes) && Shows(s, to, role2, t2, votes2)
    ensures from < 3 && to < 3 && Enabled(s, Ask(from, to))
  {}

  lemma SameNodesShow(s: Sys, s': Sys, i: nat, role: Role, term: nat, votes: seq<nat>)
    requires s'.nodes == s.nodes && Shows(s, i, role, term, votes)
    ensures Shows(s', i, role, term, votes)
  {}

  lemma Expires(run: seq<Sys>, steps: seq<Step>, i: nat, role: Role, t: nat, votes: seq<nat>)
    returns (run': seq<Sys>, steps': seq<Step>)
    requires IsRun(run, steps) && Shows(Last(run), i, role, t, votes) && !role.Leader?
    ensures IsRun(run', steps') && OnlyNode(Last(run), Last(run'), i)
    ensures Shows(Last(run'), i, Candidate, t + 1, [0, 0, 0][i := i + 1])
    ensures AllTimely(run, steps) ==> AllTimely(run', steps')
    ensures AllAtomic(run, steps) ==> AllAtomic(run', steps')
  {
    var s := Last(run);
    hide Do;
    hide Shows;
    hide IsRun;
    hide AllTimely;
    hide AllAtomic;
    ExpireShows(s, i, role, t, votes);
    run', steps' := Extend(run, steps, Expire(i));
  }

  /** Node `from` takes the reply of node `to` to a request of term `asked`. */
  lemma Counts(run: seq<Sys>, steps: seq<Step>, from: nat, to: nat, asked: nat, role: Role, t: nat, votes: seq<nat>)
    returns (run': seq<Sys>, steps': seq<Step>)
    requires IsRun(run, steps) && Shows(Last(run), from, role, t, votes) && asked <= t && to < 3 && to != from
    requires Answer(Call(from, to, RVRequest(asked, from + 1, 0, 0)), RVResponse(asked, true)) in Last(run).answers
    ensures IsRun(run', steps') && OnlyNode(Last(run), Last(run'), from)
    ensures Shows(Last(run'), from, role, t, votes[to := from + 1])
    ensures AllTimely(run, steps) && asked == t ==> AllTimely(run', steps')
    ensures AllAtomic(run, steps) ==> AllAtomic(run', steps')
  {
    var s := Last(run);
    assert from < 3 && s.nodes[from].currentTerm == t;
    hide Do;
    hide Shows;
    hide IsRun;
    hide AllTimely;
    hide AllAtomic;
    CountShows(s, from, to, asked, role, t, votes);
    run', steps' := Extend(run, steps,
                           Count(Answer(Call(from, to, RVRequest(asked, from + 1, 0, 0)), RVResponse(asked, true))));
  }

  lemma Leads(run: seq<Sys>, steps: seq<Step>, i: nat, read: Reader, role: Role, t: nat, votes: seq<nat>)
    returns (run': seq<Sys>, steps': seq<Step>)
    requires IsRun(run, steps) && Shows(Last(run), i, role, t, votes)
    requires TwoFor(votes, i + 1)
    ensures IsRun(run', steps') && OnlyNode(Last(run), Last(run'), i)
    ensures i < |Last(run').nodes| == 3 && Last(run').nodes[i].role.Leader? && Last(run').nodes[i].currentTerm == t
    ensures AllTimely(run, steps) ==> AllTimely(run', steps')
    ensures AllAtomic(run, steps) && role.Candidate? ==> AllAtomic(run', steps')
  {
    var s := Last(run);
    assert |s.nodes| == 3 && i < 3 && s.nodes[i].role == role;
    hide Do;
    hide Shows;
    hide IsRun;
    hide AllTimely;
    hide AllAtomic;
    LeadShows(s, i, read, role, t, votes);
    run', steps' := Extend(run, steps, Lead(i, read));
  }

  /** A vote reply is compared with the term of its request only. Node 0 asks in term 1, times out into term
      2, then takes the late reply as a vote for term 2; nodes 1 and 2 elect node 1 in term 2 as well. */
  lemma LateReplyMakesTwoLeaders(read: Reader) returns (run: seq<Sys>, steps: seq<Step>)
    ensures IsRun(run, steps) && AllAtomic(run, steps)
    ensures var s := run[|run| - 1];
            && |s.nodes| == 3 && s.nodes[0].role.Leader? && s.nodes[1].role.Leader?
            && s.nodes[0].currentTerm == 2 && s.nodes[1].currentTerm == 2
  {
    hide NodeOk;
    hide Shows;
    hide AllAtomic;
    hide AllTimely;
    hide Init;
    hide Enabled;
    hide Do;
    assert [0, 0, 0][0 := 1] == [1, 0, 0] && [1, 0, 0][1 := 1] == [1, 1, 0];
    assert [0, 0, 0][1 := 1] == [0, 1, 0] && [0, 0, 0][1 := 2] == [0, 2, 0] && [0, 2, 0][2 := 2] == [0, 2, 2];
    run, steps := Begin();
    var s0 := Last(run);
    run, steps := Expires(run, steps, 0, Follower, 0, [0, 0, 0]);
    var s1 := Last(run);
    StillShows(s0, s1, 0, 1, Follower, 0, [0, 0, 0]);
    StillShows(s0, s1, 0, 2, Follower, 0, [0, 0, 0]);
    run, steps := Poll(run, steps, 0, 1, Candidate, 1, [1, 0, 0], Follower, 0, [0, 0, 0]);
    var s2 := Last(run);
    StillShows(s1, s2, 1, 2, Follower, 0, [0, 0, 0]);
    run, steps := Expires(run, steps, 0, Candidate, 1, [1, 0, 0]);
    var s3 := Last(run);
    StillShows(s2, s3, 0, 1, Follower, 1, [0, 1, 0]);
    StillShows(s2, s3, 0, 2, Follower, 0, [0, 0, 0]);
    run, steps := Counts(run, steps, 0, 1, 1, Candidate, 2, [1, 0, 0]);
    var s4 := Last(run);
    StillShows(s3, s4, 0, 1, Follower, 1, [0, 1, 0]);
    StillShows(s3, s4, 0, 2, Follower, 0, [0, 0, 0]);
    run, steps := Leads(run, steps, 0, read, Candidate, 2, [1, 1, 0]);
    var s5 := Last(run);
    StillShows(s4, s5, 0, 1, Follower, 1, [0, 1, 0]);
    StillShows(s4, s5, 0, 2, Follower, 0, [0, 0, 0]);
    run, steps := Expires(run, steps, 1, Follower, 1, [0, 1, 0]);
    var s6 := Last(run);
    StillShows(s5, s6, 1, 2, Follower, 0, [0, 0, 0]);
    run, steps := Poll(run, steps, 1, 2, Candidate, 2, [0, 2, 0], Follower, 0, [0, 0, 0]);
    run, steps := Counts(run, steps, 1, 2, 2, Candidate, 2, [0, 2, 0]);
    run, steps := Leads(run, steps, 1, read, Candidate, 2, [0, 2, 2]);
  }

  /** Node 0 has won term 1, but has not been promoted yet. */
  lemma WinsTermOne() returns (run: seq<Sys>, steps: seq<Step>)
    ensures IsRun(run, steps) && AllTimely(run, steps)
    ensures Shows(Last(run), 0, Candidate, 1, [1, 1, 1]) && Shows(Last(run), 1, Follower, 1, [0, 1, 0])
  {
    hide NodeOk;
    hide Shows;
    hide AllAtomic;
    hide AllTimely;
    hide Init;
    hide Enabled;
    hide Do;
    assert [0, 0, 0][0 := 1] == [1, 0, 0] && [1, 0, 0][1 := 1] == [1, 1, 0] && [1, 1, 0][2 := 1] == [1, 1, 1];
    assert [0, 0, 0][1 := 1] == [0, 1, 0];
    run, steps := Begin();
    var s0 := Last(run);
    run, steps := Expires(run, steps, 0, Follower, 0, [0, 0, 0]);
    var s1 := Last(run);
    StillShows(s0, s1, 0, 1, Follower, 0, [0, 0, 0]);
    StillShows(s0, s1, 0, 2, Follower, 0, [0, 0, 0]);
    run, steps := Poll(run, steps, 0, 1, Candidate, 1, [1, 0, 0], Follower, 0, [0, 0, 0]);
    var s2 := Last(run);
    StillShows(s1, s2, 1, 2, Follower, 0, [0, 0, 0]);
    run, steps := Poll(run, steps, 0, 2, Candidate, 1, [1, 0, 0], Follower, 0, [0, 0, 0]);
    var s3 := Last(run);
    StillShows(s2, s3, 2, 1, Follower, 1, [0, 1, 0]);
    run, steps := Counts(run, steps, 0, 1, 1, Candidate, 1, [1, 0, 0]);
    var s4 := Last(run);
    StillShows(s3, s4, 0, 1, Follower, 1, [0, 1, 0]);
    run, steps := Counts(run, steps, 0, 2, 1, Candidate, 1, [1, 1, 0]);
    var s5 := Last(run);
    StillShows(s4, s5, 0, 1, Follower, 1, [0, 1, 0]);
  }

  /** become_leader does not look at the role again. Node 0 wins term 1, but before it is promoted it moves to
      term 2 as a follower and votes for node 1; the votes it counted for term 1 then make it leader of term 2,
      which node 1 wins too. */
  lemma StaleRoleMakesTwoLeaders(read: Reader) returns (run: seq<Sys>, steps: seq<Step>)
    ensures IsRun(run, steps) && AllTimely(run, steps)
    ensures var s := run[|run| - 1];
            && |s.nodes| == 3 && s.nodes[0].role.Leader? && s.nodes[1].role.Leader?
            && s.nodes[0].currentTerm == 2 && s.nodes[1].currentTerm == 2
  {
    hide NodeOk;
    hide Shows;
    hide AllAtomic;
    hide AllTimely;
    hide Init;
    hide Enabled;
    hide Do;
    assert [0, 0, 0][1 := 2] == [0, 2, 0] && [0, 2, 0][0 := 2] == [2, 2, 0] && [1, 1, 1][0 := 2] == [2, 1, 1];
    run, steps := WinsTermOne();
    var s5 := Last(run);
    run, steps := Expires(run, steps, 1, Follower, 1, [0, 1, 0]);
    var s6 := Last(run);
    StillShows(s5, s6, 1, 0, Candidate, 1, [1, 1, 1]);
    run, steps := Poll(run, steps, 1, 0, Candidate, 2, [0, 2, 0], Candidate, 1, [1, 1, 1]);
    var s7 := Last(run);
    run, steps := Leads(run, steps, 0, read, Follower, 2, [2, 1, 1]);
    var s8 := Last(run);
    StillShows(s7, s8, 0, 1, Candidate, 2, [0, 2, 0]);
    run, steps := Counts(run, steps, 1, 0, 2, Candidate, 2, [0, 2, 0]);
    run, steps := Leads(run, steps, 1, read, Candidate, 2, [2, 2, 0]);
  }

  // ---------------------------------------------------------------- the tests that would be exact

  /** A granted reply is about to be counted: asked for in term `asked`, by a candidate that is now in term `cur`. */
  ghost predicate AboutToCount(s: Sys, a: Answer, asked: nat, cur: nat) {
    && Inv(s) && Enabled(s, Count(a)) && a.rsp.voteGranted && a.rsp.term <= cur && a.call.req.term == asked
    && s.nodes[a.call.from].role.Candidate? && s.nodes[a.call.from].currentTerm == cur
  }

  ghost predicate StaysGenuine(s: Sys, a: Answer) {
    Enabled(s, Count(a)) && NodeOk(Do(s, Count(a)), a.call.from) && CountsOk(Do(s, Count(a)), a.call.from)
  }

  /** The test the worker could make is exact: counting a reply is safe in every situation if and only if the
      request was made in the candidate's current term. */
  lemma CurrentTermTestIsExact(asked: nat, cur: nat)
    requires asked <= cur
    ensures (forall s: Sys, a: Answer :: AboutToCount(s, a, asked, cur) ==> StaysGenuine(s, a)) <==> asked == cur
  {
    if asked == cur {
      forall s: Sys, a: Answer | AboutToCount(s, a, asked, cur) ensures StaysGenuine(s, a) {
        CountedVoteGenuineIff(s, a);
      }
    } else {
      var s, a := LateCase(asked, cur);
      CountedVoteGenuineIff(s, a);
    }
  }

  ghost function Voted(i: nat, role: Role, term: nat, votes: seq<nat>): Node
    requires i < 3 && |votes| == 3
  {
    StartNode(i).(role := role, currentTerm := term,
                  cluster := [Member(0, 0, votes[0], false), Member(0, 0, votes[1], false),
                              Member(0, 0, votes[2], false)],
                  persistedInit := true, persistedTerm := term, persistedVotedFor := votes[i],
                  diskTerm := term, diskVotedFor := votes[i])
  }

  /** Node 0 is a candidate in term `cur`; node 1 voted for it in term `asked` and has not voted since. */
  lemma LateCase(asked: nat, cur: nat) returns (s: Sys, a: Answer)
    requires asked < cur
    ensures AboutToCount(s, a, asked, cur) && Grant(a.call.to, cur, s.nodes[a.call.from].id) !in s.grants
  {
    var call := Call(0, 1, RVRequest(asked, 1, 0, 0));
    a := Answer(call, RVResponse(asked, true));
    var n0, n1, n2 := Voted(0, Candidate, cur, [1, 0, 0]), Voted(1, Follower, asked, [0, 1, 0]), StartNode(2);
    s := Sys([n0, n1, n2], {call}, {a}, {Grant(0, cur, 1), Grant(1, asked, 1)}, {});
    assert s.nodes[0] == n0 && s.nodes[1] == n1 && s.nodes[2] == n2;
    forall i | 0 <= i < 3
      ensures NodeOk(s, i) && s.nodes[i].id > 0 && Durable(s.nodes[i]) && VoteRecorded(s, i) && CountsOk(s, i) {}
  }

  /** A node with enough recorded votes is about to be promoted. */
  ghost predicate AboutToLead(s: Sys, i: nat, role: Role) {
    Inv(s) && i < |s.nodes| && NodeOk(s, i) && s.nodes[i].role == role && Elected(s.nodes[i])
  }

  ghost predicate StaysBacked(s: Sys, i: nat, read: Reader) {
    && Enabled(s, Lead(i, read))
    && i < |s.nodes|
    && LeadershipOk(Do(s, Lead(i, read)), Leadership(s.nodes[i].currentTerm, i))
  }

  /** The test `become_leader` could make is exact too: promotion is backed by a majority of votes of the node's term
      in every situation if and only if the node is not a follower. */
  lemma RoleTestIsExact(role: Role, read: Reader)
    ensures (forall s: Sys, i: nat :: AboutToLead(s, i, role) ==> StaysBacked(s, i, read)) <==> !role.Follower?
  {
    if role.Follower? {
      var s := FollowerCase();
      assert !StaysBacked(s, 0, read) by {
        NobodyVoted(s, read);
      }
    } else {
      forall s: Sys, i: nat | AboutToLead(s, i, role) ensures StaysBacked(s, i, read) {
        BackedUnlessFollower(s, i, role, read);
      }
    }
  }

  lemma BackedUnlessFollower(s: Sys, i: nat, role: Role, read: Reader)
    requires AboutToLead(s, i, role) && !role.Follower?
    ensures StaysBacked(s, i, read)
  {
    hide BecomeLeader;
    hide Elected;
    var l := Leadership(s.nodes[i].currentTerm, i);
    StepKeepsVotes(s, Lead(i, read));
    if role.Candidate? {
      LeadKeeps(s, i, read);
      assert l in Do(s, Lead(i, read)).leaders;
    } else {
      assert LeadershipOk(s, l);
      LeadMoves(s, i, read);
      GrantsGrow(s, Do(s, Lead(i, read)), i);
      VotersGrow(s.grants, Do(s, Lead(i, read)).grants, l.term, s.nodes[i].id, |s.nodes|);
      BecomeLeaderBallot(s.nodes[i], read);
    }
  }

  /** Node 0 is a follower of term 2 that still has two votes of an earlier election on record; nobody voted in
      term 2. */
  lemma FollowerCase() returns (s: Sys)
    ensures AboutToLead(s, 0, Follower) && s.grants == {} && |s.nodes| == 3 && s.nodes[0].currentTerm == 2
  {
    var n0 := Voted(0, Follower, 2, [0, 1, 1]);
    s := Sys([n0, StartNode(1), StartNode(2)], {}, {}, {}, {});
    assert s.nodes[0] == n0 && s.nodes[1] == StartNode(1) && s.nodes[2] == StartNode(2);
    forall i | 0 <= i < 3
      ensures NodeOk(s, i) && s.nodes[i].id > 0 && Durable(s.nodes[i]) && VoteRecorded(s, i) && CountsOk(s, i) {}
    assert Supporters(n0, 0) == 0 && Supporters(n0, 1) == 0 && Supporters(n0, 2) == 1 && Supporters(n0, 3) == 2;
  }

  lemma NobodyVoted(s: Sys, read: Reader)
    requires AboutToLead(s, 0, Follower) && s.grants == {}
    ensures Enabled(s, Lead(0, read)) && !LeadershipOk(Do(s, Lead(0, read)), Leadership(s.nodes[0].currentTerm, 0))
  {
    hide BecomeLeader;
    var l, s' := Leadership(s.nodes[0].currentTerm, 0), Do(s, Lead(0, read));
    assert s'.grants == {};
    BecomeLeaderBallot(s.nodes[0], read);
    assert Voters({}, l.term, s'.nodes[0].id, |s'.nodes|) == {};
  }
}
