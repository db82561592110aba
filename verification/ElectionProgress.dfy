/** Elections can succeed: from every state of every run some server can still become leader. */
module ElectionProgress {
  import opened Basics
  import opened Types
  import opened Commit
  import opened Election
  import opened ElectionRuns

  lemma GoOn(run: seq<Sys>, steps: seq<Step>, step: Step) returns (run': seq<Sys>, steps': seq<Step>)
    requires |run| > 0 && IsRun(run, steps) && Enabled(run[|run| - 1], step)
    ensures IsRun(run', steps') && run' == run + [Do(run[|run| - 1], step)] && steps' == steps + [step]
  {
    hide Do;
    hide Enabled;
    hide Init;
    run', steps' := run + [Do(run[|run| - 1], step)], steps + [step];
  }

  /** Same log, same identity. */
  predicate SameServer(n: Node, n': Node) {
    n'.log == n.log && n'.tailLogIndex == n.tailLogIndex && n'.id == n.id
  }

  ghost predicate SameServers(s: Sys, s': Sys) {
    |s'.nodes| == |s.nodes| && forall j :: 0 <= j < |s.nodes| ==> SameServer(s.nodes[j], s'.nodes[j])
  }

  /** The steps from position `from` on are taken in time and atomically. */
  ghost predicate CarefulFrom(run: seq<Sys>, steps: seq<Step>, from: nat) {
    |run| == |steps| + 1 &&
    forall k :: from <= k < |steps| ==> TimelyReply(run[k], steps[k]) && AtomicLoop(run[k], steps[k])
  }

  /** Every server finds server `i` up to date. */
  ghost predicate AllApprove(s: Sys, i: nat) {
    && i < |s.nodes| && (forall j :: 0 <= j < |s.nodes| ==> LogOk(s.nodes[j]))
    && forall j :: 0 <= j < |s.nodes| ==> UpToDate(s.nodes[j], VoteRequest(s.nodes[i]))
  }

  predicate OthersUpTo(s: Sys, i: nat, top: nat) {
    forall j :: 0 <= j < |s.nodes| && j != i ==> s.nodes[j].currentTerm <= top
  }

  predicate NobodyLeads(s: Sys) {
    forall j :: 0 <= j < |s.nodes| ==> !s.nodes[j].role.Leader?
  }

  // ---------------------------------------------------------------- the campaign

  /** Node `i` is a candidate in term `term`, later than everybody else's from `k` on, and has the votes of those in
      front of `k`. */
  ghost predicate Campaigns(s: Sys, i: nat, term: nat, k: nat) {
    && VoteInv(s) && i < |s.nodes| && NodeOk(s, i) && s.nodes[i].role.Candidate? && s.nodes[i].currentTerm == term
    && (forall j :: 0 <= j < |s.nodes| && (j < k || j == i) ==> s.nodes[i].cluster[j].votedFor == s.nodes[i].id)
    && (forall j :: k <= j < |s.nodes| && j != i ==> s.nodes[j].currentTerm < term)
  }

  /** The timer of node `i` runs out until its term is later than every other one. */
  lemma {:induction false} Overtake(run: seq<Sys>, steps: seq<Step>, i: nat, top: nat)
    returns (run': seq<Sys>, steps': seq<Step>)
    requires |run| > 0 && IsRun(run, steps) && i < |run[|run| - 1].nodes| && !run[|run| - 1].nodes[i].role.Leader?
    requires OthersUpTo(run[|run| - 1], i, top)
    ensures |run'| > |run| && IsRun(run', steps') && run <= run' && CarefulFrom(run', steps', |steps|)
    ensures steps <= steps' && |steps| + 1 == |run|
    ensures SameServers(run[|run| - 1], run'[|run'| - 1])
    ensures run'[|run'| - 1].nodes[i].currentTerm > top
    ensures Campaigns(run'[|run'| - 1], i, run'[|run'| - 1].nodes[i].currentTerm, 0)
    decreases top + 1 - run[|run| - 1].nodes[i].currentTerm
  {
    hide VoteInv;
    hide Do;
    hide Init;
    var s := run[|run| - 1];
    RunKeepsVotes(run, steps, |run| - 1);
    AllWell(s, i);
    run', steps' := GoOn(run, steps, Expire(i));
    var s1 := run'[|run|];
    RunKeepsVotes(run', steps', |run|);
    Expired(s, i);
    if s1.nodes[i].currentTerm <= top {
      run', steps' := Overtake(run', steps', i, top);
    }
  }

  lemma AllWell(s: Sys, i: nat)
    requires VoteInv(s) && i < |s.nodes|
    ensures NodeOk(s, i) && Durable(s.nodes[i]) && s.nodes[i].id > 0
  {}

  lemma Expired(s: Sys, i: nat)
    requires VoteInv(s) && Enabled(s, Expire(i))
    ensures var s' := Do(s, Expire(i));
            && SameServers(s, s') && i < |s'.nodes| && NodeOk(s', i) && s'.nodes[i].role.Candidate?
            && s'.nodes[i].currentTerm == s.nodes[i].currentTerm + 1
            && s'.nodes[i].cluster[i].votedFor == s'.nodes[i].id
            && forall j :: 0 <= j < |s.nodes| && j != i ==> s'.nodes[j] == s.nodes[j]
  {
    TimeoutBegins(s.nodes[i]);
  }

  /** One peer is asked and answers. */
  lemma AskOne(run: seq<Sys>, steps: seq<Step>, i: nat, term: nat, k: nat)
    returns (run': seq<Sys>, steps': seq<Step>)
    requires |run| > 0 && IsRun(run, steps) && Campaigns(run[|run| - 1], i, term, k)
    requires k < |run[|run| - 1].nodes| && k != i
    requires LogOk(run[|run| - 1].nodes[k]) && LogOk(run[|run| - 1].nodes[i])
    requires UpToDate(run[|run| - 1].nodes[k], VoteRequest(run[|run| - 1].nodes[i]))
    ensures |run'| == |run| + 3 && IsRun(run', steps') && run <= run' && CarefulFrom(run', steps', |steps|)
    ensures steps <= steps' && SameServers(run[|run| - 1], run'[|run| + 2])
    ensures Campaigns(run'[|run| + 2], i, term, k + 1)
  {
    hide VoteInv;
    hide Do;
    hide Init;
    hide HandleVote;
    hide UpToDate;
    var s := run[|run| - 1];
    AllWell(s, i);
    AllWell(s, k);
    run', steps' := GoOn(run, steps, Ask(i, k));
    Asked(s, i, k);
    var s1, call := run'[|run|], Call(i, k, VoteRequest(s.nodes[i]));
    RunKeepsVotes(run', steps', |run|);
    run', steps' := GoOn(run', steps', Vote(call));
    var answer := Answer(call, HandleVote(s.nodes[k], call.req).1);
    VotedYes(s1, i, call, term);
    var s2 := run'[|run| + 1];
    RunKeepsVotes(run', steps', |run| + 1);
    AllWell(s2, i);
    run', steps' := GoOn(run', steps', Count(answer));
    RunKeepsVotes(run', steps', |run| + 2);
    CountedYes(s2, answer, i, term);
    AllWell(run'[|run| + 2], i);
  }

  lemma Asked(s: Sys, i: nat, k: nat)
    requires Enabled(s, Ask(i, k))
    ensures Do(s, Ask(i, k)).nodes == s.nodes
    ensures Call(i, k, VoteRequest(s.nodes[i])) in Do(s, Ask(i, k)).calls
  {}

  lemma VotedYes(s: Sys, i: nat, call: Call, term: nat)
    requires VoteInv(s) && Enabled(s, Vote(call)) && i < |s.nodes| && NodeOk(s, i) && call.to != i
    requires call.req == VoteRequest(s.nodes[i]) && s.nodes[i].currentTerm == term
    requires s.nodes[call.to].currentTerm < term && UpToDate(s.nodes[call.to], call.req)
    ensures var s', rsp := Do(s, Vote(call)), HandleVote(s.nodes[call.to], call.req).1;
            && rsp == RVResponse(term, true) && Answer(call, rsp) in s'.answers && SameServers(s, s')
            && forall j :: 0 <= j < |s.nodes| && j != call.to ==> s'.nodes[j] == s.nodes[j]
  {
    VoteGrantedIff(s.nodes[call.to], s.nodes[i]);
    UpToDateIsOrder(s.nodes[call.to], s.nodes[i], s.nodes[i]);
  }

  lemma CountedYes(s: Sys, a: Answer, i: nat, term: nat)
    requires VoteInv(s) && Enabled(s, Count(a)) && a.call.from == i && s.nodes[i].currentTerm == term == a.call.req.term
    requires a.rsp == RVResponse(term, true) && a.call.to != i
    ensures var s' := Do(s, Count(a));
            && SameServers(s, s') && (forall j :: 0 <= j < |s.nodes| && j != i ==> s'.nodes[j] == s.nodes[j])
            && s'.nodes[i].role == s.nodes[i].role && s'.nodes[i].currentTerm == term
            && |s'.nodes[i].cluster| == |s.nodes[i].cluster|
            && s'.nodes[i].cluster[a.call.to].votedFor == s.nodes[i].id
            && forall j :: 0 <= j < |s.nodes[i].cluster| && j != a.call.to ==>
                 s'.nodes[i].cluster[j] == s.nodes[i].cluster[j]
  {
    CountedTerm(s.nodes[i], a.call.to, a.call.req, a.rsp);
  }

  /** All of them, one after the other. */
  lemma {:induction false} AskAll(run: seq<Sys>, steps: seq<Step>, i: nat, term: nat, k: nat)
    returns (run': seq<Sys>, steps': seq<Step>)
    requires |run| > 0 && IsRun(run, steps) && Campaigns(run[|run| - 1], i, term, k) && k <= |run[|run| - 1].nodes|
    requires AllApprove(run[|run| - 1], i)
    ensures |run'| >= |run| && IsRun(run', steps') && run <= run' && CarefulFrom(run', steps', |steps|)
    ensures steps <= steps' && SameServers(run[|run| - 1], run'[|run'| - 1])
    ensures Campaigns(run'[|run'| - 1], i, term, |run[|run| - 1].nodes|)
    decreases |run[|run| - 1].nodes| - k
  {
    hide VoteInv;
    hide Do;
    hide Init;
    hide Enabled;
    var s := run[|run| - 1];
    if k == |s.nodes| {
      run', steps' := run, steps;
    } else if k == i {
      run', steps' := AskAll(run, steps, i, term, k + 1);
    } else {
      run', steps' := AskOne(run, steps, i, term, k);
      var s1 := run'[|run| + 2];
      StillUpToDate(s, s1, i);
      run', steps' := AskAll(run', steps', i, term, k + 1);
    }
  }

  lemma StillUpToDate(s: Sys, s': Sys, i: nat)
    requires SameServers(s, s') && AllApprove(s, i)
    ensures AllApprove(s', i)
  {
    forall j | 0 <= j < |s'.nodes| ensures LogOk(s'.nodes[j]) && UpToDate(s'.nodes[j], VoteRequest(s'.nodes[i])) {
      assert SameServer(s.nodes[j], s'.nodes[j]) && SameServer(s.nodes[i], s'.nodes[i]);
      assert UpToDate(s.nodes[j], VoteRequest(s.nodes[i]));
    }
  }

  lemma AllVotesElect(s: Sys, i: nat, term: nat)
    requires Campaigns(s, i, term, |s.nodes|)
    ensures Elected(s.nodes[i])
  {
    var n := s.nodes[i];
    SupportersAreBackers(n, |n.cluster|);
    assert Backers(n, |n.cluster|) == UpTo(|n.cluster|);
  }

  /** Any state of any run can go on to a promotion: a server that does not lead and that all others find up to date
      can always be elected, by steps that are timely and atomic, in a term later than all that went before. */
  lemma UpToDateServerCanLead(run: seq<Sys>, steps: seq<Step>, i: nat, read: Reader)
    returns (run': seq<Sys>, steps': seq<Step>)
    requires |run| > 0 && IsRun(run, steps) && i < |run[|run| - 1].nodes| && !run[|run| - 1].nodes[i].role.Leader?
    requires AllApprove(run[|run| - 1], i)
    ensures |run'| > |run| && IsRun(run', steps') && run <= run' && CarefulFrom(run', steps', |steps|)
    ensures var s, s' := run[|run| - 1], run'[|run'| - 1];
            && |s'.nodes| == |s.nodes| && s'.nodes[i].role.Leader?
            && Leadership(s'.nodes[i].currentTerm, i) in s'.leaders
            && forall j :: 0 <= j < |s.nodes| ==> s.nodes[j].currentTerm < s'.nodes[i].currentTerm
  {
    hide VoteInv;
    hide Do;
    hide Init;
    hide BecomeLeader;
    hide Elected;
    hide UpToDate;
    var s := run[|run| - 1];
    var top := TopTerm(s.nodes);
    run', steps' := Overtake(run, steps, i, top);
    var s1 := run'[|run'| - 1];
    StillUpToDate(s, s1, i);
    run', steps' := AskAll(run', steps', i, s1.nodes[i].currentTerm, 0);
    var s2 := run'[|run'| - 1];
    AllVotesElect(s2, i, s1.nodes[i].currentTerm);
    RunKeepsVotes(run', steps', |run'| - 1);
    AllWell(s2, i);
    assert s2.nodes[i].role.Candidate?;
    run', steps' := GoOn(run', steps', Lead(i, read));
    BecomeLeaderBallot(s2.nodes[i], read);
    Led(s2, i, read);
  }

  lemma Led(s: Sys, i: nat, read: Reader)
    requires Enabled(s, Lead(i, read)) && Elected(s.nodes[i])
    ensures var s' := Do(s, Lead(i, read));
            && |s'.nodes| == |s.nodes| && s'.nodes[i] == BecomeLeader(s.nodes[i], read)
            && Leadership(s.nodes[i].currentTerm, i) in s'.leaders
  {
    hide BecomeLeader;
    hide Elected;
  }

  lemma {:induction false} TopTerm(nodes: seq<Node>) returns (top: nat)
    ensures forall j :: 0 <= j < |nodes| ==> nodes[j].currentTerm <= top
  {
    top := 0;
    if nodes != [] {
      var t := TopTerm(nodes[..|nodes| - 1]);
      top := Max(t, nodes[|nodes| - 1].currentTerm);
      forall j | 0 <= j < |nodes| ensures nodes[j].currentTerm <= top {
        assert j < |nodes| - 1 ==> nodes[..|nodes| - 1][j] == nodes[j];
      }
    }
  }

  lemma AllLogsWell(s: Sys)
    requires VoteInv(s)
    ensures forall j :: 0 <= j < |s.nodes| ==> LogOk(s.nodes[j])
  {
    forall j | 0 <= j < |s.nodes| ensures LogOk(s.nodes[j]) {
      AllWell(s, j);
    }
  }

  lemma NotEmpty(run: seq<Sys>, steps: seq<Step>)
    requires IsRun(run, steps)
    ensures run[0].nodes != []
  {
    hide Do;
    hide Enabled;
  }

  /** So an election can succeed whenever nobody leads. */
  lemma ElectionCanSucceed(run: seq<Sys>, steps: seq<Step>, read: Reader)
    returns (run': seq<Sys>, steps': seq<Step>, i: nat)
    requires |run| > 0 && IsRun(run, steps)
    requires NobodyLeads(run[|run| - 1])
    ensures |run'| > |run| && IsRun(run', steps') && run <= run' && CarefulFrom(run', steps', |steps|)
    ensures var s' := run'[|run'| - 1];
            && i < |s'.nodes| && s'.nodes[i].role.Leader? && Leadership(s'.nodes[i].currentTerm, i) in s'.leaders
  {
    hide Do;
    hide VoteInv;
    hide Enabled;
    RunKeepsVotes(run, steps, |run| - 1);
    NotEmpty(run, steps);
    var s := run[|run| - 1];
    AllLogsWell(s);
    i := SomeoneIsUpToDate(s.nodes);
    run', steps' := UpToDateServerCanLead(run, steps, i, read);
  }
}
