/** An election nobody interferes with: whoever stands with a log that is up to date against
    those of a bare majority leads the next term when the last of them has answered. For
    every cluster size and from any state of any run. */
module Winning {
  import opened Protocol
  import opened RaftSteps
  import opened Runtime
  import opened RoleStructure
  import opened Cluster
  import opened Quorums
  import opened Histories
  import opened CoreInvariant
  import opened CoreSteps
  import opened Runs
  import opened Safety
  import opened Voting

  /** The request reaches the voter, its reply reaches the candidate. */
  function VoteLabels(call: RequestVote, v: NodeId): seq<Label> {
    [Exec(v, Receive(VoteRequest(call))),
     Exec(call.candidateId, Receive(VoteReply(RequestVoteResponse(call.term, true, v))))]
  }

  function BallotLabels(call: RequestVote, vs: seq<NodeId>): seq<Label> {
    if vs == [] then []
    else BallotLabels(call, vs[..|vs| - 1]) + VoteLabels(call, vs[|vs| - 1])
  }

  /** The timer fires and the voters are asked and answer one after the other. */
  function ElectionLabels(call: RequestVote, vs: seq<NodeId>): seq<Label> {
    [Exec(call.candidateId, ElectionTimeout)] + BallotLabels(call, vs)
  }

  lemma {:induction false} PerformConcat(ids: seq<NodeId>, rule: AckRule, s: System, s1: System,
                                         a: seq<Label>, b: seq<Label>)
    requires Perform(ids, rule, s, a) == Some(s1)
    ensures Perform(ids, rule, s, a + b) == Perform(ids, rule, s1, b)
    decreases |a|
  {
    hide Enabled, Do;
    if a == [] {
      assert a + b == b;
    } else {
      PerformConcat(ids, rule, Do(ids, rule, s, a[0]), s1, a[1..], b);
      assert (a + b)[1..] == a[1..] + b;
    }
  }

  /** The voters: distinct peers that have not passed the candidate's term and whose logs its
      own beats. */
  predicate Willing(s: System, a: NodeId, vs: seq<NodeId>) {
    && a in s.hosts
    && (forall i, j | 0 <= i < j < |vs| :: vs[i] != vs[j])
    && forall v | v in vs ::
         && v in s.hosts && v in s.hosts[a].raft.peers && v != a
         && s.hosts[v].raft.persistent.currentTerm <= s.hosts[a].raft.persistent.currentTerm
         && Beats(LogOf(s, a), LogOf(s, v))
  }

  /** Together with the candidate they are a majority, and one fewer would not be. */
  predicate BareMajority(votes: nat, peerCount: nat) {
    Majority(votes + 1, peerCount) && !Majority(votes, peerCount)
  }

  function Voters(vs: seq<NodeId>): set<NodeId> {
    set v | v in vs
  }

  /** `raft'` is `raft` as the candidate of `call` with the votes of `vs`. */
  ghost predicate CandidateWith(raft: RaftState, raft': RaftState, call: RequestVote,
                                vs: seq<NodeId>)
  {
    && raft'.id == call.candidateId && raft'.peers == raft.peers && RoleOK(raft')
    && raft'.persistent
       == PersistentState(call.term, Some(call.candidateId), raft.persistent.log)
    && raft'.role == Candidate
    && raft'.candidateState == Some(CandidateState({raft'.id} + Voters(vs),
                                                   {raft'.id} + Voters(vs)))
  }

  /** The candidate has the votes of `vs`; the voters still to be asked are as they were in
      `s`, and their requests are on the way. */
  ghost predicate Campaigning(s: System, s': System, call: RequestVote, vs: seq<NodeId>,
                              rest: seq<NodeId>)
  {
    && call.candidateId in s.hosts && s'.hosts.Keys == s.hosts.Keys
    && call == CallOf(s.hosts[call.candidateId].raft)
    && CandidateWith(s.hosts[call.candidateId].raft, s'.hosts[call.candidateId].raft, call, vs)
    && forall v | v in rest ::
         v in s.hosts && s'.hosts[v] == s.hosts[v] && Packet(v, VoteRequest(call)) in s'.network
  }

  lemma SentPackets(actions: seq<Action>, p: Packet)
    ensures p in Sent(actions) <==> p in Packets(actions)
  {
  }

  // ── standing ────────────────────────────────────────────────────────────────

  lemma TimeoutEnabled(ids: seq<NodeId>, rule: AckRule, s: System, a: NodeId)
    requires CoreInv(ids, s) && a in s.hosts
    ensures Enabled(rule, s, Exec(a, ElectionTimeout)) && RoleOK(s.hosts[a].raft)
    ensures s.hosts[a].raft.id == a
  {
    CoreEventAfter(ids, s, a);
    hide CoreInv, HistoryOK, Step;
  }

  lemma TimeoutMakesCandidate(rule: AckRule, s: RaftState)
    requires RoleOK(s) && s.role != Leader && s.peers != []
    ensures CandidateWith(s, Step(rule, s, ElectionTimeout).state, CallOf(s), [])
  {
    TimeoutStands(s);
    StepKeepsStructure(rule, s, ElectionTimeout);
    hide HandleElectionTimeout, RoleOK;
    assert {s.id} + Voters([]) == {s.id};
  }

  lemma TimeoutAsks(rule: AckRule, s: RaftState, v: NodeId)
    requires VectorsFit(s) && s.role != Leader && v in s.peers
    ensures Packet(v, VoteRequest(CallOf(s))) in Packets(Step(rule, s, ElectionTimeout).actions)
  {
    TimeoutStands(s);
    var actions := HandleElectionTimeout(s).actions;
    hide HandleElectionTimeout;
    var i :| 0 <= i < |s.peers| && s.peers[i] == v;
    assert Sent(actions)[i] == Packet(v, VoteRequest(CallOf(s)));
    SentPackets(actions, Packet(v, VoteRequest(CallOf(s))));
  }

  lemma StandsForElection(ids: seq<NodeId>, rule: AckRule, s: System, a: NodeId, vs: seq<NodeId>)
    requires CoreInv(ids, s) && Willing(s, a, vs) && s.hosts[a].raft.role != Leader
    requires s.hosts[a].raft.peers != []
    ensures Enabled(rule, s, Exec(a, ElectionTimeout)) && s.hosts[a].raft.id == a
    ensures Campaigning(s, Do(ids, rule, s, Exec(a, ElectionTimeout)), CallOf(s.hosts[a].raft),
                        [], vs)
  {
    TimeoutEnabled(ids, rule, s, a);
    var raft := s.hosts[a].raft;
    TimeoutMakesCandidate(rule, raft);
    ExecEffect(ids, rule, s, a, ElectionTimeout);
    hide CoreInv, Do, Step, RoleOK, Enabled, Beats, CandidateWith, After, Packets;
    forall v | v in vs
      ensures Packet(v, VoteRequest(CallOf(raft))) in Packets(Step(rule, raft, ElectionTimeout).actions)
    {
      VectorsOf(raft);
      TimeoutAsks(rule, raft, v);
    }
  }

  lemma VectorsOf(s: RaftState)
    requires RoleOK(s)
    ensures VectorsFit(s)
  {
  }

  // ── one vote ────────────────────────────────────────────────────────────────

  lemma VoterGrants(s: RaftState, call: RequestVote, log: Log)
    requires s.persistent.currentTerm < call.term && Beats(log, s.persistent.log)
    requires call.lastLogTerm == LastLogTerm(log) && call.lastLogIndex == LastLogIndex(log)
    ensures Packet(call.candidateId, VoteReply(RequestVoteResponse(call.term, true, s.id)))
            in Packets(HandleRequestVote(s, call).actions)
  {
    VoteRequestIsAnswered(s, call);
    hide HandleRequestVote;
    SentPackets(HandleRequestVote(s, call).actions,
                Packet(call.candidateId, VoteReply(RequestVoteResponse(call.term, true, s.id))));
  }

  /** The vote counts, and decides if it completes a majority. */
  lemma VoteCounts(s: RaftState, call: RequestVote, vs: seq<NodeId>, v: NodeId)
    requires RoleOK(s) && s.role == Candidate && s.id == call.candidateId
    requires s.persistent.currentTerm == call.term && v in s.peers
    requires s.candidateState == Some(CandidateState({s.id} + Voters(vs), {s.id} + Voters(vs)))
    requires v != s.id && v !in vs && s.id !in vs
    requires forall i, j | 0 <= i < j < |vs| :: vs[i] != vs[j]
    ensures var s' := HandleVoteResponse(s, RequestVoteResponse(call.term, true, v)).state;
            && s'.persistent == s.persistent && s'.id == s.id && s'.peers == s.peers && RoleOK(s')
            && (if Majority(|vs| + 2, |s.peers|) then NewlyElected(s')
                else s'.role == Candidate && s'.candidateState
                     == Some(CandidateState({s.id} + Voters(vs + [v]), {s.id} + Voters(vs + [v]))))
  {
    var m := RequestVoteResponse(call.term, true, v);
    VoteReplyIsCounted(s, m);
    VotesKeepStructure(s, RequestVote(0, 0, 0, 0), m);
    VotersSize(vs);
    assert |{s.id} + Voters(vs)| == 1 + |vs|;
    assert |({s.id} + Voters(vs)) + {v}| == 2 + |vs|;
    assert Voters(vs + [v]) == Voters(vs) + {v};
    assert {s.id} + Voters(vs + [v]) == ({s.id} + Voters(vs)) + {v};
  }

  lemma {:induction false} VotersSize(vs: seq<NodeId>)
    requires forall i, j | 0 <= i < j < |vs| :: vs[i] != vs[j]
    ensures |Voters(vs)| == |vs|
  {
    if vs == [] {
      assert Voters(vs) == {};
    } else {
      var k := |vs| - 1;
      VotersSize(vs[..k]);
      assert vs == vs[..k] + [vs[k]];
      assert Voters(vs) == Voters(vs[..k]) + {vs[k]};
      assert vs[k] !in vs[..k];
    }
  }

  lemma PerformTwo(ids: seq<NodeId>, rule: AckRule, s: System, s1: System, l1: Label, l2: Label)
    requires Enabled(rule, s, l1) && s1 == Do(ids, rule, s, l1) && Enabled(rule, s1, l2)
    ensures Perform(ids, rule, s, [l1, l2]) == Some(Do(ids, rule, s1, l2))
  {
    hide Enabled, Do;
    assert [l1, l2][1..] == [l2] && [l2][1..] == [];
    assert Perform(ids, rule, s1, [l2]) == Some(Do(ids, rule, s1, l2));
  }

  lemma ReceiveEnabled(rule: AckRule, s: System, n: NodeId, msg: Message)
    requires n in s.hosts && VectorsFit(s.hosts[n].raft) && Packet(n, msg) in s.network
    ensures Enabled(rule, s, Exec(n, Receive(msg)))
  {
    hide Step;
  }

  lemma HostVectors(ids: seq<NodeId>, s: System, n: NodeId)
    requires CoreInv(ids, s) && n in s.hosts
    ensures VectorsFit(s.hosts[n].raft) && s.hosts[n].raft.id == n
  {
    CoreEventAfter(ids, s, n);
    assert RoleOK(s.hosts[n].raft);
    hide CoreInv, HistoryOK;
  }

  lemma CampaignFacts(s: System, s0: System, call: RequestVote, vs: seq<NodeId>, v: NodeId,
                      rest: seq<NodeId>)
    requires Campaigning(s, s0, call, vs, [v] + rest)
    ensures call.candidateId in s.hosts && call.candidateId in s0.hosts && v in s0.hosts
    ensures v in s.hosts && s0.hosts[v] == s.hosts[v] && Packet(v, VoteRequest(call)) in s0.network
    ensures var raft, raft0 := s.hosts[call.candidateId].raft, s0.hosts[call.candidateId].raft;
            && call == CallOf(raft) && call.term == raft.persistent.currentTerm + 1
            && call.lastLogTerm == LastLogTerm(raft.persistent.log)
            && call.lastLogIndex == LastLogIndex(raft.persistent.log)
            && RoleOK(raft0) && raft0.role == Candidate && raft0.id == call.candidateId
            && raft0.persistent.currentTerm == call.term && raft0.peers == raft.peers
            && raft0.persistent.log == raft.persistent.log
            && raft0.candidateState == Some(CandidateState({raft0.id} + Voters(vs),
                                                           {raft0.id} + Voters(vs)))
  {
    assert v in [v] + rest;
    hide RoleOK;
  }

  lemma CampaignGoesOn(s: System, s0: System, s1: System, s2: System, call: RequestVote,
                       vs: seq<NodeId>, v: NodeId, rest: seq<NodeId>)
    requires Campaigning(s, s0, call, vs, [v] + rest)
    requires v in s0.hosts && call.candidateId in s0.hosts && v != call.candidateId
    requires v in s1.hosts && s1.hosts == s0.hosts[v := s1.hosts[v]] && s0.network <= s1.network
    requires call.candidateId in s2.hosts && s1.network <= s2.network
    requires s2.hosts == s1.hosts[call.candidateId := s2.hosts[call.candidateId]]
    requires v !in rest && call.candidateId !in rest
    requires var raft0, raft2 := s0.hosts[call.candidateId].raft, s2.hosts[call.candidateId].raft;
             && raft2.persistent == raft0.persistent && raft2.id == raft0.id
             && raft2.peers == raft0.peers && RoleOK(raft2) && raft2.role == Candidate
             && raft2.candidateState == Some(CandidateState({raft0.id} + Voters(vs + [v]),
                                                            {raft0.id} + Voters(vs + [v])))
    ensures Campaigning(s, s2, call, vs + [v], rest)
  {
    hide RoleOK;
    assert forall u | u in rest :: u in [v] + rest;
  }

  /** One voter is asked and answers. */
  lemma OneVote(ids: seq<NodeId>, rule: AckRule, s: System, s0: System, call: RequestVote,
                vs: seq<NodeId>, v: NodeId, rest: seq<NodeId>) returns (s2: System)
    requires Config(ids) && CoreInv(ids, s0) && Willing(s, call.candidateId, vs + [v] + rest)
    requires Campaigning(s, s0, call, vs, [v] + rest)
    ensures Perform(ids, rule, s0, VoteLabels(call, v)) == Some(s2) && CoreInv(ids, s2)
    ensures call.candidateId in s.hosts && call.candidateId in s2.hosts
    ensures var raft, raft2 := s.hosts[call.candidateId].raft, s2.hosts[call.candidateId].raft;
            if Majority(|vs| + 2, |raft.peers|)
            then && NewlyElected(raft2) && raft2.persistent.currentTerm == call.term
                 && raft2.persistent.log == raft.persistent.log
            else Campaigning(s, s2, call, vs + [v], rest)
  {
    hide *;
    var a := call.candidateId;
    var reply := VoteReply(RequestVoteResponse(call.term, true, v));
    CampaignFacts(s, s0, call, vs, v, rest);
    WillingVoter(s, a, vs, v, rest);
    HostVectors(ids, s0, v);
    HostVectors(ids, s0, a);
    var raft := s0.hosts[a].raft;
    // the request
    ReceiveEnabled(rule, s0, v, VoteRequest(call));
    LogIs(s, a);
    LogIs(s, v);
    VoterGrants(s0.hosts[v].raft, call, LogOf(s, a));
    ExecEffect(ids, rule, s0, v, Receive(VoteRequest(call)));
    StepKeepsCore(ids, rule, s0, Exec(v, Receive(VoteRequest(call))));
    Dispatched(rule, s0.hosts[v].raft, raft, call, v);
    var s1 := Do(ids, rule, s0, Exec(v, Receive(VoteRequest(call))));
    // the reply
    ReceiveEnabled(rule, s1, a, reply);
    VoteCounts(raft, call, vs, v);
    ExecEffect(ids, rule, s1, a, Receive(reply));
    StepKeepsCore(ids, rule, s1, Exec(a, Receive(reply)));
    s2 := Do(ids, rule, s1, Exec(a, Receive(reply)));
    PerformTwo(ids, rule, s0, s1, Exec(v, Receive(VoteRequest(call))), Exec(a, Receive(reply)));
    LabelsOfVote(call, v);
    if !Majority(|vs| + 2, |raft.peers|) {
      CampaignGoesOn(s, s0, s1, s2, call, vs, v, rest);
    }
  }

  lemma LogIs(s: System, n: NodeId)
    requires n in s.hosts
    ensures LogOf(s, n) == s.hosts[n].raft.persistent.log
  {
  }

  lemma LabelsOfVote(call: RequestVote, v: NodeId)
    ensures VoteLabels(call, v) == [
      Exec(v, Receive(VoteRequest(call))),
      Exec(call.candidateId, Receive(VoteReply(RequestVoteResponse(call.term, true, v))))]
  {
  }

  lemma Dispatched(rule: AckRule, s: RaftState, c: RaftState, call: RequestVote, v: NodeId)
    requires VectorsFit(s) && VectorsFit(c)
    ensures Step(rule, s, Receive(VoteRequest(call))) == HandleRequestVote(s, call)
    ensures Step(rule, c, Receive(VoteReply(RequestVoteResponse(call.term, true, v))))
         == HandleVoteResponse(c, RequestVoteResponse(call.term, true, v))
  {
    hide HandleRequestVote, HandleVoteResponse;
  }

  lemma WillingVoter(s: System, a: NodeId, vs: seq<NodeId>, v: NodeId, rest: seq<NodeId>)
    requires Willing(s, a, vs + [v] + rest)
    ensures v in s.hosts && v in s.hosts[a].raft.peers && v != a && v !in vs && v !in rest
    ensures s.hosts[v].raft.persistent.currentTerm <= s.hosts[a].raft.persistent.currentTerm
    ensures Beats(LogOf(s, a), LogOf(s, v)) && a !in vs && a !in rest
    ensures forall i, j | 0 <= i < j < |vs| :: vs[i] != vs[j]
  {
    hide Beats;
    var all := vs + [v] + rest;
    assert all[|vs|] == v;
    assert forall i | 0 <= i < |vs| :: all[i] == vs[i];
    assert forall i | 0 <= i < |rest| :: all[|vs| + 1 + i] == rest[i];
    forall u | u in vs ensures u in all && u != v && u != a {
      var i :| 0 <= i < |vs| && vs[i] == u;
    }
    forall u | u in rest ensures u in all && u != v && u != a {
      var i :| 0 <= i < |rest| && rest[i] == u;
      assert all[|vs| + 1 + i] == u;
    }
    assert v in all;
  }

  // ── the whole election ──────────────────────────────────────────────────────

  /** The node leads `t`, newly, with `log`. */
  ghost predicate Elected(s: System, a: NodeId, t: Term, log: Log) {
    Leads(s, a, t) && NewlyElected(s.hosts[a].raft) && LogOf(s, a) == log
  }

  lemma SplitAt(all: seq<NodeId>, k: nat)
    requires 0 < k <= |all|
    ensures all[..k - 1] + [all[k - 1]] + all[k..] == all
    ensures [all[k - 1]] + all[k..] == all[k - 1..] && all[..k - 1] + [all[k - 1]] == all[..k]
  {
  }

  lemma BallotGrows(call: RequestVote, all: seq<NodeId>, k: nat)
    requires 0 < k <= |all|
    ensures BallotLabels(call, all[..k])
         == BallotLabels(call, all[..k - 1]) + VoteLabels(call, all[k - 1])
  {
    assert all[..k][..k - 1] == all[..k - 1];
  }

  lemma {:induction false} Campaign(ids: seq<NodeId>, rule: AckRule, s: System, s1: System,
                                    call: RequestVote, all: seq<NodeId>, k: nat)
    returns (sk: System)
    requires Config(ids) && CoreInv(ids, s1) && Willing(s, call.candidateId, all)
    requires k <= |all| && all != [] && Campaigning(s, s1, call, [], all)
    requires call.candidateId in s.hosts
    requires BareMajority(|all|, |s.hosts[call.candidateId].raft.peers|)
    ensures Perform(ids, rule, s1, BallotLabels(call, all[..k])) == Some(sk) && CoreInv(ids, sk)
    ensures k < |all| ==> Campaigning(s, sk, call, all[..k], all[k..])
    ensures k == |all| ==> Elected(sk, call.candidateId, call.term, LogOf(s, call.candidateId))
    decreases k
  {
    hide *;
    if k == 0 {
      sk := s1;
      BallotStarts(ids, rule, s1, call, all);
    } else {
      var before := Campaign(ids, rule, s, s1, call, all, k - 1);
      SplitAt(all, k);
      BallotGrows(call, all, k);
      sk := OneVote(ids, rule, s, before, call, all[..k - 1], all[k - 1], all[k..]);
      PerformConcat(ids, rule, s1, before, BallotLabels(call, all[..k - 1]),
                    VoteLabels(call, all[k - 1]));
      LastVoteDecides(|all|, k, |s.hosts[call.candidateId].raft.peers|);
      LogIs(s, call.candidateId);
      if k == |all| {
        ElectedMeans(sk, call.candidateId, call.term);
      }
    }
  }

  lemma BallotStarts(ids: seq<NodeId>, rule: AckRule, s: System, call: RequestVote,
                     all: seq<NodeId>)
    ensures all[..0] == [] && all[0..] == all
    ensures Perform(ids, rule, s, BallotLabels(call, [])) == Some(s)
  {
  }

  lemma LastVoteDecides(votes: nat, k: nat, peerCount: nat)
    requires BareMajority(votes, peerCount) && 0 < k <= votes
    ensures Majority(k - 1 + 2, peerCount) <==> k == votes
  {
  }

  lemma ElectedMeans(s: System, a: NodeId, t: Term)
    requires a in s.hosts && NewlyElected(s.hosts[a].raft)
    requires s.hosts[a].raft.persistent.currentTerm == t
    ensures Elected(s, a, t, s.hosts[a].raft.persistent.log)
  {
  }

  lemma NobodyToAsk(ids: seq<NodeId>, rule: AckRule, s: System, a: NodeId)
    requires CoreInv(ids, s) && a in s.hosts && s.hosts[a].raft.role != Leader
    requires s.hosts[a].raft.peers == []
    ensures Enabled(rule, s, Exec(a, ElectionTimeout))
    ensures Elected(Do(ids, rule, s, Exec(a, ElectionTimeout)), a,
                    s.hosts[a].raft.persistent.currentTerm + 1, LogOf(s, a))
  {
    TimeoutEnabled(ids, rule, s, a);
    TimeoutStands(s.hosts[a].raft);
    ExecEffect(ids, rule, s, a, ElectionTimeout);
    hide CoreInv, Do, HandleElectionTimeout, RoleOK, Enabled;
  }

  lemma MajorityNeedsPeers(votes: nat, peerCount: nat)
    requires BareMajority(votes, peerCount)
    ensures votes == 0 <==> peerCount == 0
    ensures 2 * (votes + 1) > peerCount + 1 >= 2 * votes
  {
  }

  /** Whoever is not leader and has the logs of a bare majority behind it wins the next term
      in an election nobody interferes with, with its log as it was and all peers still to be
      probed at its end. */
  lemma ElectionSucceeds(ids: seq<NodeId>, rule: AckRule, s: System, a: NodeId, vs: seq<NodeId>)
    returns (s': System)
    requires Config(ids) && CoreInv(ids, s) && Willing(s, a, vs)
    requires s.hosts[a].raft.role != Leader && BareMajority(|vs|, |s.hosts[a].raft.peers|)
    ensures Perform(ids, rule, s, ElectionLabels(CallOf(s.hosts[a].raft), vs)) == Some(s')
    ensures CoreInv(ids, s')
    ensures Elected(s', a, s.hosts[a].raft.persistent.currentTerm + 1, LogOf(s, a))
  {
    hide *;
    WillingHost(s, a, vs);
    var raft := s.hosts[a].raft;
    var call := CallOf(raft);
    var first := Exec(a, ElectionTimeout);
    MajorityNeedsPeers(|vs|, |raft.peers|);
    TimeoutEnabled(ids, rule, s, a);
    StepKeepsCore(ids, rule, s, first);
    var s1 := Do(ids, rule, s, first);
    CallMeans(raft);
    if raft.peers == [] {
      NobodyToAsk(ids, rule, s, a);
      s' := s1;
      PerformFirst(ids, rule, s, call, vs);
      BallotStarts(ids, rule, s1, call, vs);
      assert vs == [];
    } else {
      StandsForElection(ids, rule, s, a, vs);
      PerformFirst(ids, rule, s, call, vs);
      s' := Campaign(ids, rule, s, s1, call, vs, |vs|);
      assert vs[..|vs|] == vs;
    }
  }

  lemma WillingHost(s: System, a: NodeId, vs: seq<NodeId>)
    requires Willing(s, a, vs)
    ensures a in s.hosts
  {
  }

  lemma CallMeans(s: RaftState)
    ensures CallOf(s).candidateId == s.id && CallOf(s).term == s.persistent.currentTerm + 1
  {
  }

  lemma PerformFirst(ids: seq<NodeId>, rule: AckRule, s: System, call: RequestVote,
                     vs: seq<NodeId>)
    requires Enabled(rule, s, Exec(call.candidateId, ElectionTimeout))
    ensures Perform(ids, rule, s, ElectionLabels(call, vs))
         == Perform(ids, rule, Do(ids, rule, s, Exec(call.candidateId, ElectionTimeout)),
                    BallotLabels(call, vs))
  {
    hide Enabled, Do, BallotLabels;
    assert ElectionLabels(call, vs)[1..] == BallotLabels(call, vs);
  }

  /** The same from any state of any run. */
  lemma MajorityElects(ids: seq<NodeId>, rule: AckRule, r: Run, j: nat, a: NodeId, vs: seq<NodeId>)
    returns (s': System)
    requires Config(ids) && IsRun(ids, rule, r) && j < |r.states| && Willing(r.states[j], a, vs)
    requires r.states[j].hosts[a].raft.role != Leader
    requires 2 * (|vs| + 1) > |ids| >= 2 * |vs|
    ensures Perform(ids, rule, r.states[j], ElectionLabels(CallOf(r.states[j].hosts[a].raft), vs))
         == Some(s')
    ensures Elected(s', a, r.states[j].hosts[a].raft.persistent.currentTerm + 1,
                    LogOf(r.states[j], a))
  {
    hide *;
    var s := r.states[j];
    WillingHost(s, a, vs);
    CoreHolds(ids, rule, r, j);
    PeerCount(ids, s, a, vs);
    s' := ElectionSucceeds(ids, rule, s, a, vs);
  }

  lemma PeerCount(ids: seq<NodeId>, s: System, a: NodeId, vs: seq<NodeId>)
    requires Config(ids) && CoreInv(ids, s) && a in s.hosts
    requires 2 * (|vs| + 1) > |ids| >= 2 * |vs|
    ensures BareMajority(|vs|, |s.hosts[a].raft.peers|)
  {
    CoreEventAfter(ids, s, a);
    assert a in Members(ids);
    hide CoreInv, HistoryOK;
    PeersAreTheOthers(ids, a);
  }
}
