/** What the election handlers must do, not only what they must not: the order that decides
    who may be elected, the answer to every vote request, and what every reply brings about.
    All of it for any cluster size and any message. */
module Voting {
  import opened Protocol
  import opened RaftSteps
  import opened LogFacts
  import opened Runtime
  import opened RoleStructure
  import opened Cluster
  import opened Quorums
  import opened Histories
  import opened CoreInvariant
  import opened CoreSteps
  import opened Runs
  import opened Safety

  // ── the order of logs ───────────────────────────────────────────────────────

  /** A node with log `b` may vote for a candidate with log `a`. */
  predicate Beats(a: Log, b: Log) {
    UpToDate(LastLogTerm(a), LastLogIndex(a), b)
  }

  /** Of any two nodes one may vote for the other. */
  lemma UpToDateIsTotal(a: Log, b: Log)
    ensures Beats(a, b) || Beats(b, a)
  {
  }

  lemma UpToDateIsTransitive(a: Log, b: Log, c: Log)
    requires Beats(a, b) && Beats(b, c)
    ensures Beats(a, c)
  {
  }

  /** They may vote for each other only if their logs end alike. */
  lemma UpToDateBothWays(a: Log, b: Log)
    ensures Beats(a, b) && Beats(b, a)
       <==> LastLogTerm(a) == LastLogTerm(b) && LastLogIndex(a) == LastLogIndex(b)
  {
  }

  /** A log that goes on where another ends beats it, and is not beaten by it. */
  lemma LongerLogBeats(a: Log, b: Log)
    requires Shape(a) && Shape(b) && b <= a
    ensures Beats(a, b)
    ensures |b| < |a| ==> !Beats(b, a)
  {
    LastIndexIsLength(a);
    LastIndexIsLength(b);
    if b != [] {
      assert a[|b| - 1] == b[|b| - 1];
      assert a[|b| - 1].term <= a[|a| - 1].term;
    }
  }

  /** A later last term beats any length. */
  lemma LaterTermBeats(a: Log, b: Log)
    requires LastLogTerm(a) > LastLogTerm(b)
    ensures Beats(a, b) && !Beats(b, a)
  {
  }

  // ── vote requests ───────────────────────────────────────────────────────────

  /** The node may still give its vote of the request's term to the candidate. */
  predicate Free(s: RaftState, m: RequestVote) {
    || m.term > s.persistent.currentTerm
    || (m.term == s.persistent.currentTerm
        && (s.persistent.votedFor == None || s.persistent.votedFor == Some(m.candidateId)))
  }

  /** Every vote request gets exactly one reply, to the candidate, in the node's own name and
      with its term afterwards. It grants the vote if and only if the vote is still free and
      the candidate's log is up to date; the vote is then on record. A request of a higher
      term makes the node a follower of that term in any case. */
  lemma VoteRequestIsAnswered(s: RaftState, m: RequestVote)
    ensures var o := HandleRequestVote(s, m);
            var p, p' := s.persistent, o.state.persistent;
            var granted := Free(s, m) && UpToDate(m.lastLogTerm, m.lastLogIndex, p.log);
            && Sent(o.actions) == [Packet(m.candidateId, VoteReply(
                 RequestVoteResponse(p'.currentTerm, granted, s.id)))]
            && p'.currentTerm == Max(p.currentTerm, m.term) && p'.log == p.log
            && p'.votedFor == (if granted then Some(m.candidateId)
                               else if m.term > p.currentTerm then None else p.votedFor)
            && (Persists(o.actions) <==> granted)
            && o.state.volatile == s.volatile && o.state.id == s.id
            && (m.term > p.currentTerm ==>
                  o.state.role == Follower && o.state.knownLeader == None
                  && o.state.candidateState == None && o.state.leaderState == None)
            && (m.term <= p.currentTerm ==> o.state == s.(persistent := p'))
  {
    var o := HandleRequestVote(s, m);
    var reply := VoteReply(RequestVoteResponse(
      o.state.persistent.currentTerm,
      Free(s, m) && UpToDate(m.lastLogTerm, m.lastLogIndex, s.persistent.log), s.id));
    if |o.actions| == 1 {
      assert o.actions == [Send(m.candidateId, reply)];
      SentOne(m.candidateId, reply);
    } else {
      assert o.actions == [PersistState, ResetElectionTimer, Send(m.candidateId, reply)];
      assert o.actions[0] == PersistState;
      assert o.actions[..2] == [PersistState, ResetElectionTimer];
      SendsNothing(o.actions[..2]);
    }
  }

  /** A request delivered again after a grant is granted again and changes nothing. */
  lemma GrantIsRepeated(s: RaftState, m: RequestVote)
    requires m.term >= s.persistent.currentTerm
    requires HandleRequestVote(s, m).state.persistent.votedFor == Some(m.candidateId)
    requires UpToDate(m.lastLogTerm, m.lastLogIndex, s.persistent.log)
    ensures var once := HandleRequestVote(s, m);
            && HandleRequestVote(once.state, m).state == once.state
            && Sent(HandleRequestVote(once.state, m).actions) == Sent(once.actions)
  {
    VoteRequestIsAnswered(s, m);
    VoteRequestIsAnswered(HandleRequestVote(s, m).state, m);
    hide HandleRequestVote, Sent, UpToDate;
  }

  /** A node grants every request, of a term in which its vote is free, of a candidate whose
      log has its own as a prefix. */
  lemma PrefixVoterGrants(s: RaftState, m: RequestVote, log: Log)
    requires Shape(s.persistent.log) && Shape(log) && s.persistent.log <= log
    requires m.lastLogTerm == LastLogTerm(log) && m.lastLogIndex == LastLogIndex(log)
    requires Free(s, m)
    ensures var o := HandleRequestVote(s, m);
            && o.state.persistent.votedFor == Some(m.candidateId)
            && Packet(m.candidateId, VoteReply(RequestVoteResponse(m.term, true, s.id)))
               in Sent(o.actions)
  {
    LongerLogBeats(log, s.persistent.log);
    VoteRequestIsAnswered(s, m);
    hide HandleRequestVote, Sent;
  }

  // ── vote replies ────────────────────────────────────────────────────────────

  /** A strict majority of a node and its peers. */
  predicate Majority(votes: nat, peerCount: nat) {
    2 * votes > peerCount + 1
  }

  /** The reply is one the node counts: of its candidacy, from a peer not heard yet. */
  predicate Counts(s: RaftState, m: RequestVoteResponse) {
    && s.role == Candidate && s.candidateState.Some?
    && m.term == s.persistent.currentTerm && m.voteFrom in s.peers
    && m.voteFrom !in s.candidateState.value.votesReceived
  }

  function GrantedBy(s: RaftState): set<NodeId> {
    if s.candidateState.Some? then s.candidateState.value.votesGranted else {}
  }

  function HeardBy(s: RaftState): set<NodeId> {
    if s.candidateState.Some? then s.candidateState.value.votesReceived else {}
  }

  /** What every reply brings about. A higher term makes the node a follower of that term
      without a vote; a reply that does not count changes nothing; one that counts is booked,
      and the node leads from the moment a strict majority has granted: with its log and term
      as they are, every `next_index` behind its last entry and no `match_index`. */
  lemma VoteReplyIsCounted(s: RaftState, m: RequestVoteResponse)
    requires RoleOK(s)
    ensures var o := HandleVoteResponse(s, m);
            var granted := GrantedBy(s) + if m.voteGranted then {m.voteFrom} else {};
            if m.term > s.persistent.currentTerm then
              && o == Outcome(o.state, []) && o.state.volatile == s.volatile
              && o.state.persistent == PersistentState(m.term, None, s.persistent.log)
              && o.state.role == Follower && o.state.knownLeader == None
            else if !Counts(s, m) then
              o == Outcome(s, [])
            else
              && o.state.persistent == s.persistent && o.state.volatile == s.volatile
              && (if Majority(|granted|, |s.peers|)
                  then NewlyElected(o.state)
                  else o.state.role == Candidate && GrantedBy(o.state) == granted
                       && HeardBy(o.state) == HeardBy(s) + {m.voteFrom}
                       && o.state.knownLeader == s.knownLeader)
  {
    QuorumIsMajority(|s.peers|);
    assert (if m.voteGranted then GrantedBy(s) + {m.voteFrom} else GrantedBy(s))
        == GrantedBy(s) + if m.voteGranted then {m.voteFrom} else {};
  }

  ghost predicate NewlyElected(s: RaftState) {
    && s.role == Leader && s.knownLeader == Some(s.id) && s.leaderState.Some? && VectorsFit(s)
    && (forall i | 0 <= i < |s.peers| ::
          && s.leaderState.value.nextIndex[i] == LastLogIndex(s.persistent.log) + 1
          && s.leaderState.value.matchIndex[i] == 0)
  }

  /** A majority wins: the grant that completes it makes the candidate leader. */
  lemma MajorityWins(s: RaftState, m: RequestVoteResponse)
    requires RoleOK(s) && Counts(s, m) && m.voteGranted
    requires Majority(|GrantedBy(s)| + 1, |s.peers|)
    ensures NewlyElected(HandleVoteResponse(s, m).state)
  {
    assert m.voteFrom !in GrantedBy(s);
    assert |GrantedBy(s) + {m.voteFrom}| == |GrantedBy(s)| + 1;
    VoteReplyIsCounted(s, m);
    hide HandleVoteResponse;
  }

  /** A new leader's first requests carry no entries and hang on its last one. */
  lemma NewLeaderProbesItsEnd(s: RaftState, i: nat)
    requires NewlyElected(s) && i < |s.peers| && Contiguous(s.persistent.log)
    ensures var log := s.persistent.log;
            AppendEntriesForPeer(s, i) in HandleHeartbeatTimeout(s).actions
            && AppendEntriesForPeer(s, i) == Send(s.peers[i], Append(AppendEntries(
                 s.persistent.currentTerm, s.id, |log|, TermAt(log, |log|), [],
                 s.volatile.commitIndex)))
  {
    LastIndexIsLength(s.persistent.log);
    RequestFields(s, i);
    assert HandleHeartbeatTimeout(s).actions[i + 1] == AppendEntriesForPeer(s, i);
  }

  // ── no candidate with a majority ────────────────────────────────────────────

  /** A candidate holds fewer grants than a strict majority: with one it would lead. */
  predicate Undecided(s: RaftState) {
    s.role == Candidate ==> !Majority(|GrantedBy(s)|, |s.peers|)
  }

  lemma StepKeepsUndecided(rule: AckRule, s: RaftState, event: Event)
    requires RoleOK(s) && Undecided(s)
    ensures Undecided(Step(rule, s, event).state)
  {
    StepKeepsStructure(rule, s, event);
    match event
    case Receive(VoteRequest(m)) => VoteRequestIsAnswered(s, m);
    case Receive(VoteReply(m)) => VoteReplyIsCounted(s, m);
    case Receive(Append(m)) => AppendOutcome(rule, s, m);
    case Receive(AppendReply(m)) => AppendReplyOutcome(s, m);
    case ElectionTimeout =>
    case HeartbeatTimeout =>
    case ClientRequest(command) => if s.role == Leader { ClientOutcome(s, command); }
  }

  /** After any events with any messages. */
  lemma {:induction false} StaysUndecided(rule: AckRule, s: RaftState, events: seq<Event>)
    requires RoleOK(s) && Undecided(s)
    ensures Undecided(AfterEvents(rule, s, events))
  {
    if events == [] {
    } else {
      var n := |events| - 1;
      StaysUndecided(rule, s, events[..n]);
      hide Step, RoleOK, Undecided;
      StepKeepsUndecided(rule, AfterEvents(rule, s, events[..n]), events[n]);
    }
  }

  lemma EventKeepsUndecided(ids: seq<NodeId>, rule: AckRule, s: System, l: Label, n: NodeId)
    requires CoreInv(ids, s) && Enabled(rule, s, l) && n in s.hosts
    requires Undecided(s.hosts[n].raft)
    ensures n in Do(ids, rule, s, l).hosts && Undecided(Do(ids, rule, s, l).hosts[n].raft)
  {
    if l.node == n && l.Exec? {
      assert HostOK(ids, s.history, n, s.hosts[n]) by { hide HistoryOK, PacketOK; }
      assert RoleOK(s.hosts[n].raft);
      StepKeepsUndecided(rule, s.hosts[n].raft, l.event);
      ExecEffect(ids, rule, s, n, l.event);
      hide *;
    } else {
      hide CoreInv, Step, Record, Packets, Emissions, Applied, ApplyAll;
    }
  }

  lemma {:induction false} HostsStayUndecided(ids: seq<NodeId>, rule: AckRule, r: Run, i: nat,
                                              n: NodeId)
    requires Config(ids) && IsRun(ids, rule, r) && i < |r.states| && n in ids
    ensures n in r.states[i].hosts && Undecided(r.states[i].hosts[n].raft)
  {
    hide *;
    RunStarts(ids, rule, r);
    RunHosts(ids, rule, r, i, n);
    if i == 0 {
      StartsUndecided(ids, n);
    } else {
      HostsStayUndecided(ids, rule, r, i - 1, n);
      CoreHolds(ids, rule, r, i - 1);
      RunMoves(ids, rule, r, i - 1);
      EventKeepsUndecided(ids, rule, r.states[i - 1], r.labels[i - 1], n);
    }
  }

  lemma StartsUndecided(ids: seq<NodeId>, n: NodeId)
    requires n in Initial(ids).hosts
    ensures Undecided(Initial(ids).hosts[n].raft)
  {
  }

  /** In every reachable state no candidate holds the grants of a strict majority of the
      cluster. */
  lemma NoCandidateHasMajority(ids: seq<NodeId>, rule: AckRule, r: Run, i: nat, n: NodeId)
    requires Config(ids) && IsRun(ids, rule, r) && i < |r.states| && n in ids
    ensures n in r.states[i].hosts
    ensures r.states[i].hosts[n].raft.role == Candidate ==>
              2 * |GrantedBy(r.states[i].hosts[n].raft)| <= |ids|
  {
    HostsStayUndecided(ids, rule, r, i, n);
    HostInOrder(ids, rule, r, i, n);
    PeersAreTheOthers(ids, n);
    hide IsRun, HistoryOK;
  }

  // ── standing for election ───────────────────────────────────────────────────

  lemma {:induction false} SentInOrder(actions: seq<Action>, packets: seq<Packet>)
    requires |actions| == |packets|
    requires forall i | 0 <= i < |actions| :: actions[i] == Send(packets[i].to, packets[i].msg)
    ensures Sent(actions) == packets
  {
    if actions == [] {
    } else {
      var k := |actions| - 1;
      SentInOrder(actions[..k], packets[..k]);
      assert packets == packets[..k] + [packets[k]];
    }
  }

  lemma {:induction false} SentConcat(a: seq<Action>, b: seq<Action>)
    ensures Sent(a + b) == Sent(a) + Sent(b)
  {
    if b == [] {
      assert a + b == a;
    } else {
      var k := |b| - 1;
      SentConcat(a, b[..k]);
      assert (a + b)[..|a| + k] == a + b[..k];
    }
  }

  function CallOf(s: RaftState): RequestVote {
    RequestVote(s.persistent.currentTerm + 1, s.id, LastLogIndex(s.persistent.log),
                LastLogTerm(s.persistent.log))
  }

  /** Whoever is not leader stands for the next term when the timer fires: with its own vote,
      saved, and one request to each peer in order. Alone it leads at once. */
  lemma TimeoutStands(s: RaftState)
    requires s.role != Leader
    ensures var o := HandleElectionTimeout(s);
            && o.state.persistent
               == PersistentState(s.persistent.currentTerm + 1, Some(s.id), s.persistent.log)
            && o.state.volatile == s.volatile && o.state.id == s.id && o.state.peers == s.peers
            && (s.peers != [] ==> o.state.knownLeader == s.knownLeader)
            && Persists(o.actions)
            && Sent(o.actions)
               == seq(|s.peers|, i requires 0 <= i < |s.peers| =>
                        Packet(s.peers[i], VoteRequest(CallOf(s))))
            && (if s.peers == [] then NewlyElected(o.state)
                else o.state.role == Candidate && o.state.leaderState == None
                     && o.state.candidateState == Some(CandidateState({s.id}, {s.id})))
  {
    var o := HandleElectionTimeout(s);
    var packets := seq(|s.peers|, i requires 0 <= i < |s.peers| =>
                         Packet(s.peers[i], VoteRequest(CallOf(s))));
    StandingOutcome(s);
    if s.peers == [] {
      OnlyTimers(o.actions);
      return;
    }
    assert o.actions[1] == PersistState;
    SendsNothing(o.actions[..2]);
    assert o.actions == o.actions[..2] + o.actions[2..];
    SentConcat(o.actions[..2], o.actions[2..]);
    forall i | 0 <= i < |s.peers| ensures o.actions[2..][i] == Send(packets[i].to, packets[i].msg) {
      assert o.actions[2..][i] == VoteAction(Standing(s), s.peers[i]);
      assert packets[i] == Packet(s.peers[i], VoteRequest(CallOf(s)));
    }
    SentInOrder(o.actions[2..], packets);
  }
}
