/** What a node answers and adopts: messages of other terms, requests to append, replies to
    a leader, and clients sent to a node that does not lead. Stated for any message, and
    composed over the nodes that exchange them. */
module Answers {
  import opened Protocol
  import opened RaftSteps
  import opened LogFacts
  import opened Runtime
  import opened RoleStructure
  import opened Cluster
  import opened Quorums
  import opened Histories
  import opened CoreInvariant
  import opened CoreSteps
  import opened CommitSteps
  import opened Runs
  import opened Safety
  import opened Voting

  // ── messages of another term ────────────────────────────────────────────────

  function TermOf(msg: Message): Term {
    match msg
    case VoteRequest(m) => m.term
    case VoteReply(m) => m.term
    case Append(m) => m.term
    case AppendReply(m) => m.term
  }

  /** A message of an earlier term changes nothing. Replies get no action; requests get one
      refusal, to the sender, that tells it the node's own term. */
  lemma StaleMessagesAreRefused(rule: AckRule, s: RaftState, msg: Message)
    requires VectorsFit(s) && TermOf(msg) < s.persistent.currentTerm
    ensures var o := Step(rule, s, Receive(msg));
            && o.state == s
            && o.actions ==
               match msg
               case VoteRequest(m) => [Send(m.candidateId, VoteReply(
                 RequestVoteResponse(s.persistent.currentTerm, false, s.id)))]
               case Append(m) => [Send(m.leaderId, AppendReply(
                 AppendEntriesResponse(s.persistent.currentTerm, false, s.id, 0)))]
               case VoteReply(_) => []
               case AppendReply(_) => []
  {
  }

  /** Whoever hears of a later term, by whatever message, is a follower of that term and holds
      no office. Its vote is free unless the message is a request it grants, and it knows no
      leader unless the message comes from one whose request it accepts. */
  lemma LaterTermIsAdopted(rule: AckRule, s: RaftState, msg: Message)
    requires VectorsFit(s) && TermOf(msg) > s.persistent.currentTerm
    ensures var s' := Step(rule, s, Receive(msg)).state;
            && s'.persistent.currentTerm == TermOf(msg)
            && s'.role == Follower && s'.candidateState == None && s'.leaderState == None
            && s'.persistent.votedFor == (
                 if msg.VoteRequest? && UpToDate(msg.rv.lastLogTerm, msg.rv.lastLogIndex,
                                                 s.persistent.log)
                 then Some(msg.rv.candidateId) else None)
            && s'.knownLeader == (if msg.Append? && Accepts(s, msg.ae) then Some(msg.ae.leaderId)
                                  else None)
  {
  }

  /** A leader or candidate of an earlier term that reaches a node steps down to that node's
      term with the answer. */
  lemma StaleSenderStepsDown(rule: AckRule, sender: RaftState, s: RaftState, msg: Message,
                             answer: Message)
    requires VectorsFit(sender) && VectorsFit(s)
    requires sender.persistent.currentTerm < s.persistent.currentTerm
    requires (msg.VoteRequest? && msg.rv.candidateId == sender.id) || (msg.Append? && msg.ae.leaderId == sender.id)
    requires TermOf(msg) == sender.persistent.currentTerm
    requires Packet(sender.id, answer) in Sent(Step(rule, s, Receive(msg)).actions)
    ensures var sender' := Step(rule, sender, Receive(answer)).state;
            && sender'.role == Follower && sender'.leaderState == None && sender'.candidateState == None
            && sender'.persistent.currentTerm == s.persistent.currentTerm
  {
    StaleMessagesAreRefused(rule, s, msg);
    SentIffSend(Step(rule, s, Receive(msg)).actions, Packet(sender.id, answer));
    LaterTermIsAdopted(rule, sender, answer);
    hide Step;
  }

  // ── requests to append ──────────────────────────────────────────────────────

  /** The log has the entry the request hangs on. */
  predicate HangsOn(log: Log, m: AppendEntries) {
    m.prevLogIndex == 0
    || (m.prevLogIndex <= |log| && log[m.prevLogIndex - 1].term == m.prevLogTerm)
  }

  /** Every request gets exactly one reply, to the leader, in the node's own name and with its
      term afterwards. It reports success if and only if the term is not an earlier one and
      the log has the entry the request hangs on. A request of a term that is not earlier ends
      a candidacy either way; only an accepted one names the leader and touches log and
      commit index. */
  lemma AppendIsAnswered(rule: AckRule, s: RaftState, m: AppendEntries)
    requires Contiguous(s.persistent.log)
    ensures var o := HandleAppendEntries(rule, s, m);
            var ok := m.term >= s.persistent.currentTerm && HangsOn(s.persistent.log, m);
            && Sent(o.actions) == [Packet(m.leaderId, AppendReply(AppendEntriesResponse(
                 Max(s.persistent.currentTerm, m.term), ok, s.id,
                 if ok then AckIndex(rule, o.state.persistent.log, m) else 0)))]
            && o.state.persistent.currentTerm == Max(s.persistent.currentTerm, m.term)
            && (Persists(o.actions) <==> ok)
            && o.state.role == (if m.term > s.persistent.currentTerm
                                   || (m.term == s.persistent.currentTerm && s.role == Candidate)
                                then Follower else s.role)
            && o.state.knownLeader == (if ok then Some(m.leaderId)
                                       else if m.term > s.persistent.currentTerm then None
                                       else s.knownLeader)
            && (!ok ==> o.state.persistent.log == s.persistent.log && o.state.volatile == s.volatile)
            && o.state.persistent.votedFor
               == (if m.term > s.persistent.currentTerm then None else s.persistent.votedFor)
  {
    var o := HandleAppendEntries(rule, s, m);
    var ok := m.term >= s.persistent.currentTerm && HangsOn(s.persistent.log, m);
    LogMatchesIsTermAt(s.persistent.log, m.prevLogIndex, m.prevLogTerm);
    AppendOutcome(rule, s, m);
    assert Accepts(s, m) <==> ok;
    if ok {
      var log := Reconcile(s.persistent.log, m.entries);
      ApplyBetweenApplies(log, s.volatile.lastApplied, o.state.volatile.commitIndex);
      assert o.actions[0] == PersistState;
      OneReply(o.actions);
    } else {
      SentOne(o.actions[0].to, o.actions[0].msg);
    }
  }

  lemma OneReply(actions: seq<Action>)
    requires |actions| >= 3 && !actions[0].Send? && !actions[1].Send? && actions[2].Send?
    requires forall a | a in actions[3..] :: a.ApplyCommand?
    ensures Sent(actions) == [Packet(actions[2].to, actions[2].msg)]
  {
    assert actions == (actions[..2] + [actions[2]]) + actions[3..];
    SentConcat(actions[..2] + [actions[2]], actions[3..]);
    SentConcat(actions[..2], [actions[2]]);
    SendsNothing(actions[..2]);
    SendsNothing(actions[3..]);
    SentOne(actions[2].to, actions[2].msg);
  }

  /** After an accepted request the node has committed what the leader announces, as far as
      the request reaches, if that is more than before, and has applied all it has committed. */
  lemma AcceptedCommits(rule: AckRule, s: RaftState, m: AppendEntries)
    requires Accepts(s, m) && Follows(m.entries, m.prevLogIndex)
    ensures var v, v' := s.volatile, HandleAppendEntries(rule, s, m).state.volatile;
            && (m.leaderCommit <= v.commitIndex ==> v'.commitIndex == v.commitIndex)
            && (m.leaderCommit > v.commitIndex ==>
                  && v'.commitIndex <= m.leaderCommit && v'.commitIndex <= EndIndex(m)
                  && (v'.commitIndex == m.leaderCommit || v'.commitIndex == EndIndex(m)))
            && v'.lastApplied == Max(v.lastApplied, v'.commitIndex)
  {
    AppendOutcome(rule, s, m);
    hide Reconcile, ApplyBetween, AckIndex;
  }

  // ── replies to a leader ─────────────────────────────────────────────────────

  /** A leader counts the reply. */
  predicate Heeds(s: RaftState, m: AppendEntriesResponse, i: nat) {
    && RoleOK(s) && s.role == Leader && Distinct(s.peers)
    && i < |s.peers| && m.from == s.peers[i] && m.term == s.persistent.currentTerm
  }

  function NextOf(s: RaftState, i: nat): LogIndex
    requires VectorsFit(s) && s.leaderState.Some? && i < |s.peers|
  {
    s.leaderState.value.nextIndex[i]
  }

  function MatchOf(s: RaftState, i: nat): LogIndex
    requires VectorsFit(s) && s.leaderState.Some? && i < |s.peers|
  {
    s.leaderState.value.matchIndex[i]
  }

  lemma {:induction false} PositionIs(peers: seq<NodeId>, i: nat)
    requires Distinct(peers) && i < |peers|
    ensures PeerPosition(peers, peers[i]) == Some(i)
  {
    if i == 0 {
    } else {
      PositionIs(peers[1..], i - 1);
    }
  }

  /** A refusal lowers the sender's `next_index` by one, never below 1, and leaves everything
      else as it is. */
  lemma RefusalBacksUp(s: RaftState, m: AppendEntriesResponse, i: nat)
    requires Heeds(s, m, i) && !m.success
    ensures var o := HandleAppendEntriesResponse(s, m);
            && o.actions == [] && Heeds(o.state, m, i)
            && o.state == s.(leaderState := o.state.leaderState)
            && (forall j | 0 <= j < |s.peers| :: MatchOf(o.state, j) == MatchOf(s, j))
            && (forall j | 0 <= j < |s.peers| && j != i :: NextOf(o.state, j) == NextOf(s, j))
            && NextOf(o.state, i) == Max(1, NextOf(s, i) - 1)
  {
    PositionIs(s.peers, i);
    hide PeerPosition;
  }

  /** The leader after the same refusal `k` times. */
  function AfterRefusals(s: RaftState, m: AppendEntriesResponse, i: nat, k: nat): RaftState
    requires Heeds(s, m, i) && !m.success
    ensures Heeds(AfterRefusals(s, m, i, k), m, i)
  {
    if k == 0 then s
    else
      var before := AfterRefusals(s, m, i, k - 1);
      RefusalBacksUp(before, m, i);
      HandleAppendEntriesResponse(before, m).state
  }

  /** Refusals in a row, late and doubled ones included, back up one entry each and stop at
      the first entry of the log. */
  lemma {:induction false} RefusalsBackUp(s: RaftState, m: AppendEntriesResponse, i: nat, k: nat)
    requires Heeds(s, m, i) && !m.success
    ensures var s' := AfterRefusals(s, m, i, k);
            && s' == s.(leaderState := s'.leaderState)
            && NextOf(s', i) == (if NextOf(s, i) > k then NextOf(s, i) - k else 1)
            && (forall j | 0 <= j < |s.peers| :: MatchOf(s', j) == MatchOf(s, j))
            && (forall j | 0 <= j < |s.peers| && j != i :: NextOf(s', j) == NextOf(s, j))
  {
    if k == 0 {
      assert NextOf(s, i) >= 1;
    } else {
      RefusalsBackUp(s, m, i, k - 1);
      RefusalBacksUp(AfterRefusals(s, m, i, k - 1), m, i);
      hide HandleAppendEntriesResponse;
    }
  }

  /** A success never lowers a `match_index`; it raises the sender's to what it claims, with
      `next_index` right behind, and leaves the other peers' entries alone. */
  lemma SuccessAdvances(s: RaftState, m: AppendEntriesResponse, i: nat)
    requires Heeds(s, m, i) && m.success
    ensures var s' := HandleAppendEntriesResponse(s, m).state;
            && Heeds(s', m, i) && s'.persistent == s.persistent && s'.knownLeader == s.knownLeader
            && MatchOf(s', i) == Max(MatchOf(s, i), m.matchIndex)
            && NextOf(s', i) == (if m.matchIndex > MatchOf(s, i) then m.matchIndex + 1
                                 else NextOf(s, i))
            && (forall j | 0 <= j < |s.peers| && j != i ::
                  MatchOf(s', j) == MatchOf(s, j) && NextOf(s', j) == NextOf(s, j))
            && s'.volatile.commitIndex >= s.volatile.commitIndex
            && s'.volatile.lastApplied >= s.volatile.lastApplied
  {
    PositionIs(s.peers, i);
    hide PeerPosition, CommitScan, ApplyBetween;
  }

  /** A strict majority, the leader included, is credited with the leader's whole log. */
  predicate MajorityHasLog(s: RaftState) {
    && s.leaderState.Some?
    && Majority(1 + CountAtLeast(s.leaderState.value.matchIndex, |s.persistent.log|), |s.peers|)
  }

  /** A success that leaves a strict majority with the leader's whole log, the leader included,
      commits and applies all of it, if it ends in an entry of the leader's term. */
  lemma MajorityCommits(s: RaftState, m: AppendEntriesResponse, i: nat)
    requires Heeds(s, m, i) && m.success && Contiguous(s.persistent.log) && s.persistent.log != []
    requires LastLogTerm(s.persistent.log) == s.persistent.currentTerm
    requires MajorityHasLog(HandleAppendEntriesResponse(s, m).state)
    ensures var v := HandleAppendEntriesResponse(s, m).state.volatile;
            v.commitIndex >= |s.persistent.log| && v.lastApplied >= v.commitIndex
  {
    var log := s.persistent.log;
    PositionIs(s.peers, i);
    QuorumIsMajority(|s.peers|);
    var s' := HandleAppendEntriesResponse(s, m).state;
    hide PeerPosition, ApplyBetween;
    var matches := s'.leaderState.value.matchIndex;
    CommitScanIsExact(log, s.volatile.commitIndex, s.persistent.currentTerm, matches,
                      Quorum(|s.peers|));
    assert Committable(log, s.persistent.currentTerm, matches, Quorum(|s.peers|), |log|);
    hide CommitScan;
  }

  /** Without peers a command is committed and applied at once. */
  lemma LoneLeaderCommits(s: RaftState, command: Command)
    requires RoleOK(s) && s.role == Leader && s.peers == []
    requires Contiguous(s.persistent.log) && s.volatile.lastApplied == s.volatile.commitIndex
    requires s.volatile.commitIndex <= |s.persistent.log|
    ensures var o := HandleClientRequest(s, command);
            var log := o.state.persistent.log;
            && log == s.persistent.log + [LogEntry(s.persistent.currentTerm, |log|, command)]
            && o.state.volatile == VolatileState(|log|, |log|)
            && Applied(o.actions) == Commands(log[s.volatile.commitIndex..])
  {
    hide *;
    var log, c := s.persistent.log, s.volatile.commitIndex;
    var longer := log + [LogEntry(s.persistent.currentTerm, |log| + 1, command)];
    LoneScan(log, c, s.persistent.currentTerm, command);
    LoneOutcome(s, command, longer);
    ApplyBetweenIsSlice(longer, c, |longer|);
    assert longer[c..|longer|] == longer[c..];
    var commands := Commands(longer[c..]);
    AppliedConcat([ResetHeartbeatTimer, PersistState], Applications(commands));
    AppliedNothing([ResetHeartbeatTimer, PersistState]);
    AppliedApplications(commands);
    assert [] + commands == commands;
  }

  lemma LoneOutcome(s: RaftState, command: Command, longer: Log)
    requires RoleOK(s) && s.role == Leader && s.peers == [] && Contiguous(s.persistent.log)
    requires s.volatile.lastApplied == s.volatile.commitIndex <= |s.persistent.log|
    requires var log := s.persistent.log;
             longer == log + [LogEntry(s.persistent.currentTerm, |log| + 1, command)]
    requires CommitScan(longer, s.volatile.commitIndex, s.persistent.currentTerm, [], Quorum(0))
          == |longer|
    ensures var o := HandleClientRequest(s, command);
            && o.state.persistent.log == longer
            && o.state.volatile == VolatileState(|longer|, |longer|)
            && o.actions == [ResetHeartbeatTimer, PersistState]
                            + ApplyBetween(longer, s.volatile.commitIndex, |longer|)
  {
    LastIndexIsLength(s.persistent.log);
    assert s.leaderState.value.matchIndex == [];
    hide CommitScan, ApplyBetween, Quorum, Contiguous;
  }

  lemma LoneScan(log: Log, c: LogIndex, t: Term, command: Command)
    requires Contiguous(log) && c <= |log|
    ensures var longer := log + [LogEntry(t, |log| + 1, command)];
            CommitScan(longer, c, t, [], Quorum(0)) == |longer| && Contiguous(longer)
  {
    var longer := log + [LogEntry(t, |log| + 1, command)];
    assert longer[|longer| - 1].index == |longer|;
  }

  /** A leader's heartbeat is one request to each peer, in order, and nothing else happens. */
  lemma HeartbeatAddressesAll(s: RaftState)
    requires VectorsFit(s) && s.role == Leader
    ensures var o := HandleHeartbeatTimeout(s);
            && o.state == s && |Sent(o.actions)| == |s.peers| == |o.actions| - 1
            && forall i | 0 <= i < |s.peers| ::
                 && Sent(o.actions)[i].to == s.peers[i] && Sent(o.actions)[i].msg.Append?
                 && AppendEntriesForPeer(s, i) == Send(s.peers[i], Sent(o.actions)[i].msg)
  {
    var o := HandleHeartbeatTimeout(s);
    var packets := seq(|s.peers|, i requires 0 <= i < |s.peers| =>
                         Packet(s.peers[i], AppendEntriesForPeer(s, i).msg));
    forall i | 0 <= i < |s.peers|
      ensures o.actions[1..][i] == Send(packets[i].to, packets[i].msg) && packets[i].msg.Append?
      ensures AppendEntriesForPeer(s, i) == Send(s.peers[i], packets[i].msg)
    {
      assert o.actions[1..][i] == AppendEntriesForPeer(s, i);
    }
    assert |o.actions| == |s.peers| + 1 && o.actions[0] == ResetHeartbeatTimer && o.state == s;
    hide *;
    SentBehindOne(o.actions, packets);
  }

  lemma SentBehindOne(actions: seq<Action>, packets: seq<Packet>)
    requires |actions| == |packets| + 1 && !actions[0].Send?
    requires forall i | 0 <= i < |packets| ::
               actions[1..][i] == Send(packets[i].to, packets[i].msg)
    ensures Sent(actions) == packets
  {
    assert actions == [actions[0]] + actions[1..];
    SendsNothing([actions[0]]);
    SentConcat([actions[0]], actions[1..]);
    SentInOrder(actions[1..], packets);
    assert [] + packets == packets;
  }

  // ── timers ──────────────────────────────────────────────────────────────────

  /** The election timer is put back when the node has given its vote away, has accepted a
      request or has asked for votes, and never otherwise. */
  lemma ElectionTimerIsReset(rule: AckRule, s: RaftState, event: Event)
    requires VectorsFit(s)
    ensures ResetElectionTimer in Step(rule, s, event).actions <==>
      match event
      case Receive(VoteRequest(m)) =>
        Free(s, m) && UpToDate(m.lastLogTerm, m.lastLogIndex, s.persistent.log)
      case Receive(Append(m)) => Accepts(s, m)
      case ElectionTimeout => s.role != Leader && s.peers != []
      case _ => false
  {
    var actions := Step(rule, s, event).actions;
    match event
    case Receive(VoteRequest(m)) =>
      if |actions| != 1 { assert actions[1] == ResetElectionTimer; }
    case Receive(VoteReply(m)) =>
    case Receive(Append(m)) =>
      AppendOutcome(rule, s, m);
      if Accepts(s, m) { assert actions[1] == ResetElectionTimer; }
    case Receive(AppendReply(m)) => OnlyApplies(s, m);
    case ElectionTimeout =>
      if s.role != Leader && s.peers != [] { assert actions[0] == ResetElectionTimer; }
    case HeartbeatTimeout =>
    case ClientRequest(command) => if s.role == Leader { ClientTimers(s, command); }
  }

  lemma ClientTimers(s: RaftState, command: Command)
    requires s.role == Leader
    ensures ResetElectionTimer !in HandleClientRequest(s, command).actions
    ensures ResetHeartbeatTimer in HandleClientRequest(s, command).actions
  {
    var o := HandleClientRequest(s, command);
    ApplyBetweenApplies(Extended(s, command), s.volatile.lastApplied,
                        o.state.volatile.commitIndex);
    assert o.actions[0] == ResetHeartbeatTimer;
  }

  /** The heartbeat timer is put back by whoever has just won, and by a leader that has sent
      its requests or has taken a command, and never otherwise. */
  lemma HeartbeatTimerIsReset(rule: AckRule, s: RaftState, event: Event)
    requires VectorsFit(s)
    ensures ResetHeartbeatTimer in Step(rule, s, event).actions <==>
              || (s.role != Leader && Step(rule, s, event).state.role == Leader)
              || (s.role == Leader && (event.HeartbeatTimeout? || event.ClientRequest?))
  {
    var actions := Step(rule, s, event).actions;
    match event
    case Receive(VoteRequest(m)) =>
    case Receive(VoteReply(m)) =>
      if actions != [] { assert actions[0] == ResetHeartbeatTimer; }
    case Receive(Append(m)) => AcceptTimers(rule, s, m);
    case Receive(AppendReply(m)) =>
      OnlyApplies(s, m);
      AppendReplyOutcome(s, m);
    case ElectionTimeout =>
      if s.role != Leader && s.peers == [] { assert actions[0] == ResetHeartbeatTimer; }
    case HeartbeatTimeout =>
      if s.role == Leader { assert actions[0] == ResetHeartbeatTimer; }
    case ClientRequest(command) => if s.role == Leader { ClientTimers(s, command); }
  }

  lemma AcceptTimers(rule: AckRule, s: RaftState, m: AppendEntries)
    ensures ResetHeartbeatTimer !in HandleAppendEntries(rule, s, m).actions
    ensures s.role != Leader ==> HandleAppendEntries(rule, s, m).state.role != Leader
  {
    var o := HandleAppendEntries(rule, s, m);
    AppendOutcome(rule, s, m);
    if Accepts(s, m) {
      ApplyBetweenApplies(Reconcile(s.persistent.log, m.entries), s.volatile.lastApplied,
                          o.state.volatile.commitIndex);
      hide HandleAppendEntries, Reconcile, ApplyBetween;
      forall i | 3 <= i < |o.actions| ensures o.actions[i].ApplyCommand? {
        assert o.actions[3..][i - 3] in o.actions[3..];
      }
    }
  }

  // ── clients ─────────────────────────────────────────────────────────────────

  /** A node that does not lead sends the client, with nothing else, to the leader it knows. */
  lemma ClientIsRedirected(s: RaftState, command: Command)
    requires s.role != Leader
    ensures HandleClientRequest(s, command) == Outcome(s, [NotLeader(s.knownLeader)])
  {
  }

  /** A node that stays in a term and out of office keeps the leader it knows, or learns it
      from a request of that term. */
  lemma HintStays(rule: AckRule, s: RaftState, event: Event)
    requires RoleOK(s) && Contiguous(s.persistent.log)
    ensures var s' := Step(rule, s, event).state;
            s'.persistent.currentTerm == s.persistent.currentTerm && s'.role != Leader ==>
              || s'.knownLeader == s.knownLeader
              || (&& event.Receive? && event.msg.Append?
                  && event.msg.ae.term == s.persistent.currentTerm
                  && s'.knownLeader == Some(event.msg.ae.leaderId))
  {
    match event
    case Receive(VoteRequest(m)) => VoteRequestIsAnswered(s, m); hide HandleRequestVote;
    case Receive(VoteReply(m)) => VoteReplyIsCounted(s, m); hide HandleVoteResponse;
    case Receive(Append(m)) => AppendIsAnswered(rule, s, m); hide HandleAppendEntries;
    case Receive(AppendReply(m)) => ReplyKeepsHint(s, m); hide HandleAppendEntriesResponse;
    case ElectionTimeout =>
      if s.role != Leader { TimeoutStands(s); }
      hide HandleElectionTimeout;
    case HeartbeatTimeout =>
    case ClientRequest(command) =>
      ClientKeepsHint(s, command);
      hide HandleClientRequest;
  }

  lemma ReplyKeepsHint(s: RaftState, m: AppendEntriesResponse)
    requires VectorsFit(s)
    ensures var s' := HandleAppendEntriesResponse(s, m).state;
            s'.persistent.currentTerm == s.persistent.currentTerm ==> s'.knownLeader == s.knownLeader
  {
    hide CommitScan, ApplyBetween, PeerPosition;
  }

  lemma ClientKeepsHint(s: RaftState, command: Command)
    ensures var s' := HandleClientRequest(s, command).state;
            s'.knownLeader == s.knownLeader && s'.role == s.role
  {
    hide CommitScan, ApplyBetween;
  }

  /** The node follows `leader`, who leads the term it is in. */
  ghost predicate FollowsLeader(s: System, n: NodeId, t: Term, leader: NodeId) {
    && n in s.hosts && s.hosts[n].raft.persistent.currentTerm == t
    && t in s.history.reigns && s.history.reigns[t].leader == leader != n
    && s.hosts[n].raft.knownLeader == Some(leader)
  }

  lemma EventKeepsLeader(ids: seq<NodeId>, rule: AckRule, s: System, n: NodeId, event: Event,
                         t: Term, leader: NodeId)
    requires Config(ids) && CoreInv(ids, s) && Enabled(rule, s, Exec(n, event))
    requires FollowsLeader(s, n, t, leader)
    requires RunEvent(ids, rule, s, n, event).hosts[n].raft.persistent.currentTerm == t
    ensures FollowsLeader(RunEvent(ids, rule, s, n, event), n, t, leader)
  {
    var s' := RunEvent(ids, rule, s, n, event);
    ExecEffect(ids, rule, s, n, event);
    CoreEvent(ids, rule, s, Exec(n, event));
    RunEventKeepsCore(ids, rule, s, n, event);
    CoreEventAfter(ids, s', n);
    EventExtends(ids, rule, s, n, event);
    assert RoleOK(s.hosts[n].raft);
    LogShapeOf(ids, s.history, n, s.hosts[n]);
    HintStays(rule, s.hosts[n].raft, event);
    assert SameOffice(s.history.reigns[t], s'.history.reigns[t]);
    assert OfficeOK(s'.history, n, s'.hosts[n].raft);
    hide Step, CoreInv, HistoryOK, HostOK, Config, RunEvent, Enabled;
  }

  lemma StepKeepsLeader(ids: seq<NodeId>, rule: AckRule, s: System, l: Label, n: NodeId, t: Term,
                        leader: NodeId)
    requires Config(ids) && CoreInv(ids, s) && Enabled(rule, s, l)
    requires FollowsLeader(s, n, t, leader) && (l.node == n ==> l.Exec?)
    requires n in Do(ids, rule, s, l).hosts
    requires Do(ids, rule, s, l).hosts[n].raft.persistent.currentTerm == t
    ensures FollowsLeader(Do(ids, rule, s, l), n, t, leader)
  {
    hide *;
    StepExtends(ids, rule, s, l);
    FollowsHost(s, n, t, leader);
    if l.node == n {
      ExecIsRunEvent(ids, rule, s, l);
      EventKeepsLeader(ids, rule, s, n, l.event, t, leader);
    } else {
      OtherHostsStay(ids, rule, s, l, n);
      StillFollows(s, Do(ids, rule, s, l), n, t, leader);
    }
  }

  lemma FollowsHost(s: System, n: NodeId, t: Term, leader: NodeId)
    requires FollowsLeader(s, n, t, leader)
    ensures n in s.hosts && s.hosts[n].raft.persistent.currentTerm == t
  {
  }

  lemma ExecIsRunEvent(ids: seq<NodeId>, rule: AckRule, s: System, l: Label)
    requires Enabled(rule, s, l) && l.Exec?
    ensures l == Exec(l.node, l.event)
    ensures Do(ids, rule, s, l) == RunEvent(ids, rule, s, l.node, l.event)
  {
    hide RunEvent, Enabled;
  }

  lemma OtherHostsStay(ids: seq<NodeId>, rule: AckRule, s: System, l: Label, n: NodeId)
    requires Enabled(rule, s, l) && n in s.hosts && l.node != n
    ensures n in Do(ids, rule, s, l).hosts && Do(ids, rule, s, l).hosts[n] == s.hosts[n]
  {
    hide Step, Record, Packets, Emissions, Applied, ApplyAll;
  }

  lemma StillFollows(s: System, s': System, n: NodeId, t: Term, leader: NodeId)
    requires FollowsLeader(s, n, t, leader) && Extends(s.history, s'.history)
    requires n in s'.hosts && s'.hosts[n] == s.hosts[n]
    ensures FollowsLeader(s', n, t, leader)
  {
    assert SameOffice(s.history.reigns[t], s'.history.reigns[t]);
  }

  /** The term in memory does not fall either as long as the process lives. */
  lemma StepKeepsTerm(ids: seq<NodeId>, rule: AckRule, s: System, l: Label, n: NodeId)
    requires CoreInv(ids, s) && Enabled(rule, s, l) && n in s.hosts && (l.node == n ==> l.Exec?)
    ensures n in Do(ids, rule, s, l).hosts
    ensures s.hosts[n].raft.persistent.currentTerm
         <= Do(ids, rule, s, l).hosts[n].raft.persistent.currentTerm
  {
    if l.node == n {
      CoreEvent(ids, rule, s, l);
      assert RoleOK(s.hosts[n].raft);
      StepKeepsStructure(rule, s.hosts[n].raft, l.event);
      ExecEffect(ids, rule, s, n, l.event);
      hide Step, CoreInv, Do, RoleOK;
    } else {
      hide CoreInv, Step, Record, Packets, Emissions, Applied, ApplyAll;
    }
  }

  lemma {:induction false} LeaderStaysKnown(ids: seq<NodeId>, rule: AckRule, r: Run, i: nat,
                                            j: nat, n: NodeId, t: Term, leader: NodeId)
    requires Config(ids) && IsRun(ids, rule, r) && i <= j < |r.states|
    requires FollowsLeader(r.states[i], n, t, leader)
    requires forall k {:trigger r.labels[k]} | i <= k < j && k < |r.labels| ::
               r.labels[k].node == n ==> r.labels[k].Exec?
    ensures n in r.states[j].hosts && r.states[j].hosts[n].raft.persistent.currentTerm >= t
    ensures r.states[j].hosts[n].raft.persistent.currentTerm == t ==>
              FollowsLeader(r.states[j], n, t, leader)
    decreases j
  {
    hide IsRun, Config, CoreInv, Enabled, Do;
    RunStarts(ids, rule, r);
    if i == j {
    } else {
      LeaderStaysKnown(ids, rule, r, i, j - 1, n, t, leader);
      CoreHolds(ids, rule, r, j - 1);
      RunMoves(ids, rule, r, j - 1);
      StepKeepsTerm(ids, rule, r.states[j - 1], r.labels[j - 1], n);
      hide FollowsLeader;
      if r.states[j].hosts[n].raft.persistent.currentTerm == t {
        StepKeepsLeader(ids, rule, r.states[j - 1], r.labels[j - 1], n, t, leader);
      }
    }
  }

  /** A node that has accepted a request and has lived on in its term answers every client
      with one referral to the sender of that request, and with nothing else. */
  lemma ClientIsSentToLeader(ids: seq<NodeId>, rule: AckRule, r: Run, i: nat, j: nat, n: NodeId,
                             m: AppendEntries, command: Command)
    requires Config(ids) && IsRun(ids, rule, r) && i < |r.labels| && i < j < |r.states|
    requires r.labels[i] == Exec(n, Receive(Append(m)))
    requires n in r.states[i].hosts && Accepts(r.states[i].hosts[n].raft, m)
    requires forall k {:trigger r.labels[k]} | i <= k < j && k < |r.labels| ::
               r.labels[k].node == n ==> r.labels[k].Exec?
    ensures n in r.states[j].hosts && VectorsFit(r.states[j].hosts[n].raft)
    ensures r.states[j].hosts[n].raft.persistent.currentTerm == m.term ==>
              Step(rule, r.states[j].hosts[n].raft, ClientRequest(command)).actions
              == [NotLeader(Some(m.leaderId))]
  {
    hide *;
    CoreHolds(ids, rule, r, i);
    RunMoves(ids, rule, r, i);
    AcceptingFollows(ids, rule, r.states[i], n, m);
    LeaderStaysKnown(ids, rule, r, i + 1, j, n, m.term, m.leaderId);
    CoreHolds(ids, rule, r, j);
    HostFits(ids, r.states[j], n);
    if r.states[j].hosts[n].raft.persistent.currentTerm == m.term {
      FollowerRefers(ids, rule, r.states[j], n, m.term, m.leaderId, command);
    }
  }

  lemma HostFits(ids: seq<NodeId>, s: System, n: NodeId)
    requires CoreInv(ids, s) && n in s.hosts
    ensures VectorsFit(s.hosts[n].raft)
  {
    CoreEventAfter(ids, s, n);
    assert RoleOK(s.hosts[n].raft);
  }

  lemma FollowerRefers(ids: seq<NodeId>, rule: AckRule, s: System, n: NodeId, t: Term,
                       leader: NodeId, command: Command)
    requires CoreInv(ids, s) && FollowsLeader(s, n, t, leader) && VectorsFit(s.hosts[n].raft)
    ensures Step(rule, s.hosts[n].raft, ClientRequest(command)).actions
         == [NotLeader(Some(leader))]
  {
    hide *;
    FollowerHoldsNoOffice(ids, s, n, t, leader);
    ClientIsRedirected(s.hosts[n].raft, command);
    Dispatch(rule, s.hosts[n].raft, ClientRequest(command));
  }

  lemma FollowerHoldsNoOffice(ids: seq<NodeId>, s: System, n: NodeId, t: Term, leader: NodeId)
    requires CoreInv(ids, s) && FollowsLeader(s, n, t, leader)
    ensures n in s.hosts && s.hosts[n].raft.role != Leader
    ensures s.hosts[n].raft.knownLeader == Some(leader)
  {
    CoreEventAfter(ids, s, n);
    assert OfficeOK(s.history, n, s.hosts[n].raft);
    hide CoreInv, HistoryOK, HostOK;
  }

  lemma AcceptingFollows(ids: seq<NodeId>, rule: AckRule, s: System, n: NodeId, m: AppendEntries)
    requires Config(ids) && CoreInv(ids, s) && Enabled(rule, s, Exec(n, Receive(Append(m))))
    requires n in s.hosts && Accepts(s.hosts[n].raft, m)
    ensures FollowsLeader(Do(ids, rule, s, Exec(n, Receive(Append(m)))), n, m.term, m.leaderId)
  {
    var l := Exec(n, Receive(Append(m)));
    var s' := Do(ids, rule, s, l);
    CoreEvent(ids, rule, s, l);
    LogShapeOf(ids, s.history, n, s.hosts[n]);
    ExecEffect(ids, rule, s, n, Receive(Append(m)));
    StepExtends(ids, rule, s, l);
    AppendIsAnswered(rule, s.hosts[n].raft, m);
    LogMatchesIsTermAt(s.hosts[n].raft.persistent.log, m.prevLogIndex, m.prevLogTerm);
    hide CoreInv, HistoryOK, HostOK, Do, HandleAppendEntries, Config, Enabled;
    assert SameOffice(s.history.reigns[m.term], s'.history.reigns[m.term]);
  }

  lemma LogShapeOf(ids: seq<NodeId>, h: History, n: NodeId, host: Host)
    requires HostOK(ids, h, n, host)
    ensures Contiguous(host.raft.persistent.log)
  {
  }

  /** In every run the node a client is sent to has led a term up to the sender's. */
  lemma ReferralHasLed(ids: seq<NodeId>, rule: AckRule, r: Run, i: nat, n: NodeId,
                       command: Command, leader: NodeId)
    requires Config(ids) && IsRun(ids, rule, r) && i < |r.states| && n in r.states[i].hosts
    requires VectorsFit(r.states[i].hosts[n].raft)
    requires NotLeader(Some(leader))
             in Step(rule, r.states[i].hosts[n].raft, ClientRequest(command)).actions
    ensures r.states[i].hosts[n].raft.role != Leader
    ensures exists t: Term :: t <= r.states[i].hosts[n].raft.persistent.currentTerm
              && t in r.states[i].history.reigns && r.states[i].history.reigns[t].leader == leader
  {
    var raft := r.states[i].hosts[n].raft;
    HostInOrder(ids, rule, r, i, n);
    KnownLeaderHasLed(ids, rule, r, i, n);
    if raft.role == Leader {
      LeaderRefersNobody(raft, command, leader);
    } else {
      ClientIsRedirected(raft, command);
    }
    hide IsRun, HostOK, HistoryOK, HandleClientRequest;
  }

  lemma LeaderRefersNobody(s: RaftState, command: Command, leader: NodeId)
    requires s.role == Leader
    ensures NotLeader(Some(leader)) !in HandleClientRequest(s, command).actions
  {
    var longer := Extended(s, command);
    var o := HandleClientRequest(s, command);
    ApplyBetweenApplies(longer, s.volatile.lastApplied, o.state.volatile.commitIndex);
  }
}
