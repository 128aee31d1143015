/** Catch-up: a leader and a follower that nobody interferes with agree after at most
    `next_index` rounds of heartbeat, request and reply. */
module CatchUp {
  import opened Protocol
  import opened RaftSteps
  import opened LogFacts
  import opened Runtime
  import opened RoleStructure
  import opened Cluster
  import opened Quorums
  import opened Histories
  import opened CoreInvariant
  import opened CoreSteps
  import opened Runs
  import opened Safety
  import opened Voting
  import opened Answers

  /** A leader, its term and one of its peers. */
  predicate Pair(s: System, a: NodeId, t: Term, i: nat) {
    && Leads(s, a, t)
    && VectorsFit(s.hosts[a].raft) && s.hosts[a].raft.leaderState.Some?
    && i < |s.hosts[a].raft.peers| && s.hosts[a].raft.peers[i] in s.hosts
  }

  function Peer(s: System, a: NodeId, t: Term, i: nat): NodeId
    requires Pair(s, a, t, i)
  {
    s.hosts[a].raft.peers[i]
  }

  function NextIndex(s: System, a: NodeId, t: Term, i: nat): LogIndex
    requires Pair(s, a, t, i)
  {
    s.hosts[a].raft.leaderState.value.nextIndex[i]
  }

  function MatchIndex(s: System, a: NodeId, t: Term, i: nat): LogIndex
    requires Pair(s, a, t, i)
  {
    s.hosts[a].raft.leaderState.value.matchIndex[i]
  }

  function Request(s: System, a: NodeId, t: Term, i: nat): AppendEntries
    requires Pair(s, a, t, i)
  {
    AppendEntriesForPeer(s.hosts[a].raft, i).msg.ae
  }

  /** The reply of a node to a request. */
  function ReplyTo(rule: AckRule, s: RaftState, m: AppendEntries): AppendEntriesResponse {
    var term := HandleAppendEntries(rule, s, m).state.persistent.currentTerm;
    if Accepts(s, m)
    then AppendEntriesResponse(term, true, s.id,
                               AckIndex(rule, Reconcile(s.persistent.log, m.entries), m))
    else AppendEntriesResponse(term, false, s.id, 0)
  }

  /** The leader's heartbeat fires, its request arrives, the reply arrives. */
  function RoundLabels(rule: AckRule, s: System, a: NodeId, t: Term, i: nat): seq<Label>
    requires Pair(s, a, t, i)
  {
    var u, m := Peer(s, a, t, i), Request(s, a, t, i);
    [Exec(a, HeartbeatTimeout),
     Exec(u, Receive(Append(m))),
     Exec(a, Receive(AppendReply(ReplyTo(rule, s.hosts[u].raft, m))))]
  }

  function Rounds(ids: seq<NodeId>, rule: AckRule, s: System, a: NodeId, t: Term, i: nat, k: nat)
    : Option<System>
    decreases k
  {
    if k == 0 then Some(s)
    else if !Pair(s, a, t, i) then None
    else match Perform(ids, rule, s, RoundLabels(rule, s, a, t, i))
         case None => None
         case Some(s') => Rounds(ids, rule, s', a, t, i, k - 1)
  }

  lemma PerformThree(ids: seq<NodeId>, rule: AckRule, s: System, s1: System, s2: System,
                     l1: Label, l2: Label, l3: Label)
    requires Enabled(rule, s, l1) && s1 == Do(ids, rule, s, l1)
    requires Enabled(rule, s1, l2) && s2 == Do(ids, rule, s1, l2)
    requires Enabled(rule, s2, l3)
    ensures Perform(ids, rule, s, [l1, l2, l3]) == Some(Do(ids, rule, s2, l3))
  {
    hide Enabled, Do;
    assert [l1, l2, l3][1..] == [l2, l3] && [l2, l3][1..] == [l3] && [l3][1..] == [];
    assert Perform(ids, rule, s2, [l3]) == Some(Do(ids, rule, s2, l3));
    assert Perform(ids, rule, s1, [l2, l3]) == Some(Do(ids, rule, s2, l3));
  }

  // ── one round ───────────────────────────────────────────────────────────────

  lemma HeartbeatSends(s: RaftState, i: nat)
    requires VectorsFit(s) && s.role == Leader && i < |s.peers|
    ensures HandleHeartbeatTimeout(s).state == s
    ensures AppendEntriesForPeer(s, i) in HandleHeartbeatTimeout(s).actions
  {
    assert HandleHeartbeatTimeout(s).actions[i + 1] == AppendEntriesForPeer(s, i);
  }

  lemma ReplyIsSent(rule: AckRule, s: RaftState, m: AppendEntries)
    requires m.term >= s.persistent.currentTerm
    ensures var o, q := HandleAppendEntries(rule, s, m), ReplyTo(rule, s, m);
            && Send(m.leaderId, AppendReply(q)) in o.actions
            && o.state.persistent.currentTerm == m.term && q.term == m.term && q.from == s.id
            && q.success == Accepts(s, m)
            && o.state.persistent.log == if Accepts(s, m)
                                         then Reconcile(s.persistent.log, m.entries)
                                         else s.persistent.log
  {
    AppendOutcome(rule, s, m);
    var o := HandleAppendEntries(rule, s, m);
    if Accepts(s, m) {
      assert o.actions[2] == Send(m.leaderId, AppendReply(ReplyTo(rule, s, m)));
    }
  }

  lemma RequestShape(ids: seq<NodeId>, h: History, n: NodeId, host: Host, i: nat)
    requires Config(ids) && HistoryOK(ids, h) && HostOK(ids, h, n, host)
    requires host.raft.role == Leader && VectorsFit(host.raft) && host.raft.leaderState.Some?
    requires i < |host.raft.peers|
    ensures AppendEntriesForPeer(host.raft, i).Send? && AppendEntriesForPeer(host.raft, i).msg.Append?
    ensures var m, next := AppendEntriesForPeer(host.raft, i).msg.ae,
                           host.raft.leaderState.value.nextIndex[i];
            && next >= 1 && m.prevLogIndex == next - 1
            && m.prevLogTerm == TermAt(host.raft.persistent.log, next - 1)
            && m.leaderCommit == host.raft.volatile.commitIndex
            && m.term == host.raft.persistent.currentTerm && m.leaderId == n
            && EndIndex(m) >= |host.raft.persistent.log|
            && PacketOK(ids, h, Packet(host.raft.peers[i], Append(m)))
    ensures AppendEntriesForPeer(host.raft, i).to == host.raft.peers[i]
    ensures var t := host.raft.persistent.currentTerm;
            t in h.reigns && h.reigns[t].log == host.raft.persistent.log
  {
    LeaderFacts(ids, h, n, host);
    assert Contiguous(host.raft.persistent.log);
    hide GoodLog, ReignOK, HistoryOK, HostOK, AppendEntriesForPeer, PacketOK;
    RequestIsSlice(ids, h, n, host.raft, i);
    RequestFields(host.raft, i);
  }

  /** A request that hangs on an entry both nodes have is accepted. */
  lemma AgreedIsAccepted(s: RaftState, m: AppendEntries, leader: Log, e: nat)
    requires Contiguous(s.persistent.log) && m.term >= s.persistent.currentTerm
    requires e <= |leader| && leader[..e] <= s.persistent.log
    requires m.prevLogIndex <= e && m.prevLogTerm == TermAt(leader, m.prevLogIndex)
    ensures Accepts(s, m)
  {
    LogMatchesIsTermAt(s.persistent.log, m.prevLogIndex, m.prevLogTerm);
    if m.prevLogIndex > 0 {
      assert leader[..e][m.prevLogIndex - 1] == s.persistent.log[m.prevLogIndex - 1];
    }
  }

  lemma AcceptedBringsLog(ids: seq<NodeId>, h: History, to: NodeId, s: RaftState, m: AppendEntries,
                          leader: Log)
    requires HistoryOK(ids, h) && GoodLog(h, s.persistent.log)
    requires PacketOK(ids, h, Packet(to, Append(m))) && Accepts(s, m)
    requires h.reigns[m.term].log == leader && EndIndex(m) >= |leader|
    ensures leader <= Reconcile(s.persistent.log, m.entries)
    ensures EndIndex(m) == |leader| && Follows(m.entries, m.prevLogIndex)
  {
    AcceptedLog(ids, h, s.persistent.log, m);
    assert ReignOK(ids, h, m.term);
    MessageEntries(h, s.persistent.log, m, h.reigns[m.term]);
    hide Reconcile, HistoryOK, GoodLog, Accepts, ReignOK;
    assert leader[..EndIndex(m)] == leader;
  }

  /** A request is accepted as soon as it hangs on an entry both nodes have, and then brings
      the leader's whole log. */
  lemma RequestBringsLog(ids: seq<NodeId>, h: History, n: NodeId, host: Host, i: nat,
                         follower: RaftState, e: nat)
    requires Config(ids) && HistoryOK(ids, h) && HostOK(ids, h, n, host)
    requires host.raft.role == Leader && VectorsFit(host.raft) && host.raft.leaderState.Some?
    requires i < |host.raft.peers| && GoodLog(h, follower.persistent.log)
    requires follower.persistent.currentTerm <= host.raft.persistent.currentTerm
    requires e <= |host.raft.persistent.log|
             && host.raft.persistent.log[..e] <= follower.persistent.log
    ensures AppendEntriesForPeer(host.raft, i).Send? && AppendEntriesForPeer(host.raft, i).msg.Append?
    ensures AppendEntriesForPeer(host.raft, i).to == host.raft.peers[i]
    ensures host.raft.leaderState.value.nextIndex[i] >= 1
    ensures var m := AppendEntriesForPeer(host.raft, i).msg.ae;
            && m.term == host.raft.persistent.currentTerm && m.leaderId == n
            && m.leaderCommit == host.raft.volatile.commitIndex
            && (host.raft.leaderState.value.nextIndex[i] <= e + 1 ==> Accepts(follower, m))
            && (Accepts(follower, m) ==>
                  && host.raft.persistent.log <= Reconcile(follower.persistent.log, m.entries)
                  && EndIndex(m) == |host.raft.persistent.log|
                  && Follows(m.entries, m.prevLogIndex))
  {
    hide *;
    RequestShape(ids, h, n, host, i);
    GoodIsContiguous(h, follower.persistent.log);
    var m := AppendEntriesForPeer(host.raft, i).msg.ae;
    if m.prevLogIndex <= e { AgreedIsAccepted(follower, m, host.raft.persistent.log, e); }
    if Accepts(follower, m) {
      AcceptedBringsLog(ids, h, host.raft.peers[i], follower, m, host.raft.persistent.log);
    }
  }

  lemma AckCoversLog(rule: AckRule, log: Log, leader: Log, m: AppendEntries)
    requires Contiguous(log) && leader <= log && EndIndex(m) >= |leader|
    ensures AckIndex(rule, log, m) >= |leader|
  {
    LastIndexIsLength(log);
  }

  lemma PairFacts(ids: seq<NodeId>, s: System, a: NodeId, t: Term, i: nat)
    requires Config(ids) && CoreInv(ids, s) && Pair(s, a, t, i)
    ensures a in ids && HistoryOK(ids, s.history) && HostOK(ids, s.history, a, s.hosts[a])
    ensures HostOK(ids, s.history, Peer(s, a, t, i), s.hosts[Peer(s, a, t, i)])
    ensures Peer(s, a, t, i) != a && Distinct(s.hosts[a].raft.peers)
    ensures s.hosts[Peer(s, a, t, i)].raft.id == Peer(s, a, t, i)
    ensures GoodLog(s.history, s.hosts[Peer(s, a, t, i)].raft.persistent.log)
    ensures Contiguous(s.hosts[Peer(s, a, t, i)].raft.persistent.log)
    ensures VectorsFit(s.hosts[Peer(s, a, t, i)].raft)
    ensures RoleOK(s.hosts[a].raft) && Contiguous(LogOf(s, a))
  {
    hide HistoryOK, PacketOK;
    assert a in Members(ids);
    PeersAreTheOthers(ids, a);
  }

  /** What the leader and its peer agree on. */
  predicate AgreeUpTo(s: System, a: NodeId, t: Term, i: nat, e: nat)
    requires Pair(s, a, t, i)
  {
    e <= |LogOf(s, a)| && LogOf(s, a)[..e] <= LogOf(s, Peer(s, a, t, i))
  }

  /** Rounds with one peer leave the leader's log, its other credits and all other nodes alone
      and take no commit back. */
  ghost predicate Undisturbed(s: System, s': System, a: NodeId, t: Term, i: nat)
    requires Pair(s, a, t, i) && Pair(s', a, t, i)
  {
    var u, raft, raft' := Peer(s, a, t, i), s.hosts[a].raft, s'.hosts[a].raft;
    && LogOf(s', a) == LogOf(s, a) && raft'.peers == raft.peers
    && raft'.volatile.commitIndex >= raft.volatile.commitIndex
    && raft'.volatile.lastApplied >= raft.volatile.lastApplied
    && s'.hosts.Keys == s.hosts.Keys
    && (forall v | v in s.hosts && v != a && v != u :: s'.hosts[v] == s.hosts[v])
    && (forall j | 0 <= j < |raft.peers| && j != i ::
          MatchOf(raft', j) == MatchOf(raft, j) && NextOf(raft', j) == NextOf(raft, j))
    && s'.hosts[u].raft.persistent.currentTerm == t
  }

  lemma UndisturbedTwice(s: System, s1: System, s2: System, a: NodeId, t: Term, i: nat)
    requires Pair(s, a, t, i) && Pair(s1, a, t, i) && Pair(s2, a, t, i)
    requires Undisturbed(s, s1, a, t, i) && Undisturbed(s1, s2, a, t, i)
    ensures Undisturbed(s, s2, a, t, i) && Peer(s2, a, t, i) == Peer(s, a, t, i)
  {
  }

  /** The peer has the leader's whole log and has committed and applied what the leader had
      committed of it; the leader knows, and has committed and applied everything itself if
      that makes a majority and its last entry is of its own term. */
  ghost predicate CaughtUp(s: System, s': System, a: NodeId, t: Term, i: nat)
    requires Pair(s, a, t, i) && Pair(s', a, t, i) && Peer(s, a, t, i) in s'.hosts
  {
    var log, u := LogOf(s, a), Peer(s, a, t, i);
    var v, v' := s'.hosts[u].raft.volatile, s'.hosts[a].raft.volatile;
    && log <= LogOf(s', u)
    && v.lastApplied >= v.commitIndex >= Min(s.hosts[a].raft.volatile.commitIndex, |log|)
    && MatchIndex(s', a, t, i) >= |log|
    && (log != [] && LastLogTerm(log) == t && MajorityHasLog(s'.hosts[a].raft) ==>
          v'.lastApplied >= v'.commitIndex >= |log|)
  }

  /** The leader will try one entry earlier; that is still behind what the two agree on. */
  ghost predicate BackedUp(s: System, s': System, a: NodeId, t: Term, i: nat, e: nat)
    requires Pair(s, a, t, i) && Pair(s', a, t, i) && Peer(s, a, t, i) in s'.hosts
  {
    && NextIndex(s, a, t, i) > e + 1
    && NextIndex(s', a, t, i) == NextIndex(s, a, t, i) - 1
    && LogOf(s', Peer(s, a, t, i)) == LogOf(s, Peer(s, a, t, i))
  }

  lemma RoundsStep(ids: seq<NodeId>, rule: AckRule, s: System, a: NodeId, t: Term, i: nat,
                   s1: System)
    requires Pair(s, a, t, i) && Perform(ids, rule, s, RoundLabels(rule, s, a, t, i)) == Some(s1)
    ensures forall k: nat :: Rounds(ids, rule, s, a, t, i, k + 1) == Rounds(ids, rule, s1, a, t, i, k)
    ensures Rounds(ids, rule, s, a, t, i, 1) == Some(s1)
  {
    hide Perform, RoundLabels, Pair;
    assert Rounds(ids, rule, s1, a, t, i, 0) == Some(s1);
  }

  lemma NextIndexIsPositive(ids: seq<NodeId>, s: System, a: NodeId, t: Term, i: nat)
    requires Config(ids) && CoreInv(ids, s) && Pair(s, a, t, i)
    ensures NextIndex(s, a, t, i) >= 1
  {
    PairFacts(ids, s, a, t, i);
    assert RoleOK(s.hosts[a].raft);
    hide HistoryOK, CoreInv;
  }

  /** What the peer makes of the request. */
  lemma PeerCommits(rule: AckRule, s: RaftState, m: AppendEntries, log: Log)
    requires Accepts(s, m) && Follows(m.entries, m.prevLogIndex) && EndIndex(m) == |log|
    ensures var v := HandleAppendEntries(rule, s, m).state.volatile;
            v.lastApplied >= v.commitIndex >= Min(m.leaderCommit, |log|)
  {
    AcceptedCommits(rule, s, m);
    hide HandleAppendEntries;
  }

  /** What the leader makes of the reply. */
  lemma ReplyIsBooked(s: RaftState, q: AppendEntriesResponse, i: nat)
    requires Heeds(s, q, i) && Contiguous(s.persistent.log)
    ensures var s' := HandleAppendEntriesResponse(s, q).state;
            && s'.role == Leader && VectorsFit(s') && s'.leaderState.Some?
            && s'.persistent == s.persistent && s'.peers == s.peers
            && s'.volatile.commitIndex >= s.volatile.commitIndex
            && s'.volatile.lastApplied >= s.volatile.lastApplied
            && (forall j | 0 <= j < |s.peers| && j != i ::
                  MatchOf(s', j) == MatchOf(s, j) && NextOf(s', j) == NextOf(s, j))
            && (q.success ==>
                  && MatchOf(s', i) >= q.matchIndex
                  && (s.persistent.log != [] && LastLogTerm(s.persistent.log) == q.term
                      && MajorityHasLog(s') ==>
                        s'.volatile.lastApplied >= s'.volatile.commitIndex >= |s.persistent.log|))
            && (!q.success && NextOf(s, i) > 1 ==> NextOf(s', i) == NextOf(s, i) - 1)
  {
    if q.success {
      SuccessAdvances(s, q, i);
      hide HandleAppendEntriesResponse;
      if && s.persistent.log != [] && LastLogTerm(s.persistent.log) == q.term
         && MajorityHasLog(HandleAppendEntriesResponse(s, q).state) {
        MajorityCommits(s, q, i);
      }
    } else {
      RefusalBacksUp(s, q, i);
    }
  }

  /** Putting the three steps of a round together. */
  lemma RoundOutcome(s: System, s1: System, s2: System, s': System, a: NodeId, t: Term, i: nat,
                     e: nat)
    requires Pair(s, a, t, i)
    requires var u := Peer(s, a, t, i);
             && u != a && u in s2.hosts && a in s1.hosts && a in s'.hosts
             && s1.hosts == s.hosts[a := s1.hosts[a]] && s1.hosts[a].raft == s.hosts[a].raft
             && s2.hosts == s1.hosts[u := s2.hosts[u]]
             && s'.hosts == s2.hosts[a := s'.hosts[a]]
             && s2.hosts[u].raft.persistent.currentTerm == t
    requires var raft, raft' := s.hosts[a].raft, s'.hosts[a].raft;
             && raft'.role == Leader && VectorsFit(raft') && raft'.leaderState.Some?
             && raft'.persistent == raft.persistent && raft'.peers == raft.peers
             && raft'.volatile.commitIndex >= raft.volatile.commitIndex
             && raft'.volatile.lastApplied >= raft.volatile.lastApplied
             && (forall j | 0 <= j < |raft.peers| && j != i ::
                   MatchOf(raft', j) == MatchOf(raft, j) && NextOf(raft', j) == NextOf(raft, j))
             && var log, peer, v := raft.persistent.log, s2.hosts[Peer(s, a, t, i)].raft,
                                    s2.hosts[Peer(s, a, t, i)].raft.volatile;
                || (&& log <= peer.persistent.log && MatchOf(raft', i) >= |log|
                    && v.lastApplied >= v.commitIndex >= Min(raft.volatile.commitIndex, |log|)
                    && (log != [] && LastLogTerm(log) == t && MajorityHasLog(raft') ==>
                          raft'.volatile.lastApplied >= raft'.volatile.commitIndex >= |log|))
                || (&& NextOf(raft, i) > e + 1 && NextOf(raft', i) == NextOf(raft, i) - 1
                    && peer.persistent.log == s.hosts[Peer(s, a, t, i)].raft.persistent.log)
    ensures Pair(s', a, t, i) && Undisturbed(s, s', a, t, i)
    ensures Peer(s, a, t, i) in s'.hosts && Peer(s', a, t, i) == Peer(s, a, t, i)
    ensures CaughtUp(s, s', a, t, i) || BackedUp(s, s', a, t, i, e)
  {
    hide MajorityHasLog, Min, LastLogTerm;
  }

  lemma OneRound(ids: seq<NodeId>, rule: AckRule, s: System, a: NodeId, t: Term, i: nat, e: nat)
    returns (s': System)
    requires Config(ids) && CoreInv(ids, s) && Pair(s, a, t, i) && AgreeUpTo(s, a, t, i, e)
    requires s.hosts[Peer(s, a, t, i)].raft.persistent.currentTerm <= t
    ensures Perform(ids, rule, s, RoundLabels(rule, s, a, t, i)) == Some(s')
    ensures CoreInv(ids, s') && Pair(s', a, t, i) && Undisturbed(s, s', a, t, i)
    ensures Peer(s, a, t, i) in s'.hosts && Peer(s', a, t, i) == Peer(s, a, t, i)
    ensures CaughtUp(s, s', a, t, i) || BackedUp(s, s', a, t, i, e)
  {
    hide HistoryOK, HostOK, GoodLog, CoreInv, HandleHeartbeatTimeout, HandleAppendEntries,
         HandleAppendEntriesResponse, AppendEntriesForPeer, Reconcile, Accepts, AckIndex, Do,
         Packets, Perform, Distinct, Config, BackUp, Contiguous, StepDown, RoleOK, Follows,
         MajorityHasLog, Undisturbed, CaughtUp, BackedUp, Min, LastLogTerm;
    PairFacts(ids, s, a, t, i);
    var u, leader := Peer(s, a, t, i), s.hosts[a].raft;
    var follower := s.hosts[u].raft;
    RequestBringsLog(ids, s.history, a, s.hosts[a], i, follower, e);
    var m := Request(s, a, t, i);
    var q := ReplyTo(rule, follower, m);
    assert Accepts(follower, m) ==>
             q.matchIndex == AckIndex(rule, Reconcile(follower.persistent.log, m.entries), m);
    hide ReplyTo;
    // the heartbeat
    var l1 := Exec(a, HeartbeatTimeout);
    HeartbeatSends(leader, i);
    SendIsPacket(HandleHeartbeatTimeout(leader).actions, u, Append(m));
    ExecEffect(ids, rule, s, a, HeartbeatTimeout);
    StepKeepsCore(ids, rule, s, l1);
    var s1 := Do(ids, rule, s, l1);
    // the request
    var l2 := Exec(u, Receive(Append(m)));
    assert s1.hosts[u] == s.hosts[u] && s1.hosts[a].raft == leader;
    assert Enabled(rule, s1, l2);
    ReplyIsSent(rule, follower, m);
    if Accepts(follower, m) { PeerCommits(rule, follower, m, leader.persistent.log); }
    SendIsPacket(HandleAppendEntries(rule, follower, m).actions, a, AppendReply(q));
    ExecEffect(ids, rule, s1, u, Receive(Append(m)));
    StepKeepsCore(ids, rule, s1, l2);
    var s2 := Do(ids, rule, s1, l2);
    // the reply
    var l3 := Exec(a, Receive(AppendReply(q)));
    assert s2.hosts[a].raft == leader;
    assert Enabled(rule, s2, l3);
    ReplyIsBooked(leader, q, i);
    ExecEffect(ids, rule, s2, a, Receive(AppendReply(q)));
    StepKeepsCore(ids, rule, s2, l3);
    s' := Do(ids, rule, s2, l3);
    PerformThree(ids, rule, s, s1, s2, l1, l2, l3);
    hide Perform;
    if Accepts(follower, m) {
      PeerLogContiguous(ids, s', u);
      AckCoversLog(rule, LogOf(s', u), leader.persistent.log, m);
    }
    RoundOutcome(s, s1, s2, s', a, t, i, e);
  }

  lemma PeerLogContiguous(ids: seq<NodeId>, s: System, n: NodeId)
    requires CoreInv(ids, s) && n in s.hosts
    ensures Contiguous(LogOf(s, n))
  {
    CoreEventAfter(ids, s, n);
    LogShapeOf(ids, s.history, n, s.hosts[n]);
  }

  /** Any leader and any peer whose term is not higher: the leader's whole log is a prefix of
      the peer's after no more rounds than `next_index` is behind what the two agree on. */
  lemma {:induction false} CatchesUp(ids: seq<NodeId>, rule: AckRule, s: System,
                                     a: NodeId, t: Term, i: nat, e: nat)
    returns (k: nat, s': System)
    requires Config(ids) && CoreInv(ids, s) && Pair(s, a, t, i) && AgreeUpTo(s, a, t, i, e)
    requires s.hosts[Peer(s, a, t, i)].raft.persistent.currentTerm <= t
    ensures 1 <= k <= (if NextIndex(s, a, t, i) > e then NextIndex(s, a, t, i) - e else 1)
    ensures Rounds(ids, rule, s, a, t, i, k) == Some(s')
    ensures CoreInv(ids, s') && Pair(s', a, t, i) && Undisturbed(s, s', a, t, i)
    ensures Peer(s, a, t, i) in s'.hosts && Peer(s', a, t, i) == Peer(s, a, t, i)
    ensures CaughtUp(s, s', a, t, i)
    decreases NextIndex(s, a, t, i)
  {
    hide *;
    var s1 := OneRound(ids, rule, s, a, t, i, e);
    RoundsStep(ids, rule, s, a, t, i, s1);
    NextIndexIsPositive(ids, s, a, t, i);
    if CaughtUp(s, s1, a, t, i) {
      k, s' := 1, s1;
    } else {
      StillAgree(s, s1, a, t, i, e);
      k, s' := CatchesUp(ids, rule, s1, a, t, i, e);
      UndisturbedTwice(s, s1, s', a, t, i);
      CaughtUpLater(s, s1, s', a, t, i);
      k := k + 1;
    }
  }

  lemma StillAgree(s: System, s': System, a: NodeId, t: Term, i: nat, e: nat)
    requires Pair(s, a, t, i) && Pair(s', a, t, i) && Peer(s, a, t, i) in s'.hosts
    requires Peer(s', a, t, i) == Peer(s, a, t, i) && Undisturbed(s, s', a, t, i)
    requires BackedUp(s, s', a, t, i, e) && AgreeUpTo(s, a, t, i, e)
    ensures AgreeUpTo(s', a, t, i, e)
    ensures NextIndex(s, a, t, i) > e + 1 && NextIndex(s', a, t, i) == NextIndex(s, a, t, i) - 1
    ensures s'.hosts[Peer(s', a, t, i)].raft.persistent.currentTerm == t
  {
  }

  lemma CaughtUpLater(s: System, s1: System, s2: System, a: NodeId, t: Term, i: nat)
    requires Pair(s, a, t, i) && Pair(s1, a, t, i) && Pair(s2, a, t, i)
    requires Undisturbed(s, s1, a, t, i) && Peer(s1, a, t, i) == Peer(s, a, t, i)
    requires Peer(s, a, t, i) in s2.hosts && CaughtUp(s1, s2, a, t, i)
    ensures CaughtUp(s, s2, a, t, i)
  {
    hide MajorityHasLog;
  }

  /** The same of any state of any run. */
  lemma CatchUpTerminates(ids: seq<NodeId>, rule: AckRule, r: Run, j: nat,
                          a: NodeId, t: Term, i: nat, e: nat)
    returns (k: nat, s': System)
    requires Config(ids) && IsRun(ids, rule, r) && j < |r.states|
    requires Leads(r.states[j], a, t) && i < |r.states[j].hosts[a].raft.peers|
    ensures Pair(r.states[j], a, t, i) && Peer(r.states[j], a, t, i) in r.states[j].hosts
    ensures var s, u := r.states[j], Peer(r.states[j], a, t, i);
            s.hosts[u].raft.persistent.currentTerm <= t && AgreeUpTo(s, a, t, i, e) ==>
              && 1 <= k <= (if NextIndex(s, a, t, i) > e then NextIndex(s, a, t, i) - e else 1)
              && Rounds(ids, rule, s, a, t, i, k) == Some(s')
              && Pair(s', a, t, i) && u in s'.hosts
              && Undisturbed(s, s', a, t, i) && CaughtUp(s, s', a, t, i)
  {
    var s := r.states[j];
    CoreHolds(ids, rule, r, j);
    LeaderHasPeers(ids, s, a, t, i);
    k, s' := 0, s;
    hide *;
    if && s.hosts[Peer(s, a, t, i)].raft.persistent.currentTerm <= t
       && AgreeUpTo(s, a, t, i, e) {
      k, s' := CatchesUp(ids, rule, s, a, t, i, e);
    }
  }

  lemma LeaderHasPeers(ids: seq<NodeId>, s: System, a: NodeId, t: Term, i: nat)
    requires Config(ids) && CoreInv(ids, s) && Leads(s, a, t) && i < |s.hosts[a].raft.peers|
    ensures Pair(s, a, t, i) && Peer(s, a, t, i) in s.hosts && a in s.hosts
  {
    hide HistoryOK, PacketOK;
    assert HostOK(ids, s.history, a, s.hosts[a]);
    PeersAreTheOthers(ids, a);
    assert s.hosts[a].raft.peers[i] in Members(ids);
  }

  // ── a majority ──────────────────────────────────────────────────────────────

  /** Every listed peer can be reached in the leader's term. */
  predicate Reachable(s: System, a: NodeId, t: Term, qs: seq<nat>) {
    forall k | 0 <= k < |qs| ::
      Pair(s, a, t, qs[k]) && s.hosts[Peer(s, a, t, qs[k])].raft.persistent.currentTerm <= t
  }

  /** The listed peers are credited with `n` entries. */
  predicate Credited(s: RaftState, qs: seq<nat>, n: nat) {
    && VectorsFit(s) && s.leaderState.Some?
    && forall k | 0 <= k < |qs| :: qs[k] < |s.peers| && MatchOf(s, qs[k]) >= n
  }

  predicate Once(qs: seq<nat>) {
    forall i, j | 0 <= i < j < |qs| :: qs[i] != qs[j]
  }

  lemma {:induction false} CreditsAreCounted(matches: seq<LogIndex>, qs: set<nat>, n: nat)
    requires forall q | q in qs :: q < |matches| && matches[q] >= n
    ensures CountAtLeast(matches, n) >= |qs|
  {
    if matches == [] {
      assert qs == {};
    } else {
      var k := |matches| - 1;
      CreditsAreCounted(matches[..k], qs - {k}, n);
      if k in qs { assert |qs - {k}| == |qs| - 1; } else { assert qs - {k} == qs; }
    }
  }

  function Listed(qs: seq<nat>): set<nat> {
    set q | q in qs
  }

  lemma {:induction false} OnceIsSize(qs: seq<nat>)
    requires Once(qs)
    ensures |Listed(qs)| == |qs|
  {
    if qs == [] {
      assert Listed(qs) == {};
    } else {
      var k := |qs| - 1;
      OnceIsSize(qs[..k]);
      assert qs == qs[..k] + [qs[k]];
      assert Listed(qs) == Listed(qs[..k]) + {qs[k]};
      assert qs[k] !in qs[..k];
    }
  }

  lemma CreditedMajority(s: RaftState, qs: seq<nat>)
    requires Credited(s, qs, |s.persistent.log|) && Once(qs) && Majority(1 + |qs|, |s.peers|)
    ensures MajorityHasLog(s)
  {
    OnceIsSize(qs);
    CreditsAreCounted(s.leaderState.value.matchIndex, Listed(qs), |s.persistent.log|);
  }

  /** The peers in the order of the list catch up one after the other. */
  function Tour(ids: seq<NodeId>, rule: AckRule, s: System, a: NodeId, t: Term, qs: seq<nat>,
                ks: seq<nat>): Option<System>
    requires |qs| == |ks|
    decreases |qs|
  {
    if qs == [] then Some(s)
    else match Tour(ids, rule, s, a, t, qs[..|qs| - 1], ks[..|qs| - 1])
         case None => None
         case Some(s1) => Rounds(ids, rule, s1, a, t, qs[|qs| - 1], ks[|qs| - 1])
  }

  /** What a tour leaves in place. */
  ghost predicate Toured(s: System, s': System, a: NodeId, t: Term, qs: seq<nat>) {
    && Leads(s, a, t) && Leads(s', a, t) && s'.hosts.Keys == s.hosts.Keys
    && LogOf(s', a) == LogOf(s, a) && s'.hosts[a].raft.peers == s.hosts[a].raft.peers
    && s'.hosts[a].raft.volatile.commitIndex >= s.hosts[a].raft.volatile.commitIndex
    && Credited(s'.hosts[a].raft, qs, |LogOf(s, a)|)
    && (forall u | u in s.hosts && s.hosts[u].raft.persistent.currentTerm <= t ::
          s'.hosts[u].raft.persistent.currentTerm <= t)
  }

  lemma NextStop(s: System, s1: System, a: NodeId, t: Term, qs: seq<nat>)
    requires Reachable(s, a, t, qs) && qs != [] && Toured(s, s1, a, t, qs[..|qs| - 1])
    ensures var q := qs[|qs| - 1];
            && Pair(s1, a, t, q) && AgreeUpTo(s1, a, t, q, 0)
            && s1.hosts[Peer(s1, a, t, q)].raft.persistent.currentTerm <= t
  {
    var q := qs[|qs| - 1];
    assert Pair(s, a, t, q);
  }

  lemma StopMade(s: System, s1: System, s2: System, a: NodeId, t: Term, qs: seq<nat>)
    requires qs != [] && Once(qs) && Toured(s, s1, a, t, qs[..|qs| - 1])
    requires var q := qs[|qs| - 1];
             && Pair(s1, a, t, q) && Pair(s2, a, t, q) && Peer(s1, a, t, q) in s2.hosts
             && Peer(s2, a, t, q) == Peer(s1, a, t, q)
             && Undisturbed(s1, s2, a, t, q) && CaughtUp(s1, s2, a, t, q)
             && Peer(s1, a, t, q) != a
    ensures Toured(s, s2, a, t, qs)
  {
    var n, log := |qs| - 1, LogOf(s, a);
    var raft1, raft2 := s1.hosts[a].raft, s2.hosts[a].raft;
    hide MajorityHasLog;
    forall k | 0 <= k < |qs| ensures qs[k] < |raft2.peers| && MatchOf(raft2, qs[k]) >= |log| {
      if k < n {
        assert qs[..n][k] == qs[k] && qs[k] != qs[n];
        assert MatchOf(raft1, qs[k]) >= |log|;
      }
    }
  }

  lemma {:induction false} TourCatchesUp(ids: seq<NodeId>, rule: AckRule, s: System, a: NodeId,
                                         t: Term, qs: seq<nat>)
    returns (ks: seq<nat>, s': System)
    requires Config(ids) && CoreInv(ids, s) && Leads(s, a, t) && Reachable(s, a, t, qs) && Once(qs)
    ensures |ks| == |qs| && Tour(ids, rule, s, a, t, qs, ks) == Some(s') && CoreInv(ids, s')
    ensures Toured(s, s', a, t, qs)
    ensures qs != [] && LogOf(s, a) != [] && LastLogTerm(LogOf(s, a)) == t
            && Majority(1 + |qs|, |s.hosts[a].raft.peers|) ==>
              s'.hosts[a].raft.volatile.lastApplied >= s'.hosts[a].raft.volatile.commitIndex
              >= |LogOf(s, a)|
    decreases |qs|
  {
    hide *;
    if qs == [] {
      ks, s' := [], s;
      TourStarts(ids, rule, s, a, t);
    } else {
      var n := |qs| - 1;
      var s1, k;
      FewerStops(s, a, t, qs);
      ks, s1 := TourCatchesUp(ids, rule, s, a, t, qs[..n]);
      NextStop(s, s1, a, t, qs);
      PairFacts(ids, s1, a, t, qs[n]);
      k, s' := CatchesUp(ids, rule, s1, a, t, qs[n], 0);
      TourGoesOn(ids, rule, s, s1, s', a, t, qs, ks, k);
      StopMade(s, s1, s', a, t, qs);
      ks := ks + [k];
      LeaderStays(s, s', a, t, qs);
      if LogOf(s, a) != [] && LastLogTerm(LogOf(s, a)) == t && Majority(1 + |qs|, |s.hosts[a].raft.peers|) {
        TourCommits(s, s1, s', a, t, qs);
      }
    }
  }

  lemma TourStarts(ids: seq<NodeId>, rule: AckRule, s: System, a: NodeId, t: Term)
    requires CoreInv(ids, s) && Leads(s, a, t)
    ensures Tour(ids, rule, s, a, t, [], []) == Some(s) && Toured(s, s, a, t, [])
    ensures a in s.hosts
  {
    hide CoreInv, RoleOK, HostOK, HistoryOK;
    LeadsAsHost(ids, s, a, t);
    FitsAsLeader(s.hosts[a].raft);
  }

  lemma FitsAsLeader(s: RaftState)
    requires RoleOK(s) && s.role == Leader
    ensures VectorsFit(s) && s.leaderState.Some?
  {
  }

  lemma FewerStops(s: System, a: NodeId, t: Term, qs: seq<nat>)
    requires Reachable(s, a, t, qs) && Once(qs) && qs != []
    ensures Reachable(s, a, t, qs[..|qs| - 1]) && Once(qs[..|qs| - 1])
  {
    hide Pair;
  }

  lemma TourGoesOn(ids: seq<NodeId>, rule: AckRule, s: System, s1: System, s': System, a: NodeId,
                   t: Term, qs: seq<nat>, ks: seq<nat>, k: nat)
    requires qs != [] && |ks| == |qs| - 1
    requires Tour(ids, rule, s, a, t, qs[..|qs| - 1], ks) == Some(s1)
    requires Rounds(ids, rule, s1, a, t, qs[|qs| - 1], k) == Some(s')
    ensures Tour(ids, rule, s, a, t, qs, ks + [k]) == Some(s')
  {
    hide Rounds;
    assert (ks + [k])[..|qs| - 1] == ks;
  }

  lemma LeaderStays(s: System, s': System, a: NodeId, t: Term, qs: seq<nat>)
    requires Toured(s, s', a, t, qs)
    ensures a in s.hosts && a in s'.hosts
  {
  }

  lemma TourCommits(s: System, s1: System, s': System, a: NodeId, t: Term, qs: seq<nat>)
    requires qs != [] && Once(qs) && Toured(s, s', a, t, qs) && Toured(s, s1, a, t, qs[..|qs| - 1])
    requires var q := qs[|qs| - 1];
             Pair(s1, a, t, q) && Pair(s', a, t, q) && Peer(s1, a, t, q) in s'.hosts
             && CaughtUp(s1, s', a, t, q)
    requires LogOf(s, a) != [] && LastLogTerm(LogOf(s, a)) == t
    requires Majority(1 + |qs|, |s.hosts[a].raft.peers|)
    ensures s'.hosts[a].raft.volatile.lastApplied >= s'.hosts[a].raft.volatile.commitIndex
            >= |LogOf(s, a)|
  {
    CreditedMajority(s'.hosts[a].raft, qs);
  }

  // ── a command from client to every store ────────────────────────────────────

  lemma CommandTaken(ids: seq<NodeId>, rule: AckRule, s: System, a: NodeId, t: Term,
                     command: Command, qs: seq<nat>)
    requires Config(ids) && CoreInv(ids, s) && Leads(s, a, t) && Reachable(s, a, t, qs)
    ensures a in s.hosts && Enabled(rule, s, Exec(a, ClientRequest(command)))
    ensures var s1 := Do(ids, rule, s, Exec(a, ClientRequest(command)));
            && CoreInv(ids, s1) && Leads(s1, a, t) && Reachable(s1, a, t, qs)
            && LogOf(s1, a) == LogOf(s, a) + [LogEntry(t, |LogOf(s, a)| + 1, command)]
            && LastLogTerm(LogOf(s1, a)) == t
            && s1.hosts[a].raft.peers == s.hosts[a].raft.peers
  {
    hide *;
    LeadsAsHost(ids, s, a, t);
    var l := Exec(a, ClientRequest(command));
    ClientEnabled(ids, rule, s, a, command);
    LogShapeOf(ids, s.history, a, s.hosts[a]);
    TakesCommand(rule, s.hosts[a].raft, command);
    ExecEffect(ids, rule, s, a, ClientRequest(command));
    StepKeepsCore(ids, rule, s, l);
    AfterKeepsRaft(s.hosts[a], Step(rule, s.hosts[a].raft, ClientRequest(command)));
    PeersAreOthers(ids, s, a);
    StillReachable(s, Do(ids, rule, s, l), a, t, qs);
  }

  lemma LeadsAsHost(ids: seq<NodeId>, s: System, a: NodeId, t: Term)
    requires CoreInv(ids, s) && Leads(s, a, t)
    ensures a in s.hosts && HostOK(ids, s.history, a, s.hosts[a]) && RoleOK(s.hosts[a].raft)
    ensures s.hosts[a].raft.role == Leader && s.hosts[a].raft.persistent.currentTerm == t
  {
    CoreEventAfter(ids, s, a);
    hide CoreInv, HistoryOK;
  }

  lemma ClientEnabled(ids: seq<NodeId>, rule: AckRule, s: System, a: NodeId, command: Command)
    requires a in s.hosts && RoleOK(s.hosts[a].raft)
    ensures Enabled(rule, s, Exec(a, ClientRequest(command)))
  {
    hide Step;
  }

  lemma AfterKeepsRaft(host: Host, o: Outcome)
    ensures After(host, o).raft == o.state
  {
    hide Applied, ApplyAll;
  }

  lemma PeersAreOthers(ids: seq<NodeId>, s: System, a: NodeId)
    requires Config(ids) && CoreInv(ids, s) && a in s.hosts
    ensures forall p | p in s.hosts[a].raft.peers :: p != a
  {
    CoreEventAfter(ids, s, a);
    PeersAreTheOthers(ids, a);
    hide CoreInv, HistoryOK, PeersOf;
  }

  lemma TakesCommand(rule: AckRule, s: RaftState, command: Command)
    requires RoleOK(s) && s.role == Leader && Contiguous(s.persistent.log)
    ensures var s' := Step(rule, s, ClientRequest(command)).state;
            && RoleOK(s') && s'.role == Leader && s'.peers == s.peers
            && s'.persistent.currentTerm == s.persistent.currentTerm
            && s'.persistent.log == s.persistent.log + [LogEntry(
                 s.persistent.currentTerm, |s.persistent.log| + 1, command)]
            && LastLogTerm(s'.persistent.log) == s.persistent.currentTerm
  {
    LastIndexIsLength(s.persistent.log);
    ClientOutcome(s, command);
    StepKeepsStructure(rule, s, ClientRequest(command));
    hide HandleClientRequest, RoleOK;
  }

  lemma StillReachable(s: System, s1: System, a: NodeId, t: Term, qs: seq<nat>)
    requires Reachable(s, a, t, qs) && a in s.hosts && a in s1.hosts
    requires s1.hosts == s.hosts[a := s1.hosts[a]]
    requires RoleOK(s1.hosts[a].raft) && s1.hosts[a].raft.role == Leader
    requires s1.hosts[a].raft.persistent.currentTerm == t
    requires s1.hosts[a].raft.peers == s.hosts[a].raft.peers
    requires forall p | p in s.hosts[a].raft.peers :: p != a
    ensures Leads(s1, a, t) && Reachable(s1, a, t, qs)
    ensures LogOf(s1, a) == s1.hosts[a].raft.persistent.log
    ensures LogOf(s, a) == s.hosts[a].raft.persistent.log
  {
    forall k | 0 <= k < |qs|
      ensures Pair(s1, a, t, qs[k])
      ensures s1.hosts[Peer(s1, a, t, qs[k])].raft.persistent.currentTerm <= t
    {
      assert Pair(s, a, t, qs[k]);
    }
  }

  /** A command a leader takes is committed and applied by the leader once a strict majority
      has caught up, and by any peer after at most one more catch-up. */
  lemma CommandSpreads(ids: seq<NodeId>, rule: AckRule, s: System, a: NodeId, t: Term,
                       command: Command, qs: seq<nat>, i: nat)
    returns (ks: seq<nat>, k: nat, s1: System, s2: System, s3: System)
    requires Config(ids) && CoreInv(ids, s) && Leads(s, a, t)
    requires Reachable(s, a, t, qs) && Once(qs) && i in qs
    requires Majority(1 + |qs|, |s.hosts[a].raft.peers|)
    ensures Enabled(rule, s, Exec(a, ClientRequest(command)))
    ensures s1 == Do(ids, rule, s, Exec(a, ClientRequest(command))) && Leads(s1, a, t)
    ensures LogOf(s1, a) == LogOf(s, a) + [LogEntry(t, |LogOf(s, a)| + 1, command)]
    ensures |ks| == |qs| && Tour(ids, rule, s1, a, t, qs, ks) == Some(s2)
    ensures a in s2.hosts && s2.hosts[a].raft.volatile.lastApplied > |LogOf(s, a)|
    ensures Rounds(ids, rule, s2, a, t, i, k) == Some(s3) && Pair(s, a, t, i)
    ensures var u := Peer(s, a, t, i);
            u in s3.hosts && LogOf(s1, a) <= LogOf(s3, u)
            && s3.hosts[u].raft.volatile.lastApplied > |LogOf(s, a)|
  {
    hide *;
    CommandTaken(ids, rule, s, a, t, command, qs);
    s1 := Do(ids, rule, s, Exec(a, ClientRequest(command)));
    ks, s2 := TourCatchesUp(ids, rule, s1, a, t, qs);
    LeaderStays(s1, s2, a, t, qs);
    TouredPair(s, s1, s2, a, t, qs, i);
    k, s3 := CatchesUp(ids, rule, s2, a, t, i, 0);
    CaughtUpMeans(s2, s3, a, t, i);
  }

  lemma TouredPair(s: System, s1: System, s2: System, a: NodeId, t: Term, qs: seq<nat>, i: nat)
    requires Leads(s, a, t) && Reachable(s, a, t, qs) && Reachable(s1, a, t, qs) && i in qs
    requires Leads(s1, a, t) && s1.hosts[a].raft.peers == s.hosts[a].raft.peers
    requires Toured(s1, s2, a, t, qs)
    ensures Pair(s, a, t, i) && Pair(s2, a, t, i) && AgreeUpTo(s2, a, t, i, 0)
    ensures Peer(s2, a, t, i) == Peer(s, a, t, i) && LogOf(s2, a) == LogOf(s1, a)
    ensures s2.hosts[Peer(s2, a, t, i)].raft.persistent.currentTerm <= t
  {
    var k :| 0 <= k < |qs| && qs[k] == i;
    assert Pair(s, a, t, qs[k]) && Pair(s1, a, t, qs[k]);
  }

  lemma CaughtUpMeans(s: System, s': System, a: NodeId, t: Term, i: nat)
    requires Pair(s, a, t, i) && Pair(s', a, t, i) && Peer(s, a, t, i) in s'.hosts
    requires CaughtUp(s, s', a, t, i)
    ensures var v := s'.hosts[Peer(s, a, t, i)].raft.volatile;
            s.hosts[a].raft.volatile.commitIndex >= |LogOf(s, a)| ==>
              v.lastApplied >= |LogOf(s, a)|
    ensures LogOf(s, a) <= LogOf(s', Peer(s, a, t, i))
  {
  }
}
