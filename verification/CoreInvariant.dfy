/** The part of the inductive invariant that holds of the literal code in every run:
    votes, leaders and logs. Whatever a success reply acknowledges plays no part here. */
module CoreInvariant {
  import opened Protocol
  import opened RaftSteps
  import opened LogFacts
  import opened Runtime
  import opened RoleStructure
  import opened Cluster
  import opened Histories

  /** Memory may run ahead of the disk by a term in which nothing was promised. */
  ghost predicate DiskOK(mem: PersistentState, disk: PersistentState, role: Role) {
    && mem.log == disk.log
    && (mem == disk
        || (mem.currentTerm > disk.currentTerm && mem.votedFor == None && role == Follower))
  }

  /** The disk holds the latest vote of the node. */
  ghost predicate VotesOK(h: History, n: NodeId, disk: PersistentState) {
    && (disk.votedFor.Some? ==> Voted(h, n, disk.currentTerm, disk.votedFor.value))
    && (forall t: Term | Slot(n, t) in h.ballots ::
          && t <= disk.currentTerm
          && (t == disk.currentTerm ==> disk.votedFor == Some(h.ballots[Slot(n, t)].candidate)))
  }

  ghost predicate OfficeOK(h: History, n: NodeId, s: RaftState) {
    var t := s.persistent.currentTerm;
    && (s.role == Candidate ==>
          && Voted(h, n, t, n)
          && h.ballots[Slot(n, t)].log == s.persistent.log
          && !(t in h.reigns && h.reigns[t].leader == n)
          && s.candidateState.Some?
          && forall u | u in s.candidateState.value.votesGranted :: Voted(h, u, t, n))
    && (s.role == Leader ==>
          t in h.reigns && h.reigns[t].leader == n && h.reigns[t].log == s.persistent.log)
  }

  /** As long as the disk is in the term of the node's own reign, it has the whole log. */
  ghost predicate ReignSaved(h: History, n: NodeId, disk: PersistentState) {
    disk.currentTerm in h.reigns && h.reigns[disk.currentTerm].leader == n ==>
      h.reigns[disk.currentTerm].log == disk.log
  }

  ghost predicate HostOK(ids: seq<NodeId>, h: History, n: NodeId, host: Host) {
    var s := host.raft;
    && s.id == n && s.peers == PeersOf(ids, n)
    && RoleOK(s)
    && DiskOK(s.persistent, host.disk, s.role)
    && GoodLog(h, host.disk.log)
    && TermsAtMost(host.disk.log, host.disk.currentTerm)
    && VotesOK(h, n, host.disk)
    && ReignSaved(h, n, host.disk)
    && OfficeOK(h, n, s)
  }

  /** A request that hangs on an index past the leader's log: it carries term 0. */
  ghost predicate Probe(m: AppendEntries) {
    m.prevLogIndex > 0 && m.prevLogTerm == 0 && m.entries == []
  }

  /** Last index the message vouches for. */
  function EndIndex(m: AppendEntries): LogIndex {
    m.prevLogIndex + |m.entries|
  }

  /** The message carries the leader's log from `prevLogIndex` up to its end at the time. */
  ghost predicate SliceOf(m: AppendEntries, r: Reign) {
    && |r.start| <= EndIndex(m) <= |r.log|
    && m.entries == r.log[m.prevLogIndex..EndIndex(m)]
    && m.prevLogTerm == TermAt(r.log, m.prevLogIndex)
  }

  ghost predicate PacketOK(ids: seq<NodeId>, h: History, p: Packet) {
    match p.msg
    case VoteRequest(m) =>
      && p.to in ids && p.to != m.candidateId
      && Voted(h, m.candidateId, m.term, m.candidateId)
      && var c := h.ballots[Slot(m.candidateId, m.term)].log;
         m.lastLogIndex == LastLogIndex(c) && m.lastLogTerm == LastLogTerm(c)
    case VoteReply(m) => m.voteGranted ==> Voted(h, m.voteFrom, m.term, p.to)
    case Append(m) =>
      && m.term in h.reigns
      && h.reigns[m.term].leader == m.leaderId != p.to
      && (Probe(m) || SliceOf(m, h.reigns[m.term]))
    case AppendReply(_) => true
  }

  ghost predicate CoreInv(ids: seq<NodeId>, s: System) {
    && s.hosts.Keys == Members(ids)
    && HistoryOK(ids, s.history)
    && (forall n | n in s.hosts :: HostOK(ids, s.history, n, s.hosts[n]))
    && (forall p | p in s.network :: PacketOK(ids, s.history, p))
  }

  // ── growth of the history leaves the others alone ───────────────────────────

  lemma OthersSurvive(ids: seq<NodeId>, h: History, h': History, n: NodeId, u: NodeId, host: Host)
    requires Grows(h, h', n) && u != n && HostOK(ids, h, u, host)
    ensures HostOK(ids, h', u, host)
  {
    GoodLogGrows(h, h', n, host.disk.log);
    forall t: Term | Slot(u, t) in h'.ballots
      ensures Slot(u, t) in h.ballots && h'.ballots[Slot(u, t)] == h.ballots[Slot(u, t)]
    {
    }
  }

  lemma PacketSurvives(ids: seq<NodeId>, h: History, h': History, n: NodeId, p: Packet)
    requires Grows(h, h', n) && PacketOK(ids, h, p)
    ensures PacketOK(ids, h', p)
  {
    if p.msg.Append? {
      var m := p.msg.ae;
      var r, r' := h.reigns[m.term], h'.reigns[m.term];
      assert SameOffice(r, r');
      if SliceOf(m, r) {
        assert r'.log[m.prevLogIndex..EndIndex(m)] == r.log[m.prevLogIndex..EndIndex(m)];
      }
    }
  }

  /** What a handler has to show about the node it runs on. */
  ghost predicate StepOK(ids: seq<NodeId>, h: History, n: NodeId, host: Host, o: Outcome,
                         h': History)
  {
    && Grows(h, h', n)
    && HistoryOK(ids, h')
    && HostOK(ids, h', n, After(host, o))
    && forall p | p in Sent(o.actions) :: PacketOK(ids, h', p)
  }

  lemma StepOKGivesInvariant(ids: seq<NodeId>, rule: AckRule, s: System, n: NodeId, event: Event)
    requires CoreInv(ids, s) && Enabled(rule, s, Exec(n, event))
    requires var s' := RunEvent(ids, rule, s, n, event);
             StepOK(ids, s.history, n, s.hosts[n], Step(rule, s.hosts[n].raft, event), s'.history)
    ensures CoreInv(ids, RunEvent(ids, rule, s, n, event))
  {
    hide ReignOK, BallotOK, HostOK, PacketOK, Step;
    var s' := RunEvent(ids, rule, s, n, event);
    var h, h' := s.history, s'.history;
    forall u | u in s'.hosts ensures HostOK(ids, h', u, s'.hosts[u]) {
      if u != n { OthersSurvive(ids, h, h', n, u, s.hosts[u]); }
    }
    forall p | p in s'.network ensures PacketOK(ids, h', p) {
      if p in s.network { PacketSurvives(ids, h, h', n, p); }
    }
  }

  // ── growth by one ballot or one reign ───────────────────────────────────────

  lemma HistorySurvives(ids: seq<NodeId>, h: History, h': History, n: NodeId)
    requires Grows(h, h', n) && HistoryOK(ids, h)
    requires forall t | t in h'.reigns && (t in h.reigns ==> h'.reigns[t] != h.reigns[t]) ::
               ReignOK(ids, h', t)
    requires forall k | k in h'.ballots && k !in h.ballots :: BallotOK(ids, h', k)
    ensures HistoryOK(ids, h')
  {
    hide ReignOK, BallotOK;
    forall t | t in h'.reigns ensures ReignOK(ids, h', t) {
      if t in h.reigns && h'.reigns[t] == h.reigns[t] { ReignSurvives(ids, h, h', n, t); }
    }
    forall k | k in h'.ballots ensures BallotOK(ids, h', k) {
      if k in h.ballots { BallotSurvives(ids, h, h', n, k); }
    }
  }

  lemma SameHistoryGrows(ids: seq<NodeId>, h: History, h': History, n: NodeId)
    requires h'.reigns == h.reigns && h'.ballots == h.ballots && HistoryOK(ids, h)
    ensures Grows(h, h', n) && HistoryOK(ids, h')
  {
    hide ReignOK, BallotOK;
    HistorySurvives(ids, h, h', n);
  }

  lemma NewBallotGrows(ids: seq<NodeId>, h: History, h': History, k: Slot, b: Ballot)
    requires HistoryOK(ids, h) && k !in h.ballots
    requires h'.reigns == h.reigns && h'.ballots == h.ballots[k := b]
    requires BallotOK(ids, h', k)
    ensures Grows(h, h', k.node) && HistoryOK(ids, h')
  {
    hide ReignOK, BallotOK;
    assert Grows(h, h', k.node);
    HistorySurvives(ids, h, h', k.node);
  }

  lemma NewReignGrows(ids: seq<NodeId>, h: History, h': History, t: Term, r: Reign)
    requires HistoryOK(ids, h)
    requires h'.reigns == h.reigns[t := r] && h'.ballots == h.ballots
    requires t in h.reigns ==> SameOffice(h.reigns[t], r)
    requires ReignOK(ids, h', t)
    ensures Grows(h, h', r.leader) && HistoryOK(ids, h')
  {
    hide ReignOK, BallotOK;
    assert Grows(h, h', r.leader);
    HistorySurvives(ids, h, h', r.leader);
  }
}
