/** The part of the inductive invariant that rests on acknowledgements: what nodes still
    hold, what is committed and what has been applied. */
module CommitInvariant {
  import opened Protocol
  import opened RaftSteps
  import opened LogFacts
  import opened Runtime
  import opened Cluster
  import opened Quorums
  import opened Histories
  import opened CoreInvariant
  import opened Commitment

  /** The disk still has what the node has acknowledged. */
  ghost predicate AcksHeld(h: History, n: NodeId, disk: PersistentState) {
    && Holds(h, n, disk.currentTerm, disk.log)
    && (forall t: Term | Slot(n, t) in h.acks :: t <= disk.currentTerm)
    && (disk.currentTerm == 0 || disk.currentTerm in h.reigns
        || Slot(n, disk.currentTerm) in h.ballots)
  }

  /** The committed prefix is safe, applied in order and once, and in the store. */
  ghost predicate CommitOK(ids: seq<NodeId>, h: History, host: Host) {
    var log, v := host.raft.persistent.log, host.raft.volatile;
    && v.lastApplied == v.commitIndex <= |log|
    && host.applied == Commands(log[..v.commitIndex])
    && host.store == ApplyAll(map[], host.applied)
    && Safe(ids, h, host.raft.persistent.currentTerm, log[..v.commitIndex])
  }

  /** A leader credits its peers with no more than they have acknowledged to it. */
  ghost predicate MatchOK(h: History, s: RaftState) {
    var t := s.persistent.currentTerm;
    s.role == Leader && s.leaderState.Some? && VectorsFit(s) ==>
      && Slot(s.id, t) in h.acks && h.acks[Slot(s.id, t)] == |s.persistent.log|
      && forall j | 0 <= j < |s.peers| ::
           s.leaderState.value.matchIndex[j] <= AckOf(h.acks, s.peers[j], t)
  }

  ghost predicate HostHolds(ids: seq<NodeId>, h: History, n: NodeId, host: Host) {
    && AcksHeld(h, n, host.disk)
    && CommitOK(ids, h, host)
    && MatchOK(h, host.raft)
  }

  ghost predicate PacketHolds(ids: seq<NodeId>, h: History, p: Packet) {
    match p.msg
    case Append(m) =>
      && m.term in h.reigns
      && m.leaderCommit <= |h.reigns[m.term].log|
      && m.leaderCommit <= EndIndex(m)
      && Safe(ids, h, m.term, h.reigns[m.term].log[..m.leaderCommit])
    case _ => true
  }

  /** The command is the committed one of its index. */
  ghost predicate EmissionOK(ids: seq<NodeId>, h: History, e: Emission) {
    exists t: Term, i: nat ::
      && CommittedAt(ids, h, t, i)
      && 1 <= e.index <= |Acked(h, t, i)|
      && Acked(h, t, i)[e.index - 1].command == e.command
  }

  ghost predicate CommitInv(ids: seq<NodeId>, s: System) {
    && AcksOK(ids, s.history)
    && (forall n | n in s.hosts :: HostHolds(ids, s.history, n, s.hosts[n]))
    && (forall p | p in s.network :: PacketHolds(ids, s.history, p))
    && (forall e | e in s.emitted :: EmissionOK(ids, s.history, e))
  }

  // ── growth ──────────────────────────────────────────────────────────────────

  /** Only what `n` has acknowledged in term `t` has changed, and it has not shrunk. */
  ghost predicate AcksGrow(h: History, h': History, n: NodeId, t: Term) {
    && (forall k | k in h.acks :: k in h'.acks && h.acks[k] <= h'.acks[k])
    && (forall k | k in h'.acks && k != Slot(n, t) :: k in h.acks && h'.acks[k] == h.acks[k])
  }

  ghost predicate Later(h: History, h': History, n: NodeId, t: Term) {
    Grows(h, h', n) && AcksGrow(h, h', n, t)
  }

  /** The same without saying who acted. */
  ghost predicate Ages(h: History, h': History) {
    && Extends(h, h')
    && (forall k | k in h.acks :: k in h'.acks && h.acks[k] <= h'.acks[k])
  }

  lemma LaterAges(h: History, h': History, n: NodeId, t: Term)
    requires Later(h, h', n, t)
    ensures Ages(h, h')
  {
  }

  lemma AgesTwice(h: History, h1: History, h2: History)
    requires Ages(h, h1) && Ages(h1, h2)
    ensures Ages(h, h2)
  {
    ExtendsTwice(h, h1, h2);
  }

  lemma AckedSurvives(h: History, h': History, n: NodeId, t: Term, i: nat)
    requires Grows(h, h', n) && t in h.reigns && i <= |h.reigns[t].log|
    ensures Acked(h', t, i) == Acked(h, t, i)
  {
    assert SameOffice(h.reigns[t], h'.reigns[t]);
  }

  lemma KeepsWeakens(h: History, h': History, n: NodeId, p: Log, t: Term, lim: int)
    requires Grows(h, h', n) && Keeps(h', p, t, lim)
    ensures Keeps(h, p, t, lim)
  {
    forall t2 | t2 in h.reigns && t < t2 <= lim ensures p <= h.reigns[t2].start {
      assert SameOffice(h.reigns[t2], h'.reigns[t2]);
    }
  }

  lemma HoldsSurvives(ids: seq<NodeId>, h: History, h': History, n: NodeId, t0: Term,
                      u: NodeId, lim: int, log: Log)
    requires Later(h, h', n, t0) && AcksOK(ids, h) && Holds(h, u, lim, log)
    requires u != n || lim < t0
    ensures Holds(h', u, lim, log)
  {
    forall t: Term, i: nat | t <= lim && Slot(u, t) in h'.acks && i <= h'.acks[Slot(u, t)]
                             && Keeps(h', Acked(h', t, i), t, lim)
      ensures Acked(h', t, i) <= log
    {
      assert AckOK(ids, h, Slot(u, t));
      AckedSurvives(h, h', n, t, i);
      KeepsWeakens(h, h', n, Acked(h, t, i), t, lim);
    }
  }

  lemma CommittedSurvives(ids: seq<NodeId>, h: History, h': History, t: Term, i: nat)
    requires Ages(h, h') && CommittedAt(ids, h, t, i)
    ensures CommittedAt(ids, h', t, i) && Acked(h', t, i) == Acked(h, t, i)
  {
    assert SameOffice(h.reigns[t], h'.reigns[t]);
    SubsetSize(Ackers(ids, h, t, i), Ackers(ids, h', t, i));
  }

  lemma SafeSurvives(ids: seq<NodeId>, h: History, h': History, term: int, p: Log)
    requires Ages(h, h') && Safe(ids, h, term, p)
    ensures Safe(ids, h', term, p)
  {
    if p != [] {
      var t, i := SafeWitness(ids, h, term, p);
      CommittedSurvives(ids, h, h', t, i);
    }
  }

  lemma SafeLater(ids: seq<NodeId>, h: History, a: int, b: int, p: Log)
    requires Safe(ids, h, a, p) && a <= b
    ensures Safe(ids, h, b, p)
  {
    if p != [] {
      var t, i := SafeWitness(ids, h, a, p);
    }
  }

  lemma EmissionSurvives(ids: seq<NodeId>, h: History, h': History, e: Emission)
    requires Ages(h, h') && EmissionOK(ids, h, e)
    ensures EmissionOK(ids, h', e)
  {
    hide CommittedAt, Acked, Ages;
    var t: Term, i: nat :|
      && CommittedAt(ids, h, t, i) && 1 <= e.index <= |Acked(h, t, i)|
      && Acked(h, t, i)[e.index - 1].command == e.command;
    CommittedSurvives(ids, h, h', t, i);
  }

  lemma AppendSurvives(ids: seq<NodeId>, h: History, h': History, n: NodeId, t0: Term, p: Packet)
    requires Later(h, h', n, t0) && PacketHolds(ids, h, p)
    ensures PacketHolds(ids, h', p)
  {
    hide Safe;
    match p.msg
    case Append(m) =>
      var log := h.reigns[m.term].log[..m.leaderCommit];
      LaterAges(h, h', n, t0);
      SafeSurvives(ids, h, h', m.term, log);
      assert SameOffice(h.reigns[m.term], h'.reigns[m.term]);
      assert h'.reigns[m.term].log[..m.leaderCommit] == log;
    case _ =>
  }

  lemma CommitSurvives(ids: seq<NodeId>, h: History, h': History, n: NodeId, t0: Term, host: Host)
    requires Later(h, h', n, t0) && CommitOK(ids, h, host)
    ensures CommitOK(ids, h', host)
  {
    hide Safe;
    LaterAges(h, h', n, t0);
    SafeSurvives(ids, h, h', host.raft.persistent.currentTerm,
                 host.raft.persistent.log[..host.raft.volatile.commitIndex]);
  }

  lemma OthersHold(ids: seq<NodeId>, h: History, h': History, n: NodeId, t0: Term,
                   u: NodeId, host: Host)
    requires Later(h, h', n, t0) && AcksOK(ids, h) && u != n && host.raft.id == u
    requires HostHolds(ids, h, u, host)
    ensures HostHolds(ids, h', u, host)
  {
    HoldsSurvives(ids, h, h', n, t0, u, host.disk.currentTerm, host.disk.log);
    CommitSurvives(ids, h, h', n, t0, host);
    hide Holds, CommitOK;
  }

  // ── assembling a step ───────────────────────────────────────────────────────

  ghost predicate StepHolds(ids: seq<NodeId>, h: History, n: NodeId, host: Host, o: Outcome,
                            h': History)
  {
    && Later(h, h', n, o.state.persistent.currentTerm)
    && AcksOK(ids, h')
    && HostHolds(ids, h', n, After(host, o))
    && forall p | p in Sent(o.actions) :: PacketHolds(ids, h', p)
  }

  /** What a host has applied in a step is what it has committed in that step. */
  lemma NewEmissionsOK(ids: seq<NodeId>, h: History, n: NodeId, host: Host, o: Outcome, e: Emission)
    requires CommitOK(ids, h, After(host, o))
    requires e in Emissions(n, |host.applied|, Applied(o.actions))
    ensures EmissionOK(ids, h, e)
  {
    var host' := After(host, o);
    var log := host'.raft.persistent.log[..host'.raft.volatile.commitIndex];
    var j :| 0 <= j < |Applied(o.actions)|
             && e == Emission(n, |host.applied| + j + 1, Applied(o.actions)[j]);
    assert host'.applied[e.index - 1] == e.command;
    var t, i := SafeWitness(ids, h, host'.raft.persistent.currentTerm, log);
    hide CommittedAt, Acked;
    assert log[e.index - 1] == Acked(h, t, i)[e.index - 1];
  }

  lemma StepHoldsGivesInvariant(ids: seq<NodeId>, rule: AckRule, s: System, n: NodeId, event: Event)
    requires CoreInv(ids, s) && CommitInv(ids, s) && Enabled(rule, s, Exec(n, event))
    requires var s' := RunEvent(ids, rule, s, n, event);
             StepHolds(ids, s.history, n, s.hosts[n], Step(rule, s.hosts[n].raft, event), s'.history)
    ensures CommitInv(ids, RunEvent(ids, rule, s, n, event))
  {
    hide HostHolds, PacketHolds, EmissionOK, AcksOK, Later, Step, Record, CommitOK, HistoryOK,
         PacketOK;
    var s' := RunEvent(ids, rule, s, n, event);
    var h, h' := s.history, s'.history;
    var o := Step(rule, s.hosts[n].raft, event);
    var t := o.state.persistent.currentTerm;
    forall u | u in s'.hosts ensures HostHolds(ids, h', u, s'.hosts[u]) {
      if u != n {
        assert HostOK(ids, h, u, s.hosts[u]);
        OthersHold(ids, h, h', n, t, u, s.hosts[u]);
      }
    }
    forall p | p in s'.network ensures PacketHolds(ids, h', p) {
      if p in s.network { AppendSurvives(ids, h, h', n, t, p); }
    }
    forall e | e in s'.emitted ensures EmissionOK(ids, h', e) {
      if e in s.emitted {
        LaterAges(h, h', n, t);
        EmissionSurvives(ids, h, h', e);
      } else {
        HostCommits(ids, h', n, After(s.hosts[n], o));
        NewEmissionsOK(ids, h', n, s.hosts[n], o, e);
      }
    }
  }

  lemma HostCommits(ids: seq<NodeId>, h: History, n: NodeId, host: Host)
    requires HostHolds(ids, h, n, host)
    ensures CommitOK(ids, h, host)
  {
  }
}
