/** What the index in a success reply is worth. The code sends `last_log_index()`, which
    is a replicated index exactly when the follower is not carrying a longer, older log;
    the documented meaning of the field is met by the index the request has verified. */
module Acknowledgements {
  import opened Protocol
  import opened RaftSteps
  import opened LogFacts
  import opened Runtime
  import opened RoleStructure
  import opened Cluster
  import opened Quorums
  import opened Histories
  import opened CoreInvariant
  import opened CoreSteps
  import opened CommitInvariant
  import opened CommitSteps
  import opened Runs
  import opened Safety

  /** The node can tell before it replies: its log has the whole message, goes on behind it,
      and does not end in an entry of the sending leader's term. */
  predicate CarriesOldSuffix(log: Log, m: AppendEntries) {
    && EndIndex(m) < |log|
    && log[m.prevLogIndex..EndIndex(m)] == m.entries
    && log[|log| - 1].term != m.term
  }

  /** The acknowledged prefix of the follower's log is the leader's. */
  ghost predicate Truthful(h: History, m: AppendEntries, log: Log, acked: LogIndex)
    requires m.term in h.reigns
  {
    var leader := h.reigns[m.term].log;
    acked <= |leader| && acked <= |log| && log[..acked] == leader[..acked]
  }

  lemma LongerPrefixEndsInOwnTerm(ids: seq<NodeId>, h: History, m: AppendEntries, log: Log)
    requires m.term in h.reigns && ReignOK(ids, h, m.term) && SliceOf(m, h.reigns[m.term])
    requires log <= h.reigns[m.term].log && |log| > EndIndex(m)
    ensures log[|log| - 1].term == m.term
  {
    var r := h.reigns[m.term];
    assert log[|log| - 1] == r.log[|log| - 1];
  }

  lemma TruthOfLastIndex(ids: seq<NodeId>, h: History, m: AppendEntries, log: Log)
    requires m.term in h.reigns && ReignOK(ids, h, m.term) && SliceOf(m, h.reigns[m.term])
    requires GoodLog(h, log) && h.reigns[m.term].log[..EndIndex(m)] <= log
    ensures Truthful(h, m, log, LastLogIndex(log))
       <==> LastLogIndex(log) <= EndIndex(m) || LastLogTerm(log) == m.term
  {
    LastIndexIsLength(log);
    var leader := h.reigns[m.term].log;
    assert log[..|log|] == log;
    if |log| <= EndIndex(m) {
      assert log == leader[..EndIndex(m)];
    } else if LastLogTerm(log) == m.term {
      assert FromReign(h, log, |log| - 1);
    } else if Truthful(h, m, log, |log|) {
      LongerPrefixEndsInOwnTerm(ids, h, m, log);
    }
  }

  lemma OldSuffixSurvives(h: History, m: AppendEntries, before: Log)
    requires m.term in h.reigns && Contiguous(before)
    requires var leader, p := h.reigns[m.term].log, m.prevLogIndex;
             && p <= |before| && EndIndex(m) <= |leader|
             && m.entries == leader[p..EndIndex(m)] && before[..p] == leader[..p]
    requires var vouched := h.reigns[m.term].log[..EndIndex(m)];
             Reconcile(before, m.entries) == if vouched <= before then before else vouched
    requires Contiguous(Reconcile(before, m.entries))
    ensures var log := Reconcile(before, m.entries);
            CarriesOldSuffix(before, m)
            <==> !(LastLogIndex(log) <= EndIndex(m) || LastLogTerm(log) == m.term)
  {
    var log := Reconcile(before, m.entries);
    LastIndexIsLength(log);
    SliceOrPrefix(before, h.reigns[m.term].log, m.prevLogIndex, EndIndex(m));
    hide Reconcile;
  }

  /** The literal reply is true if and only if the follower carries no older suffix behind
      the message. */
  lemma LastIndexIsTruthfulIff(ids: seq<NodeId>, h: History, n: NodeId, host: Host, m: AppendEntries)
    requires HistoryOK(ids, h) && HostOK(ids, h, n, host)
    requires PacketOK(ids, h, Packet(n, Append(m))) && Accepts(host.raft, m)
    ensures m.prevLogIndex <= |host.raft.persistent.log| && m.term in h.reigns
    ensures var before := host.raft.persistent.log;
            var log := Reconcile(before, m.entries);
            && (Truthful(h, m, log, LastLogIndex(log)) <==> !CarriesOldSuffix(before, m))
            && (HonestAck(LastLogIndexRule, host.raft, m) <==> !CarriesOldSuffix(before, m))
  {
    var before := host.disk.log;
    var log := Reconcile(before, m.entries);
    AcceptedOverlap(ids, h, before, m);
    AcceptedLog(ids, h, before, m);
    GoodAcceptedLog(ids, h, host, n, m);
    assert ReignOK(ids, h, m.term);
    var vouched := h.reigns[m.term].log[..EndIndex(m)];
    assert HonestAck(LastLogIndexRule, host.raft, m)
      <==> LastLogIndex(log) <= EndIndex(m) || LastLogTerm(log) == m.term;
    hide Accepts, PacketOK, HostOK, HistoryOK, Reconcile, HonestAck, Truthful, CarriesOldSuffix,
         LastLogIndex, LastLogTerm, ReignOK;
    GoodIsContiguous(h, before);
    GoodIsContiguous(h, log);
    hide GoodLog;
    TruthOfLastIndex(ids, h, m, log);
    OldSuffixSurvives(h, m, before);
  }

  /** The index the request has verified is always true. */
  lemma VerifiedIndexIsTruthful(ids: seq<NodeId>, h: History, n: NodeId, host: Host,
                                m: AppendEntries)
    requires HistoryOK(ids, h) && HostOK(ids, h, n, host)
    requires PacketOK(ids, h, Packet(n, Append(m))) && Accepts(host.raft, m)
    ensures m.term in h.reigns
    ensures var log := Reconcile(host.raft.persistent.log, m.entries);
            Truthful(h, m, log, AckIndex(VerifiedIndexRule, log, m))
  {
    RequestCovers(ids, h, n, host, m);
    hide Reconcile, HistoryOK, HostOK, PacketOK, Accepts;
  }

  // ── over runs ───────────────────────────────────────────────────────────────

  /** The node of this step accepts a request while it carries an older suffix. */
  predicate Overclaims(s: System, l: Label)
    requires l.node in s.hosts
  {
    && !l.Restart? && l.event.Receive? && l.event.msg.Append?
    && Accepts(s.hosts[l.node].raft, l.event.msg.ae)
    && l.event.msg.ae.prevLogIndex <= |s.hosts[l.node].raft.persistent.log|
    && CarriesOldSuffix(s.hosts[l.node].raft.persistent.log, l.event.msg.ae)
  }

  /** Every success reply of the run is honest, delivered or not. */
  predicate HonestReplies(ids: seq<NodeId>, rule: AckRule, r: Run)
    requires IsRun(ids, rule, r)
  {
    forall i {:trigger r.labels[i]} | 0 <= i < |r.labels| ::
      HonestRequest(rule, r.states[i], r.labels[i])
  }

  predicate HonestRequest(rule: AckRule, s: System, l: Label)
    requires l.node in s.hosts
  {
    !l.Restart? && l.event.Receive? && l.event.msg.Append? ==>
      HonestAck(rule, s.hosts[l.node].raft, l.event.msg.ae)
  }

  lemma HonestUnlessOverclaims(ids: seq<NodeId>, s: System, l: Label)
    requires CoreInv(ids, s) && Enabled(LastLogIndexRule, s, l)
    ensures HonestRequest(LastLogIndexRule, s, l) <==> !Overclaims(s, l)
  {
    if !l.Restart? && l.event.Receive? && l.event.msg.Append? {
      CoreEvent(ids, LastLogIndexRule, s, l);
      hide CoreInv, HistoryOK, HostOK, PacketOK, CarriesOldSuffix, Truthful;
      if Accepts(s.hosts[l.node].raft, l.event.msg.ae) {
        LastIndexIsTruthfulIff(ids, s.history, l.node, s.hosts[l.node], l.event.msg.ae);
        hide HonestAck;
      }
    }
  }

  /** In a run of the literal code every reply is honest if and only if no node ever accepts
      a request while it carries an older suffix behind it. */
  lemma RepliesHonestIffNoOverclaim(ids: seq<NodeId>, r: Run)
    requires Config(ids) && IsRun(ids, LastLogIndexRule, r)
    ensures forall i | 0 <= i < |r.labels| :: r.labels[i].node in r.states[i].hosts
    ensures HonestReplies(ids, LastLogIndexRule, r)
       <==> forall i {:trigger r.labels[i]} | 0 <= i < |r.labels| ::
              !Overclaims(r.states[i], r.labels[i])
  {
    RunStarts(ids, LastLogIndexRule, r);
    forall i | 0 <= i < |r.labels|
      ensures r.labels[i].node in r.states[i].hosts
      ensures HonestRequest(LastLogIndexRule, r.states[i], r.labels[i])
         <==> !Overclaims(r.states[i], r.labels[i])
    {
      CoreHolds(ids, LastLogIndexRule, r, i);
      RunMoves(ids, LastLogIndexRule, r, i);
      hide IsRun, CoreInv, HonestRequest, Overclaims, Do;
      HonestUnlessOverclaims(ids, r.states[i], r.labels[i]);
    }
    hide IsRun, HonestRequest, Overclaims;
  }

  // ── what a booking is worth ─────────────────────────────────────────────────

  /** A leader whose credits are true keeps them true by counting a success reply if and only
      if it books the truth. */
  lemma CreditsStayTrueIff(h: History, s: RaftState, m: AppendEntriesResponse)
    requires RoleOK(s) && s.role == Leader && Distinct(s.peers) && m.from in s.peers
    requires m.term == s.persistent.currentTerm && m.success && MatchOK(h, s)
    ensures MatchOK(h, HandleAppendEntriesResponse(s, m).state) <==> BooksTruth(h, s, m)
  {
    var i := PeerPosition(s.peers, m.from).value;
    ReplyOutcome(s, m);
    var s1 := Booked(s, m, i);
    assert TryAdvanceCommit(s1).state == s1.(volatile := TryAdvanceCommit(s1).state.volatile);
    hide HandleAppendEntriesResponse, TryAdvanceCommit, PeerPosition;
    if BooksTruth(h, s, m) {
      BookedMatches(h, s, m, i);
    } else {
      assert s1.leaderState.value.matchIndex[i] >= m.matchIndex;
    }
  }

  // ── honest replies are booked honestly ──────────────────────────────────────

  /** The replies on the wire claim what their senders have truly acknowledged. */
  ghost predicate ReplyTrue(h: History, p: Packet) {
    p.msg.AppendReply? && p.msg.ar.success ==>
      p.msg.ar.matchIndex <= AckOf(h.acks, p.msg.ar.from, p.msg.ar.term)
  }

  ghost predicate RepliesTrue(s: System) {
    forall p | p in s.network :: ReplyTrue(s.history, p)
  }

  lemma TrueRepliesSurvive(h: History, h': History, p: Packet)
    requires Ages(h, h') && ReplyTrue(h, p)
    ensures ReplyTrue(h', p)
  {
  }

  lemma AckRecorded(acks: map<Slot, LogIndex>, n: NodeId, t: Term, a: LogIndex)
    ensures AckOf(acks[Slot(n, t) := Max(AckOf(acks, n, t), a)], n, t) >= a
  {
  }

  /** The only success reply a step can send is the one to an accepted request. */
  lemma RepliesSent(rule: AckRule, s: RaftState, event: Event, p: Packet)
    requires VectorsFit(s) && p in Sent(Step(rule, s, event).actions)
    requires p.msg.AppendReply? && p.msg.ar.success
    ensures event.Receive? && event.msg.Append? && Accepts(s, event.msg.ae)
    ensures p.msg.ar == AppendEntriesResponse(
              event.msg.ae.term, true, s.id,
              AckIndex(rule, Reconcile(s.persistent.log, event.msg.ae.entries), event.msg.ae))
  {
    SentIffSend(Step(rule, s, event).actions, p);
    match event
    case Receive(VoteRequest(m)) =>
    case Receive(VoteReply(m)) =>
    case Receive(Append(m)) => AcceptReplyOnly(rule, s, m, p);
    case Receive(AppendReply(m)) => OnlyApplies(s, m);
    case ElectionTimeout =>
    case HeartbeatTimeout =>
    case ClientRequest(command) =>
      if s.role == Leader {
        ClientOutcome(s, command);
      }
  }

  lemma AcceptReplyOnly(rule: AckRule, s: RaftState, m: AppendEntries, p: Packet)
    requires Send(p.to, p.msg) in HandleAppendEntries(rule, s, m).actions
    requires p.msg.AppendReply? && p.msg.ar.success
    ensures Accepts(s, m)
    ensures p.msg.ar == AppendEntriesResponse(
              m.term, true, s.id, AckIndex(rule, Reconcile(s.persistent.log, m.entries), m))
  {
    var o := HandleAppendEntries(rule, s, m);
    var log := Reconcile(s.persistent.log, m.entries);
    AppendOutcome(rule, s, m);
    ApplyBetweenApplies(log, s.volatile.lastApplied, o.state.volatile.commitIndex);
    assert o.state.id == s.id;
    hide HandleAppendEntries, Reconcile, AckIndex, Accepts;
    forall i | 3 <= i < |o.actions| ensures o.actions[i].ApplyCommand? {
      assert o.actions[3..][i - 3] in o.actions[3..];
    }
    var i :| 0 <= i < |o.actions| && o.actions[i] == Send(p.to, p.msg);
  }

  lemma EventKeepsRepliesTrue(ids: seq<NodeId>, rule: AckRule, s: System, n: NodeId, event: Event)
    requires CoreInv(ids, s) && RepliesTrue(s) && Enabled(rule, s, Exec(n, event))
    requires HonestRequest(rule, s, Exec(n, event))
    requires Ages(s.history, RunEvent(ids, rule, s, n, event).history)
    ensures RepliesTrue(RunEvent(ids, rule, s, n, event))
  {
    var s' := RunEvent(ids, rule, s, n, event);
    var o := Step(rule, s.hosts[n].raft, event);
    CoreEvent(ids, rule, s, Exec(n, event));
    assert s'.network == s.network + Packets(o.actions);
    hide CoreInv, HistoryOK, HostOK, PacketOK, Step, RunEvent, HonestAck, Ages;
    forall p | p in s'.network ensures ReplyTrue(s'.history, p) {
      if p in s.network {
        TrueRepliesSurvive(s.history, s'.history, p);
      } else if p.msg.AppendReply? && p.msg.ar.success {
        RepliesSent(rule, s.hosts[n].raft, event, p);
        NewReplyTrue(ids, rule, s, n, event.msg.ae);
        HostIdentity(ids, s.history, n, s.hosts[n]);
      }
    }
  }

  lemma NewReplyTrue(ids: seq<NodeId>, rule: AckRule, s: System, n: NodeId, m: AppendEntries)
    requires Enabled(rule, s, Exec(n, Receive(Append(m))))
    requires HistoryOK(ids, s.history) && HostOK(ids, s.history, n, s.hosts[n])
    requires PacketOK(ids, s.history, Packet(n, Append(m)))
    requires Accepts(s.hosts[n].raft, m) && HonestAck(rule, s.hosts[n].raft, m)
    ensures AckIndex(rule, Reconcile(s.hosts[n].raft.persistent.log, m.entries), m)
         <= AckOf(RunEvent(ids, rule, s, n, Receive(Append(m))).history.acks, n, m.term)
  {
    hide HistoryOK, HostOK, HandleAppendEntries, Accepts, HonestAck, AckIndex, Reconcile, Record;
    AcceptRecords(ids, rule, s.history, n, s.hosts[n], m);
    AckRecorded(s.history.acks, n, m.term, TrueAck(rule, s.hosts[n].raft, m));
  }

  lemma StepKeepsRepliesTrue(ids: seq<NodeId>, rule: AckRule, s: System, l: Label)
    requires Config(ids) && CoreInv(ids, s) && CommitInv(ids, s) && RepliesTrue(s)
    requires Enabled(rule, s, l) && HonestRequest(rule, s, l) && HonestLabel(s, l)
    ensures RepliesTrue(Do(ids, rule, s, l))
  {
    hide Config, CoreInv, CommitInv, CrashEvent, RunEvent, HonestEvent, HonestAck, ReplyTrue;
    match l
    case Exec(n, event) =>
      EventAges(ids, rule, s, n, event);
      EventKeepsRepliesTrue(ids, rule, s, n, event);
    case Crash(n, event, k) =>
      CrashIsRestart(ids, rule, s, n, event, k);
      EventAges(ids, rule, s, n, event);
      EventKeepsRepliesTrue(ids, rule, s, n, event);
    case Restart(n) =>
  }

  lemma TrueRepliesAreBooked(rule: AckRule, s: System, l: Label)
    requires RepliesTrue(s) && Enabled(rule, s, l)
    ensures HonestLabel(s, l)
  {
    hide Step;
    if !l.Restart? && l.event.Receive? && l.event.msg.AppendReply? {
      assert ReplyTrue(s.history, Packet(l.node, l.event.msg));
    }
  }

  lemma HonestRepliesMove(ids: seq<NodeId>, rule: AckRule, r: Run, i: nat)
    requires IsRun(ids, rule, r) && HonestReplies(ids, rule, r) && i + 1 < |r.states|
    ensures HonestRequest(rule, r.states[i], r.labels[i])
  {
    hide Enabled, Do, HonestRequest, Initial;
    assert r.labels[i] == r.labels[i];
  }

  lemma InitialRepliesTrue(ids: seq<NodeId>)
    ensures RepliesTrue(Initial(ids))
  {
  }

  lemma {:induction false} HonestRepliesStayTrue(ids: seq<NodeId>, rule: AckRule, r: Run, i: nat)
    requires Config(ids) && IsRun(ids, rule, r) && HonestReplies(ids, rule, r) && i < |r.states|
    ensures CommitInv(ids, r.states[i]) && RepliesTrue(r.states[i])
  {
    hide *;
    RunStarts(ids, rule, r);
    if i == 0 {
      InitialCommit(ids);
      InitialRepliesTrue(ids);
    } else {
      var s, l := r.states[i - 1], r.labels[i - 1];
      HonestRepliesStayTrue(ids, rule, r, i - 1);
      CoreHolds(ids, rule, r, i - 1);
      RunMoves(ids, rule, r, i - 1);
      HonestRepliesMove(ids, rule, r, i - 1);
      TrueRepliesAreBooked(rule, s, l);
      StepKeepsCommit(ids, rule, s, l);
      StepKeepsRepliesTrue(ids, rule, s, l);
    }
  }

  /** Where every reply is honest no leader can book a false one. */
  lemma HonestRepliesMakeHonestRun(ids: seq<NodeId>, rule: AckRule, r: Run)
    requires Config(ids) && IsRun(ids, rule, r) && HonestReplies(ids, rule, r)
    ensures HonestRun(ids, rule, r)
  {
    RunStarts(ids, rule, r);
    forall i | 0 <= i < |r.labels|
      ensures r.labels[i].node in r.states[i].hosts && HonestLabel(r.states[i], r.labels[i])
    {
      HonestRepliesStayTrue(ids, rule, r, i);
      RunMoves(ids, rule, r, i);
      hide IsRun, HonestReplies, CommitInv, RepliesTrue, HonestLabel, Do, Enabled;
      TrueRepliesAreBooked(rule, r.states[i], r.labels[i]);
    }
    hide IsRun, HonestReplies, HonestLabel;
  }

  /** With the verified index in the reply every run is honest: the properties that rest on
      acknowledgements then hold without condition. */
  lemma VerifiedRunsAreHonest(ids: seq<NodeId>, r: Run)
    requires Config(ids) && IsRun(ids, VerifiedIndexRule, r)
    ensures HonestRun(ids, VerifiedIndexRule, r)
  {
    VerifiedRepliesAreHonest(ids, r);
    hide IsRun, HonestReplies, HonestRun;
    HonestRepliesMakeHonestRun(ids, VerifiedIndexRule, r);
  }

  lemma VerifiedRepliesAreHonest(ids: seq<NodeId>, r: Run)
    requires IsRun(ids, VerifiedIndexRule, r)
    ensures HonestReplies(ids, VerifiedIndexRule, r)
  {
    hide Enabled, Do, Reconcile, Accepts, Initial;
  }
}
