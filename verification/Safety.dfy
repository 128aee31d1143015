/** The safety properties that the literal code has in every run, whatever its success
    replies acknowledge: Election Safety, one vote per term, Leader Append-Only, Log
    Matching, the shape of logs, and agreement with the leader of the term. The two
    states a theorem speaks of are any two of the run, in any order unless it says so. */
module Safety {
  import opened Protocol
  import opened RaftSteps
  import opened LogFacts
  import opened Runtime
  import opened RoleStructure
  import opened Cluster
  import opened Histories
  import opened CoreInvariant
  import opened CoreSteps
  import opened Runs

  predicate Leads(s: System, n: NodeId, t: Term) {
    && n in s.hosts
    && s.hosts[n].raft.role == Leader
    && s.hosts[n].raft.persistent.currentTerm == t
  }

  function LogOf(s: System, n: NodeId): Log
    requires n in s.hosts
  {
    s.hosts[n].raft.persistent.log
  }

  lemma HostInOrder(ids: seq<NodeId>, rule: AckRule, r: Run, i: nat, n: NodeId)
    requires Config(ids) && IsRun(ids, rule, r) && i < |r.states| && n in r.states[i].hosts
    ensures HistoryOK(ids, r.states[i].history) && n in ids
    ensures HostOK(ids, r.states[i].history, n, r.states[i].hosts[n])
  {
    CoreHolds(ids, rule, r, i);
    hide HostOK, HistoryOK, PacketOK, IsRun;
    assert n in Members(ids);
  }

  /** The history knows the leader of a term and its log. */
  lemma LeaderOnRecord(ids: seq<NodeId>, rule: AckRule, r: Run, i: nat, n: NodeId, t: Term)
    requires Config(ids) && IsRun(ids, rule, r) && i < |r.states| && Leads(r.states[i], n, t)
    ensures var h := r.states[i].history;
            t in h.reigns && h.reigns[t].leader == n && h.reigns[t].log == LogOf(r.states[i], n)
  {
    HostInOrder(ids, rule, r, i, n);
    hide HistoryOK, IsRun;
  }

  // ── elections ───────────────────────────────────────────────────────────────

  /** Election Safety: at most one node ever leads in a term. */
  lemma ElectionSafety(ids: seq<NodeId>, rule: AckRule, r: Run, i: nat, j: nat,
                       a: NodeId, b: NodeId, t: Term)
    requires Config(ids) && IsRun(ids, rule, r) && i < |r.states| && j < |r.states|
    requires Leads(r.states[i], a, t) && Leads(r.states[j], b, t)
    ensures a == b
  {
    if j < i {
      ElectionSafety(ids, rule, r, j, i, b, a, t);
    } else {
      LeaderOnRecord(ids, rule, r, i, a, t);
      LeaderOnRecord(ids, rule, r, j, b, t);
      HistoryExtends(ids, rule, r, i, j);
      var h, h' := r.states[i].history, r.states[j].history;
      hide IsRun, Config, Leads;
      assert SameOffice(h.reigns[t], h'.reigns[t]);
    }
  }

  /** The packet shows that `voter` stands by `candidate` in `term`: a grant, or the request
      of the candidate itself. */
  predicate Pledges(p: Packet, voter: NodeId, term: Term, candidate: NodeId) {
    match p.msg
    case VoteRequest(m) => voter == candidate == m.candidateId && term == m.term
    case VoteReply(m) => m.voteGranted && voter == m.voteFrom && term == m.term && candidate == p.to
    case _ => false
  }

  lemma PledgeOnRecord(ids: seq<NodeId>, rule: AckRule, r: Run, i: nat, p: Packet,
                       u: NodeId, t: Term, c: NodeId)
    requires Config(ids) && IsRun(ids, rule, r) && i < |r.states|
    requires p in r.states[i].network && Pledges(p, u, t, c)
    ensures Voted(r.states[i].history, u, t, c) && u in ids
  {
    CoreHolds(ids, rule, r, i);
    hide IsRun, HostOK;
    assert PacketOK(ids, r.states[i].history, p);
    assert BallotOK(ids, r.states[i].history, Slot(u, t));
  }

  /** No node ever pledges itself to two candidates in one term, although the term is not
      saved every time a node steps down. */
  lemma OneVotePerTerm(ids: seq<NodeId>, rule: AckRule, r: Run, i: nat, j: nat,
                       p: Packet, q: Packet, u: NodeId, t: Term, c: NodeId, d: NodeId)
    requires Config(ids) && IsRun(ids, rule, r) && i < |r.states| && j < |r.states|
    requires p in r.states[i].network && Pledges(p, u, t, c)
    requires q in r.states[j].network && Pledges(q, u, t, d)
    ensures c == d
  {
    if j < i {
      OneVotePerTerm(ids, rule, r, j, i, q, p, u, t, d, c);
    } else {
      PledgeOnRecord(ids, rule, r, i, p, u, t, c);
      PledgeOnRecord(ids, rule, r, j, q, u, t, d);
      HistoryExtends(ids, rule, r, i, j);
      hide IsRun, Config, Pledges;
    }
  }

  // ── the leader a node knows ─────────────────────────────────────────────────

  /** The node it would send a client to has led a term up to the current one; a leader
      names itself. */
  ghost predicate HintOK(h: History, s: RaftState) {
    && (s.knownLeader.Some? ==>
          exists t: Term :: t <= s.persistent.currentTerm && t in h.reigns
                            && h.reigns[t].leader == s.knownLeader.value)
    && (s.role == Leader ==> s.knownLeader == Some(s.id))
  }

  lemma HintChanges(rule: AckRule, s: RaftState, event: Event)
    requires RoleOK(s) && (s.role == Leader ==> s.knownLeader == Some(s.id))
    ensures var s' := Step(rule, s, event).state;
            || (s'.knownLeader == None && s'.role != Leader)
            || (s'.role == Leader && s'.knownLeader == Some(s'.id))
            || (s'.role != Leader && s'.knownLeader == s.knownLeader)
            || (&& event.Receive? && event.msg.Append?
                && s'.knownLeader == Some(event.msg.ae.leaderId)
                && s'.persistent.currentTerm == event.msg.ae.term)
  {
    hide Reconcile, ApplyBetween, CommitScan, Position, CountAtLeast, LogMatches, UpToDate,
         AckIndex, LastNewIndex, PrevLogInfo, EntriesFrom, PeerPosition;
    match event
    case Receive(VoteRequest(m)) =>
    case Receive(VoteReply(m)) =>
    case Receive(Append(m)) =>
    case Receive(AppendReply(m)) =>
    case ElectionTimeout =>
    case HeartbeatTimeout =>
    case ClientRequest(command) =>
  }

  lemma EventKeepsHint(ids: seq<NodeId>, rule: AckRule, s: System, n: NodeId, event: Event)
    requires Config(ids) && CoreInv(ids, s) && Enabled(rule, s, Exec(n, event))
    requires HintOK(s.history, s.hosts[n].raft)
    ensures var s' := RunEvent(ids, rule, s, n, event); HintOK(s'.history, s'.hosts[n].raft)
  {
    var s' := RunEvent(ids, rule, s, n, event);
    var raft, raft' := s.hosts[n].raft, s'.hosts[n].raft;
    ExecEffect(ids, rule, s, n, event);
    CoreEvent(ids, rule, s, Exec(n, event));
    RunEventKeepsCore(ids, rule, s, n, event);
    CoreEventAfter(ids, s', n);
    EventExtends(ids, rule, s, n, event);
    assert RoleOK(raft);
    HintChanges(rule, raft, event);
    StepKeepsStructure(rule, raft, event);
    assert raft'.id == n && OfficeOK(s'.history, n, raft');
    hide Step, CoreInv, HistoryOK, HostOK, Config, RoleOK, RunEvent, Enabled;
    if event.Receive? && event.msg.Append? {
      var t := event.msg.ae.term;
      assert SameOffice(s.history.reigns[t], s'.history.reigns[t]);
    }
    if raft'.role == Leader {
      assert raft'.persistent.currentTerm in s'.history.reigns;
    } else if raft'.knownLeader.Some? && raft'.knownLeader == raft.knownLeader {
      OldHint(s.history, s'.history, raft, raft');
    }
  }

  lemma CoreEventAfter(ids: seq<NodeId>, s: System, n: NodeId)
    requires CoreInv(ids, s) && n in s.hosts
    ensures HistoryOK(ids, s.history) && HostOK(ids, s.history, n, s.hosts[n])
  {
    hide HistoryOK, HostOK;
  }

  lemma StepKeepsHints(ids: seq<NodeId>, rule: AckRule, s: System, l: Label, n: NodeId)
    requires Config(ids) && CoreInv(ids, s) && Enabled(rule, s, l) && n in s.hosts
    requires HintOK(s.history, s.hosts[n].raft)
    ensures var s' := Do(ids, rule, s, l); n in s'.hosts && HintOK(s'.history, s'.hosts[n].raft)
  {
    StepExtends(ids, rule, s, l);
    if l.node == n {
      if l.Exec? { EventKeepsHint(ids, rule, s, n, l.event); }
      hide Config, CoreInv, Step, Record, Packets, Emissions, Applied, ApplyAll, Extends;
    } else {
      hide Config, CoreInv, Step, Record, Packets, Emissions, Applied, ApplyAll, Extends, HintOK;
      HintsSurvive(s.history, Do(ids, rule, s, l).history, s.hosts[n].raft);
    }
  }

  lemma HintsSurvive(h: History, h': History, s: RaftState)
    requires Extends(h, h') && HintOK(h, s)
    ensures HintOK(h', s)
  {
    if s.knownLeader.Some? { OldHint(h, h', s, s); }
  }

  /** Where a node sends its clients has led a term up to its own. */
  lemma {:induction false} KnownLeaderHasLed(ids: seq<NodeId>, rule: AckRule, r: Run, i: nat,
                                             n: NodeId)
    requires Config(ids) && IsRun(ids, rule, r) && i < |r.states| && n in ids
    ensures n in r.states[i].hosts && HintOK(r.states[i].history, r.states[i].hosts[n].raft)
  {
    hide *;
    RunStarts(ids, rule, r);
    RunHosts(ids, rule, r, i, n);
    if i == 0 {
      NoHintAtFirst(ids, n);
    } else {
      KnownLeaderHasLed(ids, rule, r, i - 1, n);
      CoreHolds(ids, rule, r, i - 1);
      RunMoves(ids, rule, r, i - 1);
      StepKeepsHints(ids, rule, r.states[i - 1], r.labels[i - 1], n);
    }
  }

  lemma NoHintAtFirst(ids: seq<NodeId>, n: NodeId)
    requires n in Initial(ids).hosts
    ensures HintOK(Initial(ids).history, Initial(ids).hosts[n].raft)
  {
  }

  lemma OldHint(h: History, h': History, s: RaftState, s': RaftState)
    requires Extends(h, h') && HintOK(h, s) && s'.knownLeader == s.knownLeader && s.knownLeader.Some?
    requires s.persistent.currentTerm <= s'.persistent.currentTerm
    ensures exists t: Term :: t <= s'.persistent.currentTerm && t in h'.reigns
                              && h'.reigns[t].leader == s'.knownLeader.value
  {
    var t: Term :| t <= s.persistent.currentTerm && t in h.reigns
                   && h.reigns[t].leader == s.knownLeader.value;
    assert SameOffice(h.reigns[t], h'.reigns[t]);
  }

  // ── logs ────────────────────────────────────────────────────────────────────

  /** Leader Append-Only: while in office a leader only appends to its log. */
  lemma LeaderAppendOnly(ids: seq<NodeId>, rule: AckRule, r: Run, i: nat, j: nat,
                         n: NodeId, t: Term)
    requires Config(ids) && IsRun(ids, rule, r) && i <= j < |r.states|
    requires Leads(r.states[i], n, t) && Leads(r.states[j], n, t)
    ensures LogOf(r.states[i], n) <= LogOf(r.states[j], n)
  {
    LeaderOnRecord(ids, rule, r, i, n, t);
    LeaderOnRecord(ids, rule, r, j, n, t);
    HistoryExtends(ids, rule, r, i, j);
    var h, h' := r.states[i].history, r.states[j].history;
    hide IsRun, Config;
    assert SameOffice(h.reigns[t], h'.reigns[t]);
  }

  /** In memory or on disk. */
  predicate HasLog(s: System, n: NodeId, log: Log) {
    n in s.hosts && (log == s.hosts[n].raft.persistent.log || log == s.hosts[n].disk.log)
  }

  /** Every log of every reachable state: entries at their own index, terms that never
      fall, between 1 and the current term; memory and disk hold the same log. */
  lemma LogShape(ids: seq<NodeId>, rule: AckRule, r: Run, i: nat, n: NodeId, log: Log)
    requires Config(ids) && IsRun(ids, rule, r) && i < |r.states| && HasLog(r.states[i], n, log)
    ensures Shape(log) && TermsAtMost(log, r.states[i].hosts[n].disk.currentTerm)
    ensures r.states[i].hosts[n].disk.currentTerm <= r.states[i].hosts[n].raft.persistent.currentTerm
    ensures r.states[i].hosts[n].disk.log == r.states[i].hosts[n].raft.persistent.log
    ensures GoodLog(r.states[i].history, log)
  {
    HostInOrder(ids, rule, r, i, n);
    hide IsRun, HistoryOK;
  }

  /** Log Matching: two logs that hold an entry of the same index and term are equal up to
      that index. */
  lemma LogMatching(ids: seq<NodeId>, rule: AckRule, r: Run, i: nat, j: nat,
                    a: NodeId, b: NodeId, p: Log, q: Log, k: nat)
    requires Config(ids) && IsRun(ids, rule, r) && i < |r.states| && j < |r.states|
    requires HasLog(r.states[i], a, p) && HasLog(r.states[j], b, q)
    requires k < |p| && k < |q| && p[k].term == q[k].term
    ensures p[..k + 1] == q[..k + 1] && p[k].index == q[k].index == k + 1
  {
    if j < i {
      LogMatching(ids, rule, r, j, i, b, a, q, p, k);
    } else {
      LogShape(ids, rule, r, i, a, p);
      LogShape(ids, rule, r, j, b, q);
      HistoryExtends(ids, rule, r, i, j);
      hide IsRun, Config, HasLog, Extends, GoodLog;
      GoodLogExtends(r.states[i].history, r.states[j].history, p);
      SameEntrySamePast(r.states[j].history, p, q, k);
    }
  }

  /** The only limits on what can happen next are those of the network: any timer may fire
      at any node, any client may call, and any packet sent may be delivered again. */
  lemma EveryEventIsEnabled(ids: seq<NodeId>, rule: AckRule, r: Run, i: nat, n: NodeId, e: Event)
    requires Config(ids) && IsRun(ids, rule, r) && i < |r.states| && n in ids
    ensures Enabled(rule, r.states[i], Exec(n, e))
       <==> (e.Receive? ==> Packet(n, e.msg) in r.states[i].network)
    ensures Enabled(rule, r.states[i], Restart(n))
  {
    CoreHolds(ids, rule, r, i);
    hide IsRun, HistoryOK, PacketOK;
    assert n in Members(ids);
    assert RoleOK(r.states[i].hosts[n].raft);
  }

  // ── agreement with the leader of the term ───────────────────────────────────

  /** The disk agrees with the leader of `t` on the first `k` entries. */
  ghost predicate Agrees(h: History, t: Term, disk: PersistentState, k: nat) {
    t in h.reigns && k <= |h.reigns[t].log| && h.reigns[t].log[..k] <= disk.log
  }

  lemma AgreesAfterExtension(h: History, h': History, t: Term, disk: PersistentState,
                             disk': PersistentState, k: nat)
    requires Extends(h, h') && Agrees(h, t, disk, k) && h.reigns[t].log[..k] <= disk'.log
    ensures Agrees(h', t, disk', k)
  {
    assert SameOffice(h.reigns[t], h'.reigns[t]);
    assert h'.reigns[t].log[..k] == h.reigns[t].log[..k];
  }

  /** Two kinds of event change a log: a request that is accepted and a client's command. */
  lemma LogChanges(rule: AckRule, s: RaftState, event: Event)
    requires VectorsFit(s)
    ensures Step(rule, s, event).state.persistent.log ==
      if event.Receive? && event.msg.Append? && Accepts(s, event.msg.ae)
        then Reconcile(s.persistent.log, event.msg.ae.entries)
      else if event.ClientRequest? && s.role == Leader then Extended(s, event.command)
      else s.persistent.log
  {
    match event
    case Receive(VoteRequest(m)) =>
    case Receive(VoteReply(m)) =>
    case Receive(Append(m)) => AppendOutcome(rule, s, m);
    case Receive(AppendReply(m)) => AppendReplyOutcome(s, m);
    case ElectionTimeout =>
    case HeartbeatTimeout =>
    case ClientRequest(command) => if s.role == Leader { ClientOutcome(s, command); }
  }

  lemma AcceptAgrees(ids: seq<NodeId>, h: History, log: Log, m: AppendEntries, k: nat)
    requires HistoryOK(ids, h) && GoodLog(h, log) && m.term in h.reigns
    requires Probe(m) || SliceOf(m, h.reigns[m.term])
    requires LogMatches(log, m.prevLogIndex, m.prevLogTerm)
    requires k <= |h.reigns[m.term].log|
    requires h.reigns[m.term].log[..k] <= log || k <= EndIndex(m)
    ensures h.reigns[m.term].log[..k] <= Reconcile(log, m.entries)
  {
    AcceptedLog(ids, h, log, m);
    hide HistoryOK, GoodLog, LogMatches, Reconcile;
    var leader := h.reigns[m.term].log;
    CutKeeps(log, leader, EndIndex(m), k);
  }

  lemma CutKeeps(log: Log, leader: Log, e: nat, k: nat)
    requires e <= |leader| && k <= |leader| && (leader[..k] <= log || k <= e)
    ensures leader[..k] <= if leader[..e] <= log then log else leader[..e]
  {
    if k <= e {
      assert leader[..e][..k] == leader[..k];
    } else {
      assert leader[..k][..e] == leader[..e];
    }
  }

  lemma EventKeepsAgreement(ids: seq<NodeId>, rule: AckRule, h: History, n: NodeId, host: Host,
                            event: Event, k: nat)
    requires HistoryOK(ids, h) && HostOK(ids, h, n, host) && VectorsFit(host.raft)
    requires event.Receive? ==> PacketOK(ids, h, Packet(n, event.msg))
    requires Agrees(h, host.disk.currentTerm, host.disk, k)
    requires var p := Step(rule, host.raft, event).state.persistent;
             p.currentTerm == host.disk.currentTerm
    ensures h.reigns[host.disk.currentTerm].log[..k]
         <= Step(rule, host.raft, event).state.persistent.log
  {
    LogChanges(rule, host.raft, event);
    EventAdvancesDisk(ids, rule, h, n, host, event);
    if event.Receive? && event.msg.Append? && Accepts(host.raft, event.msg.ae) {
      var m := event.msg.ae;
      AppendOutcome(rule, host.raft, m);
      hide Step;
      AcceptAgrees(ids, h, host.disk.log, m, k);
    } else {
      hide Step;
    }
  }

  lemma StepKeepsAgreement(ids: seq<NodeId>, rule: AckRule, s: System, l: Label, n: NodeId, k: nat)
    requires Config(ids) && CoreInv(ids, s) && Enabled(rule, s, l) && n in s.hosts
    requires n in Do(ids, rule, s, l).hosts
    requires Do(ids, rule, s, l).hosts[n].disk.currentTerm == s.hosts[n].disk.currentTerm
    requires Agrees(s.history, s.hosts[n].disk.currentTerm, s.hosts[n].disk, k)
    ensures var s' := Do(ids, rule, s, l);
            Agrees(s'.history, s'.hosts[n].disk.currentTerm, s'.hosts[n].disk, k)
  {
    hide *;
    var s' := Do(ids, rule, s, l);
    var disk, disk' := s.hosts[n].disk, s'.hosts[n].disk;
    StepExtends(ids, rule, s, l);
    AgreesNow(s.history, disk.currentTerm, disk, k);
    if l.node == n && !l.Restart? {
      DiskAfter(ids, rule, s, l);
      CoreEvent(ids, rule, s, l);
      if disk' != disk {
        EventKeepsAgreement(ids, rule, s.history, n, s.hosts[n], l.event, k);
      }
    } else {
      OtherDisksStay(ids, rule, s, l, n);
    }
    AgreesAfterExtension(s.history, s'.history, disk.currentTerm, disk, disk', k);
  }

  lemma OtherDisksStay(ids: seq<NodeId>, rule: AckRule, s: System, l: Label, n: NodeId)
    requires Enabled(rule, s, l) && n in s.hosts && (l.node != n || l.Restart?)
    ensures n in Do(ids, rule, s, l).hosts && Do(ids, rule, s, l).hosts[n].disk == s.hosts[n].disk
  {
    hide Step, Record, Packets, Emissions, Applied, ApplyAll;
  }

  lemma AgreesNow(h: History, t: Term, disk: PersistentState, k: nat)
    requires Agrees(h, t, disk, k)
    ensures t in h.reigns && k <= |h.reigns[t].log| && h.reigns[t].log[..k] <= disk.log
  {
  }

  /** A step changes the disk of its node only by saving the state behind it. */
  lemma DiskAfter(ids: seq<NodeId>, rule: AckRule, s: System, l: Label)
    requires Enabled(rule, s, l) && !l.Restart?
    ensures l.node in Do(ids, rule, s, l).hosts
    ensures var disk' := Do(ids, rule, s, l).hosts[l.node].disk;
            || disk' == s.hosts[l.node].disk
            || disk' == Step(rule, s.hosts[l.node].raft, l.event).state.persistent
  {
    hide Step, Record, Packets, Emissions, Applied, ApplyAll;
  }

  lemma CoreEvent(ids: seq<NodeId>, rule: AckRule, s: System, l: Label)
    requires CoreInv(ids, s) && Enabled(rule, s, l) && !l.Restart?
    ensures l.node in s.hosts && HistoryOK(ids, s.history)
    ensures HostOK(ids, s.history, l.node, s.hosts[l.node]) && VectorsFit(s.hosts[l.node].raft)
    ensures l.event.Receive? ==> PacketOK(ids, s.history, Packet(l.node, l.event.msg))
  {
    hide HistoryOK, HostOK, PacketOK, Step;
  }

  /** Late, duplicate and reordered requests do no harm: as long as the disk stays in the
      term, the common prefix with the leader of the term never gets shorter. */
  lemma {:induction false} AgreementNeverShrinks(ids: seq<NodeId>, rule: AckRule, r: Run,
                                                 i: nat, j: nat, n: NodeId, k: nat)
    requires Config(ids) && IsRun(ids, rule, r) && i <= j < |r.states|
    requires n in r.states[i].hosts && n in r.states[j].hosts
    requires r.states[i].hosts[n].disk.currentTerm == r.states[j].hosts[n].disk.currentTerm
    requires Agrees(r.states[i].history, r.states[i].hosts[n].disk.currentTerm,
                    r.states[i].hosts[n].disk, k)
    ensures Agrees(r.states[j].history, r.states[j].hosts[n].disk.currentTerm,
                   r.states[j].hosts[n].disk, k)
    decreases j
  {
    hide *;
    RunStarts(ids, rule, r);
    if i == j {
    } else {
      HostInOrder(ids, rule, r, i, n);
      DiskNeverFalls(ids, rule, r, i, j - 1, n);
      DiskNeverFalls(ids, rule, r, j - 1, j, n);
      TermBetween(r.states[i].hosts[n].disk, r.states[j - 1].hosts[n].disk,
                  r.states[j].hosts[n].disk);
      AgreementNeverShrinks(ids, rule, r, i, j - 1, n, k);
      CoreHolds(ids, rule, r, j - 1);
      RunMoves(ids, rule, r, j - 1);
      StepKeepsAgreement(ids, rule, r.states[j - 1], r.labels[j - 1], n, k);
    }
  }

  lemma TermBetween(p: PersistentState, q: PersistentState, u: PersistentState)
    requires DiskAdvances(p, q) && DiskAdvances(q, u) && p.currentTerm == u.currentTerm
    ensures p.currentTerm == q.currentTerm
  {
  }

  /** The step delivers `m` to a node that accepts it, and gets as far as saving: from here
      on the node may have replied success, whether it crashes in this step or not. */
  predicate Accepting(s: System, l: Label, m: AppendEntries) {
    && !l.Restart? && l.event == Receive(Append(m))
    && l.node in s.hosts && Accepts(s.hosts[l.node].raft, m)
    && (l.Crash? ==> l.executed >= 1)
  }

  lemma AcceptingSaves(ids: seq<NodeId>, rule: AckRule, s: System, l: Label, m: AppendEntries)
    requires Enabled(rule, s, l) && Accepting(s, l, m)
    ensures l.node in Do(ids, rule, s, l).hosts
    ensures var disk' := Do(ids, rule, s, l).hosts[l.node].disk;
            && disk' == HandleAppendEntries(rule, s.hosts[l.node].raft, m).state.persistent
            && disk'.currentTerm == m.term
            && disk'.log == Reconcile(s.hosts[l.node].raft.persistent.log, m.entries)
  {
    var host := s.hosts[l.node];
    var o := Step(rule, host.raft, l.event);
    AppendOutcome(rule, host.raft, m);
    assert o == HandleAppendEntries(rule, host.raft, m) && o.actions[0] == PersistState;
    hide Step, HandleAppendEntries, Accepts, Reconcile, Record, Packets, Emissions, Applied, ApplyAll;
    if l.Crash? { assert o.actions[..l.executed][0] == PersistState; }
  }

  /** What a success covers: right after accepting a request, and as long as the disk stays
      in its term, a node has the leader's log up to the end of the request. */
  lemma AcceptedRequestIsKept(ids: seq<NodeId>, rule: AckRule, r: Run, i: nat, j: nat,
                              m: AppendEntries)
    requires Config(ids) && IsRun(ids, rule, r) && i < j < |r.states|
    requires i < |r.labels| && Accepting(r.states[i], r.labels[i], m)
    ensures r.labels[i].node in r.states[j].hosts
    ensures var disk := r.states[j].hosts[r.labels[i].node].disk;
            && m.term <= disk.currentTerm
            && (m.term == disk.currentTerm ==>
                  Agrees(r.states[j].history, m.term, disk, EndIndex(m)))
  {
    var n := r.labels[i].node;
    hide *;
    CoreHolds(ids, rule, r, i);
    RunMoves(ids, rule, r, i);
    StepExtends(ids, rule, r.states[i], r.labels[i]);
    RequestAgrees(ids, rule, r.states[i], r.labels[i], m);
    HostInOrder(ids, rule, r, i, n);
    DiskNeverFalls(ids, rule, r, i + 1, j, n);
    TermRises(r.states[i + 1].hosts[n].disk, r.states[j].hosts[n].disk);
    if m.term == r.states[j].hosts[n].disk.currentTerm {
      AgreementNeverShrinks(ids, rule, r, i + 1, j, n, EndIndex(m));
    }
  }

  lemma TermRises(p: PersistentState, q: PersistentState)
    requires DiskAdvances(p, q)
    ensures p.currentTerm <= q.currentTerm
  {
  }

  lemma RequestAgrees(ids: seq<NodeId>, rule: AckRule, s: System, l: Label, m: AppendEntries)
    requires CoreInv(ids, s) && Enabled(rule, s, l) && Accepting(s, l, m)
    requires Extends(s.history, Do(ids, rule, s, l).history)
    ensures var s' := Do(ids, rule, s, l);
            && l.node in s.hosts && l.node in s'.hosts
            && s'.hosts[l.node].disk.currentTerm == m.term
            && Agrees(s'.history, m.term, s'.hosts[l.node].disk, EndIndex(m))
  {
    var s' := Do(ids, rule, s, l);
    CoreEvent(ids, rule, s, l);
    AcceptingSaves(ids, rule, s, l, m);
    RequestCovers(ids, s.history, l.node, s.hosts[l.node], m);
    var disk' := s'.hosts[l.node].disk;
    hide Do, Step, CoreInv, HostOK, HistoryOK, PacketOK, Accepts, Reconcile, Enabled;
    AgreesAfterExtension(s.history, s'.history, m.term, disk', disk', EndIndex(m));
  }

  lemma RequestCovers(ids: seq<NodeId>, h: History, n: NodeId, host: Host, m: AppendEntries)
    requires HistoryOK(ids, h) && HostOK(ids, h, n, host)
    requires PacketOK(ids, h, Packet(n, Append(m))) && Accepts(host.raft, m)
    ensures m.term in h.reigns && EndIndex(m) <= |h.reigns[m.term].log|
    ensures h.reigns[m.term].log[..EndIndex(m)] <= Reconcile(host.raft.persistent.log, m.entries)
  {
    AcceptedLog(ids, h, host.disk.log, m);
    hide Reconcile, HistoryOK;
  }
}
