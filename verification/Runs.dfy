/** What only grows in a run: the history, the network, the record of applications, and
    the term and vote on every disk. */
module Runs {
  import opened Protocol
  import opened RaftSteps
  import opened Runtime
  import opened RoleStructure
  import opened Cluster
  import opened Histories
  import opened CoreInvariant
  import opened CoreSteps
  import opened Commitment
  import opened CommitInvariant
  import opened CommitSteps

  /** What executing one event does to the nodes and to the network. */
  lemma ExecEffect(ids: seq<NodeId>, rule: AckRule, s: System, n: NodeId, event: Event)
    requires Enabled(rule, s, Exec(n, event))
    ensures n in s.hosts && VectorsFit(s.hosts[n].raft)
    ensures var s', o := Do(ids, rule, s, Exec(n, event)), Step(rule, s.hosts[n].raft, event);
            && s'.hosts == s.hosts[n := After(s.hosts[n], o)]
            && s'.hosts[n].raft == o.state
            && s'.network == s.network + Packets(o.actions)
            && s'.emitted == s.emitted + Emissions(n, |s.hosts[n].applied|, Applied(o.actions))
  {
    hide Step, Record, Packets, Emissions, Applied, ApplyAll;
  }

  lemma SendIsPacket(actions: seq<Action>, to: NodeId, msg: Message)
    requires Send(to, msg) in actions
    ensures Packet(to, msg) in Packets(actions)
  {
    SentIffSend(actions, Packet(to, msg));
  }

  /** Execute labels one after the other; nothing if one of them is not enabled. */
  function Perform(ids: seq<NodeId>, rule: AckRule, s: System, labels: seq<Label>): Option<System>
    decreases |labels|
  {
    if labels == [] then Some(s)
    else if !Enabled(rule, s, labels[0]) then None
    else Perform(ids, rule, Do(ids, rule, s, labels[0]), labels[1..])
  }

  // ── the history ─────────────────────────────────────────────────────────────

  lemma EventExtends(ids: seq<NodeId>, rule: AckRule, s: System, n: NodeId, event: Event)
    requires Config(ids) && CoreInv(ids, s) && Enabled(rule, s, Exec(n, event))
    ensures Extends(s.history, RunEvent(ids, rule, s, n, event).history)
  {
    assert n in Members(ids);
    hide HistoryOK, HostOK, PacketOK, Record, Step, Config;
    StepIsOK(ids, rule, s.history, n, s.hosts[n], event);
  }

  lemma StepExtends(ids: seq<NodeId>, rule: AckRule, s: System, l: Label)
    requires Config(ids) && CoreInv(ids, s) && Enabled(rule, s, l)
    ensures Extends(s.history, Do(ids, rule, s, l).history)
  {
    hide Config, CoreInv, CrashEvent, RunEvent;
    match l
    case Exec(n, event) => EventExtends(ids, rule, s, n, event);
    case Crash(n, event, k) =>
      CrashIsRestart(ids, rule, s, n, event, k);
      EventExtends(ids, rule, s, n, event);
    case Restart(n) =>
  }

  lemma {:induction false} HistoryExtends(ids: seq<NodeId>, rule: AckRule, r: Run, i: nat, j: nat)
    requires Config(ids) && IsRun(ids, rule, r) && i <= j < |r.states|
    ensures Extends(r.states[i].history, r.states[j].history)
    decreases j
  {
    hide *;
    RunStarts(ids, rule, r);
    if i < j {
      CoreHolds(ids, rule, r, j - 1);
      RunMoves(ids, rule, r, j - 1);
      HistoryExtends(ids, rule, r, i, j - 1);
      StepExtends(ids, rule, r.states[j - 1], r.labels[j - 1]);
      ExtendsTwice(r.states[i].history, r.states[j - 1].history, r.states[j].history);
    } else {
      ExtendsItself(r.states[i].history);
    }
  }

  lemma ExtendsItself(h: History)
    ensures Extends(h, h)
  {
  }

  lemma EventAges(ids: seq<NodeId>, rule: AckRule, s: System, n: NodeId, event: Event)
    requires Config(ids) && CoreInv(ids, s) && CommitInv(ids, s)
    requires Enabled(rule, s, Exec(n, event)) && HonestEvent(s.history, s.hosts[n].raft, event)
    ensures Ages(s.history, RunEvent(ids, rule, s, n, event).history)
  {
    hide *;
    Ready(ids, rule, s, n, event);
    StepDoesHold(ids, rule, s.history, n, s.hosts[n], event);
    var h' := RunEvent(ids, rule, s, n, event).history;
    var o := Step(rule, s.hosts[n].raft, event);
    HoldsParts(ids, s.history, h', n, s.hosts[n], o);
    LaterAges(s.history, h', n, o.state.persistent.currentTerm);
  }

  /** What the invariants say about the node an event is for. */
  lemma Ready(ids: seq<NodeId>, rule: AckRule, s: System, n: NodeId, event: Event)
    requires CoreInv(ids, s) && CommitInv(ids, s) && Enabled(rule, s, Exec(n, event))
    ensures n in s.hosts && n in ids
    ensures HistoryOK(ids, s.history) && HostOK(ids, s.history, n, s.hosts[n])
    ensures AcksOK(ids, s.history) && HostHolds(ids, s.history, n, s.hosts[n])
    ensures VectorsFit(s.hosts[n].raft)
    ensures event.Receive? ==> PacketOK(ids, s.history, Packet(n, event.msg))
    ensures event.Receive? ==> PacketHolds(ids, s.history, Packet(n, event.msg))
    ensures RunEvent(ids, rule, s, n, event).history
         == Record(ids, s.history, n, Step(rule, s.hosts[n].raft, event).state,
                   Acknowledges(rule, s.hosts[n].raft, event))
  {
    assert n in Members(ids);
    hide HistoryOK, HostOK, PacketOK, Record, Step, AcksOK, HostHolds, PacketHolds, EmissionOK;
  }

  lemma StepAges(ids: seq<NodeId>, rule: AckRule, s: System, l: Label)
    requires Config(ids) && CoreInv(ids, s) && CommitInv(ids, s)
    requires Enabled(rule, s, l) && HonestLabel(s, l)
    ensures Ages(s.history, Do(ids, rule, s, l).history)
  {
    hide Config, CoreInv, CommitInv, CrashEvent, RunEvent, HonestEvent;
    match l
    case Exec(n, event) => EventAges(ids, rule, s, n, event);
    case Crash(n, event, k) =>
      CrashIsRestart(ids, rule, s, n, event, k);
      EventAges(ids, rule, s, n, event);
    case Restart(n) =>
  }

  lemma {:induction false} HistoryAges(ids: seq<NodeId>, rule: AckRule, r: Run, i: nat, j: nat)
    requires Config(ids) && IsRun(ids, rule, r) && HonestRun(ids, rule, r) && i <= j < |r.states|
    ensures Ages(r.states[i].history, r.states[j].history)
    decreases j
  {
    hide *;
    RunStarts(ids, rule, r);
    if i < j {
      CoreHolds(ids, rule, r, j - 1);
      CommitHolds(ids, rule, r, j - 1);
      RunMoves(ids, rule, r, j - 1);
      HonestMoves(ids, rule, r, j - 1);
      HistoryAges(ids, rule, r, i, j - 1);
      StepAges(ids, rule, r.states[j - 1], r.labels[j - 1]);
      AgesTwice(r.states[i].history, r.states[j - 1].history, r.states[j].history);
    } else {
      AgesItself(r.states[i].history);
    }
  }

  lemma AgesItself(h: History)
    ensures Ages(h, h)
  {
  }

  // ── packets and applications ────────────────────────────────────────────────

  lemma {:induction false} RecordsGrow(ids: seq<NodeId>, rule: AckRule, r: Run, i: nat, j: nat)
    requires IsRun(ids, rule, r) && i <= j < |r.states|
    ensures r.states[i].network <= r.states[j].network
    ensures r.states[i].emitted <= r.states[j].emitted
    decreases j
  {
    if i == j {
    } else {
      hide IsRun, Enabled, Step, Record, Initial;
      RunMoves(ids, rule, r, j - 1);
      RecordsGrow(ids, rule, r, i, j - 1);
    }
  }

  // ── disks ───────────────────────────────────────────────────────────────────

  /** The term never falls, and the vote of a term never changes once it is cast. */
  predicate DiskAdvances(p: PersistentState, q: PersistentState) {
    && p.currentTerm <= q.currentTerm
    && (p.currentTerm == q.currentTerm && p.votedFor.Some? ==> q.votedFor == p.votedFor)
  }

  lemma EventAdvancesDisk(ids: seq<NodeId>, rule: AckRule, h: History, n: NodeId, host: Host,
                          event: Event)
    requires HostOK(ids, h, n, host) && VectorsFit(host.raft)
    ensures DiskAdvances(host.disk, Step(rule, host.raft, event).state.persistent)
  {
    assert RoleOK(host.raft);
    StepKeepsStructure(rule, host.raft, event);
    hide Step;
  }

  lemma StepAdvancesDisk(ids: seq<NodeId>, rule: AckRule, s: System, l: Label, n: NodeId)
    requires CoreInv(ids, s) && Enabled(rule, s, l) && n in s.hosts
    ensures n in Do(ids, rule, s, l).hosts
    ensures DiskAdvances(s.hosts[n].disk, Do(ids, rule, s, l).hosts[n].disk)
  {
    if l.node == n && !l.Restart? {
      EventAdvancesDisk(ids, rule, s.history, n, s.hosts[n], l.event);
    }
    hide HostOK, Step, Record, Packets, Emissions, Applied, ApplyAll, DiskAdvances;
    assert DiskAdvances(s.hosts[n].disk, s.hosts[n].disk) by { DiskStays(s.hosts[n].disk); }
  }

  lemma DiskStays(p: PersistentState)
    ensures DiskAdvances(p, p)
  {
  }

  lemma CoreHosts(ids: seq<NodeId>, s: System)
    requires CoreInv(ids, s)
    ensures s.hosts.Keys == Members(ids)
    ensures forall n | n in s.hosts :: HostOK(ids, s.history, n, s.hosts[n])
  {
  }

  lemma MemberOfIds(ids: seq<NodeId>, n: NodeId)
    requires n in ids
    ensures n in Members(ids)
  {
  }

  /** Over any stretch of any run, crashes included. */
  lemma {:induction false} DiskNeverFalls(ids: seq<NodeId>, rule: AckRule, r: Run, i: nat, j: nat,
                                          n: NodeId)
    requires Config(ids) && IsRun(ids, rule, r) && i <= j < |r.states| && n in ids
    ensures n in r.states[i].hosts && n in r.states[j].hosts
    ensures DiskAdvances(r.states[i].hosts[n].disk, r.states[j].hosts[n].disk)
    decreases j
  {
    hide *;
    MemberOfIds(ids, n);
    RunStarts(ids, rule, r);
    CoreHolds(ids, rule, r, i);
    CoreHosts(ids, r.states[i]);
    if i < j {
      DiskNeverFalls(ids, rule, r, i, j - 1, n);
      CoreHolds(ids, rule, r, j - 1);
      RunMoves(ids, rule, r, j - 1);
      StepAdvancesDisk(ids, rule, r.states[j - 1], r.labels[j - 1], n);
      AdvancesTwice(r.states[i].hosts[n].disk, r.states[j - 1].hosts[n].disk,
                    r.states[j].hosts[n].disk);
    } else {
      DiskStays(r.states[i].hosts[n].disk);
    }
  }

  lemma RunHosts(ids: seq<NodeId>, rule: AckRule, r: Run, i: nat, n: NodeId)
    requires Config(ids) && IsRun(ids, rule, r) && i < |r.states| && n in ids
    ensures n in r.states[i].hosts
  {
    DiskNeverFalls(ids, rule, r, i, i, n);
  }

  lemma AdvancesTwice(p: PersistentState, q: PersistentState, u: PersistentState)
    requires DiskAdvances(p, q) && DiskAdvances(q, u)
    ensures DiskAdvances(p, u)
  {
  }
}
