/** Write-ahead durability: whatever a node has told others is on its disk, so in what
    `restore` reads back, in every later state, wherever in an action list it crashes.
    Nothing here assumes anything about the index in a reply. */
module Durability {
  import opened Protocol
  import opened RaftSteps
  import opened LogFacts
  import opened Runtime
  import opened Cluster
  import opened Histories
  import opened CoreInvariant
  import opened CoreSteps
  import opened Commitment
  import opened CommitSteps
  import opened Runs
  import opened Safety
  import opened Acknowledgements

  /** A restart brings back exactly the disk: the theorems below about disks are theorems
      about what a node knows after a crash. */
  lemma RestartReadsDisk(ids: seq<NodeId>, rule: AckRule, s: System, l: Label)
    requires Enabled(rule, s, l) && !l.Exec?
    ensures l.node in Do(ids, rule, s, l).hosts
    ensures var host := Do(ids, rule, s, l).hosts[l.node];
            && host.raft == Restore(s.hosts[l.node].raft.id, s.hosts[l.node].raft.peers, host.disk)
            && host.applied == [] && host.store == map[]
  {
    hide Step, Record, Packets, Emissions, Applied;
  }

  // ── votes ───────────────────────────────────────────────────────────────────

  /** A vote once given away stays on disk until the disk has moved on to a later term. */
  lemma GrantsAreDurable(ids: seq<NodeId>, rule: AckRule, r: Run, i: nat, j: nat,
                         p: Packet, u: NodeId, t: Term, c: NodeId)
    requires Config(ids) && IsRun(ids, rule, r) && i <= j < |r.states|
    requires p in r.states[i].network && Pledges(p, u, t, c)
    ensures u in r.states[j].hosts
    ensures var disk := r.states[j].hosts[u].disk;
            disk.currentTerm > t || (disk.currentTerm == t && disk.votedFor == Some(c))
  {
    PledgeOnRecord(ids, rule, r, i, p, u, t, c);
    HistoryExtends(ids, rule, r, i, j);
    RunHosts(ids, rule, r, j, u);
    HostInOrder(ids, rule, r, j, u);
    hide IsRun, HistoryOK, Pledges;
  }

  // ── entries ─────────────────────────────────────────────────────────────────

  /** The first `k` entries of the leader of `t` are on the disk, unless a leader elected
      since did not have them. */
  ghost predicate OnDisk(h: History, t: Term, k: nat, disk: PersistentState) {
    && t in h.reigns && k <= |h.reigns[t].log| && t <= disk.currentTerm
    && (Keeps(h, h.reigns[t].log[..k], t, disk.currentTerm) ==>
          h.reigns[t].log[..k] <= disk.log)
  }

  /** A later request carries everything its leader started with. */
  lemma LaterRequestCarries(log: Log, r: Reign, e: nat, p: Log)
    requires |r.start| <= e <= |r.log| && r.start <= r.log && p <= r.start && p <= log
    ensures p <= if r.log[..e] <= log then log else r.log[..e]
  {
    assert r.log[..e][..|p|] == r.log[..|p|] == p;
  }

  lemma KeepsBefore(h: History, h': History, p: Log, t: Term, a: Term, b: Term)
    requires Extends(h, h') && Keeps(h', p, t, b) && a <= b
    ensures Keeps(h, p, t, a)
    ensures forall u | u in h.reigns && t < u <= b :: p <= h.reigns[u].start
  {
    forall u | u in h.reigns && t < u <= b ensures p <= h.reigns[u].start {
      assert SameOffice(h.reigns[u], h'.reigns[u]);
    }
  }

  /** A step that saves a new log keeps the entries, or the request it accepts comes from a
      leader that started without them. */
  lemma EventKeepsEntries(ids: seq<NodeId>, rule: AckRule, h: History, n: NodeId, host: Host,
                          event: Event, t: Term, k: nat)
    requires HistoryOK(ids, h) && HostOK(ids, h, n, host) && VectorsFit(host.raft)
    requires event.Receive? ==> PacketOK(ids, h, Packet(n, event.msg))
    requires t in h.reigns && k <= |h.reigns[t].log| && t <= host.disk.currentTerm
    requires h.reigns[t].log[..k] <= host.disk.log
    requires var u := Step(rule, host.raft, event).state.persistent.currentTerm;
             u in h.reigns && t < u ==> h.reigns[t].log[..k] <= h.reigns[u].start
    ensures h.reigns[t].log[..k] <= Step(rule, host.raft, event).state.persistent.log
  {
    LogChanges(rule, host.raft, event);
    EventAdvancesDisk(ids, rule, h, n, host, event);
    if event.Receive? && event.msg.Append? && Accepts(host.raft, event.msg.ae) {
      AppendOutcome(rule, host.raft, event.msg.ae);
      hide Step;
      AcceptKeepsEntries(ids, h, host.disk.log, event.msg.ae, t, k);
    } else {
      hide Step;
    }
  }

  lemma AcceptKeepsEntries(ids: seq<NodeId>, h: History, log: Log, m: AppendEntries, t: Term,
                           k: nat)
    requires HistoryOK(ids, h) && GoodLog(h, log) && m.term in h.reigns
    requires Probe(m) || SliceOf(m, h.reigns[m.term])
    requires LogMatches(log, m.prevLogIndex, m.prevLogTerm)
    requires t in h.reigns && k <= |h.reigns[t].log| && t <= m.term
    requires h.reigns[t].log[..k] <= log
    requires t < m.term ==> h.reigns[t].log[..k] <= h.reigns[m.term].start
    ensures h.reigns[t].log[..k] <= Reconcile(log, m.entries)
  {
    if t == m.term {
      AcceptAgrees(ids, h, log, m, k);
    } else {
      AcceptedLog(ids, h, log, m);
      assert ReignOK(ids, h, m.term);
      hide HistoryOK, GoodLog, LogMatches, Reconcile, ReignOK;
      StartInLog(ids, h, m.term);
      LaterRequestCarries(log, h.reigns[m.term], EndIndex(m), h.reigns[t].log[..k]);
    }
  }

  lemma StaysOnDisk(h: History, h': History, t: Term, k: nat, disk: PersistentState,
                    disk': PersistentState)
    requires Extends(h, h') && OnDisk(h, t, k, disk) && disk.currentTerm <= disk'.currentTerm
    requires h.reigns[t].log[..k] <= disk.log
             && (forall u | u in h.reigns && t < u <= disk'.currentTerm ::
                   h.reigns[t].log[..k] <= h.reigns[u].start)
             ==> h.reigns[t].log[..k] <= disk'.log
    ensures OnDisk(h', t, k, disk')
  {
    var p := h.reigns[t].log[..k];
    assert SameOffice(h.reigns[t], h'.reigns[t]);
    assert h'.reigns[t].log[..k] == p;
    if Keeps(h', p, t, disk'.currentTerm) {
      KeepsBefore(h, h', p, t, disk.currentTerm, disk'.currentTerm);
    }
  }

  lemma StepKeepsOnDisk(ids: seq<NodeId>, rule: AckRule, s: System, l: Label, n: NodeId,
                        t: Term, k: nat)
    requires Config(ids) && CoreInv(ids, s) && Enabled(rule, s, l) && n in s.hosts
    requires OnDisk(s.history, t, k, s.hosts[n].disk)
    ensures n in Do(ids, rule, s, l).hosts
    ensures var s' := Do(ids, rule, s, l); OnDisk(s'.history, t, k, s'.hosts[n].disk)
  {
    hide *;
    var s' := Do(ids, rule, s, l);
    var h, disk := s.history, s.hosts[n].disk;
    StepExtends(ids, rule, s, l);
    StepAdvancesDisk(ids, rule, s, l, n);
    var disk' := s'.hosts[n].disk;
    TermRises(disk, disk');
    OnDiskMeans(h, t, k, disk);
    var p := h.reigns[t].log[..k];
    if l.node == n && !l.Restart? {
      DiskAfter(ids, rule, s, l);
      CoreEvent(ids, rule, s, l);
      if && disk' != disk && p <= disk.log
         && forall u | u in h.reigns && t < u <= disk'.currentTerm :: p <= h.reigns[u].start {
        EventKeepsEntries(ids, rule, h, n, s.hosts[n], l.event, t, k);
      }
    } else {
      OtherDisksStay(ids, rule, s, l, n);
    }
    StaysOnDisk(h, s'.history, t, k, disk, disk');
  }

  lemma OnDiskMeans(h: History, t: Term, k: nat, disk: PersistentState)
    requires OnDisk(h, t, k, disk)
    ensures t in h.reigns && k <= |h.reigns[t].log| && t <= disk.currentTerm
  {
  }

  /** What is on a disk stays there in every run, up to truncation by a leader that was
      elected without it. */
  lemma {:induction false} OnDiskStays(ids: seq<NodeId>, rule: AckRule, r: Run, i: nat, j: nat,
                                       n: NodeId, t: Term, k: nat)
    requires Config(ids) && IsRun(ids, rule, r) && i <= j < |r.states|
    requires n in r.states[i].hosts && OnDisk(r.states[i].history, t, k, r.states[i].hosts[n].disk)
    ensures n in r.states[j].hosts && OnDisk(r.states[j].history, t, k, r.states[j].hosts[n].disk)
    decreases j
  {
    hide *;
    RunStarts(ids, rule, r);
    if i == j {
    } else {
      OnDiskStays(ids, rule, r, i, j - 1, n, t, k);
      CoreHolds(ids, rule, r, j - 1);
      RunMoves(ids, rule, r, j - 1);
      StepKeepsOnDisk(ids, rule, r.states[j - 1], r.labels[j - 1], n, t, k);
    }
  }

  // ── acknowledged entries ────────────────────────────────────────────────────

  lemma AcceptedPrefix(ids: seq<NodeId>, rule: AckRule, h: History, n: NodeId, host: Host,
                       m: AppendEntries, k: nat)
    requires HistoryOK(ids, h) && HostOK(ids, h, n, host)
    requires PacketOK(ids, h, Packet(n, Append(m))) && Accepts(host.raft, m)
    requires k <= TrueAck(rule, host.raft, m)
    ensures m.term in h.reigns && k <= |h.reigns[m.term].log|
    ensures h.reigns[m.term].log[..k] <= Reconcile(host.raft.persistent.log, m.entries)
  {
    hide *;
    RequestCovers(ids, h, n, host, m);
    GoodAcceptedLog(ids, h, host, n, m);
    DiskBehindMemory(ids, h, n, host);
    TrueAckIsPrefix(h, rule, host.raft, m);
    var leader := h.reigns[m.term].log;
    assert leader[..k] == leader[..TrueAck(rule, host.raft, m)][..k];
  }

  lemma AgreesIsOnDisk(h: History, t: Term, k: nat, disk: PersistentState)
    requires Agrees(h, t, disk, k) && t <= disk.currentTerm
    ensures OnDisk(h, t, k, disk)
  {
  }

  /** Right after a request has been accepted and saved, its entries are on the disk, and so
      is everything the reply truly acknowledges. */
  lemma AcceptedIsOnDisk(ids: seq<NodeId>, rule: AckRule, s: System, l: Label, m: AppendEntries,
                         k: nat)
    requires Config(ids) && CoreInv(ids, s) && Enabled(rule, s, l) && Accepting(s, l, m)
    requires k <= TrueAck(rule, s.hosts[l.node].raft, m)
    ensures l.node in Do(ids, rule, s, l).hosts
    ensures var s' := Do(ids, rule, s, l); OnDisk(s'.history, m.term, k, s'.hosts[l.node].disk)
  {
    var s', host := Do(ids, rule, s, l), s.hosts[l.node];
    StepExtends(ids, rule, s, l);
    CoreEvent(ids, rule, s, l);
    AcceptingSaves(ids, rule, s, l, m);
    hide Do, Step, CoreInv, HostOK, HistoryOK, PacketOK, Accepts, Reconcile, Enabled, TrueAck, Config,
         Extends, OnDisk;
    AcceptedPrefix(ids, rule, s.history, l.node, host, m, k);
    var disk' := s'.hosts[l.node].disk;
    AgreesAfterExtension(s.history, s'.history, m.term, disk', disk', k);
    AgreesIsOnDisk(s'.history, m.term, k, disk');
  }

  lemma TrueAckCoversRequest(ids: seq<NodeId>, rule: AckRule, s: System, l: Label,
                             m: AppendEntries)
    requires CoreInv(ids, s) && Enabled(rule, s, l) && Accepting(s, l, m)
    ensures EndIndex(m) <= TrueAck(rule, s.hosts[l.node].raft, m)
  {
    var host := s.hosts[l.node];
    CoreEvent(ids, rule, s, l);
    RequestCovers(ids, s.history, l.node, host, m);
    GoodAcceptedLog(ids, s.history, host, l.node, m);
    assert host.raft.persistent.log == host.disk.log;
    LastIndexIsLength(Reconcile(host.disk.log, m.entries));
    hide CoreInv, HostOK, HistoryOK, PacketOK, Accepts, Reconcile, Enabled, GoodLog;
  }

  /** Whatever a node accepts is on its disk from then on, in every run and wherever the step
      crashes after saving: the entries of the request and everything before them, and all
      that the reply truly acknowledges. */
  lemma AcceptedIsDurable(ids: seq<NodeId>, rule: AckRule, r: Run, i: nat, j: nat,
                          m: AppendEntries, k: nat)
    requires Config(ids) && IsRun(ids, rule, r) && i < |r.labels| && i < j < |r.states|
    requires Accepting(r.states[i], r.labels[i], m)
    requires k <= TrueAck(rule, r.states[i].hosts[r.labels[i].node].raft, m)
    ensures EndIndex(m) <= TrueAck(rule, r.states[i].hosts[r.labels[i].node].raft, m)
    ensures r.labels[i].node in r.states[j].hosts
    ensures OnDisk(r.states[j].history, m.term, k, r.states[j].hosts[r.labels[i].node].disk)
  {
    hide IsRun, Config, CoreInv, Enabled, Do, TrueAck, Accepts, OnDisk;
    CoreHolds(ids, rule, r, i);
    RunMoves(ids, rule, r, i);
    TrueAckCoversRequest(ids, rule, r.states[i], r.labels[i], m);
    AcceptedIsOnDisk(ids, rule, r.states[i], r.labels[i], m, k);
    OnDiskStays(ids, rule, r, i + 1, j, r.labels[i].node, m.term, k);
  }

  // ── what is on record as acknowledged ───────────────────────────────────────

  /** Everything a node has truly acknowledged is on its disk. */
  ghost predicate CreditOnDisk(h: History, u: NodeId, disk: PersistentState) {
    forall t: Term, k: nat | Slot(u, t) in h.acks && k <= h.acks[Slot(u, t)] ::
      OnDisk(h, t, k, disk)
  }

  ghost predicate CreditsOnDisk(s: System) {
    && (forall k | k in s.history.acks :: k.node in s.hosts)
    && (forall u | u in s.hosts :: CreditOnDisk(s.history, u, s.hosts[u].disk))
  }

  lemma NewCreditCases(ids: seq<NodeId>, h: History, n: NodeId, post: RaftState,
                       ack: Option<LogIndex>, t: Term, k: nat)
    requires var acks := Record(ids, h, n, post, ack).acks;
             && Slot(n, t) in acks && k <= acks[Slot(n, t)]
             && !(Slot(n, t) in h.acks && k <= h.acks[Slot(n, t)])
    ensures t == post.persistent.currentTerm
    ensures if post.role == Leader then k <= |post.persistent.log|
            else ack.Some? && (k <= ack.value || k == 0)
  {
  }

  lemma LeaderCredit(ids: seq<NodeId>, h: History, n: NodeId, host: Host, k: nat)
    requires HistoryOK(ids, h) && HostOK(ids, h, n, host) && host.raft.role == Leader
    requires k <= |host.raft.persistent.log|
    ensures OnDisk(h, host.raft.persistent.currentTerm, k, host.disk)
  {
    LeaderFacts(ids, h, n, host);
  }

  /** A step credits its node with nothing that is not on its disk by now. */
  lemma NewCredit(ids: seq<NodeId>, rule: AckRule, s: System, n: NodeId, event: Event,
                  t: Term, k: nat)
    requires Config(ids) && CoreInv(ids, s) && Enabled(rule, s, Exec(n, event))
    requires var h' := RunEvent(ids, rule, s, n, event).history;
             && Slot(n, t) in h'.acks && k <= h'.acks[Slot(n, t)]
             && !(Slot(n, t) in s.history.acks && k <= s.history.acks[Slot(n, t)])
    ensures var s' := RunEvent(ids, rule, s, n, event);
            n in s'.hosts && OnDisk(s'.history, t, k, s'.hosts[n].disk)
  {
    hide *;
    var s', l := RunEvent(ids, rule, s, n, event), Exec(n, event);
    EventFacts(ids, rule, s, n, event);
    var raft := s.hosts[n].raft;
    var post := Step(rule, raft, event).state;
    NewCreditCases(ids, s.history, n, post, Acknowledges(rule, raft, event), t, k);
    if post.role == Leader {
      RunEventKeepsCore(ids, rule, s, n, event);
      CoreEventAfter(ids, s', n);
      LeaderCredit(ids, s'.history, n, s'.hosts[n], k);
    } else {
      AcknowledgesMeans(rule, s, n, event);
      AcceptedIsOnDisk(ids, rule, s, l, event.msg.ae, k);
    }
  }

  lemma EventFacts(ids: seq<NodeId>, rule: AckRule, s: System, n: NodeId, event: Event)
    requires Enabled(rule, s, Exec(n, event))
    ensures n in s.hosts && VectorsFit(s.hosts[n].raft)
    ensures Do(ids, rule, s, Exec(n, event)) == RunEvent(ids, rule, s, n, event)
    ensures var s', raft := RunEvent(ids, rule, s, n, event), s.hosts[n].raft;
            && s'.hosts.Keys == s.hosts.Keys
            && s'.hosts[n].raft == Step(rule, raft, event).state
            && s'.history == Record(ids, s.history, n, Step(rule, raft, event).state,
                                    Acknowledges(rule, raft, event))
            && (forall u | u in s.hosts && u != n :: s'.hosts[u] == s.hosts[u])
  {
    hide Step, Record, Acknowledges, Packets, Emissions, Applied, ApplyAll;
  }

  lemma AcknowledgesMeans(rule: AckRule, s: System, n: NodeId, event: Event)
    requires n in s.hosts && VectorsFit(s.hosts[n].raft)
    requires Acknowledges(rule, s.hosts[n].raft, event).Some?
    ensures event.Receive? && event.msg.Append? && Accepting(s, Exec(n, event), event.msg.ae)
    ensures Acknowledges(rule, s.hosts[n].raft, event).value
         == TrueAck(rule, s.hosts[n].raft, event.msg.ae)
    ensures Step(rule, s.hosts[n].raft, event).state.persistent.currentTerm == event.msg.ae.term
  {
    AppendOutcome(rule, s.hosts[n].raft, event.msg.ae);
  }

  lemma OthersCredit(ids: seq<NodeId>, h: History, n: NodeId, post: RaftState,
                     ack: Option<LogIndex>, u: NodeId, t: Term)
    requires u != n && Slot(u, t) in Record(ids, h, n, post, ack).acks
    ensures Slot(u, t) in h.acks && Record(ids, h, n, post, ack).acks[Slot(u, t)] == h.acks[Slot(u, t)]
  {
  }

  lemma CreditApplies(s: System, u: NodeId, t: Term, k: nat)
    requires CreditsOnDisk(s) && u in s.hosts && Slot(u, t) in s.history.acks
    requires k <= s.history.acks[Slot(u, t)]
    ensures OnDisk(s.history, t, k, s.hosts[u].disk)
  {
    assert CreditOnDisk(s.history, u, s.hosts[u].disk);
  }

  lemma EventKeepsCredit(ids: seq<NodeId>, rule: AckRule, s: System, n: NodeId, event: Event,
                         u: NodeId)
    requires Config(ids) && CoreInv(ids, s) && Enabled(rule, s, Exec(n, event)) && CreditsOnDisk(s)
    requires u in s.hosts
    ensures var s' := RunEvent(ids, rule, s, n, event);
            u in s'.hosts && CreditOnDisk(s'.history, u, s'.hosts[u].disk)
  {
    var s' := RunEvent(ids, rule, s, n, event);
    EventFacts(ids, rule, s, n, event);
    hide Config, CoreInv, Enabled, CreditsOnDisk, RunEvent, Do, Step, Record, Acknowledges, OnDisk;
    forall t: Term, k: nat | Slot(u, t) in s'.history.acks && k <= s'.history.acks[Slot(u, t)]
      ensures OnDisk(s'.history, t, k, s'.hosts[u].disk)
    {
      if u != n {
        OthersCredit(ids, s.history, n, Step(rule, s.hosts[n].raft, event).state,
                     Acknowledges(rule, s.hosts[n].raft, event), u, t);
      }
      if Slot(u, t) in s.history.acks && k <= s.history.acks[Slot(u, t)] {
        CreditApplies(s, u, t, k);
        StepKeepsOnDisk(ids, rule, s, Exec(n, event), u, t, k);
      } else {
        NewCredit(ids, rule, s, n, event, t, k);
      }
    }
  }

  lemma EventKeepsCredits(ids: seq<NodeId>, rule: AckRule, s: System, n: NodeId, event: Event)
    requires Config(ids) && CoreInv(ids, s) && Enabled(rule, s, Exec(n, event)) && CreditsOnDisk(s)
    ensures CreditsOnDisk(RunEvent(ids, rule, s, n, event))
  {
    var s' := RunEvent(ids, rule, s, n, event);
    EventFacts(ids, rule, s, n, event);
    assert n in s.hosts;
    assert forall k | k in s'.history.acks :: k in s.history.acks || k.node == n;
    hide Config, CoreInv, Enabled, CreditOnDisk, RunEvent, Do, Step, Record, Acknowledges;
    forall u | u in s'.hosts ensures CreditOnDisk(s'.history, u, s'.hosts[u].disk) {
      EventKeepsCredit(ids, rule, s, n, event, u);
    }
  }

  lemma StepKeepsCredits(ids: seq<NodeId>, rule: AckRule, s: System, l: Label)
    requires Config(ids) && CoreInv(ids, s) && Enabled(rule, s, l) && CreditsOnDisk(s)
    ensures CreditsOnDisk(Do(ids, rule, s, l))
  {
    var s' := Do(ids, rule, s, l);
    hide Config, CoreInv, CrashEvent, RunEvent, CreditsOnDisk;
    match l
    case Exec(n, event) => EventKeepsCredits(ids, rule, s, n, event);
    case Crash(n, event, k) =>
      CrashIsRestart(ids, rule, s, n, event, k);
      EventKeepsCredits(ids, rule, s, n, event);
      EventFacts(ids, rule, s, n, event);
      hide Step, Record, Acknowledges, Restarted;
      if s'.hosts == s.hosts[n := Restarted(s.hosts[n])] && s'.history == s.history {
        RestartKeepsCredits(s, s', n);
      } else {
        RestartKeepsCredits(RunEvent(ids, rule, s, n, event), s', n);
      }
    case Restart(n) => RestartKeepsCredits(s, s', n);
  }

  lemma RestartKeepsCredits(s: System, s': System, n: NodeId)
    requires CreditsOnDisk(s) && n in s.hosts && s'.history == s.history
    requires s'.hosts == s.hosts[n := Restarted(s.hosts[n])]
    ensures CreditsOnDisk(s')
  {
    hide CreditOnDisk;
  }

  lemma InitialCredits(ids: seq<NodeId>)
    ensures CreditsOnDisk(Initial(ids))
  {
  }

  /** In every state of every run every disk holds what its node has truly acknowledged, up
      to truncation by a leader that was elected without it. */
  lemma {:induction false} CreditsAreOnDisk(ids: seq<NodeId>, rule: AckRule, r: Run, i: nat)
    requires Config(ids) && IsRun(ids, rule, r) && i < |r.states|
    ensures CreditsOnDisk(r.states[i])
  {
    hide *;
    RunStarts(ids, rule, r);
    if i == 0 {
      InitialCredits(ids);
    } else {
      CreditsAreOnDisk(ids, rule, r, i - 1);
      CoreHolds(ids, rule, r, i - 1);
      RunMoves(ids, rule, r, i - 1);
      StepKeepsCredits(ids, rule, r.states[i - 1], r.labels[i - 1]);
    }
  }

  /** The index in a reply itself: as soon as the reply is true, what it acknowledges is on
      the sender's disk from then on. */
  lemma AcknowledgedIsDurable(ids: seq<NodeId>, rule: AckRule, r: Run, i: nat, j: nat,
                              p: Packet, m: AppendEntriesResponse, k: nat)
    requires Config(ids) && IsRun(ids, rule, r) && i <= j < |r.states|
    requires p in r.states[i].network && p.msg == AppendReply(m) && m.success
    requires ReplyTrue(r.states[i].history, p) && 0 < k <= m.matchIndex
    ensures m.from in r.states[j].hosts
    ensures OnDisk(r.states[j].history, m.term, k, r.states[j].hosts[m.from].disk)
  {
    CreditsAreOnDisk(ids, rule, r, i);
    assert Slot(m.from, m.term) in r.states[i].history.acks;
    assert m.from in r.states[i].hosts;
    hide Config, IsRun, CreditsOnDisk, OnDisk;
    CreditApplies(r.states[i], m.from, m.term, k);
    OnDiskStays(ids, rule, r, i, j, m.from, m.term, k);
  }

  // ── broadcast entries ───────────────────────────────────────────────────────

  /** What a leader has broadcast is on its own disk as long as the disk is in its term. */
  lemma BroadcastIsSaved(ids: seq<NodeId>, rule: AckRule, r: Run, i: nat, j: nat,
                         p: Packet, m: AppendEntries)
    requires Config(ids) && IsRun(ids, rule, r) && i <= j < |r.states|
    requires p in r.states[i].network && p.msg == Append(m)
    ensures m.leaderId in r.states[j].hosts
    ensures var disk := r.states[j].hosts[m.leaderId].disk;
            && m.term <= disk.currentTerm
            && (m.term == disk.currentTerm && m.entries != [] ==>
                  && EndIndex(m) <= |disk.log|
                  && m.entries == disk.log[m.prevLogIndex..EndIndex(m)])
  {
    RecordsGrow(ids, rule, r, i, j);
    CoreHolds(ids, rule, r, j);
    var h := r.states[j].history;
    assert PacketOK(ids, h, p) && ReignOK(ids, h, m.term) by {
      hide IsRun, HostOK, ReignOK, BallotOK;
    }
    RunHosts(ids, rule, r, j, m.leaderId);
    HostInOrder(ids, rule, r, j, m.leaderId);
    hide IsRun, HistoryOK, CoreInv, GoodLog;
  }

  /** A leader acknowledges to itself every entry it has. */
  ghost predicate LeadersAcknowledge(h: History) {
    forall t | t in h.reigns ::
      Slot(h.reigns[t].leader, t) in h.acks
      && h.acks[Slot(h.reigns[t].leader, t)] >= |h.reigns[t].log|
  }

  lemma RecordAcknowledges(ids: seq<NodeId>, h: History, n: NodeId, post: RaftState,
                           ack: Option<LogIndex>)
    requires LeadersAcknowledge(h)
    requires var t := post.persistent.currentTerm;
             post.role == Leader && t in h.reigns ==> h.reigns[t].leader == n
    ensures LeadersAcknowledge(Record(ids, h, n, post, ack))
  {
  }

  lemma EventAcknowledges(ids: seq<NodeId>, rule: AckRule, s: System, n: NodeId, event: Event)
    requires Config(ids) && CoreInv(ids, s) && Enabled(rule, s, Exec(n, event))
    requires LeadersAcknowledge(s.history)
    ensures LeadersAcknowledge(RunEvent(ids, rule, s, n, event).history)
  {
    RunEventKeepsCore(ids, rule, s, n, event);
    EventExtends(ids, rule, s, n, event);
    var s' := RunEvent(ids, rule, s, n, event);
    var o := Step(rule, s.hosts[n].raft, event);
    assert s'.hosts[n].raft == o.state;
    assert HostOK(ids, s'.history, n, s'.hosts[n]) by {
      hide HistoryOK, HostOK, PacketOK, Record, Step, LeadersAcknowledge;
    }
    assert n in ids by { assert n in Members(ids); }
    var ack := Acknowledges(rule, s.hosts[n].raft, event);
    assert s'.history == Record(ids, s.history, n, o.state, ack);
    assert OfficeOK(s'.history, n, o.state);
    hide Step, Record, LeadersAcknowledge, CoreInv, HostOK, Acknowledges, RunEvent, Config;
    RecordAcknowledges(ids, s.history, n, o.state, ack);
  }

  lemma StepAcknowledges(ids: seq<NodeId>, rule: AckRule, s: System, l: Label)
    requires Config(ids) && CoreInv(ids, s) && Enabled(rule, s, l)
    requires LeadersAcknowledge(s.history)
    ensures LeadersAcknowledge(Do(ids, rule, s, l).history)
  {
    hide Config, CoreInv, CrashEvent, RunEvent, LeadersAcknowledge;
    match l
    case Exec(n, event) => EventAcknowledges(ids, rule, s, n, event);
    case Crash(n, event, k) =>
      CrashIsRestart(ids, rule, s, n, event, k);
      EventAcknowledges(ids, rule, s, n, event);
    case Restart(n) =>
  }

  lemma InitialAcknowledges(ids: seq<NodeId>)
    ensures LeadersAcknowledge(Initial(ids).history)
  {
  }

  lemma {:induction false} LeadersHaveAcknowledged(ids: seq<NodeId>, rule: AckRule, r: Run, i: nat)
    requires Config(ids) && IsRun(ids, rule, r) && i < |r.states|
    ensures LeadersAcknowledge(r.states[i].history)
  {
    hide *;
    RunStarts(ids, rule, r);
    if i == 0 {
      InitialAcknowledges(ids);
    } else {
      LeadersHaveAcknowledged(ids, rule, r, i - 1);
      CoreHolds(ids, rule, r, i - 1);
      RunMoves(ids, rule, r, i - 1);
      StepAcknowledges(ids, rule, r.states[i - 1], r.labels[i - 1]);
    }
  }

  /** Every entry a leader has broadcast stays on its disk up to later truncation by a leader
      that was elected without it. */
  lemma BroadcastIsDurable(ids: seq<NodeId>, rule: AckRule, r: Run, i: nat, j: nat,
                           p: Packet, m: AppendEntries, k: nat)
    requires Config(ids) && IsRun(ids, rule, r) && i <= j < |r.states|
    requires p in r.states[i].network && p.msg == Append(m) && m.entries != []
    requires k <= EndIndex(m)
    ensures m.leaderId in r.states[j].hosts
    ensures OnDisk(r.states[j].history, m.term, k, r.states[j].hosts[m.leaderId].disk)
    ensures var log := r.states[j].history.reigns[m.term].log;
            && EndIndex(m) <= |log|
            && m.entries == log[m.prevLogIndex..EndIndex(m)]
  {
    RecordsGrow(ids, rule, r, i, j);
    CoreHolds(ids, rule, r, j);
    var h := r.states[j].history;
    assert PacketOK(ids, h, p) && ReignOK(ids, h, m.term) by {
      hide IsRun, HostOK, ReignOK, BallotOK;
    }
    RunHosts(ids, rule, r, j, m.leaderId);
    CreditsAreOnDisk(ids, rule, r, j);
    LeadersHaveAcknowledged(ids, rule, r, j);
    hide IsRun, CoreInv, CreditsOnDisk, OnDisk, ReignOK;
    CreditApplies(r.states[j], m.leaderId, m.term, k);
  }
}
