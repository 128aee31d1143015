/** The safety properties that rest on acknowledgements. They hold in every honest run
    (`HonestRun`): no leader in office books a false success reply. */
module StateMachineSafety {
  import opened Protocol
  import opened RaftSteps
  import opened LogFacts
  import opened Runtime
  import opened Cluster
  import opened Histories
  import opened CoreInvariant
  import opened CoreSteps
  import opened Commitment
  import opened CommitInvariant
  import opened CommitSteps
  import opened Runs
  import opened Safety

  ghost predicate HonestRunTo(ids: seq<NodeId>, rule: AckRule, r: Run, i: nat) {
    Config(ids) && IsRun(ids, rule, r) && HonestRun(ids, rule, r) && i < |r.states|
  }

  function Committed(s: System, n: NodeId): Log
    requires n in s.hosts && s.hosts[n].raft.volatile.commitIndex <= |LogOf(s, n)|
  {
    LogOf(s, n)[..s.hosts[n].raft.volatile.commitIndex]
  }

  lemma HistoryInOrder(ids: seq<NodeId>, rule: AckRule, r: Run, i: nat)
    requires HonestRunTo(ids, rule, r, i)
    ensures HistoryOK(ids, r.states[i].history) && AcksOK(ids, r.states[i].history)
  {
    CoreHolds(ids, rule, r, i);
    CommitHolds(ids, rule, r, i);
    hide IsRun, HonestRun, HistoryOK, AcksOK, HostOK, HostHolds, PacketOK, PacketHolds, EmissionOK;
  }

  lemma HostCommitted(ids: seq<NodeId>, rule: AckRule, r: Run, i: nat, n: NodeId)
    requires HonestRunTo(ids, rule, r, i) && n in r.states[i].hosts
    ensures CommitOK(ids, r.states[i].history, r.states[i].hosts[n])
    ensures MatchOK(r.states[i].history, r.states[i].hosts[n].raft)
    ensures r.states[i].hosts[n].raft.volatile.commitIndex <= |LogOf(r.states[i], n)|
    ensures Safe(ids, r.states[i].history, r.states[i].hosts[n].raft.persistent.currentTerm,
                 Committed(r.states[i], n))
  {
    CommitHolds(ids, rule, r, i);
    assert HostHolds(ids, r.states[i].history, n, r.states[i].hosts[n]) by {
      hide IsRun, HonestRun, HostHolds, AcksOK;
    }
    hide IsRun, HonestRun, CommitInv, Safe, AcksHeld;
  }

  // ── exactly-once application ────────────────────────────────────────────────

  /** What a node has applied since its last start is exactly its log up to `lastApplied`,
      in order; nothing waits; and the store is the fold of those commands. */
  lemma ExactlyOnceInOrder(ids: seq<NodeId>, rule: AckRule, r: Run, i: nat, n: NodeId)
    requires HonestRunTo(ids, rule, r, i) && n in r.states[i].hosts
    ensures var host := r.states[i].hosts[n];
            var log, v := host.raft.persistent.log, host.raft.volatile;
            && v.lastApplied == v.commitIndex <= |log|
            && host.applied == Commands(log[..v.lastApplied])
            && host.store == ApplyAll(map[], Commands(log[..v.lastApplied]))
  {
    HostCommitted(ids, rule, r, i, n);
    hide HonestRunTo, Safe, MatchOK;
  }

  /** What a client reads from a node's map: for every key, the value of the last applied
      entry about it, or nothing if that deletes it or there is none. */
  lemma StoreHoldsLastWrites(ids: seq<NodeId>, rule: AckRule, r: Run, i: nat, n: NodeId,
                             key: string)
    requires HonestRunTo(ids, rule, r, i) && n in r.states[i].hosts
    ensures r.states[i].hosts[n].raft.volatile.lastApplied <= |LogOf(r.states[i], n)|
    ensures var host := r.states[i].hosts[n];
            var log, last := host.raft.persistent.log, host.raft.volatile.lastApplied;
            && ((forall j | 0 <= j < last :: log[j].command.op.key != key) ==> key !in host.store)
            && (forall k | 0 <= k < last && log[k].command.op.key == key
                           && (forall j | k < j < last :: log[j].command.op.key != key) ::
                  Lookup(host.store, key) == if log[k].command.op.Set?
                                             then Some(log[k].command.op.value) else None)
  {
    ExactlyOnceInOrder(ids, rule, r, i, n);
    hide HonestRunTo, ApplyAll;
    var log, last := LogOf(r.states[i], n), r.states[i].hosts[n].raft.volatile.lastApplied;
    var commands := Commands(log[..last]);
    assert forall j | 0 <= j < last :: commands[j] == log[j].command;
    if forall j | 0 <= j < last :: log[j].command.op.key != key {
      UntouchedKeyStays(map[], commands, key);
    }
    forall k | 0 <= k < last && log[k].command.op.key == key
               && (forall j | k < j < last :: log[j].command.op.key != key)
      ensures Lookup(r.states[i].hosts[n].store, key)
           == if log[k].command.op.Set? then Some(log[k].command.op.value) else None
    {
      LastCommandDecides(map[], commands, k);
    }
  }

  // ── leader completeness ─────────────────────────────────────────────────────

  /** Leader Completeness: what a leader has committed is in the log of every leader of
      every later term, in whatever states of the run the two are looked at. */
  lemma LaterLeadersAreComplete(ids: seq<NodeId>, rule: AckRule, r: Run, i: nat, j: nat,
                                a: NodeId, t: Term, b: NodeId, u: Term)
    requires HonestRunTo(ids, rule, r, i) && HonestRunTo(ids, rule, r, j)
    requires Leads(r.states[i], a, t) && Leads(r.states[j], b, u) && t < u
    ensures r.states[i].hosts[a].raft.volatile.commitIndex <= |LogOf(r.states[i], a)|
    ensures Committed(r.states[i], a) <= LogOf(r.states[j], b)
  {
    hide *;
    HonestRunMeans(ids, rule, r, i);
    HonestRunMeans(ids, rule, r, j);
    LeaderOnRecord(ids, rule, r, j, b, u);
    LeaderIsHost(r.states[i], a, t);
    HostCommitted(ids, rule, r, i, a);
    ReignInOrder(ids, rule, r, j, u);
    StartInLog(ids, r.states[j].history, u);
    var p := Committed(r.states[i], a);
    if i <= j {
      HistoryInOrder(ids, rule, r, j);
      HistoryAges(ids, rule, r, i, j);
      SafeSurvives(ids, r.states[i].history, r.states[j].history, t, p);
      SafeBeforeLeader(ids, r.states[j].history, t, p, u);
    } else {
      HistoryInOrder(ids, rule, r, i);
      HistoryAges(ids, rule, r, j, i);
      SameStart(r.states[j].history, r.states[i].history, u);
      SafeBeforeLeader(ids, r.states[i].history, t, p, u);
    }
  }

  lemma HonestRunMeans(ids: seq<NodeId>, rule: AckRule, r: Run, i: nat)
    requires HonestRunTo(ids, rule, r, i)
    ensures Config(ids) && IsRun(ids, rule, r) && HonestRun(ids, rule, r) && i < |r.states|
  {
  }

  lemma LeaderIsHost(s: System, n: NodeId, t: Term)
    requires Leads(s, n, t)
    ensures n in s.hosts && s.hosts[n].raft.persistent.currentTerm == t
  {
  }

  lemma ReignInOrder(ids: seq<NodeId>, rule: AckRule, r: Run, i: nat, t: Term)
    requires HonestRunTo(ids, rule, r, i) && t in r.states[i].history.reigns
    ensures ReignOK(ids, r.states[i].history, t)
  {
    HistoryInOrder(ids, rule, r, i);
    hide HonestRunTo, ReignOK, BallotOK, AcksOK;
  }

  lemma SameStart(h: History, h': History, t: Term)
    requires Ages(h, h') && t in h.reigns
    ensures t in h'.reigns && h'.reigns[t].start == h.reigns[t].start
  {
    assert SameOffice(h.reigns[t], h'.reigns[t]);
  }

  /** Later leaders start with everything committed in the terms before theirs. */
  lemma SafeBeforeLeader(ids: seq<NodeId>, h: History, t: Term, p: Log, u: Term)
    requires Config(ids) && HistoryOK(ids, h) && AcksOK(ids, h)
    requires Safe(ids, h, t, p) && t < u && u in h.reigns
    ensures p <= h.reigns[u].start
  {
    if p != [] {
      hide *;
      var t0, i := SafeWitness(ids, h, t, p);
      LeaderCompleteness(ids, h, t0, i, u);
    }
  }

  // ── committed prefixes ──────────────────────────────────────────────────────

  /** Whatever two nodes have committed, in any two states, the shorter is a prefix of the
      longer. */
  lemma CommittedPrefixesAgree(ids: seq<NodeId>, rule: AckRule, r: Run, i: nat, j: nat,
                               a: NodeId, b: NodeId)
    requires HonestRunTo(ids, rule, r, i) && HonestRunTo(ids, rule, r, j)
    requires a in r.states[i].hosts && b in r.states[j].hosts
    requires r.states[i].hosts[a].raft.volatile.commitIndex
          <= r.states[j].hosts[b].raft.volatile.commitIndex
    ensures r.states[i].hosts[a].raft.volatile.commitIndex <= |LogOf(r.states[i], a)|
    ensures r.states[j].hosts[b].raft.volatile.commitIndex <= |LogOf(r.states[j], b)|
    ensures Committed(r.states[i], a) <= Committed(r.states[j], b)
  {
    HostCommitted(ids, rule, r, i, a);
    HostCommitted(ids, rule, r, j, b);
    HistoryInOrder(ids, rule, r, i);
    HistoryInOrder(ids, rule, r, j);
    var p, q := Committed(r.states[i], a), Committed(r.states[j], b);
    var s, t := r.states[i].hosts[a].raft.persistent.currentTerm,
                r.states[j].hosts[b].raft.persistent.currentTerm;
    var h, h' := r.states[i].history, r.states[j].history;
    if i <= j { HistoryAges(ids, rule, r, i, j); } else { HistoryAges(ids, rule, r, j, i); }
    hide IsRun, HonestRun, HistoryOK, AcksOK, CommitOK, MatchOK, Safe, Ages, Config;
    if i <= j {
      SafeSurvives(ids, h, h', s, p);
      SafePrefixesAgree(ids, h', s, p, t, q);
    } else {
      SafeSurvives(ids, h', h, t, q);
      SafePrefixesAgree(ids, h, s, p, t, q);
    }
  }

  /** Between two starts of the process neither index ever decreases and nothing at or
      below the commit index is truncated. */
  lemma CommitsAreStable(ids: seq<NodeId>, rule: AckRule, r: Run, i: nat, j: nat, n: NodeId)
    requires HonestRunTo(ids, rule, r, j) && i <= j && n in ids
    requires forall k {:trigger r.labels[k]} | i <= k < j :: r.labels[k].node == n ==> r.labels[k].Exec?
    ensures n in r.states[i].hosts && n in r.states[j].hosts
    ensures var v, v' := r.states[i].hosts[n].raft.volatile, r.states[j].hosts[n].raft.volatile;
            && v.commitIndex <= v'.commitIndex && v.lastApplied <= v'.lastApplied
            && v.commitIndex <= |LogOf(r.states[i], n)| && v'.commitIndex <= |LogOf(r.states[j], n)|
            && Committed(r.states[i], n) <= LogOf(r.states[j], n)
  {
    assert HonestRunTo(ids, rule, r, i);
    RunHosts(ids, rule, r, i, n);
    RunHosts(ids, rule, r, j, n);
    AppliedGrows(ids, rule, r, i, j, n);
    ExactlyOnceInOrder(ids, rule, r, i, n);
    ExactlyOnceInOrder(ids, rule, r, j, n);
    hide HonestRunTo, ApplyAll;
    CommittedPrefixesAgree(ids, rule, r, i, j, n, n);
  }

  /** The handler by itself lets the commit index fall: exactly when a message it accepts
      announces more than the node has committed and ends below that. */
  lemma CommitFallsIff(rule: AckRule, s: RaftState, m: AppendEntries)
    ensures HandleAppendEntries(rule, s, m).state.volatile.commitIndex < s.volatile.commitIndex
       <==> Accepts(s, m) && LastNewIndex(m) < s.volatile.commitIndex < m.leaderCommit
  {
    AppendOutcome(rule, s, m);
    hide Reconcile, LastNewIndex, ApplyBetween, AckIndex;
  }

  /** Why it never does in a run: no request on the wire announces more than the
      log it vouches for. */
  lemma RequestsCoverCommit(ids: seq<NodeId>, rule: AckRule, r: Run, i: nat, p: Packet)
    requires HonestRunTo(ids, rule, r, i) && p in r.states[i].network && p.msg.Append?
    ensures p.msg.ae.leaderCommit <= EndIndex(p.msg.ae)
  {
    CommitHolds(ids, rule, r, i);
    hide IsRun, HonestRun, AcksOK, HostHolds, EmissionOK;
    assert PacketHolds(ids, r.states[i].history, p);
  }

  lemma {:induction false} AppliedGrows(ids: seq<NodeId>, rule: AckRule, r: Run, i: nat, j: nat,
                                        n: NodeId)
    requires IsRun(ids, rule, r) && i <= j < |r.states|
    requires forall k {:trigger r.labels[k]} | i <= k < j :: r.labels[k].node == n ==> r.labels[k].Exec?
    requires n in r.states[i].hosts && n in r.states[j].hosts
    ensures r.states[i].hosts[n].applied <= r.states[j].hosts[n].applied
    decreases j
  {
    if i == j {
    } else {
      RunMoves(ids, rule, r, j - 1);
      hide IsRun, Enabled, Step, Record, Packets, Emissions, ApplyAll, Applied;
      AppliedGrows(ids, rule, r, i, j - 1, n);
    }
  }

  // ── state machine safety ────────────────────────────────────────────────────

  /** State Machine Safety: no two nodes ever emit `ApplyCommand` with different commands
      for the same index. */
  lemma StateMachineSafety(ids: seq<NodeId>, rule: AckRule, r: Run, i: nat, j: nat,
                           d: Emission, e: Emission)
    requires HonestRunTo(ids, rule, r, i) && HonestRunTo(ids, rule, r, j)
    requires d in r.states[i].emitted && e in r.states[j].emitted && d.index == e.index
    ensures d.command == e.command
  {
    if j < i {
      StateMachineSafety(ids, rule, r, j, i, e, d);
    } else {
      RecordsGrow(ids, rule, r, i, j);
      CommitHolds(ids, rule, r, j);
      HistoryInOrder(ids, rule, r, j);
      var h := r.states[j].history;
      assert EmissionOK(ids, h, d) && EmissionOK(ids, h, e) by {
        hide IsRun, HonestRun, EmissionOK, AcksOK, HostHolds, PacketHolds;
      }
      hide *;
      EmissionsAgree(ids, h, d, e);
    }
  }

  lemma EmissionsAgree(ids: seq<NodeId>, h: History, d: Emission, e: Emission)
    requires Config(ids) && HistoryOK(ids, h) && AcksOK(ids, h)
    requires EmissionOK(ids, h, d) && EmissionOK(ids, h, e) && d.index == e.index
    ensures d.command == e.command
  {
    hide HistoryOK, AcksOK, Config, CommittedAt, Acked;
    var t: Term, i: nat :| CommittedAt(ids, h, t, i) && 1 <= d.index <= |Acked(h, t, i)|
                           && Acked(h, t, i)[d.index - 1].command == d.command;
    var u: Term, k: nat :| CommittedAt(ids, h, u, k) && 1 <= e.index <= |Acked(h, u, k)|
                           && Acked(h, u, k)[e.index - 1].command == e.command;
    CommittedAgree(ids, h, t, i, u, k, d.index - 1);
  }

  /** Any two nodes that have applied equally much, in any two states, restarts in between
      included, hold the same map. */
  lemma ReplicatedMapsAgree(ids: seq<NodeId>, rule: AckRule, r: Run, i: nat, j: nat,
                            a: NodeId, b: NodeId)
    requires HonestRunTo(ids, rule, r, i) && HonestRunTo(ids, rule, r, j)
    requires a in r.states[i].hosts && b in r.states[j].hosts
    requires r.states[i].hosts[a].raft.volatile.lastApplied
          == r.states[j].hosts[b].raft.volatile.lastApplied
    ensures r.states[i].hosts[a].store == r.states[j].hosts[b].store
  {
    ExactlyOnceInOrder(ids, rule, r, i, a);
    ExactlyOnceInOrder(ids, rule, r, j, b);
    hide HonestRunTo, ApplyAll, Commands;
    CommittedPrefixesAgree(ids, rule, r, i, j, a, b);
    assert Committed(r.states[i], a) == Committed(r.states[j], b);
  }

  // ── match index ─────────────────────────────────────────────────────────────

  lemma AcksAreHeld(ids: seq<NodeId>, rule: AckRule, r: Run, i: nat, n: NodeId)
    requires HonestRunTo(ids, rule, r, i) && n in r.states[i].hosts
    ensures AcksHeld(r.states[i].history, n, r.states[i].hosts[n].disk)
  {
    CommitHolds(ids, rule, r, i);
    assert HostHolds(ids, r.states[i].history, n, r.states[i].hosts[n]) by {
      hide IsRun, HonestRun, HostHolds, AcksOK;
    }
    hide IsRun, HonestRun, CommitInv, CommitOK, Holds;
  }

  lemma CreditIsHeld(ids: seq<NodeId>, h: History, u: NodeId, disk: PersistentState, t: Term, a: nat)
    requires AcksOK(ids, h) && AcksHeld(h, u, disk) && disk.currentTerm <= t && t in h.reigns
    requires a <= AckOf(h.acks, u, t)
    ensures a <= |h.reigns[t].log| && h.reigns[t].log[..a] <= disk.log
  {
    if a > 0 {
      assert AckOK(ids, h, Slot(u, t));
      HoldsApplies(h, u, t, disk.log, t, a);
    }
  }

  /** Match-index soundness: as long as a peer is in the leader's term (or has not heard of
      it), its log agrees with the leader's up to the index the leader credits it with. */
  lemma MatchIndexSoundness(ids: seq<NodeId>, rule: AckRule, r: Run, i: nat,
                            a: NodeId, t: Term, k: nat, u: NodeId)
    requires HonestRunTo(ids, rule, r, i) && Leads(r.states[i], a, t)
    requires VectorsFit(r.states[i].hosts[a].raft) && r.states[i].hosts[a].raft.leaderState.Some?
    requires k < |r.states[i].hosts[a].raft.peers| && r.states[i].hosts[a].raft.peers[k] == u
    requires u in r.states[i].hosts && r.states[i].hosts[u].raft.persistent.currentTerm <= t
    ensures var m := r.states[i].hosts[a].raft.leaderState.value.matchIndex[k];
            m <= |LogOf(r.states[i], a)| && LogOf(r.states[i], a)[..m] <= LogOf(r.states[i], u)
  {
    LeaderOnRecord(ids, rule, r, i, a, t);
    HostInOrder(ids, rule, r, i, a);
    LogShape(ids, rule, r, i, u, LogOf(r.states[i], u));
    HostCommitted(ids, rule, r, i, a);
    HistoryInOrder(ids, rule, r, i);
    AcksAreHeld(ids, rule, r, i, u);
    hide HonestRunTo, HistoryOK, AcksOK, AcksHeld, CommitOK, Safe, Shape, GoodLog;
    CreditIsHeld(ids, r.states[i].history, u, r.states[i].hosts[u].disk, t,
                 r.states[i].hosts[a].raft.leaderState.value.matchIndex[k]);
  }
}
