/** The node as the source writes it: an object whose handlers update its fields in
    place and return actions. Every handler is proved to compute the transition
    function of RaftSteps, its loops included. */
module RaftNode {
  import opened Protocol
  import opened RaftSteps

  lemma ApplyOneMore(log: Log, actions: seq<Action>, lo: LogIndex, hi: LogIndex)
    requires lo < hi
    ensures var next := Find(log, lo + 1);
            actions + ApplyBetween(log, lo, hi)
            == (if next.Some? then actions + [ApplyCommand(next.value.command)] else actions)
               + ApplyBetween(log, lo + 1, hi)
  {
  }

  lemma ApplyNoMore(log: Log, actions: seq<Action>, lo: LogIndex, hi: LogIndex)
    requires lo >= hi
    ensures actions + ApplyBetween(log, lo, hi) == actions
  {
  }

  class Raft {
    const id: NodeId
    const peers: seq<NodeId>
    var role: Role
    var knownLeader: Option<NodeId>
    var persistent: PersistentState
    var volatile: VolatileState
    var leaderState: Option<LeaderState>
    var candidateState: Option<CandidateState>

    function View(): (s: RaftState)
      reads this
    {
      RaftState(id, peers, role, knownLeader, persistent, volatile, leaderState, candidateState)
    }

    predicate Valid()
      reads this
    {
      VectorsFit(View())
    }

    constructor (id: NodeId, peers: seq<NodeId>)
      ensures Valid() && View() == New(id, peers)
    {
      this.id, this.peers := id, peers;
      role, knownLeader := Follower, None;
      persistent, volatile := FRESH_DISK, VolatileState(0, 0);
      leaderState, candidateState := None, None;
    }

    constructor Restored(id: NodeId, peers: seq<NodeId>, persistent: PersistentState)
      ensures Valid() && View() == Restore(id, peers, persistent)
    {
      this.id, this.peers := id, peers;
      role, knownLeader := Follower, None;
      this.persistent, volatile := persistent, VolatileState(0, 0);
      leaderState, candidateState := None, None;
    }

    method Step(event: Event) returns (actions: seq<Action>)
      requires Valid()
      modifies this
      ensures Outcome(View(), actions) == RaftSteps.Step(LastLogIndexRule, old(View()), event)
      ensures Valid()
    {
      match event
      case Receive(msg) => actions := HandleMessage(msg);
      case ElectionTimeout => actions := HandleElectionTimeout();
      case HeartbeatTimeout => actions := HandleHeartbeatTimeout();
      case ClientRequest(command) => actions := HandleClientRequest(command);
    }

    method HandleMessage(msg: Message) returns (actions: seq<Action>)
      requires Valid()
      modifies this
      ensures Outcome(View(), actions) == RaftSteps.Step(LastLogIndexRule, old(View()), Receive(msg))
      ensures Valid()
    {
      match msg
      case VoteRequest(m) => actions := HandleRequestVote(m);
      case VoteReply(m) => actions := HandleVoteResponse(m);
      case Append(m) => actions := HandleAppendEntries(m);
      case AppendReply(m) => actions := HandleAppendEntriesResponse(m);
    }

    // ── elections ─────────────────────────────────────────────────────────────

    method StepDown(term: Term)
      modifies this
      ensures View() == RaftSteps.StepDown(old(View()), term)
    {
      persistent := persistent.(currentTerm := term);
      role := Follower;
      persistent := persistent.(votedFor := None);
      candidateState := None;
      leaderState := None;
      knownLeader := None;
    }

    method HandleRequestVote(m: RequestVote) returns (actions: seq<Action>)
      requires Valid()
      modifies this
      ensures Outcome(View(), actions) == RaftSteps.HandleRequestVote(old(View()), m)
      ensures Valid()
    {
      if m.term > persistent.currentTerm {
        StepDown(m.term);
      }
      if m.term < persistent.currentTerm {
        return [VoteResponse(View(), m.candidateId, false)];
      }
      if persistent.votedFor.Some? && persistent.votedFor.value != m.candidateId {
        return [VoteResponse(View(), m.candidateId, false)];
      }
      if !UpToDate(m.lastLogTerm, m.lastLogIndex, persistent.log) {
        return [VoteResponse(View(), m.candidateId, false)];
      }
      persistent := persistent.(votedFor := Some(m.candidateId));
      actions := [PersistState, ResetElectionTimer, VoteResponse(View(), m.candidateId, true)];
    }

    method BecomeLeader()
      modifies this
      ensures View() == RaftSteps.BecomeLeader(old(View()))
      ensures Valid()
    {
      var next := LastLogIndex(persistent.log) + 1;
      role := Leader;
      knownLeader := Some(id);
      candidateState := None;
      leaderState := Some(LeaderState(seq(|peers|, _ => next), seq(|peers|, _ => 0)));
    }

    method HandleVoteResponse(m: RequestVoteResponse) returns (actions: seq<Action>)
      requires Valid()
      modifies this
      ensures Outcome(View(), actions) == RaftSteps.HandleVoteResponse(old(View()), m)
      ensures Valid()
    {
      if m.term > persistent.currentTerm {
        StepDown(m.term);
        return [];
      }
      if m.term < persistent.currentTerm || role != Candidate || m.voteFrom !in peers {
        return [];
      }
      if candidateState.None? {
        candidateState := Some(CandidateState({}, {}));
      }
      if m.voteFrom in candidateState.value.votesReceived {
        return [];
      }
      candidateState := Some(candidateState.value.(
        votesReceived := candidateState.value.votesReceived + {m.voteFrom}));
      if m.voteGranted {
        candidateState := Some(candidateState.value.(
          votesGranted := candidateState.value.votesGranted + {m.voteFrom}));
      }
      if |candidateState.value.votesGranted| < Quorum(|peers|) {
        return [];
      }
      BecomeLeader();
      actions := [ResetHeartbeatTimer];
    }

    method HandleElectionTimeout() returns (actions: seq<Action>)
      requires Valid()
      modifies this
      ensures Outcome(View(), actions) == RaftSteps.HandleElectionTimeout(old(View()))
      ensures Valid()
    {
      if role == Leader {
        return [];
      }
      role := Candidate;
      persistent := persistent.(currentTerm := persistent.currentTerm + 1);
      persistent := persistent.(votedFor := Some(id));
      leaderState := None;
      candidateState := Some(CandidateState({id}, {id}));
      if peers == [] {
        BecomeLeader();
        return [ResetHeartbeatTimer, PersistState];
      }
      var s := View();
      actions := [ResetElectionTimer, PersistState] +
                 seq(|peers|, i requires 0 <= i < |s.peers| => VoteAction(s, s.peers[i]));
    }

    // ── replication, follower side ────────────────────────────────────────────

    /** The loop over the new entries: truncate and extend the log in place. */
    method ReconcileLog(entries: Log)
      modifies this`persistent
      ensures persistent == old(persistent).(log := Reconcile(old(persistent.log), entries))
    {
      ghost var target := Reconcile(persistent.log, entries);
      var i := 0;
      var done := false;
      while i < |entries| && !done
        invariant 0 <= i <= |entries|
        invariant persistent == old(persistent).(log := persistent.log)
        invariant done ==> persistent.log == target
        invariant !done ==> persistent.log == old(persistent.log)
        invariant !done ==> Reconcile(persistent.log, entries[i..]) == target
        decreases |entries| - i, !done
      {
        assert entries[i..][1..] == entries[i + 1..];
        var position := Position(persistent.log, entries[i].index);
        if position.Some? && persistent.log[position.value].term != entries[i].term {
          persistent := persistent.(log := persistent.log[..position.value]);
          persistent := persistent.(log := persistent.log + entries[i..]);
          done := true;
        } else if position.None? {
          persistent := persistent.(log := persistent.log + entries[i..]);
          done := true;
        } else {
          i := i + 1;
        }
      }
    }

    method HandleAppendEntries(m: AppendEntries) returns (actions: seq<Action>)
      requires Valid()
      modifies this
      ensures Outcome(View(), actions)
           == RaftSteps.HandleAppendEntries(LastLogIndexRule, old(View()), m)
      ensures Valid()
    {
      if m.term > persistent.currentTerm {
        StepDown(m.term);
      }
      if m.term < persistent.currentTerm {
        return [AppendResponse(View(), m.leaderId, false, 0)];
      }
      if role == Candidate {
        role := Follower;
        candidateState := None;
      }
      if !LogMatches(persistent.log, m.prevLogIndex, m.prevLogTerm) {
        return [AppendResponse(View(), m.leaderId, false, 0)];
      }
      knownLeader := Some(m.leaderId);
      ReconcileLog(m.entries);
      if m.leaderCommit > volatile.commitIndex {
        volatile := volatile.(commitIndex := Min(m.leaderCommit, LastNewIndex(m)));
      }
      var applied := ApplyCommittedEntries();
      actions := [PersistState, ResetElectionTimer,
                  AppendResponse(View(), m.leaderId, true, LastLogIndex(persistent.log))];
      actions := actions + applied;
    }

    method ApplyCommittedEntries() returns (actions: seq<Action>)
      modifies this`volatile
      ensures Outcome(View(), actions) == ApplyCommitted(old(View()))
    {
      ghost var log, first, last := persistent.log, volatile.lastApplied, volatile.commitIndex;
      ghost var whole := ApplyBetween(log, first, last);
      hide ApplyBetween, Find;
      actions := [];
      assert actions + ApplyBetween(log, first, last) == whole;
      while volatile.lastApplied < volatile.commitIndex
        invariant volatile.commitIndex == last
        invariant first <= volatile.lastApplied
        invariant volatile.lastApplied == first || volatile.lastApplied <= last
        invariant actions + ApplyBetween(log, volatile.lastApplied, last) == whole
      {
        ApplyOneMore(log, actions, volatile.lastApplied, last);
        volatile := volatile.(lastApplied := volatile.lastApplied + 1);
        var target := volatile.lastApplied;
        var entry := Find(persistent.log, target);
        if entry.Some? {
          actions := actions + [ApplyCommand(entry.value.command)];
        }
      }
      ApplyNoMore(log, actions, volatile.lastApplied, last);
    }

    // ── replication, leader side ──────────────────────────────────────────────

    method HandleAppendEntriesResponse(m: AppendEntriesResponse) returns (actions: seq<Action>)
      requires Valid()
      modifies this
      ensures Outcome(View(), actions) == RaftSteps.HandleAppendEntriesResponse(old(View()), m)
      ensures Valid()
    {
      if m.term > persistent.currentTerm {
        StepDown(m.term);
        return [];
      }
      if m.term < persistent.currentTerm || role != Leader {
        return [];
      }
      var position := PeerPosition(peers, m.from);
      if position.None? || leaderState.None? {
        return [];
      }
      var i := position.value;
      var ls := leaderState.value;
      if !m.success {
        leaderState := Some(ls.(nextIndex := ls.nextIndex[i := BackUp(ls.nextIndex[i])]));
        return [];
      }
      if m.matchIndex > ls.matchIndex[i] {
        ls := ls.(matchIndex := ls.matchIndex[i := m.matchIndex]);
        ls := ls.(nextIndex := ls.nextIndex[i := m.matchIndex + 1]);
        leaderState := Some(ls);
      }
      actions := TryAdvanceCommitIndex();
    }

    /** The scan from the top of the log down to the first index to commit. */
    method TryAdvanceCommitIndex() returns (actions: seq<Action>)
      modifies this`volatile
      ensures Outcome(View(), actions) == TryAdvanceCommit(old(View()))
    {
      var currentTerm := persistent.currentTerm;
      var currentCommit := volatile.commitIndex;
      var quorum := Quorum(|peers|);
      var matches := if leaderState.Some? then leaderState.value.matchIndex else [];
      var newCommit := currentCommit;
      ghost var target := CommitScan(persistent.log, currentCommit, currentTerm, matches, quorum);
      var k := |persistent.log|;
      assert persistent.log[..k] == persistent.log;
      while k > 0
        invariant 0 <= k <= |persistent.log|
        invariant newCommit == currentCommit
        invariant CommitScan(persistent.log[..k], currentCommit, currentTerm, matches, quorum)
               == target
      {
        k := k - 1;
        var entry := persistent.log[k];
        assert persistent.log[..k + 1][..k] == persistent.log[..k];
        if entry.index <= currentCommit {
          break;
        }
        if entry.term == currentTerm {
          var replicated := 1 + CountAtLeast(matches, entry.index);
          if replicated >= quorum {
            newCommit := entry.index;
            break;
          }
        }
      }
      assert newCommit == target;
      if newCommit > volatile.commitIndex {
        volatile := volatile.(commitIndex := newCommit);
      }
      actions := ApplyCommittedEntries();
    }

    method HandleHeartbeatTimeout() returns (actions: seq<Action>)
      requires Valid()
      ensures Outcome(View(), actions) == RaftSteps.HandleHeartbeatTimeout(View())
    {
      if role != Leader {
        return [];
      }
      actions := [ResetHeartbeatTimer];
      for i := 0 to |peers|
        invariant |actions| == i + 1 && actions[0] == ResetHeartbeatTimer
        invariant forall j | 0 <= j < i :: actions[j + 1] == AppendEntriesForPeer(View(), j)
      {
        actions := actions + [AppendEntriesForPeer(View(), i)];
      }
      assert actions == RaftSteps.HandleHeartbeatTimeout(View()).actions;
    }

    method HandleClientRequest(command: Command) returns (actions: seq<Action>)
      requires Valid()
      modifies this
      ensures Outcome(View(), actions) == RaftSteps.HandleClientRequest(old(View()), command)
      ensures Valid()
    {
      if role != Leader {
        return [NotLeader(knownLeader)];
      }
      var index := LastLogIndex(persistent.log) + 1;
      var term := persistent.currentTerm;
      persistent := persistent.(log := persistent.log + [LogEntry(term, index, command)]);
      actions := [ResetHeartbeatTimer, PersistState];
      if peers == [] {
        var applied := TryAdvanceCommitIndex();
        actions := actions + applied;
      }
    }
  }
}
