/** What every handler keeps whatever message arrives, well-formed or not, and the order
    in which every action list persists, sends and applies. */
module RoleStructure {
  import opened Protocol
  import opened RaftSteps
  import opened Runtime

  predicate RoleOK(s: RaftState) {
    && (s.role == Candidate <==> s.candidateState.Some?)
    && (s.role == Leader <==> s.leaderState.Some?)
    && VectorsFit(s)
    && (s.candidateState.Some? ==>
          var c := s.candidateState.value;
          && s.id in c.votesGranted
          && c.votesGranted <= c.votesReceived
          && c.votesReceived <= {s.id} + set p | p in s.peers)
    && (s.leaderState.Some? ==>
          forall i | 0 <= i < |s.peers| :: s.leaderState.value.nextIndex[i] >= 1)
  }

  /** The node is somewhere between `s` and `t` in one step. */
  predicate Advances(s: RaftState, t: RaftState) {
    && t.id == s.id && t.peers == s.peers
    && s.persistent.currentTerm <= t.persistent.currentTerm
    && (s.persistent.votedFor.Some? && s.persistent.currentTerm == t.persistent.currentTerm ==>
          t.persistent.votedFor == s.persistent.votedFor)
    // only a candidate wins, in the term of its candidacy; the lone node of a cluster
    // of one is candidate and leader in a single step
    && (t.role == Leader && s.role != Leader ==>
          || (s.role == Candidate && s.persistent.currentTerm == t.persistent.currentTerm)
          || (s.peers == [] && t.persistent.currentTerm == s.persistent.currentTerm + 1))
  }

  /** A node starts as a follower of nobody that has committed nothing. It remembers exactly
      what was saved: its term, its vote and its log. */
  lemma StartHasStructure(id: NodeId, peers: seq<NodeId>, p: PersistentState)
    ensures RoleOK(New(id, peers)) && RoleOK(Restore(id, peers, p))
    ensures Restore(id, peers, p).persistent == p
    ensures New(id, peers).persistent == PersistentState(0, None, [])
    ensures forall s | s in {New(id, peers), Restore(id, peers, p)} ::
              && s.id == id && s.peers == peers && s.role == Follower && s.knownLeader == None
              && s.volatile.commitIndex == 0 && s.volatile.lastApplied == 0
  {
  }

  lemma VotesKeepStructure(s: RaftState, m: RequestVote, r: RequestVoteResponse)
    requires RoleOK(s)
    ensures RoleOK(HandleRequestVote(s, m).state) && Advances(s, HandleRequestVote(s, m).state)
    ensures RoleOK(HandleVoteResponse(s, r).state) && Advances(s, HandleVoteResponse(s, r).state)
  {
  }

  lemma AppendsKeepStructure(rule: AckRule, s: RaftState, m: AppendEntries)
    requires RoleOK(s)
    ensures RoleOK(HandleAppendEntries(rule, s, m).state)
    ensures Advances(s, HandleAppendEntries(rule, s, m).state)
  {
  }

  lemma AppendRepliesKeepStructure(s: RaftState, m: AppendEntriesResponse)
    requires RoleOK(s)
    ensures RoleOK(HandleAppendEntriesResponse(s, m).state)
    ensures Advances(s, HandleAppendEntriesResponse(s, m).state)
  {
  }

  /** Role structure under any event with any message, and what one step may change. */
  lemma StepKeepsStructure(rule: AckRule, s: RaftState, event: Event)
    requires RoleOK(s)
    ensures RoleOK(Step(rule, s, event).state)
    ensures Advances(s, Step(rule, s, event).state)
  {
    match event
    case Receive(VoteRequest(m)) => VotesKeepStructure(s, m, RequestVoteResponse(0, false, 0));
    case Receive(VoteReply(m)) => VotesKeepStructure(s, RequestVote(0, 0, 0, 0), m);
    case Receive(Append(m)) => AppendsKeepStructure(rule, s, m);
    case Receive(AppendReply(m)) => AppendRepliesKeepStructure(s, m);
    case ElectionTimeout =>
    case HeartbeatTimeout =>
    case ClientRequest(command) =>
  }

  /** The state after any events with any messages, whether anybody sent them or not. */
  function AfterEvents(rule: AckRule, s: RaftState, events: seq<Event>): (t: RaftState)
    requires RoleOK(s)
    ensures RoleOK(t)
  {
    if events == [] then s
    else
      var before := AfterEvents(rule, s, events[..|events| - 1]);
      StepKeepsStructure(rule, before, events[|events| - 1]);
      Step(rule, before, events[|events| - 1]).state
  }

  /** The term never decreases and a vote is given up only for a later term. */
  lemma {:induction false} TermsAndVotesOnlyAdvance(rule: AckRule, s: RaftState,
                                                    events: seq<Event>, k: nat)
    requires RoleOK(s) && k <= |events|
    ensures var p, q := AfterEvents(rule, s, events[..k]).persistent,
                        AfterEvents(rule, s, events).persistent;
            && p.currentTerm <= q.currentTerm
            && (p.votedFor.Some? && p.currentTerm == q.currentTerm ==> q.votedFor == p.votedFor)
    decreases |events|
  {
    if k == |events| {
      assert events[..k] == events;
    } else {
      var n := |events| - 1;
      TermsAndVotesOnlyAdvance(rule, s, events[..n], k);
      assert events[..n][..k] == events[..k];
      StepKeepsStructure(rule, AfterEvents(rule, s, events[..n]), events[n]);
      hide Step, RoleOK;
    }
  }

  lemma {:induction false} ApplyBetweenApplies(log: Log, lo: LogIndex, hi: LogIndex)
    ensures forall a | a in ApplyBetween(log, lo, hi) :: a.ApplyCommand?
    decreases hi - lo
  {
    if lo >= hi {
    } else {
      ApplyBetweenApplies(log, lo + 1, hi);
    }
  }

  /** Nothing leaves the node before the state it rests on is on disk: when a list
      persists, every action in front of the `PersistState` only resets a timer. */
  lemma WriteAhead(rule: AckRule, s: RaftState, event: Event, k: nat)
    requires VectorsFit(s) && k <= |Step(rule, s, event).actions|
    ensures var actions := Step(rule, s, event).actions;
            Persists(actions) && !Persists(actions[..k]) ==>
              Sent(actions[..k]) == [] && Applied(actions[..k]) == []
  {
    var actions := Step(rule, s, event).actions;
    PersistComesFirst(rule, s, event);
    if k > 1 {
      assert actions[..k][0] == actions[0] && actions[..k][1] == actions[1];
    } else if k == 1 {
      assert actions[..1] == [actions[0]];
      assert actions[..1][..0] == [];
    }
  }

  lemma PersistComesFirst(rule: AckRule, s: RaftState, event: Event)
    requires VectorsFit(s)
    ensures var actions := Step(rule, s, event).actions;
            Persists(actions) ==>
              || actions[0] == PersistState
              || (|actions| > 1 && actions[1] == PersistState
                  && (actions[0].ResetElectionTimer? || actions[0].ResetHeartbeatTimer?))
  {
    match event
    case Receive(VoteRequest(m)) =>
    case Receive(VoteReply(m)) =>
    case Receive(Append(m)) =>
    case Receive(AppendReply(m)) =>
      var o := HandleAppendEntriesResponse(s, m);
      if o.actions != [] {
        OnlyApplies(s, m);
      }
    case ElectionTimeout =>
    case HeartbeatTimeout =>
    case ClientRequest(command) =>
  }

  lemma OnlyApplies(s: RaftState, m: AppendEntriesResponse)
    requires VectorsFit(s)
    ensures forall a | a in HandleAppendEntriesResponse(s, m).actions :: a.ApplyCommand?
  {
    var t := HandleAppendEntriesResponse(s, m).state;
    ApplyBetweenApplies(s.persistent.log, s.volatile.lastApplied, t.volatile.commitIndex);
  }

  /** What the disk is asked to hold is the state after the step, and a step that asks for
      nothing has not touched the log and has not cast a vote. */
  lemma UnsavedStepsAreHarmless(rule: AckRule, s: RaftState, event: Event)
    requires VectorsFit(s)
    ensures var o := Step(rule, s, event);
            var p, q := s.persistent, o.state.persistent;
            !Persists(o.actions) ==>
              && q.log == p.log
              && (q == p || (q.currentTerm > p.currentTerm && q.votedFor == None))
  {
    var o := Step(rule, s, event);
    match event
    case Receive(VoteRequest(m)) =>
      assert |o.actions| == 3 ==> o.actions[0] == PersistState;
    case Receive(VoteReply(m)) =>
    case Receive(Append(m)) =>
      assert |o.actions| >= 3 ==> o.actions[0] == PersistState;
    case Receive(AppendReply(m)) =>
    case ElectionTimeout =>
      if s.role != Leader { assert o.actions[1] == PersistState; }
    case HeartbeatTimeout =>
    case ClientRequest(command) =>
      if s.role == Leader { assert o.actions[1] == PersistState; }
  }
}
