/** Every handler keeps the commit invariant, as long as success replies are honest. */
module CommitSteps {
  import opened Protocol
  import opened RaftSteps
  import opened LogFacts
  import opened Runtime
  import opened RoleStructure
  import opened Cluster
  import opened Quorums
  import opened Histories
  import opened CoreInvariant
  import opened CoreSteps
  import opened Commitment
  import opened CommitInvariant

  // ── steps that change no history ────────────────────────────────────────────

  lemma IdleRecord(ids: seq<NodeId>, h: History, n: NodeId, host: Host, post: RaftState)
    requires HistoryOK(ids, h) && HostOK(ids, h, n, host) && MatchOK(h, host.raft)
    requires post.persistent.votedFor.Some? ==> Slot(n, post.persistent.currentTerm) in h.ballots
    requires post.role == Leader ==>
               host.raft.role == Leader && post.persistent == host.raft.persistent
    ensures Record(ids, h, n, post, None) == h
  {
    NothingToRecord(ids, h, n, host, post, None);
    hide HistoryOK, GoodLog, VotesOK, DiskOK;
    assert RecordAck(h, n, post, None) == h.acks;
  }

  lemma IdleStep(ids: seq<NodeId>, h: History, n: NodeId, host: Host, o: Outcome)
    requires AcksOK(ids, h)
    requires Record(ids, h, n, o.state, None) == h
    requires HostHolds(ids, h, n, After(host, o))
    requires forall p | p in Sent(o.actions) :: PacketHolds(ids, h, p)
    ensures StepHolds(ids, h, n, host, o, Record(ids, h, n, o.state, None))
  {
    hide AcksOK, HostHolds, PacketHolds;
  }

  lemma CommitSame(ids: seq<NodeId>, h: History, host: Host, o: Outcome)
    requires CommitOK(ids, h, host)
    requires o.state.volatile == host.raft.volatile
    requires o.state.persistent.log == host.raft.persistent.log
    requires o.state.persistent.currentTerm >= host.raft.persistent.currentTerm
    requires Applied(o.actions) == []
    ensures CommitOK(ids, h, After(host, o))
  {
    hide Safe;
    SafeLater(ids, h, host.raft.persistent.currentTerm, o.state.persistent.currentTerm,
              host.raft.persistent.log[..host.raft.volatile.commitIndex]);
    assert host.applied + [] == host.applied;
  }

  /** A step without effect on disk, log, commit index and match indices. */
  lemma PassiveStep(ids: seq<NodeId>, h: History, n: NodeId, host: Host, o: Outcome)
    requires HistoryOK(ids, h) && HostOK(ids, h, n, host)
    requires AcksOK(ids, h) && HostHolds(ids, h, n, host)
    requires !Persists(o.actions) && Applied(o.actions) == []
    requires o.state.volatile == host.raft.volatile
    requires o.state.persistent.log == host.raft.persistent.log
    requires o.state.persistent.currentTerm >= host.raft.persistent.currentTerm
    requires o.state.persistent.votedFor.Some? ==>
               Slot(n, o.state.persistent.currentTerm) in h.ballots
    requires o.state.role == Leader ==> o.state == host.raft
    requires forall p | p in Sent(o.actions) :: PacketHolds(ids, h, p)
    ensures StepHolds(ids, h, n, host, o, Record(ids, h, n, o.state, None))
  {
    IdleRecord(ids, h, n, host, o.state);
    CommitSame(ids, h, host, o);
    hide HistoryOK, HostOK, AcksOK, CommitOK, AcksHeld, PacketHolds, Record, StepHolds;
    IdleStep(ids, h, n, host, o);
  }

  lemma AppliedOne(a: Action)
    requires !a.ApplyCommand?
    ensures Applied([a]) == [] && Applied([]) == []
  {
    assert [a][..0] == [];
  }

  lemma RejectedVoteHolds(ids: seq<NodeId>, h: History, n: NodeId, host: Host, m: RequestVote)
    requires HistoryOK(ids, h) && HostOK(ids, h, n, host)
    requires AcksOK(ids, h) && HostHolds(ids, h, n, host)
    requires |HandleRequestVote(host.raft, m).actions| == 1
    ensures var o := HandleRequestVote(host.raft, m);
            StepHolds(ids, h, n, host, o, Record(ids, h, n, o.state, None))
  {
    var o := HandleRequestVote(host.raft, m);
    JoinedOK(ids, h, n, host, m.term);
    assert o.state == Joined(host.raft, m.term);
    assert o.actions == [VoteResponse(o.state, m.candidateId, false)];
    SentOne(o.actions[0].to, o.actions[0].msg);
    AppliedOne(o.actions[0]);
    if o.state.persistent.votedFor.Some? {
      VoteOnRecord(ids, h, n, host.(raft := o.state));
    }
    hide HandleRequestVote, HistoryOK, HostOK, AcksOK, HostHolds, Record, StepHolds;
    PassiveStep(ids, h, n, host, o);
  }

  // ── votes ───────────────────────────────────────────────────────────────────

  lemma RaiseHolds(h: History, h': History, n: NodeId, a: int, b: int, log: Log)
    requires Grows(h, h', n) && h'.acks == h.acks && h'.reigns == h.reigns
    requires Holds(h, n, a, log) && a <= b
    requires forall t: Term | Slot(n, t) in h.acks :: t <= a
    ensures Holds(h', n, b, log)
  {
    forall t: Term, i: nat | t <= b && Slot(n, t) in h'.acks && i <= h'.acks[Slot(n, t)]
                             && Keeps(h', Acked(h', t, i), t, b)
      ensures Acked(h', t, i) <= log
    {
      assert Acked(h', t, i) == Acked(h, t, i);
      assert Keeps(h, Acked(h, t, i), t, a);
    }
  }

  /** A vote cast before the term has a leader carries everything acknowledged before. */
  lemma NewBallotHolds(ids: seq<NodeId>, h: History, h': History, n: NodeId, t: Term, b: Ballot,
                       disk: PersistentState)
    requires HistoryOK(ids, h) && AcksHeld(h, n, disk) && disk.log == b.log
    requires disk.currentTerm <= t && Slot(n, t) !in h.ballots
    requires h'.acks == h.acks && h'.reigns == h.reigns
    requires h'.ballots == h.ballots[Slot(n, t) := b] && Grows(h, h', n)
    requires 1 <= t
    ensures BallotHolds(h', Slot(n, t))
  {
    if t in h.reigns {
      assert ReignOK(ids, h, t);
      assert n in h.reigns[t].electors ==> Voted(h, n, t, h.reigns[t].leader);
    } else {
      assert disk.currentTerm < t;
      RaiseHolds(h, h', n, disk.currentTerm, t - 1, b.log);
    }
  }

  /** The history as a whole survives a step of `n` in term `t`. */
  lemma AcksSurvive(ids: seq<NodeId>, h: History, h': History, n: NodeId, t: Term)
    requires Later(h, h', n, t) && AcksOK(ids, h)
    requires forall k | k in h.ballots && k.node == n :: k.term <= t
    requires Slot(n, t) in h'.acks && h'.acks != h.acks ==> AckOK(ids, h', Slot(n, t))
    requires forall k | k in h'.ballots && k !in h.ballots :: BallotHolds(h', k)
    ensures AcksOK(ids, h')
  {
    forall k | k in h'.acks ensures AckOK(ids, h', k) {
      if k in h.acks && h'.acks[k] == h.acks[k] {
        assert AckOK(ids, h, k);
        assert SameOffice(h.reigns[k.term], h'.reigns[k.term]);
      }
    }
    forall k | k in h'.ballots ensures BallotHolds(h', k) {
      if k in h.ballots {
        assert BallotHolds(h, k);
        if Holds(h, k.node, k.term - 1, h.ballots[k].log) {
          HoldsSurvives(ids, h, h', n, t, k.node, k.term - 1, h.ballots[k].log);
        } else {
          assert SameOffice(h.reigns[k.term], h'.reigns[k.term]);
        }
      }
    }
  }

  lemma BallotsUpTo(ids: seq<NodeId>, h: History, n: NodeId, host: Host, t: Term)
    requires HostOK(ids, h, n, host) && t >= host.disk.currentTerm
    ensures forall k | k in h.ballots && k.node == n :: k.term <= t
  {
    forall k | k in h.ballots && k.node == n ensures k.term <= t {
      assert k == Slot(n, k.term);
    }
  }

  lemma HeldAfterVote(h: History, h': History, n: NodeId, disk: PersistentState,
                      disk': PersistentState)
    requires AcksHeld(h, n, disk) && disk'.log == disk.log
    requires disk.currentTerm <= disk'.currentTerm
    requires Grows(h, h', n) && h'.acks == h.acks && h'.reigns == h.reigns
    requires Slot(n, disk'.currentTerm) in h'.ballots
    ensures AcksHeld(h', n, disk')
  {
    RaiseHolds(h, h', n, disk.currentTerm, disk'.currentTerm, disk.log);
  }

  /** A saved vote, for itself or for another: the log stays, the term may rise. */
  lemma VoteHolds(ids: seq<NodeId>, h: History, h': History, n: NodeId, host: Host, o: Outcome)
    requires HistoryOK(ids, h) && HostOK(ids, h, n, host)
    requires AcksOK(ids, h) && HostHolds(ids, h, n, host)
    requires Persists(o.actions) && Applied(o.actions) == []
    requires o.state.volatile == host.raft.volatile && o.state.role != Leader
    requires o.state.persistent.log == host.disk.log
    requires o.state.persistent.currentTerm >= Max(1, host.raft.persistent.currentTerm)
    requires var slot := Slot(n, o.state.persistent.currentTerm);
             && slot in h'.ballots
             && h'.acks == h.acks && h'.reigns == h.reigns && Grows(h, h', n)
             && (slot !in h.ballots ==>
                   h'.ballots == h.ballots[slot := h'.ballots[slot]]
                   && h'.ballots[slot].log == host.disk.log)
             && (slot in h.ballots ==> h'.ballots == h.ballots)
    requires forall p | p in Sent(o.actions) :: !p.msg.Append? && !p.msg.AppendReply?
    ensures StepHolds(ids, h, n, host, o, h')
  {
    hide *;
    var t := o.state.persistent.currentTerm;
    MaxIsAtLeastBoth(1, host.raft.persistent.currentTerm);
    DiskBehindMemory(ids, h, n, host);
    HostHoldsParts(ids, h, n, host);
    BallotsUpTo(ids, h, n, host, t);
    if Slot(n, t) !in h.ballots {
      NewBallotHolds(ids, h, h', n, t, h'.ballots[Slot(n, t)], host.disk);
    }
    HeldAfterVote(h, h', n, host.disk, o.state.persistent);
    CommitSame(ids, h, host, o);
    SameAcksLater(h, h', n, t);
    AcksSurvive(ids, h, h', n, t);
    CommitSurvives(ids, h, h', n, t, After(host, o));
    FollowerMatches(h', o.state);
    forall p | p in Sent(o.actions) ensures PacketHolds(ids, h', p) {
      NoAppendHolds(ids, h', p);
    }
    SavedHolds(ids, h, h', n, host, o);
  }

  lemma MaxIsAtLeastBoth(a: nat, b: nat)
    ensures a <= Max(a, b) && b <= Max(a, b)
  {
  }

  lemma DiskBehindMemory(ids: seq<NodeId>, h: History, n: NodeId, host: Host)
    requires HostOK(ids, h, n, host)
    ensures host.disk.currentTerm <= host.raft.persistent.currentTerm
    ensures host.raft.persistent.log == host.disk.log
  {
  }

  lemma SameAcksLater(h: History, h': History, n: NodeId, t: Term)
    requires Grows(h, h', n) && h'.acks == h.acks
    ensures Later(h, h', n, t)
  {
  }

  lemma NoAppendHolds(ids: seq<NodeId>, h: History, p: Packet)
    requires !p.msg.Append?
    ensures PacketHolds(ids, h, p)
  {
  }

  lemma GrantHolds(ids: seq<NodeId>, h: History, n: NodeId, host: Host, m: RequestVote)
    requires HistoryOK(ids, h) && HostOK(ids, h, n, host) && n in ids
    requires AcksOK(ids, h) && HostHolds(ids, h, n, host)
    requires PacketOK(ids, h, Packet(n, VoteRequest(m)))
    requires |HandleRequestVote(host.raft, m).actions| != 1
    ensures var o := HandleRequestVote(host.raft, m);
            StepHolds(ids, h, n, host, o, Record(ids, h, n, o.state, None))
  {
    var o := HandleRequestVote(host.raft, m);
    var h' := Record(ids, h, n, o.state, None);
    GrantOutcome(host.raft, m);
    GrantRecords(ids, h, n, host, m);
    GrantFacts(ids, h, n, host, m);
    hide *;
    VoteHolds(ids, h, h', n, host, o);
  }

  lemma GrantFacts(ids: seq<NodeId>, h: History, n: NodeId, host: Host, m: RequestVote)
    requires HistoryOK(ids, h) && HostOK(ids, h, n, host)
    requires PacketOK(ids, h, Packet(n, VoteRequest(m)))
    requires |HandleRequestVote(host.raft, m).actions| != 1
    requires HandleRequestVote(host.raft, m).state.role == Follower
    ensures var o := HandleRequestVote(host.raft, m);
            var slot, h' := Slot(n, m.term), Record(ids, h, n, o.state, None);
            && Persists(o.actions) && Applied(o.actions) == []
            && o.state.volatile == host.raft.volatile
            && o.state.persistent.log == host.disk.log
            && o.state.persistent.currentTerm == m.term >= host.raft.persistent.currentTerm
            && 1 <= m.term
            && h'.acks == h.acks
            && (if slot in h.ballots then h'.ballots == h.ballots
                else h'.ballots == h.ballots[slot := Ballot(m.candidateId, host.disk.log)])
            && (forall p | p in Sent(o.actions) :: !p.msg.Append? && !p.msg.AppendReply?)
  {
    var o := HandleRequestVote(host.raft, m);
    GrantOutcome(host.raft, m);
    assert BallotOK(ids, h, Slot(m.candidateId, m.term));
    assert o.actions[0] == PersistState;
    hide HandleRequestVote;
    AppliedNothing(o.actions);
    forall p | p in Sent(o.actions) ensures p.msg.VoteReply? {
      SentIffSend(o.actions, p);
    }
  }

  lemma CandidacyHolds(ids: seq<NodeId>, h: History, n: NodeId, host: Host, o: Outcome)
    requires Distinct(ids) && n in ids && HistoryOK(ids, h) && HostOK(ids, h, n, host)
    requires AcksOK(ids, h) && HostHolds(ids, h, n, host)
    requires host.raft.role != Leader && o.state == Standing(host.raft)
    requires Persists(o.actions) && Applied(o.actions) == []
    requires forall p | p in Sent(o.actions) :: p.msg.VoteRequest?
    ensures StepHolds(ids, h, n, host, o, WithBallot(h, n, o.state.persistent.currentTerm,
                                                     host.disk.log))
  {
    hide *;
    var t := o.state.persistent.currentTerm;
    CandidacyRecords(ids, h, n, host);
    NextTerm(host.raft);
    StandingFacts(ids, h, n, host);
    StandingKeepsVolatile(host.raft);
    WithBallotIs(h, n, t, host.disk.log);
    MaxIsAtLeast(1, host.raft.persistent.currentTerm, t);
    VoteHolds(ids, h, WithBallot(h, n, t, host.disk.log), n, host, o);
  }

  lemma MaxIsAtLeast(a: nat, b: nat, c: nat)
    ensures c >= a && c >= b ==> c >= Max(a, b)
  {
  }

  lemma StandingKeepsVolatile(s: RaftState)
    ensures Standing(s).volatile == s.volatile
  {
  }

  lemma WithBallotIs(h: History, n: NodeId, t: Term, log: Log)
    ensures var h1 := WithBallot(h, n, t, log);
            && h1.acks == h.acks && h1.reigns == h.reigns
            && h1.ballots == h.ballots[Slot(n, t) := Ballot(n, log)]
  {
  }

  lemma StandingActions(s: RaftState)
    requires s.role != Leader && s.peers != []
    ensures var o := HandleElectionTimeout(s);
            && Persists(o.actions) && Applied(o.actions) == []
            && (forall p | p in Sent(o.actions) :: p.msg.VoteRequest?)
  {
    var o := HandleElectionTimeout(s);
    assert o.actions[1] == PersistState;
    AppliedNothing(o.actions);
    forall p | p in Sent(o.actions) ensures p.msg.VoteRequest? {
      SentIffSend(o.actions, p);
    }
  }

  lemma ElectionWithPeersHolds(ids: seq<NodeId>, h: History, n: NodeId, host: Host)
    requires Distinct(ids) && n in ids && HistoryOK(ids, h) && HostOK(ids, h, n, host)
    requires AcksOK(ids, h) && HostHolds(ids, h, n, host)
    requires host.raft.role != Leader && host.raft.peers != []
    ensures var o := HandleElectionTimeout(host.raft);
            StepHolds(ids, h, n, host, o, Record(ids, h, n, o.state, None))
  {
    hide *;
    var o := HandleElectionTimeout(host.raft);
    StandingOutcome(host.raft);
    NextTerm(host.raft);
    CandidacyRecords(ids, h, n, host);
    StandingFacts(ids, h, n, host);
    StandingActions(host.raft);
    CandidacyHolds(ids, h, n, host, o);
  }

  // ── winning ─────────────────────────────────────────────────────────────────

  /** A leader holds its own log, and the term of its reign adds nothing to lose. */
  lemma LeaderHolds(ids: seq<NodeId>, h: History, h': History, n: NodeId, t0: Term,
                    log: Log, log': Log)
    requires Later(h, h', n, t0) && AcksOK(ids, h) && Holds(h, n, t0, log) && log <= log'
    requires t0 in h'.reigns && h'.reigns[t0].log == log'
    ensures Holds(h', n, t0, log')
  {
    forall t: Term, i: nat | t <= t0 && Slot(n, t) in h'.acks && i <= h'.acks[Slot(n, t)]
                             && Keeps(h', Acked(h', t, i), t, t0)
      ensures Acked(h', t, i) <= log'
    {
      if t != t0 {
        assert AckOK(ids, h, Slot(n, t));
        AckedSurvives(h, h', n, t, i);
        KeepsWeakens(h, h', n, Acked(h, t, i), t, t0);
      }
    }
  }

  lemma FreshLeaderMatches(h: History, s: RaftState)
    requires var post := BecomeLeader(s);
             var slot := Slot(s.id, s.persistent.currentTerm);
             slot in h.acks && h.acks[slot] == |s.persistent.log|
    ensures MatchOK(h, BecomeLeader(s))
  {
  }

  /** The history and the host when a candidate takes office. */
  lemma InaugurationHolds(ids: seq<NodeId>, h: History, h': History, n: NodeId, host: Host,
                          post: RaftState)
    requires HostOK(ids, h, n, host) && host.raft.role == Candidate
    requires AcksOK(ids, h) && HostHolds(ids, h, n, host)
    requires post.persistent == host.raft.persistent == host.disk
    requires post.volatile == host.raft.volatile && MatchOK(h', post) && n in ids
    requires var t := host.disk.currentTerm;
             && t !in h.reigns && Grows(h, h', n) && h'.ballots == h.ballots
             && t in h'.reigns && h'.reigns[t].log == host.disk.log
             && h'.acks == h.acks[Slot(n, t) := |host.disk.log|]
    ensures Later(h, h', n, host.disk.currentTerm) && AcksOK(ids, h')
    ensures HostHolds(ids, h', n, host.(raft := post))
  {
    var t := host.disk.currentTerm;
    BallotsUpTo(ids, h, n, host, t);
    hide HostOK;
    forall k | k in h.acks ensures k.term in h.reigns {
      assert AckOK(ids, h, k);
    }
    assert Later(h, h', n, t);
    AcksSurvive(ids, h, h', n, t);
    LeaderHolds(ids, h, h', n, t, host.disk.log, host.disk.log);
    CommitSurvives(ids, h, h', n, t, host);
    hide AcksOK, MatchOK, Later, Holds, Safe;
    assert AcksHeld(h', n, host.disk);
    assert CommitOK(ids, h', host.(raft := post));
  }

  lemma VoteReplyHolds(ids: seq<NodeId>, h: History, n: NodeId, host: Host,
                       m: RequestVoteResponse)
    requires Config(ids) && n in ids && HistoryOK(ids, h) && HostOK(ids, h, n, host)
    requires AcksOK(ids, h) && HostHolds(ids, h, n, host)
    requires PacketOK(ids, h, Packet(n, VoteReply(m)))
    ensures var o := HandleVoteResponse(host.raft, m);
            StepHolds(ids, h, n, host, o, Record(ids, h, n, o.state, None))
  {
    hide *;
    VoteReplyOutcome(ids, h, n, host, m);
    SentNothing();
    AppliedOne(ResetHeartbeatTimer);
    if WonBy(host.raft, m) {
      WinHolds(ids, h, n, host, m);
    } else {
      QuietReplyHolds(ids, h, n, host, m);
    }
  }

  lemma QuietReplyHolds(ids: seq<NodeId>, h: History, n: NodeId, host: Host,
                        m: RequestVoteResponse)
    requires HistoryOK(ids, h) && HostOK(ids, h, n, host)
    requires AcksOK(ids, h) && HostHolds(ids, h, n, host)
    requires PacketOK(ids, h, Packet(n, VoteReply(m))) && !WonBy(host.raft, m)
    ensures var o := HandleVoteResponse(host.raft, m);
            StepHolds(ids, h, n, host, o, Record(ids, h, n, o.state, None))
  {
    var o := HandleVoteResponse(host.raft, m);
    VoteReplyOutcome(ids, h, n, host, m);
    VoteReplyQuiet(ids, h, n, host, m);
    if o.state.persistent.votedFor.Some? { VoteOnRecord(ids, h, n, host.(raft := o.state)); }
    assert o.state.volatile == host.raft.volatile;
    assert o.state.persistent.log == host.raft.persistent.log;
    assert o.state.persistent.currentTerm >= host.raft.persistent.currentTerm;
    hide *;
    SentNothing();
    AppliedOne(ResetHeartbeatTimer);
    PassiveStep(ids, h, n, host, o);
  }

  lemma WinOutcome(ids: seq<NodeId>, h: History, n: NodeId, host: Host, m: RequestVoteResponse)
    requires HostOK(ids, h, n, host) && WonBy(host.raft, m)
    ensures var post := HandleVoteResponse(host.raft, m).state;
            && post.volatile == host.raft.volatile
            && post == BecomeLeader(post.(role := Candidate))
  {
    VoteReplyOutcome(ids, h, n, host, m);
  }

  lemma WinHolds(ids: seq<NodeId>, h: History, n: NodeId, host: Host, m: RequestVoteResponse)
    requires Config(ids) && n in ids && HistoryOK(ids, h) && HostOK(ids, h, n, host)
    requires AcksOK(ids, h) && HostHolds(ids, h, n, host)
    requires PacketOK(ids, h, Packet(n, VoteReply(m))) && WonBy(host.raft, m)
    ensures var o := HandleVoteResponse(host.raft, m);
            StepHolds(ids, h, n, host, o, Record(ids, h, n, o.state, None))
  {
    hide *;
    var o := HandleVoteResponse(host.raft, m);
    var h' := Record(ids, h, n, o.state, None);
    VoteReplyOutcome(ids, h, n, host, m);
    WinOutcome(ids, h, n, host, m);
    CandidateFacts(ids, h, n, host);
    CountedVotesAreBallots(ids, h, n, host, m);
    ElectionRecords(ids, h, n, o.state, GrantsAfter(host.raft, m));
    FreshLeaderMatches(h', o.state.(role := Candidate));
    InaugurationHolds(ids, h, h', n, host, o.state);
    SentNothing();
    AppliedOne(ResetHeartbeatTimer);
    SilentStep(ids, h, h', n, host, o);
  }

  /** A step that neither saves, nor sends, nor applies anything. */
  lemma SilentStep(ids: seq<NodeId>, h: History, h': History, n: NodeId, host: Host, o: Outcome)
    requires !Persists(o.actions) && Sent(o.actions) == [] && Applied(o.actions) == []
    requires Later(h, h', n, o.state.persistent.currentTerm) && AcksOK(ids, h')
    requires HostHolds(ids, h', n, host.(raft := o.state))
    ensures StepHolds(ids, h, n, host, o, h')
  {
    hide Later, AcksOK, HostHolds;
    assert host.applied + [] == host.applied;
    assert After(host, o) == host.(raft := o.state);
  }

  lemma ElectionAloneHolds(ids: seq<NodeId>, h: History, n: NodeId, host: Host)
    requires Config(ids) && n in ids && HistoryOK(ids, h) && HostOK(ids, h, n, host)
    requires AcksOK(ids, h) && HostHolds(ids, h, n, host)
    requires host.raft.role != Leader && host.raft.peers == []
    ensures var o := HandleElectionTimeout(host.raft);
            StepHolds(ids, h, n, host, o, Record(ids, h, n, o.state, None))
  {
    hide *;
    ConfigIsDistinct(ids);
    var o := HandleElectionTimeout(host.raft);
    var s1 := Standing(host.raft);
    var t := s1.persistent.currentTerm;
    var h1 := WithBallot(h, n, t, host.disk.log);
    var h' := Record(ids, h, n, o.state, None);
    var o1 := Outcome(s1, [PersistState]);
    var host1 := host.(raft := s1, disk := s1.persistent);
    StandingOutcome(host.raft);
    NextTerm(host.raft);
    CandidacyRecords(ids, h, n, host);
    StandingFacts(ids, h, n, host);
    CandidateStands(ids, h, n, host);
    SaveOnly(host, s1);
    CandidacyHolds(ids, h, n, host, o1);
    HoldsParts(ids, h, h1, n, host, o1);
    AloneIsQuorum(ids, n);
    CandidateFacts(ids, h1, n, host1);
    ElectionRecords(ids, h1, n, o.state, {n});
    FreshLeaderMatches(h', s1);
    BecomeLeaderKeeps(s1);
    InaugurationHolds(ids, h1, h', n, host1, o.state);
    LaterTwice(h, h1, h', n, t);
    TimersOnly(host, o);
    SavedQuietly(ids, h, h', n, host, o);
  }

  lemma BecomeLeaderKeeps(s: RaftState)
    ensures BecomeLeader(s).volatile == s.volatile
  {
  }

  lemma SaveOnly(host: Host, s: RaftState)
    ensures var o := Outcome(s, [PersistState]);
            && Persists(o.actions) && Applied(o.actions) == [] && Sent(o.actions) == []
            && After(host, o) == host.(raft := s, disk := s.persistent)
  {
    assert [PersistState][0] == PersistState;
    assert [PersistState][..0] == [];
    assert host.applied + [] == host.applied;
  }

  lemma TimersOnly(host: Host, o: Outcome)
    requires o.actions == [ResetHeartbeatTimer, PersistState]
    ensures Sent(o.actions) == [] && After(host, o) == host.(raft := o.state, disk := o.state.persistent)
  {
    OnlyTimers(o.actions);
    AppliedNothing(o.actions);
    assert host.applied + [] == host.applied;
  }

  lemma HoldsParts(ids: seq<NodeId>, h: History, h': History, n: NodeId, host: Host, o: Outcome)
    requires StepHolds(ids, h, n, host, o, h')
    ensures Later(h, h', n, o.state.persistent.currentTerm) && AcksOK(ids, h')
    ensures HostHolds(ids, h', n, After(host, o))
  {
  }

  lemma LaterTwice(h: History, h1: History, h2: History, n: NodeId, t: Term)
    requires Later(h, h1, n, t) && Later(h1, h2, n, t)
    ensures Later(h, h2, n, t)
  {
    GrowsTwice(h, h1, h2, n);
    hide Grows;
  }

  lemma SavedQuietly(ids: seq<NodeId>, h: History, h': History, n: NodeId, host: Host, o: Outcome)
    requires Sent(o.actions) == []
    requires After(host, o) == host.(raft := o.state, disk := o.state.persistent)
    requires Later(h, h', n, o.state.persistent.currentTerm) && AcksOK(ids, h')
    requires HostHolds(ids, h', n, host.(raft := o.state, disk := o.state.persistent))
    ensures StepHolds(ids, h, n, host, o, h')
  {
    hide Later, AcksOK, HostHolds;
  }

  lemma ElectionHolds(ids: seq<NodeId>, h: History, n: NodeId, host: Host)
    requires Config(ids) && n in ids && HistoryOK(ids, h) && HostOK(ids, h, n, host)
    requires AcksOK(ids, h) && HostHolds(ids, h, n, host)
    ensures var o := HandleElectionTimeout(host.raft);
            StepHolds(ids, h, n, host, o, Record(ids, h, n, o.state, None))
  {
    if host.raft.role == Leader {
      SentNothing();
      OfficeHolderVotedForItself(ids, h, n, host);
      VoteOnRecord(ids, h, n, host);
      hide HistoryOK, HostOK, AcksOK, HostHolds, StepHolds, Record;
      PassiveStep(ids, h, n, host, HandleElectionTimeout(host.raft));
    } else if host.raft.peers == [] {
      ElectionAloneHolds(ids, h, n, host);
    } else {
      ElectionWithPeersHolds(ids, h, n, host);
    }
  }

  // ── accepting entries ───────────────────────────────────────────────────────

  /** What a reply truly acknowledges is a prefix of the leader's log that the follower has. */
  lemma TrueAckIsPrefix(h: History, rule: AckRule, s: RaftState, m: AppendEntries)
    requires Accepts(s, m) && m.term in h.reigns && EndIndex(m) <= |h.reigns[m.term].log|
    requires var log := Reconcile(s.persistent.log, m.entries);
             GoodLog(h, log) && h.reigns[m.term].log[..EndIndex(m)] <= log
    ensures var a, leader := TrueAck(rule, s, m), h.reigns[m.term].log;
            a <= |leader| && leader[..a] <= Reconcile(s.persistent.log, m.entries)
  {
    var a, leader, log := TrueAck(rule, s, m), h.reigns[m.term].log,
                          Reconcile(s.persistent.log, m.entries);
    LastIndexIsLength(log);
    assert a <= EndIndex(m) || (a == |log| && LastLogTerm(log) == m.term);
    hide TrueAck, Reconcile, Accepts;
    if a <= EndIndex(m) {
      assert leader[..a] == leader[..EndIndex(m)][..a];
    } else {
      WholeFromReign(h, log);
      assert leader[..a] == log;
    }
  }

  /** What the node held before it still holds after it has accepted. */
  lemma AcceptKeepsOlder(h: History, n: NodeId, disk: PersistentState, m: AppendEntries,
                         log: Log, t: Term, i: nat)
    requires AcksHeld(h, n, disk) && disk.currentTerm <= m.term && m.term in h.reigns
    requires SliceOf(m, h.reigns[m.term])
    requires h.reigns[m.term].start <= h.reigns[m.term].log
    requires var vouched := h.reigns[m.term].log[..EndIndex(m)];
             log == if vouched <= disk.log then disk.log else vouched
    requires t < m.term && Slot(n, t) in h.acks && i <= h.acks[Slot(n, t)]
    requires Keeps(h, Acked(h, t, i), t, m.term)
    ensures Acked(h, t, i) <= log
  {
    var p, r := Acked(h, t, i), h.reigns[m.term];
    assert Keeps(h, p, t, disk.currentTerm);
    assert p <= disk.log;
    assert p <= r.start;
    hide Keeps, Acked, AcksHeld;
    BothPrefixes(p, r.log[..EndIndex(m)], r.log);
  }

  /** Agreement never shrinks: what was acknowledged in this very term stays. */
  lemma AcceptKeepsSameTerm(h: History, n: NodeId, disk: PersistentState, m: AppendEntries,
                            log: Log, i: nat)
    requires AcksHeld(h, n, disk) && disk.currentTerm <= m.term && m.term in h.reigns
    requires EndIndex(m) <= |h.reigns[m.term].log|
    requires var vouched := h.reigns[m.term].log[..EndIndex(m)];
             log == if vouched <= disk.log then disk.log else vouched
    requires Slot(n, m.term) in h.acks && i <= h.acks[Slot(n, m.term)]
    requires i <= |h.reigns[m.term].log|
    ensures Acked(h, m.term, i) <= log
  {
    var p, leader, e := Acked(h, m.term, i), h.reigns[m.term].log, EndIndex(m);
    assert disk.currentTerm == m.term;
    assert Keeps(h, p, m.term, m.term);
    assert p <= disk.log && p == leader[..i];
    hide Keeps, Acked, AcksHeld;
    if i <= e {
      BothPrefixes(leader[..i], leader[..e], leader);
    } else {
      BothPrefixes(leader[..e], leader[..i], leader);
    }
  }

  lemma AcceptHeld(ids: seq<NodeId>, h: History, h': History, n: NodeId, disk: PersistentState,
                   m: AppendEntries, log: Log, a: nat)
    requires AcksOK(ids, h) && AcksHeld(h, n, disk) && disk.currentTerm <= m.term
    requires m.term in h.reigns && SliceOf(m, h.reigns[m.term])
    requires h.reigns[m.term].start <= h.reigns[m.term].log
    requires var vouched := h.reigns[m.term].log[..EndIndex(m)];
             log == if vouched <= disk.log then disk.log else vouched
    requires a <= |h.reigns[m.term].log| && h.reigns[m.term].log[..a] <= log
    requires h'.reigns == h.reigns && h'.ballots == h.ballots
    requires h'.acks == h.acks[Slot(n, m.term) := Max(AckOf(h.acks, n, m.term), a)]
    ensures Holds(h', n, m.term, log)
  {
    forall t: Term, i: nat | t <= m.term && Slot(n, t) in h'.acks && i <= h'.acks[Slot(n, t)]
                             && Keeps(h', Acked(h', t, i), t, m.term)
      ensures Acked(h', t, i) <= log
    {
      assert Acked(h', t, i) == Acked(h, t, i);
      if t < m.term {
        assert Keeps(h, Acked(h, t, i), t, m.term);
        AcceptKeepsOlder(h, n, disk, m, log, t, i);
      } else if i <= a {
        assert h.reigns[t].log[..i] == h.reigns[t].log[..a][..i];
      } else {
        assert AckOK(ids, h, Slot(n, t));
        AcceptKeepsSameTerm(h, n, disk, m, log, i);
      }
    }
  }

  lemma AcceptGrows(ids: seq<NodeId>, h: History, h': History, n: NodeId, t: Term, a: nat)
    requires AcksOK(ids, h) && n in ids && t in h.reigns && a <= |h.reigns[t].log|
    requires h'.reigns == h.reigns && h'.ballots == h.ballots
    requires h'.acks == h.acks[Slot(n, t) := Max(AckOf(h.acks, n, t), a)]
    requires forall k | k in h.ballots && k.node == n :: k.term <= t
    ensures Later(h, h', n, t) && AcksOK(ids, h')
  {
    if Slot(n, t) in h.acks { assert AckOK(ids, h, Slot(n, t)); }
    assert Later(h, h', n, t);
    assert AckOK(ids, h', Slot(n, t));
    hide AckOK;
    AcksSurvive(ids, h, h', n, t);
  }

  /** The committed prefix is in front of everything an accepted request can cut off. */
  lemma AcceptKeepsCommitted(ids: seq<NodeId>, h: History, host: Host, m: AppendEntries, log: Log)
    requires Config(ids) && HistoryOK(ids, h) && AcksOK(ids, h) && CommitOK(ids, h, host)
    requires m.term in h.reigns && EndIndex(m) <= |h.reigns[m.term].log|
    requires host.raft.persistent.currentTerm <= m.term
    requires var vouched := h.reigns[m.term].log[..EndIndex(m)];
             log == if vouched <= host.raft.persistent.log then host.raft.persistent.log
                    else vouched
    ensures var c := host.raft.volatile.commitIndex;
            && c <= |host.raft.persistent.log| && c <= |log|
            && log[..c] == host.raft.persistent.log[..c]
            && Safe(ids, h, m.term, log[..c])
  {
    var c, before := host.raft.volatile.commitIndex, host.raft.persistent.log;
    assert c <= |before| && Safe(ids, h, host.raft.persistent.currentTerm, before[..c]);
    hide *;
    SafeLater(ids, h, host.raft.persistent.currentTerm, m.term, before[..c]);
    SafeInLeader(ids, h, m.term, before[..c]);
    CutKeepsPrefix(before, h.reigns[m.term].log, EndIndex(m), c);
  }

  lemma CutKeepsPrefix(log: Log, leader: Log, e: nat, c: nat)
    requires c <= |log| && e <= |leader| && log[..c] <= leader
    ensures var after := if leader[..e] <= log then log else leader[..e];
            c <= |after| && after[..c] == log[..c]
  {
    if c <= e {
      BothPrefixes(log[..c], leader[..e], leader);
    } else {
      BothPrefixes(leader[..e], log[..c], leader);
    }
  }

  /** The commit index after an accepted request. */
  function CommitAfter(s: RaftState, m: AppendEntries): LogIndex {
    if m.leaderCommit > s.volatile.commitIndex then Min(m.leaderCommit, LastNewIndex(m))
    else s.volatile.commitIndex
  }

  lemma AcceptVolatile(rule: AckRule, s: RaftState, m: AppendEntries)
    requires Accepts(s, m) && s.volatile.lastApplied == s.volatile.commitIndex
    ensures var o := HandleAppendEntries(rule, s, m);
            var log := Reconcile(s.persistent.log, m.entries);
            && o.state.volatile.commitIndex == CommitAfter(s, m)
            && (CommitAfter(s, m) >= s.volatile.commitIndex ==>
                  o.state.volatile.lastApplied == CommitAfter(s, m))
            && o.actions[..3] == [PersistState, ResetElectionTimer, o.actions[2]]
            && o.actions[2].Send?
            && o.actions[3..] == ApplyBetween(log, s.volatile.commitIndex, CommitAfter(s, m))
  {
    AppendOutcome(rule, s, m);
  }

  lemma AppliedByAccept(rule: AckRule, s: RaftState, m: AppendEntries)
    requires Accepts(s, m) && s.volatile.lastApplied == s.volatile.commitIndex
    requires var log := Reconcile(s.persistent.log, m.entries);
             Contiguous(log) && s.volatile.commitIndex <= CommitAfter(s, m) <= |log|
    ensures var o := HandleAppendEntries(rule, s, m);
            var log := Reconcile(s.persistent.log, m.entries);
            Applied(o.actions) == Commands(log[s.volatile.commitIndex..CommitAfter(s, m)])
  {
    var o := HandleAppendEntries(rule, s, m);
    var log := Reconcile(s.persistent.log, m.entries);
    var commands := Commands(log[s.volatile.commitIndex..CommitAfter(s, m)]);
    AcceptVolatile(rule, s, m);
    ApplyBetweenIsSlice(log, s.volatile.commitIndex, CommitAfter(s, m));
    hide HandleAppendEntries, Reconcile, CommitAfter, Accepts, Applications, Commands;
    assert o.actions == o.actions[..3] + Applications(commands);
    AppliedConcat(o.actions[..3], Applications(commands));
    AppliedNothing(o.actions[..3]);
    AppliedApplications(commands);
    assert [] + commands == commands;
  }

  /** Committing further applies exactly the entries in between. */
  lemma CommitAdvances(ids: seq<NodeId>, h: History, host: Host, o: Outcome)
    requires var c, c', log := host.raft.volatile.commitIndex, o.state.volatile.commitIndex,
                               o.state.persistent.log;
             && c <= c' <= |log|
             && host.applied == Commands(log[..c])
             && Applied(o.actions) == Commands(log[c..c'])
             && o.state.volatile.lastApplied == c'
             && Safe(ids, h, o.state.persistent.currentTerm, log[..c'])
    requires host.store == ApplyAll(map[], host.applied)
    ensures CommitOK(ids, h, After(host, o))
  {
    hide Safe;
    var c, c', log := host.raft.volatile.commitIndex, o.state.volatile.commitIndex,
                      o.state.persistent.log;
    assert log[..c'] == log[..c] + log[c..c'];
    assert Commands(log[..c']) == Commands(log[..c]) + Commands(log[c..c']);
    ApplyAllConcat(map[], host.applied, Applied(o.actions));
  }

  lemma LastNewIsEnd(m: AppendEntries)
    requires Follows(m.entries, m.prevLogIndex)
    ensures LastNewIndex(m) == EndIndex(m)
  {
  }

  /** Commit Regression cannot happen: the new index is the leader's, within the message. */
  lemma AcceptCommits(ids: seq<NodeId>, h: History, host: Host, m: AppendEntries, log: Log)
    requires Config(ids) && HistoryOK(ids, h) && AcksOK(ids, h) && CommitOK(ids, h, host)
    requires m.term in h.reigns && EndIndex(m) <= |h.reigns[m.term].log|
    requires m.leaderCommit <= EndIndex(m)
    requires Safe(ids, h, m.term, h.reigns[m.term].log[..m.leaderCommit])
    requires Follows(m.entries, m.prevLogIndex)
    requires host.raft.persistent.currentTerm <= m.term
    requires var vouched := h.reigns[m.term].log[..EndIndex(m)];
             && log == (if vouched <= host.raft.persistent.log then host.raft.persistent.log
                        else vouched)
    ensures var c, c' := host.raft.volatile.commitIndex, CommitAfter(host.raft, m);
            && c <= |host.raft.persistent.log|
            && c <= c' <= |log|
            && log[..c] == host.raft.persistent.log[..c]
            && Safe(ids, h, m.term, log[..c'])
  {
    hide *;
    CommitAfterIsMax(host.raft, m);
    AcceptKeepsCommitted(ids, h, host, m, log);
    CutReaches(host.raft.persistent.log, h.reigns[m.term].log, EndIndex(m), m.leaderCommit);
  }

  lemma CommitAfterIsMax(s: RaftState, m: AppendEntries)
    requires Follows(m.entries, m.prevLogIndex) && m.leaderCommit <= EndIndex(m)
    ensures CommitAfter(s, m) == if m.leaderCommit > s.volatile.commitIndex then m.leaderCommit
                                 else s.volatile.commitIndex
  {
    LastNewIsEnd(m);
  }

  lemma CutReaches(log: Log, leader: Log, e: nat, c: nat)
    requires c <= e <= |leader|
    ensures var after := if leader[..e] <= log then log else leader[..e];
            c <= |after| && after[..c] == leader[..c]
  {
    assert leader[..e][..c] == leader[..c];
  }

  /** Everything the rest of the argument needs to know about an accepted request. */
  lemma AcceptedFacts(ids: seq<NodeId>, rule: AckRule, h: History, n: NodeId, host: Host,
                      m: AppendEntries)
    requires HistoryOK(ids, h) && HostOK(ids, h, n, host)
    requires PacketOK(ids, h, Packet(n, Append(m))) && PacketHolds(ids, h, Packet(n, Append(m)))
    requires Accepts(host.raft, m)
    ensures m.term in h.reigns && h.reigns[m.term].leader != n
    ensures var r := h.reigns[m.term];
            var log := Reconcile(host.disk.log, m.entries);
            && SliceOf(m, r) && r.start <= r.log
            && EndIndex(m) <= |r.log| && Follows(m.entries, m.prevLogIndex)
            && log == (if r.log[..EndIndex(m)] <= host.disk.log then host.disk.log
                       else r.log[..EndIndex(m)])
            && r.log[..EndIndex(m)] <= log
            && GoodLog(h, log) && Contiguous(log)
    ensures m.leaderCommit <= EndIndex(m)
    ensures Safe(ids, h, m.term, h.reigns[m.term].log[..m.leaderCommit])
    ensures host.raft.persistent.log == host.disk.log && GoodLog(h, host.disk.log)
    ensures host.disk.currentTerm <= host.raft.persistent.currentTerm <= m.term
  {
    hide Safe;
    AcceptedLog(ids, h, host.disk.log, m);
    GoodAcceptedLog(ids, h, host, n, m);
    assert ReignOK(ids, h, m.term);
    MessageEntries(h, host.disk.log, m, h.reigns[m.term]);
  }

  lemma AcceptRecords(ids: seq<NodeId>, rule: AckRule, h: History, n: NodeId, host: Host,
                      m: AppendEntries)
    requires HistoryOK(ids, h) && HostOK(ids, h, n, host)
    requires m.term in h.reigns && h.reigns[m.term].leader != n && Accepts(host.raft, m)
    ensures var o := HandleAppendEntries(rule, host.raft, m);
            var h' := Record(ids, h, n, o.state, Acknowledges(rule, host.raft, Receive(Append(m))));
            var a := TrueAck(rule, host.raft, m);
            && h'.reigns == h.reigns && h'.ballots == h.ballots
            && h'.acks == h.acks[Slot(n, m.term) := Max(AckOf(h.acks, n, m.term), a)]
            && o.state.role == Follower
            && o.state.persistent.log == Reconcile(host.disk.log, m.entries)
            && o.state.persistent.currentTerm == m.term
            && Persists(o.actions)
  {
    var o := HandleAppendEntries(rule, host.raft, m);
    hide HandleAppendEntries, HostOK, HistoryOK, Yielded, Joined, Reconcile, GoodLog, RoleOK,
         VotesOK, AckIndex, TrueAck;
    AppendOutcome(rule, host.raft, m);
    YieldedOK(ids, h, n, host, m);
    assert o.actions[0] == PersistState;
  }

  lemma AcceptReplies(rule: AckRule, ids: seq<NodeId>, h': History, s: RaftState,
                      m: AppendEntries)
    requires Accepts(s, m)
    ensures forall p | p in Sent(HandleAppendEntries(rule, s, m).actions) :: PacketHolds(ids, h', p)
  {
    var o := HandleAppendEntries(rule, s, m);
    var log := Reconcile(s.persistent.log, m.entries);
    AppendOutcome(rule, s, m);
    ApplyBetweenApplies(log, s.volatile.lastApplied, o.state.volatile.commitIndex);
    hide HandleAppendEntries, Reconcile, AckIndex, Accepts;
    forall i | 3 <= i < |o.actions| ensures o.actions[i].ApplyCommand? {
      assert o.actions[3..][i - 3] in o.actions[3..];
    }
    forall p | p in Sent(o.actions) ensures PacketHolds(ids, h', p) {
      SentIffSend(o.actions, p);
    }
  }

  lemma AcceptHolds(ids: seq<NodeId>, rule: AckRule, h: History, n: NodeId, host: Host,
                    m: AppendEntries)
    requires Config(ids) && n in ids && HistoryOK(ids, h) && HostOK(ids, h, n, host)
    requires AcksOK(ids, h) && HostHolds(ids, h, n, host)
    requires PacketOK(ids, h, Packet(n, Append(m))) && PacketHolds(ids, h, Packet(n, Append(m)))
    requires Accepts(host.raft, m)
    ensures var o := HandleAppendEntries(rule, host.raft, m);
            StepHolds(ids, h, n, host, o,
                      Record(ids, h, n, o.state, Acknowledges(rule, host.raft, Receive(Append(m)))))
  {
    hide *;
    var o := HandleAppendEntries(rule, host.raft, m);
    var h' := Record(ids, h, n, o.state, Acknowledges(rule, host.raft, Receive(Append(m))));
    var log := Reconcile(host.disk.log, m.entries);
    var a := TrueAck(rule, host.raft, m);
    HostHoldsParts(ids, h, n, host);
    AcceptedFacts(ids, rule, h, n, host, m);
    AcceptRecords(ids, rule, h, n, host, m);
    TrueAckIsPrefix(h, rule, host.raft, m);
    BallotsUpTo(ids, h, n, host, m.term);
    AcceptGrows(ids, h, h', n, m.term, a);
    AcceptHeld(ids, h, h', n, host.disk, m, log, a);
    AcceptedIsHeld(h', n, o.state, m.term);
    AcceptCommitsHost(ids, rule, h, h', n, host, m);
    FollowerMatches(h', o.state);
    AcceptReplies(rule, ids, h', host.raft, m);
    SavedHolds(ids, h, h', n, host, o);
  }

  lemma HostIdentity(ids: seq<NodeId>, h: History, n: NodeId, host: Host)
    requires HostOK(ids, h, n, host)
    ensures host.raft.id == n && host.raft.peers == PeersOf(ids, n) && RoleOK(host.raft)
  {
  }

  lemma HostHoldsParts(ids: seq<NodeId>, h: History, n: NodeId, host: Host)
    requires HostHolds(ids, h, n, host)
    ensures AcksHeld(h, n, host.disk) && CommitOK(ids, h, host) && MatchOK(h, host.raft)
  {
  }

  lemma AcceptedIsHeld(h: History, n: NodeId, s: RaftState, t: Term)
    requires s.persistent.currentTerm == t && t in h.reigns && Holds(h, n, t, s.persistent.log)
    requires forall u: Term | Slot(n, u) in h.acks :: u <= t
    ensures AcksHeld(h, n, s.persistent)
  {
    hide Holds;
  }

  lemma FollowerMatches(h: History, s: RaftState)
    requires s.role != Leader
    ensures MatchOK(h, s)
  {
  }

  lemma AcceptCommitsHost(ids: seq<NodeId>, rule: AckRule, h: History, h': History, n: NodeId,
                          host: Host, m: AppendEntries)
    requires Config(ids) && HistoryOK(ids, h) && HostOK(ids, h, n, host)
    requires AcksOK(ids, h) && CommitOK(ids, h, host)
    requires PacketOK(ids, h, Packet(n, Append(m))) && PacketHolds(ids, h, Packet(n, Append(m)))
    requires Accepts(host.raft, m) && Later(h, h', n, m.term)
    ensures CommitOK(ids, h', After(host, HandleAppendEntries(rule, host.raft, m)))
  {
    hide *;
    var o := HandleAppendEntries(rule, host.raft, m);
    var log := Reconcile(host.disk.log, m.entries);
    AcceptedFacts(ids, rule, h, n, host, m);
    AcceptRecords(ids, rule, h, n, host, m);
    AcceptCommits(ids, h, host, m, log);
    CommitParts(ids, h, host);
    AcceptVolatile(rule, host.raft, m);
    AppliedByAccept(rule, host.raft, m);
    CommitAdvances(ids, h, host, o);
    CommitSurvives(ids, h, h', n, m.term, After(host, o));
  }

  lemma CommitParts(ids: seq<NodeId>, h: History, host: Host)
    requires CommitOK(ids, h, host)
    ensures var log, v := host.raft.persistent.log, host.raft.volatile;
            && v.lastApplied == v.commitIndex <= |log|
            && host.applied == Commands(log[..v.commitIndex])
            && host.store == ApplyAll(map[], host.applied)
            && Safe(ids, h, host.raft.persistent.currentTerm, log[..v.commitIndex])
  {
  }

  lemma SavedHolds(ids: seq<NodeId>, h: History, h': History, n: NodeId, host: Host, o: Outcome)
    requires Persists(o.actions)
    requires Later(h, h', n, o.state.persistent.currentTerm) && AcksOK(ids, h')
    requires AcksHeld(h', n, o.state.persistent)
    requires CommitOK(ids, h', After(host, o)) && MatchOK(h', o.state)
    requires forall p | p in Sent(o.actions) :: PacketHolds(ids, h', p)
    ensures StepHolds(ids, h, n, host, o, h')
  {
    hide Later, AcksOK, AcksHeld, CommitOK, MatchOK, PacketHolds;
  }

  lemma RejectHolds(ids: seq<NodeId>, rule: AckRule, h: History, n: NodeId, host: Host,
                    m: AppendEntries)
    requires HistoryOK(ids, h) && HostOK(ids, h, n, host)
    requires AcksOK(ids, h) && HostHolds(ids, h, n, host)
    requires PacketOK(ids, h, Packet(n, Append(m))) && !Accepts(host.raft, m)
    ensures var o := HandleAppendEntries(rule, host.raft, m);
            StepHolds(ids, h, n, host, o, Record(ids, h, n, o.state, None))
  {
    hide HistoryOK, HostOK, HandleAppendEntries, Accepts, Record, StepHolds, AcksOK, HostHolds;
    var o := HandleAppendEntries(rule, host.raft, m);
    AppendOutcome(rule, host.raft, m);
    YieldedOK(ids, h, n, host, m);
    SentOne(o.actions[0].to, o.actions[0].msg);
    AppliedOne(o.actions[0]);
    if host.raft.persistent.votedFor.Some? { VoteOnRecord(ids, h, n, host); }
    PassiveStep(ids, h, n, host, o);
  }

  // ── the leader's side ───────────────────────────────────────────────────────

  /** The commit index a leader moves to. */
  function Advanced(s: RaftState): LogIndex {
    TryAdvanceCommit(s).state.volatile.commitIndex
  }

  /** An index the scan finds is acknowledged by a quorum of nodes. */
  lemma ScannedIsCommitted(ids: seq<NodeId>, h: History, s: RaftState, i: nat)
    requires Config(ids) && s.id in ids && s.peers == PeersOf(ids, s.id)
    requires s.role == Leader && s.leaderState.Some? && VectorsFit(s) && MatchOK(h, s)
    requires var t := s.persistent.currentTerm;
             && t in h.reigns && h.reigns[t].log == s.persistent.log
             && Committable(s.persistent.log, t, s.leaderState.value.matchIndex,
                            Quorum(|s.peers|), i)
    ensures CommittedAt(ids, h, s.persistent.currentTerm, i)
  {
    var t, matches := s.persistent.currentTerm, s.leaderState.value.matchIndex;
    PositionalCountIsQuorum(ids, s.id, matches, i);
    var counted := {s.id} + Counted(s.peers, matches, i);
    forall u | u in counted ensures u in Ackers(ids, h, t, i) {
      if u != s.id {
        var j :| 0 <= j < |s.peers| && matches[j] >= i && s.peers[j] == u;
      }
    }
    SubsetSize(counted, Ackers(ids, h, t, i));
  }

  lemma AdvanceIsSafe(ids: seq<NodeId>, h: History, s: RaftState)
    requires Config(ids) && s.id in ids && s.peers == PeersOf(ids, s.id)
    requires s.role == Leader && s.leaderState.Some? && VectorsFit(s) && MatchOK(h, s)
    requires var t, log := s.persistent.currentTerm, s.persistent.log;
             && t in h.reigns && h.reigns[t].log == log && Contiguous(log)
             && s.volatile.commitIndex <= |log|
             && Safe(ids, h, t, log[..s.volatile.commitIndex])
    ensures s.volatile.commitIndex <= Advanced(s) <= |s.persistent.log|
    ensures Safe(ids, h, s.persistent.currentTerm, s.persistent.log[..Advanced(s)])
  {
    var t, log, c := s.persistent.currentTerm, s.persistent.log, s.volatile.commitIndex;
    var matches := s.leaderState.value.matchIndex;
    CommitScanIsExact(log, c, t, matches, Quorum(|s.peers|));
    var i := CommitScan(log, c, t, matches, Quorum(|s.peers|));
    hide CommitScan, MatchOK, Config, Quorum, PeersOf;
    if i > c {
      ScannedIsCommitted(ids, h, s, i);
      assert log[..i] == Acked(h, t, i);
    }
  }

  lemma AdvanceOutcome(s: RaftState)
    requires Contiguous(s.persistent.log)
    requires s.volatile.lastApplied == s.volatile.commitIndex <= Advanced(s) <= |s.persistent.log|
    ensures TryAdvanceCommit(s) == Outcome(
              s.(volatile := VolatileState(Advanced(s), Advanced(s))),
              Applications(Commands(s.persistent.log[s.volatile.commitIndex..Advanced(s)])))
  {
    ApplyBetweenIsSlice(s.persistent.log, s.volatile.commitIndex, Advanced(s));
    hide CommitScan, ApplyBetween;
  }

  /** The host after a leader has looked for an index to commit, whatever it did before. */
  lemma AdvanceHolds(ids: seq<NodeId>, h: History, host: Host, s: RaftState, o: Outcome,
                     before: seq<Action>)
    requires Config(ids) && s.id in ids && s.peers == PeersOf(ids, s.id)
    requires s.role == Leader && s.leaderState.Some? && VectorsFit(s) && MatchOK(h, s)
    requires var t, log := s.persistent.currentTerm, s.persistent.log;
             && t in h.reigns && h.reigns[t].log == log && Contiguous(log)
             && s.volatile == host.raft.volatile
             && host.raft.persistent.log <= log
             && t >= host.raft.persistent.currentTerm
    requires CommitOK(ids, h, host)
    requires o == Outcome(TryAdvanceCommit(s).state, before + TryAdvanceCommit(s).actions)
    requires Applied(before) == []
    ensures CommitOK(ids, h, After(host, o)) && MatchOK(h, o.state)
    ensures o.state.persistent == s.persistent && o.state.role == Leader
  {
    var c, log := host.raft.volatile.commitIndex, s.persistent.log;
    CommitParts(ids, h, host);
    assert log[..c] == host.raft.persistent.log[..c];
    hide *;
    SafeLater(ids, h, host.raft.persistent.currentTerm, s.persistent.currentTerm, log[..c]);
    AdvanceIsSafe(ids, h, s);
    AdvanceOutcome(s);
    var commands := Commands(log[c..Advanced(s)]);
    AppliedConcat(before, Applications(commands));
    AppliedApplications(commands);
    assert [] + commands == commands;
    CommitAdvances(ids, h, host, o);
    MatchIgnoresCommit(h, s, VolatileState(Advanced(s), Advanced(s)));
  }

  lemma MatchIgnoresCommit(h: History, s: RaftState, v: VolatileState)
    requires MatchOK(h, s)
    ensures MatchOK(h, s.(volatile := v))
  {
  }

  /** The leader's state once a reply is booked. */
  function Booked(s: RaftState, m: AppendEntriesResponse, i: nat): RaftState
    requires VectorsFit(s) && s.leaderState.Some? && i < |s.peers|
  {
    var ls := s.leaderState.value;
    if !m.success then
      s.(leaderState := Some(ls.(nextIndex := ls.nextIndex[i := BackUp(ls.nextIndex[i])])))
    else if m.matchIndex > ls.matchIndex[i] then
      s.(leaderState := Some(LeaderState(ls.nextIndex[i := m.matchIndex + 1],
                                         ls.matchIndex[i := m.matchIndex])))
    else s
  }

  /** The reply is one the leader acts on. */
  predicate Concerns(s: RaftState, m: AppendEntriesResponse) {
    && m.term == s.persistent.currentTerm && s.role == Leader
    && PeerPosition(s.peers, m.from).Some? && s.leaderState.Some?
  }

  lemma ReplyOutcome(s: RaftState, m: AppendEntriesResponse)
    requires VectorsFit(s)
    ensures var o := HandleAppendEntriesResponse(s, m);
            if !Concerns(s, m) then
              && o.actions == []
              && o.state == (if m.term > s.persistent.currentTerm then StepDown(s, m.term) else s)
            else
              var s1 := Booked(s, m, PeerPosition(s.peers, m.from).value);
              o == if m.success then TryAdvanceCommit(s1) else Outcome(s1, [])
  {
  }

  lemma BookedMatches(h: History, s: RaftState, m: AppendEntriesResponse, i: nat)
    requires VectorsFit(s) && s.leaderState.Some? && i < |s.peers| && s.peers[i] == m.from
    requires MatchOK(h, s) && s.role == Leader && m.term == s.persistent.currentTerm
    requires m.success ==> m.matchIndex <= AckOf(h.acks, m.from, m.term)
    ensures MatchOK(h, Booked(s, m, i)) && VectorsFit(Booked(s, m, i))
    ensures var s1 := Booked(s, m, i);
            && s1.leaderState.Some? && s1.persistent == s.persistent && s1.volatile == s.volatile
            && s1.id == s.id && s1.peers == s.peers && s1.role == s.role
  {
  }

  lemma UnconcernedHolds(ids: seq<NodeId>, h: History, n: NodeId, host: Host,
                         m: AppendEntriesResponse)
    requires HistoryOK(ids, h) && HostOK(ids, h, n, host) && VectorsFit(host.raft)
    requires AcksOK(ids, h) && HostHolds(ids, h, n, host) && !Concerns(host.raft, m)
    ensures var o := HandleAppendEntriesResponse(host.raft, m);
            StepHolds(ids, h, n, host, o, Record(ids, h, n, o.state, None))
  {
    var o := HandleAppendEntriesResponse(host.raft, m);
    ReplyOutcome(host.raft, m);
    if host.raft.persistent.votedFor.Some? { VoteOnRecord(ids, h, n, host); }
    hide HandleAppendEntriesResponse, Concerns, HistoryOK, HostOK, AcksOK, HostHolds, StepHolds,
         Record;
    SentNothing();
    AppliedOne(ResetHeartbeatTimer);
    PassiveStep(ids, h, n, host, o);
  }

  /** A leader's step that saves nothing and keeps its log. */
  lemma LeaderStepHolds(ids: seq<NodeId>, h: History, n: NodeId, host: Host, o: Outcome)
    requires HistoryOK(ids, h) && HostOK(ids, h, n, host)
    requires AcksOK(ids, h) && HostHolds(ids, h, n, host) && host.raft.role == Leader
    requires !Persists(o.actions) && Sent(o.actions) == []
    requires o.state.persistent == host.raft.persistent && o.state.role == Leader
    requires CommitOK(ids, h, After(host, o)) && MatchOK(h, o.state)
    ensures StepHolds(ids, h, n, host, o, Record(ids, h, n, o.state, None))
  {
    OfficeHolderVotedForItself(ids, h, n, host);
    VoteOnRecord(ids, h, n, host);
    hide HistoryOK, HostOK, AcksOK, CommitOK, AcksHeld, MatchOK, StepHolds, Record;
    IdleRecord(ids, h, n, host, o.state);
    IdleStep(ids, h, n, host, o);
  }

  lemma ConcernedHolds(ids: seq<NodeId>, h: History, n: NodeId, host: Host,
                       m: AppendEntriesResponse)
    requires Config(ids) && n in ids && HistoryOK(ids, h) && HostOK(ids, h, n, host)
    requires VectorsFit(host.raft)
    requires AcksOK(ids, h) && HostHolds(ids, h, n, host) && Concerns(host.raft, m)
    requires BooksTruth(h, host.raft, m)
    ensures var o := HandleAppendEntriesResponse(host.raft, m);
            StepHolds(ids, h, n, host, o, Record(ids, h, n, o.state, None))
  {
    var i := PeerPosition(host.raft.peers, m.from).value;
    assert m.term == host.raft.persistent.currentTerm && host.raft.role == Leader;
    assert host.raft.leaderState.Some?;
    assert m.success ==> m.matchIndex <= AckOf(h.acks, m.from, m.term);
    hide *;
    var o := HandleAppendEntriesResponse(host.raft, m);
    ReplyOutcome(host.raft, m);
    AppendReplyOutcome(host.raft, m);
    HostHoldsParts(ids, h, n, host);
    BookedMatches(h, host.raft, m, i);
    LeaderFacts(ids, h, n, host);
    ShapeIsContiguous(host.disk.log);
    var s1 := Booked(host.raft, m, i);
    NoActionsBefore(o);
    if m.success {
      AdvanceHolds(ids, h, host, s1, o, []);
    } else {
      CommitSame(ids, h, host, o);
    }
    LeaderStepHolds(ids, h, n, host, o);
  }

  lemma ShapeIsContiguous(log: Log)
    requires Shape(log)
    ensures Contiguous(log)
  {
  }

  lemma NoActionsBefore(o: Outcome)
    ensures [] + o.actions == o.actions && Applied([]) == []
  {
  }

  lemma ReplyHolds(ids: seq<NodeId>, h: History, n: NodeId, host: Host, m: AppendEntriesResponse)
    requires Config(ids) && n in ids && HistoryOK(ids, h) && HostOK(ids, h, n, host)
    requires AcksOK(ids, h) && HostHolds(ids, h, n, host)
    requires BooksTruth(h, host.raft, m)
    requires VectorsFit(host.raft)
    ensures var o := HandleAppendEntriesResponse(host.raft, m);
            StepHolds(ids, h, n, host, o, Record(ids, h, n, o.state, None))
  {
    hide *;
    if Concerns(host.raft, m) {
      ConcernedHolds(ids, h, n, host, m);
    } else {
      UnconcernedHolds(ids, h, n, host, m);
    }
  }

  lemma HeartbeatHolds(ids: seq<NodeId>, h: History, n: NodeId, host: Host)
    requires Distinct(ids) && HistoryOK(ids, h) && HostOK(ids, h, n, host)
    requires AcksOK(ids, h) && HostHolds(ids, h, n, host) && VectorsFit(host.raft)
    ensures var o := HandleHeartbeatTimeout(host.raft);
            StepHolds(ids, h, n, host, o, Record(ids, h, n, o.state, None))
  {
    var o := HandleHeartbeatTimeout(host.raft);
    if host.raft.persistent.votedFor.Some? { VoteOnRecord(ids, h, n, host); }
    if host.raft.role == Leader {
      HeartbeatPacketsHold(ids, h, n, host);
    } else {
      SentNothing();
    }
    hide *;
    HeartbeatsOnlySend(host.raft);
    PassiveStep(ids, h, n, host, o);
  }

  lemma HeartbeatPacketsHold(ids: seq<NodeId>, h: History, n: NodeId, host: Host)
    requires Distinct(ids) && HistoryOK(ids, h) && HostOK(ids, h, n, host)
    requires HostHolds(ids, h, n, host) && VectorsFit(host.raft) && host.raft.role == Leader
    ensures forall p | p in Sent(HandleHeartbeatTimeout(host.raft).actions) ::
              PacketHolds(ids, h, p)
  {
    LeaderFacts(ids, h, n, host);
    HostHoldsParts(ids, h, n, host);
    CommitParts(ids, h, host);
    assert Contiguous(host.raft.persistent.log);
    hide *;
    forall p | p in Sent(HandleHeartbeatTimeout(host.raft).actions)
      ensures PacketHolds(ids, h, p)
    {
      var i := HeartbeatPacket(host.raft, p);
      RequestIsSlice(ids, h, n, host.raft, i);
      RequestHolds(ids, h, p, host.raft);
    }
  }

  lemma RequestHolds(ids: seq<NodeId>, h: History, p: Packet, s: RaftState)
    requires p.msg.Append? && p.msg.ae.term == s.persistent.currentTerm
    requires p.msg.ae.term in h.reigns && h.reigns[p.msg.ae.term].log == s.persistent.log
    requires p.msg.ae.leaderCommit == s.volatile.commitIndex <= |s.persistent.log|
    requires EndIndex(p.msg.ae) >= |s.persistent.log|
    requires Safe(ids, h, s.persistent.currentTerm, s.persistent.log[..s.volatile.commitIndex])
    ensures PacketHolds(ids, h, p)
  {
  }

  // ── client commands ─────────────────────────────────────────────────────────

  lemma ClientSteps(s: RaftState, command: Command)
    requires s.role == Leader
    ensures var s1 := s.(persistent := s.persistent.(log := Extended(s, command)));
            var before := [ResetHeartbeatTimer, PersistState];
            var o := HandleClientRequest(s, command);
            && Applied(before) == []
            && (s.peers != [] ==> o == Outcome(s1, before))
            && (s.peers == [] ==>
                  o == Outcome(TryAdvanceCommit(s1).state, before + TryAdvanceCommit(s1).actions))
  {
    AppliedNothing([ResetHeartbeatTimer, PersistState]);
  }

  lemma LongerLogCommits(ids: seq<NodeId>, h: History, host: Host, o: Outcome)
    requires CommitOK(ids, h, host)
    requires o.state.volatile == host.raft.volatile
    requires host.raft.persistent.log <= o.state.persistent.log
    requires o.state.persistent.currentTerm == host.raft.persistent.currentTerm
    requires Applied(o.actions) == []
    ensures CommitOK(ids, h, After(host, o))
  {
    hide Safe;
    var c := host.raft.volatile.commitIndex;
    assert o.state.persistent.log[..c] == host.raft.persistent.log[..c];
    assert host.applied + [] == host.applied;
  }

  lemma LongerLogMatches(h: History, h': History, s: RaftState, log: Log)
    requires MatchOK(h, s) && s.role == Leader && s.leaderState.Some? && VectorsFit(s)
    requires h'.acks == h.acks[Slot(s.id, s.persistent.currentTerm) := |log|]
    requires s.id !in s.peers
    ensures MatchOK(h', s.(persistent := s.persistent.(log := log)))
  {
  }

  lemma ClientHistory(ids: seq<NodeId>, h: History, h': History, n: NodeId, disk: PersistentState,
                      log: Log)
    requires AcksOK(ids, h) && AcksHeld(h, n, disk) && disk.log <= log && n in ids
    requires Grows(h, h', n) && h'.ballots == h.ballots
    requires var t := disk.currentTerm;
             && t in h.reigns && h.reigns[t].log == disk.log
             && t in h'.reigns && h'.reigns[t].log == log
             && h'.acks == h.acks[Slot(n, t) := |log|]
    requires forall k | k in h.ballots && k.node == n :: k.term <= disk.currentTerm
    ensures Later(h, h', n, disk.currentTerm) && AcksOK(ids, h')
    ensures AcksHeld(h', n, disk.(log := log))
  {
    var t := disk.currentTerm;
    if Slot(n, t) in h.acks { assert AckOK(ids, h, Slot(n, t)); }
    assert Later(h, h', n, t);
    AcksSurvive(ids, h, h', n, t);
    LeaderHolds(ids, h, h', n, t, disk.log, log);
    hide Holds, AcksOK, Later;
  }

  lemma ClientAckRecorded(ids: seq<NodeId>, h: History, n: NodeId, host: Host, command: Command)
    requires HostOK(ids, h, n, host) && host.raft.role == Leader
    ensures var o := HandleClientRequest(host.raft, command);
            Record(ids, h, n, o.state, None).acks
            == h.acks[Slot(n, host.disk.currentTerm) := |Extended(host.raft, command)|]
    ensures host.disk.log <= Extended(host.raft, command)
    ensures host.raft.leaderState.Some? && VectorsFit(host.raft)
  {
    ClientOutcome(host.raft, command);
    hide HandleClientRequest;
  }

  lemma ClientHolds(ids: seq<NodeId>, h: History, n: NodeId, host: Host, command: Command)
    requires Config(ids) && n in ids && HistoryOK(ids, h) && HostOK(ids, h, n, host)
    requires AcksOK(ids, h) && HostHolds(ids, h, n, host) && host.raft.role == Leader
    ensures var o := HandleClientRequest(host.raft, command);
            StepHolds(ids, h, n, host, o, Record(ids, h, n, o.state, None))
  {
    hide *;
    ConfigIsDistinct(ids);
    var t := host.disk.currentTerm;
    var o := HandleClientRequest(host.raft, command);
    var h' := Record(ids, h, n, o.state, None);
    var log := Extended(host.raft, command);
    var s1 := host.raft.(persistent := host.raft.persistent.(log := log));
    LeaderFacts(ids, h, n, host);
    HostHoldsParts(ids, h, n, host);
    ClientOutcome(host.raft, command);
    ClientRecords(ids, h, n, host, command);
    ClientAckRecorded(ids, h, n, host, command);
    ExtendedIsGood(ids, h, h', t, LogEntry(t, |host.disk.log| + 1, command));
    GoodIsContiguous(h', log);
    BallotsUpTo(ids, h, n, host, t);
    ClientHistory(ids, h, h', n, host.disk, log);
    PeersAreTheOthers(ids, n);
    LongerLogMatches(h, h', host.raft, log);
    CommitSurvives(ids, h, h', n, t, host);
    ClientSteps(host.raft, command);
    ExtendedVectors(host.raft, log);
    if host.raft.peers == [] {
      AdvanceHolds(ids, h', host, s1, o, [ResetHeartbeatTimer, PersistState]);
    } else {
      LongerLogCommits(ids, h', host, o);
    }
    SavedHolds(ids, h, h', n, host, o);
  }

  lemma ExtendedVectors(s: RaftState, log: Log)
    requires VectorsFit(s)
    ensures VectorsFit(s.(persistent := s.persistent.(log := log)))
  {
  }

  lemma ClientStepHolds(ids: seq<NodeId>, h: History, n: NodeId, host: Host, command: Command)
    requires Config(ids) && n in ids && HistoryOK(ids, h) && HostOK(ids, h, n, host)
    requires AcksOK(ids, h) && HostHolds(ids, h, n, host)
    ensures var o := HandleClientRequest(host.raft, command);
            StepHolds(ids, h, n, host, o, Record(ids, h, n, o.state, None))
  {
    if host.raft.role == Leader {
      ClientHolds(ids, h, n, host, command);
    } else {
      var o := HandleClientRequest(host.raft, command);
      SendsNothing(o.actions);
      AppliedNothing(o.actions);
      if host.raft.persistent.votedFor.Some? { VoteOnRecord(ids, h, n, host); }
      hide *;
      PassiveStep(ids, h, n, host, o);
    }
  }

  // ── every step ──────────────────────────────────────────────────────────────

  lemma AppendHolds(ids: seq<NodeId>, rule: AckRule, h: History, n: NodeId, host: Host,
                    m: AppendEntries)
    requires Config(ids) && n in ids && HistoryOK(ids, h) && HostOK(ids, h, n, host)
    requires AcksOK(ids, h) && HostHolds(ids, h, n, host)
    requires PacketOK(ids, h, Packet(n, Append(m))) && PacketHolds(ids, h, Packet(n, Append(m)))
    ensures var o := HandleAppendEntries(rule, host.raft, m);
            StepHolds(ids, h, n, host, o,
                      Record(ids, h, n, o.state, Acknowledges(rule, host.raft, Receive(Append(m)))))
  {
    hide Config, HistoryOK, HostOK, AcksOK, HostHolds, PacketOK, PacketHolds, Accepts,
         HandleAppendEntries, StepHolds, Record;
    if Accepts(host.raft, m) {
      AcceptHolds(ids, rule, h, n, host, m);
    } else {
      RejectHolds(ids, rule, h, n, host, m);
    }
  }

  lemma StepDoesHold(ids: seq<NodeId>, rule: AckRule, h: History, n: NodeId, host: Host,
                     event: Event)
    requires Config(ids) && n in ids && HistoryOK(ids, h) && HostOK(ids, h, n, host)
    requires AcksOK(ids, h) && HostHolds(ids, h, n, host) && VectorsFit(host.raft)
    requires event.Receive? ==> PacketOK(ids, h, Packet(n, event.msg))
    requires event.Receive? ==> PacketHolds(ids, h, Packet(n, event.msg))
    requires HonestEvent(h, host.raft, event)
    ensures var o := Step(rule, host.raft, event);
            StepHolds(ids, h, n, host, o,
                      Record(ids, h, n, o.state, Acknowledges(rule, host.raft, event)))
  {
    hide *;
    ConfigIsDistinct(ids);
    Dispatch(rule, host.raft, event);
    match event
    case Receive(VoteRequest(m)) =>
      if |HandleRequestVote(host.raft, m).actions| == 1 {
        RejectedVoteHolds(ids, h, n, host, m);
      } else {
        GrantHolds(ids, h, n, host, m);
      }
    case Receive(VoteReply(m)) => VoteReplyHolds(ids, h, n, host, m);
    case Receive(Append(m)) => AppendHolds(ids, rule, h, n, host, m);
    case Receive(AppendReply(m)) =>
      HonestReply(h, host.raft, m);
      ReplyHolds(ids, h, n, host, m);
    case ElectionTimeout => ElectionHolds(ids, h, n, host);
    case HeartbeatTimeout => HeartbeatHolds(ids, h, n, host);
    case ClientRequest(command) => ClientStepHolds(ids, h, n, host, command);
  }

  lemma HonestReply(h: History, s: RaftState, m: AppendEntriesResponse)
    requires HonestEvent(h, s, Receive(AppendReply(m)))
    ensures BooksTruth(h, s, m)
  {
  }

  lemma Dispatch(rule: AckRule, s: RaftState, event: Event)
    requires VectorsFit(s)
    ensures Step(rule, s, event) ==
      match event
      case Receive(VoteRequest(m)) => HandleRequestVote(s, m)
      case Receive(VoteReply(m)) => HandleVoteResponse(s, m)
      case Receive(Append(m)) => HandleAppendEntries(rule, s, m)
      case Receive(AppendReply(m)) => HandleAppendEntriesResponse(s, m)
      case ElectionTimeout => HandleElectionTimeout(s)
      case HeartbeatTimeout => HandleHeartbeatTimeout(s)
      case ClientRequest(command) => HandleClientRequest(s, command)
    ensures !(event.Receive? && event.msg.Append?) ==> Acknowledges(rule, s, event) == None
  {
    hide HandleRequestVote, HandleVoteResponse, HandleAppendEntries, HandleAppendEntriesResponse,
         HandleElectionTimeout, HandleHeartbeatTimeout, HandleClientRequest;
  }

  lemma RunEventKeepsCommit(ids: seq<NodeId>, rule: AckRule, s: System, n: NodeId, event: Event)
    requires Config(ids) && CoreInv(ids, s) && CommitInv(ids, s)
    requires Enabled(rule, s, Exec(n, event)) && HonestEvent(s.history, s.hosts[n].raft, event)
    ensures CommitInv(ids, RunEvent(ids, rule, s, n, event))
  {
    assert n in Members(ids);
    hide HistoryOK, HostOK, PacketOK, StepHolds, Record, Step, Config, AcksOK, HostHolds,
         PacketHolds, EmissionOK, HonestEvent;
    StepDoesHold(ids, rule, s.history, n, s.hosts[n], event);
    StepHoldsGivesInvariant(ids, rule, s, n, event);
  }

  // ── crashes ─────────────────────────────────────────────────────────────────

  /** A restart forgets what was committed and applied, and loses nothing acknowledged. */
  lemma RestartedHolds(ids: seq<NodeId>, h: History, n: NodeId, host: Host)
    requires HostHolds(ids, h, n, host)
    ensures HostHolds(ids, h, n, Restarted(host))
  {
    hide Holds;
    var log := host.disk.log;
    assert log[..0] == [];
  }

  lemma RestartKeepsCommit(ids: seq<NodeId>, s: System, n: NodeId)
    requires CommitInv(ids, s) && n in s.hosts
    ensures CommitInv(ids, s.(hosts := s.hosts[n := Restarted(s.hosts[n])]))
  {
    RestartedHolds(ids, s.history, n, s.hosts[n]);
    hide AcksOK, HostHolds, PacketHolds, EmissionOK;
    var s' := s.(hosts := s.hosts[n := Restarted(s.hosts[n])]);
    forall u | u in s'.hosts ensures HostHolds(ids, s'.history, u, s'.hosts[u]) {
    }
  }

  lemma StepKeepsCommit(ids: seq<NodeId>, rule: AckRule, s: System, l: Label)
    requires Config(ids) && CoreInv(ids, s) && CommitInv(ids, s)
    requires Enabled(rule, s, l) && HonestLabel(s, l)
    ensures CommitInv(ids, Do(ids, rule, s, l))
  {
    hide Config, CoreInv, HostHolds, PacketHolds, AcksOK, EmissionOK, CrashEvent, HonestEvent;
    match l
    case Exec(n, event) => RunEventKeepsCommit(ids, rule, s, n, event);
    case Crash(n, event, k) =>
      CrashIsRestart(ids, rule, s, n, event, k);
      RestartKeepsCommit(ids, s, n);
      RunEventKeepsCommit(ids, rule, s, n, event);
      RestartKeepsCommit(ids, RunEvent(ids, rule, s, n, event), n);
    case Restart(n) => RestartKeepsCommit(ids, s, n);
  }

  lemma InitialCommit(ids: seq<NodeId>)
    requires Config(ids)
    ensures CommitInv(ids, Initial(ids))
  {
    var s := Initial(ids);
    hide HostHolds, NewHost;
    forall n | n in s.hosts ensures HostHolds(ids, s.history, n, s.hosts[n]) {
      NewHostHolds(ids, s.history, n);
    }
  }

  lemma NewHostHolds(ids: seq<NodeId>, h: History, n: NodeId)
    requires h == History(map[], map[], map[])
    ensures HostHolds(ids, h, n, NewHost(ids, n))
  {
    hide PeersOf;
  }

  lemma HonestMoves(ids: seq<NodeId>, rule: AckRule, r: Run, i: nat)
    requires IsRun(ids, rule, r) && HonestRun(ids, rule, r) && i + 1 < |r.states|
    ensures HonestLabel(r.states[i], r.labels[i])
  {
    hide Enabled, Do, HonestLabel, Initial;
    assert r.labels[i] == r.labels[i];
  }

  /** The commit invariant holds in every state of every run with honest replies. */
  lemma {:induction false} CommitHolds(ids: seq<NodeId>, rule: AckRule, r: Run, i: nat)
    requires Config(ids) && IsRun(ids, rule, r) && HonestRun(ids, rule, r) && i < |r.states|
    ensures CommitInv(ids, r.states[i])
  {
    hide *;
    RunStarts(ids, rule, r);
    if i == 0 {
      InitialCommit(ids);
    } else {
      CommitHolds(ids, rule, r, i - 1);
      CoreHolds(ids, rule, r, i - 1);
      RunMoves(ids, rule, r, i - 1);
      HonestMoves(ids, rule, r, i - 1);
      StepKeepsCommit(ids, rule, r.states[i - 1], r.labels[i - 1]);
    }
  }
}
