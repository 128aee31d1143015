/** Every handler keeps the core invariant. */
module CoreSteps {
  import opened Protocol
  import opened RaftSteps
  import opened LogFacts
  import opened Runtime
  import opened RoleStructure
  import opened Cluster
  import opened Quorums
  import opened Histories
  import opened CoreInvariant

  // ── recording ───────────────────────────────────────────────────────────────

  /** Outside office and with its vote on record, a node adds neither ballot nor reign. */
  lemma NothingToRecord(ids: seq<NodeId>, h: History, n: NodeId, host: Host, post: RaftState,
                        ack: Option<LogIndex>)
    requires HistoryOK(ids, h) && HostOK(ids, h, n, host)
    requires post.persistent.votedFor.Some? ==>
               Slot(n, post.persistent.currentTerm) in h.ballots
    requires post.role == Leader ==>
               && host.raft.role == Leader
               && post.persistent == host.raft.persistent
    ensures Record(ids, h, n, post, ack).reigns == h.reigns
    ensures Record(ids, h, n, post, ack).ballots == h.ballots
    ensures Grows(h, Record(ids, h, n, post, ack), n)
    ensures HistoryOK(ids, Record(ids, h, n, post, ack))
  {
    hide ReignOK, BallotOK;
    SameHistoryGrows(ids, h, Record(ids, h, n, post, ack), n);
  }

  /** A node's vote is on record as long as it stands by it. */
  lemma VoteOnRecord(ids: seq<NodeId>, h: History, n: NodeId, host: Host)
    requires HostOK(ids, h, n, host) && host.raft.persistent.votedFor.Some?
    ensures Voted(h, n, host.raft.persistent.currentTerm, host.raft.persistent.votedFor.value)
  {
  }

  lemma NotYetVoted(ids: seq<NodeId>, h: History, n: NodeId, host: Host, t: Term)
    requires HostOK(ids, h, n, host) && t >= host.raft.persistent.currentTerm
    requires t == host.raft.persistent.currentTerm ==> host.raft.persistent.votedFor == None
    ensures Slot(n, t) !in h.ballots
  {
  }

  /** Candidates and leaders have voted for themselves. */
  lemma OfficeHolderVotedForItself(ids: seq<NodeId>, h: History, n: NodeId, host: Host)
    requires HistoryOK(ids, h) && HostOK(ids, h, n, host) && host.raft.role != Follower
    ensures host.raft.persistent == host.disk
    ensures host.raft.persistent.votedFor == Some(n)
  {
    var t := host.raft.persistent.currentTerm;
    if host.raft.role == Leader { assert ReignOK(ids, h, t); }
  }

  lemma SteppedDown(ids: seq<NodeId>, h: History, n: NodeId, host: Host, t: Term)
    requires HostOK(ids, h, n, host) && t > host.raft.persistent.currentTerm
    ensures HostOK(ids, h, n, host.(raft := StepDown(host.raft, t)))
  {
  }

  lemma HostUnderSameHistory(ids: seq<NodeId>, h: History, h': History, n: NodeId, host: Host)
    requires HostOK(ids, h, n, host) && h'.reigns == h.reigns && h'.ballots == h.ballots
    ensures HostOK(ids, h', n, host)
  {
    forall i | 0 <= i < |host.disk.log| ensures FromReign(h', host.disk.log, i) {
      assert FromReign(h, host.disk.log, i);
    }
  }

  /** A step that changes nothing on disk and leaves the history as it is. */
  lemma QuietStep(ids: seq<NodeId>, h: History, n: NodeId, host: Host, o: Outcome,
                  ack: Option<LogIndex>)
    requires HistoryOK(ids, h) && HostOK(ids, h, n, host)
    requires HostOK(ids, h, n, host.(raft := o.state))
    requires !Persists(o.actions)
    requires o.state.role == Leader ==>
               host.raft.role == Leader && o.state.persistent == host.raft.persistent
    requires forall p | p in Sent(o.actions) :: PacketOK(ids, h, p)
    ensures StepOK(ids, h, n, host, o, Record(ids, h, n, o.state, ack))
  {
    var h' := Record(ids, h, n, o.state, ack);
    var host1 := host.(raft := o.state);
    if o.state.persistent.votedFor.Some? { VoteOnRecord(ids, h, n, host1); }
    NothingToRecord(ids, h, n, host, o.state, ack);
    hide ReignOK, BallotOK, PacketOK;
    HostUnderSameHistory(ids, h, h', n, host1);
    var host2 := After(host, o);
    assert HostOK(ids, h', n, host2) by {
      assert host2.raft == host1.raft && host2.disk == host1.disk;
    }
    hide HostOK;
    forall p | p in Sent(o.actions) ensures PacketOK(ids, h', p) {
      PacketSurvives(ids, h, h', n, p);
    }
  }

  /** A step that saves its new state. */
  lemma SavedStep(ids: seq<NodeId>, h: History, h': History, n: NodeId, host: Host, o: Outcome)
    requires Grows(h, h', n) && HistoryOK(ids, h')
    requires Persists(o.actions)
    requires HostOK(ids, h', n, host.(raft := o.state, disk := o.state.persistent))
    requires forall p | p in Sent(o.actions) :: PacketOK(ids, h', p)
    ensures StepOK(ids, h, n, host, o, h')
  {
    hide HistoryOK, Grows, PacketOK;
    var host' := After(host, o);
    assert host'.raft == o.state && host'.disk == o.state.persistent;
  }

  /** A step that saves nothing. */
  lemma VolatileStep(ids: seq<NodeId>, h: History, h': History, n: NodeId, host: Host, o: Outcome)
    requires Grows(h, h', n) && HistoryOK(ids, h')
    requires !Persists(o.actions)
    requires HostOK(ids, h', n, host.(raft := o.state))
    requires forall p | p in Sent(o.actions) :: PacketOK(ids, h', p)
    ensures StepOK(ids, h, n, host, o, h')
  {
    hide HistoryOK, Grows, PacketOK;
    var host' := After(host, o);
    assert host'.raft == o.state && host'.disk == host.disk;
  }

  // ── elections ───────────────────────────────────────────────────────────────

  /** The state a request leaves behind before it is judged. */
  function Joined(s: RaftState, term: Term): RaftState {
    if term > s.persistent.currentTerm then StepDown(s, term) else s
  }

  lemma JoinedOK(ids: seq<NodeId>, h: History, n: NodeId, host: Host, term: Term)
    requires HostOK(ids, h, n, host)
    ensures HostOK(ids, h, n, host.(raft := Joined(host.raft, term)))
    ensures host.raft.id == n && Joined(host.raft, term).id == n
  {
    if term > host.raft.persistent.currentTerm { SteppedDown(ids, h, n, host, term); }
  }

  lemma SentOne(to: NodeId, msg: Message)
    ensures Sent([Send(to, msg)]) == [Packet(to, msg)] && !Persists([Send(to, msg)])
  {
    assert [Send(to, msg)][..0] == [];
  }

  lemma VoteRequestRejected(ids: seq<NodeId>, h: History, n: NodeId, host: Host, m: RequestVote)
    requires HistoryOK(ids, h) && HostOK(ids, h, n, host)
    requires |HandleRequestVote(host.raft, m).actions| == 1
    ensures var o := HandleRequestVote(host.raft, m);
            StepOK(ids, h, n, host, o, Record(ids, h, n, o.state, None))
  {
    var o := HandleRequestVote(host.raft, m);
    JoinedOK(ids, h, n, host, m.term);
    assert o.state == Joined(host.raft, m.term);
    assert o.actions == [VoteResponse(o.state, m.candidateId, false)];
    SentOne(o.actions[0].to, o.actions[0].msg);
    QuietStep(ids, h, n, host, o, None);
  }

  /** A grant is the first vote of the term, or a repetition of it. */
  lemma GrantRecords(ids: seq<NodeId>, h: History, n: NodeId, host: Host, m: RequestVote)
    requires HistoryOK(ids, h) && HostOK(ids, h, n, host) && n in ids
    requires PacketOK(ids, h, Packet(n, VoteRequest(m)))
    requires var s := Joined(host.raft, m.term);
             && s.persistent.currentTerm == m.term
             && (s.persistent.votedFor.Some? ==> s.persistent.votedFor.value == m.candidateId)
             && UpToDate(m.lastLogTerm, m.lastLogIndex, s.persistent.log)
    ensures var o := HandleRequestVote(host.raft, m);
            var h' := Record(ids, h, n, o.state, None);
            && Grows(h, h', n) && HistoryOK(ids, h')
            && Voted(h', n, m.term, m.candidateId)
            && o.state.role == Follower
            && h'.reigns == h.reigns
            && (forall k | k in h'.ballots && k !in h.ballots :: k == Slot(n, m.term))
  {
    var s := Joined(host.raft, m.term);
    var o := HandleRequestVote(host.raft, m);
    var host1 := host.(raft := s);
    JoinedOK(ids, h, n, host, m.term);
    if s.role != Follower {
      OfficeHolderVotedForItself(ids, h, n, host1);
      assert false;
    }
    var h' := Record(ids, h, n, o.state, None);
    if s.persistent.votedFor.Some? {
      VoteOnRecord(ids, h, n, host1);
      SameHistoryGrows(ids, h, h', n);
    } else {
      NotYetVoted(ids, h, n, host1, m.term);
      var k, b := Slot(n, m.term), Ballot(m.candidateId, s.persistent.log);
      assert BallotOK(ids, h, Slot(m.candidateId, m.term));
      assert BallotOK(ids, h', k) by {
        GoodBallot(ids, h, h', host1, m, k, b);
      }
      NewBallotGrows(ids, h, h', k, b);
    }
  }

  lemma GoodBallot(ids: seq<NodeId>, h: History, h': History, host: Host, m: RequestVote,
                   k: Slot, b: Ballot)
    requires HostOK(ids, h, k.node, host) && k.node in ids && k !in h.ballots
    requires PacketOK(ids, h, Packet(k.node, VoteRequest(m)))
    requires 1 <= k.term == m.term == host.raft.persistent.currentTerm
    requires b == Ballot(m.candidateId, host.raft.persistent.log)
    requires UpToDate(m.lastLogTerm, m.lastLogIndex, b.log)
    requires h'.reigns == h.reigns && h'.ballots == h.ballots[k := b]
    ensures BallotOK(ids, h', k)
  {
    forall i | 0 <= i < |b.log| ensures FromReign(h', b.log, i) {
      assert FromReign(h, host.disk.log, i);
    }
  }

  lemma GrantOutcome(s: RaftState, m: RequestVote)
    requires |HandleRequestVote(s, m).actions| != 1
    ensures var s1 := Joined(s, m.term);
            && s1.persistent.currentTerm == m.term
            && (s1.persistent.votedFor.Some? ==> s1.persistent.votedFor.value == m.candidateId)
            && UpToDate(m.lastLogTerm, m.lastLogIndex, s1.persistent.log)
            && var s2 := s1.(persistent := s1.persistent.(votedFor := Some(m.candidateId)));
               HandleRequestVote(s, m) == Outcome(s2,
                 [PersistState, ResetElectionTimer, VoteResponse(s2, m.candidateId, true)])
  {
  }

  lemma VoteRequestGranted(ids: seq<NodeId>, h: History, n: NodeId, host: Host, m: RequestVote)
    requires HistoryOK(ids, h) && HostOK(ids, h, n, host) && n in ids
    requires PacketOK(ids, h, Packet(n, VoteRequest(m)))
    requires |HandleRequestVote(host.raft, m).actions| != 1
    ensures var o := HandleRequestVote(host.raft, m);
            StepOK(ids, h, n, host, o, Record(ids, h, n, o.state, None))
  {
    var o := HandleRequestVote(host.raft, m);
    var h' := Record(ids, h, n, o.state, None);
    hide *;
    GrantOutcome(host.raft, m);
    JoinedOK(ids, h, n, host, m.term);
    GrantRecords(ids, h, n, host, m);
    SavedVote(ids, h, h', n, host.(raft := Joined(host.raft, m.term)), m.candidateId);
    GrantPacket(ids, h', n, host, m);
    SavedStep(ids, h, h', n, host, o);
  }

  lemma GrantPacket(ids: seq<NodeId>, h': History, n: NodeId, host: Host, m: RequestVote)
    requires |HandleRequestVote(host.raft, m).actions| != 1
    requires host.raft.id == n && Voted(h', n, m.term, m.candidateId)
    ensures var o := HandleRequestVote(host.raft, m);
            Persists(o.actions) && forall p | p in Sent(o.actions) :: PacketOK(ids, h', p)
  {
    var o := HandleRequestVote(host.raft, m);
    GrantOutcome(host.raft, m);
    assert o.actions[0] == PersistState;
    forall p | p in Sent(o.actions) ensures PacketOK(ids, h', p) {
      SentIffSend(o.actions, p);
    }
  }

  lemma SavedVote(ids: seq<NodeId>, h: History, h': History, n: NodeId, host: Host, c: NodeId)
    requires HistoryOK(ids, h) && HostOK(ids, h, n, host) && host.raft.role == Follower
    requires h'.reigns == h.reigns
    requires host.raft.persistent.votedFor.Some? ==> host.raft.persistent.votedFor.value == c
    requires Grows(h, h', n) && Voted(h', n, host.raft.persistent.currentTerm, c)
    requires forall k | k in h'.ballots && k !in h.ballots ::
               k == Slot(n, host.raft.persistent.currentTerm)
    ensures var p := host.raft.persistent.(votedFor := Some(c));
            HostOK(ids, h', n, host.(raft := host.raft.(persistent := p), disk := p))
  {
    var t0 := host.raft.persistent.currentTerm;
    if t0 in h.reigns { assert ReignOK(ids, h, t0); }
    GoodLogGrows(h, h', n, host.disk.log);
    forall t: Term | Slot(n, t) in h'.ballots
      ensures t <= host.raft.persistent.currentTerm
    {
      if Slot(n, t) in h.ballots { assert t <= host.disk.currentTerm; }
    }
  }

  // ── winning ─────────────────────────────────────────────────────────────────

  /** Election Safety, the step: a term that has a leader cannot elect another one. */
  lemma TermIsVacant(ids: seq<NodeId>, h: History, n: NodeId, t: Term, granted: set<NodeId>)
    requires Config(ids) && HistoryOK(ids, h)
    requires IsQuorum(ids, granted) && forall u | u in granted :: Voted(h, u, t, n)
    requires !(t in h.reigns && h.reigns[t].leader == n)
    ensures t !in h.reigns
  {
    if t in h.reigns {
      assert ReignOK(ids, h, t);
      var u := QuorumsIntersect(ids, granted, h.reigns[t].electors);
    }
  }

  lemma ElectorsAreQuorum(ids: seq<NodeId>, h: History, n: NodeId, t: Term, granted: set<NodeId>)
    requires IsQuorum(ids, granted) && forall u | u in granted :: Voted(h, u, t, n)
    ensures IsQuorum(ids, Electors(ids, h.ballots, t, n))
  {
    SubsetSize(granted, Electors(ids, h.ballots, t, n));
  }

  lemma NewLeader(ids: seq<NodeId>, h: History, h': History, n: NodeId, t: Term, log: Log)
    requires HistoryOK(ids, h) && n in ids && t !in h.reigns
    requires Voted(h, n, t, n) && h.ballots[Slot(n, t)].log == log
    requires IsQuorum(ids, Electors(ids, h.ballots, t, n))
    requires h'.reigns == h.reigns[t := Reign(n, Electors(ids, h.ballots, t, n), log, log)]
    requires h'.ballots == h.ballots
    ensures Grows(h, h', n) && HistoryOK(ids, h')
  {
    assert BallotOK(ids, h, Slot(n, t));
    hide HistoryOK;
    assert ReignOK(ids, h', t) by {
      forall i | 0 <= i < |log| ensures FromReign(h', log, i) { assert FromReign(h, log, i); }
    }
    hide *;
    NewReignGrows(ids, h, h', t, h'.reigns[t]);
  }

  predicate WonBy(s: RaftState, m: RequestVoteResponse) {
    HandleVoteResponse(s, m).actions != []
  }

  /** The votes counted once the reply is in. */
  function GrantsAfter(s: RaftState, m: RequestVoteResponse): set<NodeId>
    requires s.candidateState.Some?
  {
    s.candidateState.value.votesGranted + if m.voteGranted then {m.voteFrom} else {}
  }

  lemma VoteReplyOutcome(ids: seq<NodeId>, h: History, n: NodeId, host: Host,
                         m: RequestVoteResponse)
    requires HostOK(ids, h, n, host)
    ensures var s, o := host.raft, HandleVoteResponse(host.raft, m);
            if WonBy(s, m) then
              && s.role == Candidate && s.persistent.currentTerm == m.term
              && m.voteFrom in s.peers
              && |GrantsAfter(s, m)| >= Quorum(|s.peers|)
              && o.actions == [ResetHeartbeatTimer]
              && o.state.role == Leader && o.state.persistent == s.persistent
              && o.state.id == s.id && o.state.peers == s.peers
            else
              o.actions == [] && (o.state.role == Leader ==> o.state == s)
  {
    var s := host.raft;
    if s.role == Candidate && s.persistent.currentTerm == m.term {
      assert (if m.voteGranted then s.candidateState.value.votesGranted + {m.voteFrom}
              else s.candidateState.value.votesGranted) == GrantsAfter(s, m);
    }
  }

  lemma CandidateFacts(ids: seq<NodeId>, h: History, n: NodeId, host: Host)
    requires HistoryOK(ids, h) && HostOK(ids, h, n, host) && host.raft.role == Candidate
    ensures host.raft.id == n && RoleOK(host.raft)
    ensures host.raft.persistent == host.disk && host.disk.votedFor == Some(n)
    ensures var t := host.disk.currentTerm;
            && Voted(h, n, t, n)
            && h.ballots[Slot(n, t)].log == host.disk.log
            && !(t in h.reigns && h.reigns[t].leader == n)
  {
    OfficeHolderVotedForItself(ids, h, n, host);
  }

  lemma CountedVotesAreBallots(ids: seq<NodeId>, h: History, n: NodeId, host: Host,
                               m: RequestVoteResponse)
    requires Config(ids) && n in ids && HistoryOK(ids, h) && HostOK(ids, h, n, host)
    requires PacketOK(ids, h, Packet(n, VoteReply(m)))
    requires host.raft.role == Candidate && host.raft.persistent.currentTerm == m.term
    ensures forall u | u in GrantsAfter(host.raft, m) :: Voted(h, u, m.term, n)
    ensures |GrantsAfter(host.raft, m)| >= Quorum(|host.raft.peers|)
       ==> IsQuorum(ids, GrantsAfter(host.raft, m))
  {
    PeersAreTheOthers(ids, n);
    var granted := GrantsAfter(host.raft, m);
    assert forall u | u in granted :: Voted(h, u, m.term, n);
    hide HostOK, PacketOK, RoleOK, PeersOf, GoodLog, TermsAtMost, UpToDate;
    forall u | u in granted ensures u in ids {
      assert BallotOK(ids, h, Slot(u, m.term));
    }
    assert |host.raft.peers| == |ids| - 1;
  }

  lemma VoteReplyQuiet(ids: seq<NodeId>, h: History, n: NodeId, host: Host, m: RequestVoteResponse)
    requires HistoryOK(ids, h) && HostOK(ids, h, n, host)
    requires PacketOK(ids, h, Packet(n, VoteReply(m))) && !WonBy(host.raft, m)
    ensures HostOK(ids, h, n, host.(raft := HandleVoteResponse(host.raft, m).state))
  {
    VotesKeepStructure(host.raft, RequestVote(0, 0, 0, 0), m);
  }

  lemma SentNothing()
    ensures Sent([]) == [] && Sent([ResetHeartbeatTimer]) == []
    ensures !Persists([]) && !Persists([ResetHeartbeatTimer])
  {
    assert [ResetHeartbeatTimer][..0] == [];
  }

  lemma VoteReplyStep(ids: seq<NodeId>, h: History, n: NodeId, host: Host, m: RequestVoteResponse)
    requires Config(ids) && n in ids && HistoryOK(ids, h) && HostOK(ids, h, n, host)
    requires PacketOK(ids, h, Packet(n, VoteReply(m)))
    ensures var o := HandleVoteResponse(host.raft, m);
            StepOK(ids, h, n, host, o, Record(ids, h, n, o.state, None))
  {
    hide *;
    VoteReplyOutcome(ids, h, n, host, m);
    SentNothing();
    if WonBy(host.raft, m) {
      VoteReplyWins(ids, h, n, host, m);
    } else {
      VoteReplyQuiet(ids, h, n, host, m);
      QuietStep(ids, h, n, host, HandleVoteResponse(host.raft, m), None);
    }
  }

  lemma ElectionRecords(ids: seq<NodeId>, h: History, n: NodeId, post: RaftState,
                        granted: set<NodeId>)
    requires Config(ids) && n in ids && HistoryOK(ids, h)
    requires post.role == Leader
    requires var p := post.persistent;
             && p.votedFor == Some(n)
             && Voted(h, n, p.currentTerm, n)
             && h.ballots[Slot(n, p.currentTerm)].log == p.log
             && !(p.currentTerm in h.reigns && h.reigns[p.currentTerm].leader == n)
             && forall u | u in granted :: Voted(h, u, p.currentTerm, n)
    requires IsQuorum(ids, granted)
    ensures var h' := Record(ids, h, n, post, None);
            var t := post.persistent.currentTerm;
            && t !in h.reigns
            && Grows(h, h', n) && HistoryOK(ids, h') && h'.ballots == h.ballots
            && t in h'.reigns && h'.reigns[t].leader == n
            && h'.reigns[t].log == post.persistent.log
            && h'.acks == h.acks[Slot(n, t) := |post.persistent.log|]
  {
    var h' := Record(ids, h, n, post, None);
    var t, log := post.persistent.currentTerm, post.persistent.log;
    assert h'.ballots == h.ballots;
    TermIsVacant(ids, h, n, t, granted);
    ElectorsAreQuorum(ids, h, n, t, granted);
    assert h'.reigns == h.reigns[t := Reign(n, Electors(ids, h.ballots, t, n), log, log)];
    assert h'.acks == h.acks[Slot(n, t) := |log|];
    hide *;
    NewLeader(ids, h, h', n, t, log);
  }

  lemma LeaderInOffice(ids: seq<NodeId>, h: History, h': History, n: NodeId, host: Host,
                       post: RaftState)
    requires HostOK(ids, h, n, host) && Grows(h, h', n) && h'.ballots == h.ballots
    requires post.persistent == host.raft.persistent == host.disk
    requires post.id == n && post.peers == host.raft.peers && RoleOK(post) && post.role == Leader
    requires var t := post.persistent.currentTerm;
             t in h'.reigns && h'.reigns[t].leader == n && h'.reigns[t].log == post.persistent.log
    ensures HostOK(ids, h', n, host.(raft := post))
  {
    GoodLogGrows(h, h', n, host.disk.log);
  }

  lemma VoteReplyWins(ids: seq<NodeId>, h: History, n: NodeId, host: Host, m: RequestVoteResponse)
    requires Config(ids) && n in ids && HistoryOK(ids, h) && HostOK(ids, h, n, host)
    requires PacketOK(ids, h, Packet(n, VoteReply(m))) && WonBy(host.raft, m)
    ensures var o := HandleVoteResponse(host.raft, m);
            StepOK(ids, h, n, host, o, Record(ids, h, n, o.state, None))
  {
    hide *;
    var o := HandleVoteResponse(host.raft, m);
    var h' := Record(ids, h, n, o.state, None);
    VoteReplyOutcome(ids, h, n, host, m);
    CandidateFacts(ids, h, n, host);
    CountedVotesAreBallots(ids, h, n, host, m);
    ElectionRecords(ids, h, n, o.state, GrantsAfter(host.raft, m));
    VotesKeepStructure(host.raft, RequestVote(0, 0, 0, 0), m);
    SentNothing();
    LeaderInOffice(ids, h, h', n, host, o.state);
    VolatileStep(ids, h, h', n, host, o);
  }

  // ── standing for election ───────────────────────────────────────────────────

  /** The node as a candidate of the next term. */
  function Standing(s: RaftState): RaftState {
    s.(role := Candidate,
       persistent := s.persistent.(currentTerm := s.persistent.currentTerm + 1,
                                   votedFor := Some(s.id)),
       leaderState := None,
       candidateState := Some(CandidateState({s.id}, {s.id})))
  }

  function WithBallot(h: History, n: NodeId, t: Term, log: Log): History {
    h.(ballots := h.ballots[Slot(n, t) := Ballot(n, log)])
  }

  lemma CandidacyRecords(ids: seq<NodeId>, h: History, n: NodeId, host: Host)
    requires n in ids && HistoryOK(ids, h) && HostOK(ids, h, n, host)
    ensures var t := host.raft.persistent.currentTerm + 1;
            var h1 := WithBallot(h, n, t, host.disk.log);
            && Slot(n, t) !in h.ballots
            && !(t in h.reigns && h.reigns[t].leader == n)
            && Grows(h, h1, n) && HistoryOK(ids, h1)
  {
    var t := host.raft.persistent.currentTerm + 1;
    var h1 := WithBallot(h, n, t, host.disk.log);
    NotYetVoted(ids, h, n, host, t);
    if t in h.reigns { assert ReignOK(ids, h, t); }
    assert BallotOK(ids, h1, Slot(n, t)) by {
      forall i | 0 <= i < |host.disk.log| ensures FromReign(h1, host.disk.log, i) {
        assert FromReign(h, host.disk.log, i);
      }
    }
    hide HistoryOK, BallotOK, ReignOK, HostOK;
    NewBallotGrows(ids, h, h1, Slot(n, t), Ballot(n, host.disk.log));
  }

  lemma CandidateVotes(ids: seq<NodeId>, h: History, n: NodeId, host: Host)
    requires HostOK(ids, h, n, host)
    requires var s1 := Standing(host.raft);
             Slot(n, s1.persistent.currentTerm) !in h.ballots
             && !(s1.persistent.currentTerm in h.reigns
                  && h.reigns[s1.persistent.currentTerm].leader == n)
    ensures var s1 := Standing(host.raft);
            var h1 := WithBallot(h, n, s1.persistent.currentTerm, host.disk.log);
            VotesOK(h1, n, s1.persistent) && OfficeOK(h1, n, s1)
  {
    var s1 := Standing(host.raft);
    var t1 := s1.persistent.currentTerm;
    var h1 := WithBallot(h, n, t1, host.disk.log);
    forall t: Term | Slot(n, t) in h1.ballots
      ensures t <= t1 && (t == t1 ==> h1.ballots[Slot(n, t)].candidate == n)
    {
      if t != t1 { assert Slot(n, t) in h.ballots; }
    }
  }

  lemma CandidateStands(ids: seq<NodeId>, h: History, n: NodeId, host: Host)
    requires n in ids && HistoryOK(ids, h) && HostOK(ids, h, n, host)
    requires host.raft.role != Leader
    ensures var s1 := Standing(host.raft);
            var h1 := WithBallot(h, n, s1.persistent.currentTerm, host.disk.log);
            HostOK(ids, h1, n, host.(raft := s1, disk := s1.persistent))
  {
    var s1 := Standing(host.raft);
    var h1 := WithBallot(h, n, s1.persistent.currentTerm, host.disk.log);
    hide *;
    CandidacyRecords(ids, h, n, host);
    NextTerm(host.raft);
    CandidateVotes(ids, h, n, host);
    CandidateShape(ids, h, n, host);
    GoodLogGrows(h, h1, n, host.disk.log);
    SavedHost(ids, h1, n, host.(raft := s1, disk := s1.persistent));
  }

  lemma CandidateShape(ids: seq<NodeId>, h: History, n: NodeId, host: Host)
    requires HostOK(ids, h, n, host)
    ensures var s1 := Standing(host.raft);
            && s1.id == n && s1.peers == PeersOf(ids, n) && RoleOK(s1)
            && s1.persistent.log == host.disk.log
            && GoodLog(h, host.disk.log)
            && TermsAtMost(host.disk.log, s1.persistent.currentTerm)
  {
  }

  /** A host is in order as soon as these hold of what it has saved. */
  lemma SavedHost(ids: seq<NodeId>, h: History, n: NodeId, host: Host)
    requires host.raft.persistent == host.disk
    requires host.raft.id == n && host.raft.peers == PeersOf(ids, n) && RoleOK(host.raft)
    requires GoodLog(h, host.disk.log) && TermsAtMost(host.disk.log, host.disk.currentTerm)
    requires VotesOK(h, n, host.disk) && OfficeOK(h, n, host.raft)
    requires ReignSaved(h, n, host.disk)
    ensures HostOK(ids, h, n, host)
  {
  }

  lemma VoteRequestsOK(ids: seq<NodeId>, h: History, n: NodeId, s: RaftState, o: Outcome)
    requires Distinct(ids) && s.id == n && s.peers == PeersOf(ids, n)
    requires Voted(h, n, s.persistent.currentTerm, n)
    requires h.ballots[Slot(n, s.persistent.currentTerm)].log == s.persistent.log
    requires o.actions == [ResetElectionTimer, PersistState] +
               seq(|s.peers|, i requires 0 <= i < |s.peers| => VoteAction(s, s.peers[i]))
    ensures Persists(o.actions) && forall p | p in Sent(o.actions) :: PacketOK(ids, h, p)
  {
    PeersAreTheOthers(ids, n);
    assert o.actions[1] == PersistState;
    forall p | p in Sent(o.actions) ensures PacketOK(ids, h, p) {
      SentIffSend(o.actions, p);
      var i :| 0 <= i < |o.actions| && o.actions[i] == Send(p.to, p.msg);
      assert o.actions[i] == VoteAction(s, s.peers[i - 2]);
    }
  }

  lemma StandingOutcome(s: RaftState)
    requires s.role != Leader
    ensures var s1 := Standing(s);
            HandleElectionTimeout(s) ==
              if s.peers == [] then Outcome(BecomeLeader(s1), [ResetHeartbeatTimer, PersistState])
              else Outcome(s1, [ResetElectionTimer, PersistState] +
                seq(|s1.peers|, i requires 0 <= i < |s1.peers| => VoteAction(s1, s1.peers[i])))
  {
    var s1 := Standing(s);
    assert seq(|s1.peers|, i requires 0 <= i < |s1.peers| => VoteAction(s1, s1.peers[i]))
        == seq(|s.peers|, i requires 0 <= i < |s.peers| => VoteAction(s1, s.peers[i]));
  }

  lemma StandingFacts(ids: seq<NodeId>, h: History, n: NodeId, host: Host)
    requires HostOK(ids, h, n, host)
    requires Slot(n, host.raft.persistent.currentTerm + 1) !in h.ballots
    ensures var s1 := Standing(host.raft);
            var h1 := WithBallot(h, n, s1.persistent.currentTerm, host.disk.log);
            && s1.id == n && s1.peers == PeersOf(ids, n)
            && s1.persistent.log == host.disk.log
            && Voted(h1, n, s1.persistent.currentTerm, n)
            && h1.ballots[Slot(n, s1.persistent.currentTerm)].log == s1.persistent.log
            && Record(ids, h, n, s1, None) == h1
            && Record(ids, h, n, BecomeLeader(s1), None)
               == Record(ids, h1, n, BecomeLeader(s1), None)
  {
  }

  lemma ConfigIsDistinct(ids: seq<NodeId>)
    requires Config(ids)
    ensures Distinct(ids)
  {
  }

  lemma ElectionWithPeers(ids: seq<NodeId>, h: History, n: NodeId, host: Host)
    requires Config(ids) && n in ids && HistoryOK(ids, h) && HostOK(ids, h, n, host)
    requires host.raft.role != Leader && host.raft.peers != []
    ensures var o := HandleElectionTimeout(host.raft);
            StepOK(ids, h, n, host, o, Record(ids, h, n, o.state, None))
  {
    hide *;
    var o := HandleElectionTimeout(host.raft);
    var s1 := Standing(host.raft);
    var h1 := WithBallot(h, n, s1.persistent.currentTerm, host.disk.log);
    ConfigIsDistinct(ids);
    StandingOutcome(host.raft);
    CandidacyRecords(ids, h, n, host);
    NextTerm(host.raft);
    StandingFacts(ids, h, n, host);
    CandidateStands(ids, h, n, host);
    VoteRequestsOK(ids, h1, n, s1, o);
    SavedStep(ids, h, h1, n, host, o);
  }

  lemma NextTerm(s: RaftState)
    ensures Standing(s).persistent.currentTerm == s.persistent.currentTerm + 1
    ensures var s1 := BecomeLeader(Standing(s));
            && s1.persistent == Standing(s).persistent && s1.role == Leader
            && s1.id == s.id && s1.peers == s.peers && RoleOK(s1)
    ensures Standing(s).role == Candidate && Standing(s).peers == s.peers && Standing(s).id == s.id
  {
  }

  lemma AloneIsQuorum(ids: seq<NodeId>, n: NodeId)
    requires Config(ids) && n in ids && PeersOf(ids, n) == []
    ensures IsQuorum(ids, {n})
  {
    PeersAreTheOthers(ids, n);
  }

  lemma OnlyTimers(actions: seq<Action>)
    requires actions == [ResetHeartbeatTimer, PersistState]
    ensures Sent(actions) == [] && Persists(actions)
  {
    assert actions[1] == PersistState;
    assert actions[..1] == [ResetHeartbeatTimer];
    SentNothing();
  }

  /** The only node of a cluster elects itself. */
  lemma ElectionAlone(ids: seq<NodeId>, h: History, n: NodeId, host: Host)
    requires Config(ids) && n in ids && HistoryOK(ids, h) && HostOK(ids, h, n, host)
    requires host.raft.role != Leader && host.raft.peers == []
    ensures var o := HandleElectionTimeout(host.raft);
            StepOK(ids, h, n, host, o, Record(ids, h, n, o.state, None))
  {
    hide *;
    var o := HandleElectionTimeout(host.raft);
    var s1 := Standing(host.raft);
    var h1 := WithBallot(h, n, s1.persistent.currentTerm, host.disk.log);
    var h' := Record(ids, h, n, o.state, None);
    StandingOutcome(host.raft);
    CandidacyRecords(ids, h, n, host);
    NextTerm(host.raft);
    StandingFacts(ids, h, n, host);
    CandidateStands(ids, h, n, host);
    AloneIsQuorum(ids, n);
    OnlyTimers(o.actions);
    var host1 := host.(raft := s1, disk := s1.persistent);
    CandidateFacts(ids, h1, n, host1);
    ElectionRecords(ids, h1, n, o.state, {n});
    LeaderInOffice(ids, h1, h', n, host1, o.state);
    GrowsTwice(h, h1, h', n);
    SavedStep(ids, h, h', n, host, o);
  }

  lemma ElectionStep(ids: seq<NodeId>, h: History, n: NodeId, host: Host)
    requires Config(ids) && n in ids && HistoryOK(ids, h) && HostOK(ids, h, n, host)
    ensures var o := HandleElectionTimeout(host.raft);
            StepOK(ids, h, n, host, o, Record(ids, h, n, o.state, None))
  {
    if host.raft.role == Leader {
      SentNothing();
      QuietStep(ids, h, n, host, HandleElectionTimeout(host.raft), None);
    } else if host.raft.peers == [] {
      ElectionAlone(ids, h, n, host);
    } else {
      ElectionWithPeers(ids, h, n, host);
    }
  }

  // ── accepting entries ───────────────────────────────────────────────────────

  /** A candidate gives way to the leader of its term. */
  function Yielded(s: RaftState): RaftState {
    if s.role == Candidate then s.(role := Follower, candidateState := None) else s
  }

  lemma AppendOutcome(rule: AckRule, s: RaftState, m: AppendEntries)
    ensures var o := HandleAppendEntries(rule, s, m);
            var s2 := Yielded(Joined(s, m.term));
            var log := Reconcile(s.persistent.log, m.entries);
            && (Accepts(s, m) ==>
                  && o.state.persistent == s2.persistent.(log := log)
                  && o.state.id == s2.id && o.state.peers == s2.peers && o.state.role == s2.role
                  && o.state.candidateState == s2.candidateState
                  && o.state.leaderState == s2.leaderState
                  && s2.persistent.currentTerm == m.term
                  && |o.actions| >= 3 && o.actions[0] == PersistState
                  && o.actions[1] == ResetElectionTimer
                  && o.actions[2] == AppendResponse(o.state, m.leaderId, true,
                                                    AckIndex(rule, log, m))
                  && o.actions[3..] == ApplyBetween(log, s.volatile.lastApplied,
                                                    o.state.volatile.commitIndex))
            && (!Accepts(s, m) ==>
                  && o.state == (if m.term < s.persistent.currentTerm then s else s2)
                  && o.actions == [AppendResponse(o.state, m.leaderId, false, 0)])
  {
  }

  lemma YieldedOK(ids: seq<NodeId>, h: History, n: NodeId, host: Host, m: AppendEntries)
    requires HistoryOK(ids, h) && HostOK(ids, h, n, host)
    requires m.term in h.reigns && h.reigns[m.term].leader != n
    ensures var s2 := Yielded(Joined(host.raft, m.term));
            && HostOK(ids, h, n, host.(raft := s2))
            && (m.term >= host.raft.persistent.currentTerm ==>
                  s2.persistent.currentTerm == m.term && s2.role == Follower)
            && s2.persistent.log == host.disk.log
            && s2.id == n && s2.peers == PeersOf(ids, n) && RoleOK(s2)
            && host.raft.persistent.log == host.disk.log && RoleOK(host.raft)
            && GoodLog(h, host.disk.log)
            && VotesOK(h, n, s2.persistent)
            && (s2.persistent.votedFor.Some? ==>
                  Slot(n, s2.persistent.currentTerm) in h.ballots)
  {
    JoinedOK(ids, h, n, host, m.term);
  }

  lemma AppendRejected(ids: seq<NodeId>, rule: AckRule, h: History, n: NodeId, host: Host,
                       m: AppendEntries)
    requires HistoryOK(ids, h) && HostOK(ids, h, n, host)
    requires PacketOK(ids, h, Packet(n, Append(m))) && !Accepts(host.raft, m)
    ensures var o := HandleAppendEntries(rule, host.raft, m);
            StepOK(ids, h, n, host, o, Record(ids, h, n, o.state, None))
  {
    var o := HandleAppendEntries(rule, host.raft, m);
    hide HistoryOK, HostOK, HandleAppendEntries, Accepts, Record;
    AppendOutcome(rule, host.raft, m);
    YieldedOK(ids, h, n, host, m);
    SentOne(o.actions[0].to, o.actions[0].msg);
    QuietStep(ids, h, n, host, o, None);
  }

  /** The message hangs on the log exactly where the leader's log does. */
  lemma AcceptedOverlap(ids: seq<NodeId>, h: History, log: Log, m: AppendEntries)
    requires HistoryOK(ids, h) && GoodLog(h, log)
    requires m.term in h.reigns && (Probe(m) || SliceOf(m, h.reigns[m.term]))
    requires LogMatches(log, m.prevLogIndex, m.prevLogTerm)
    ensures SliceOf(m, h.reigns[m.term])
    ensures m.prevLogIndex <= |log| && Contiguous(log)
    ensures var leader, p := h.reigns[m.term].log, m.prevLogIndex;
            && GoodLog(h, leader)
            && EndIndex(m) == p + |m.entries| <= |leader|
            && m.entries == leader[p..EndIndex(m)]
            && log[..p] == leader[..p]
  {
    LogMatchesIsTermAt(log, m.prevLogIndex, m.prevLogTerm);
    assert ReignOK(ids, h, m.term);
    var r := h.reigns[m.term];
    if m.prevLogIndex > 0 {
      assert !Probe(m);
      SameEntrySamePast(h, log, r.log, m.prevLogIndex - 1);
    }
  }

  lemma MessageEntries(h: History, log: Log, m: AppendEntries, r: Reign)
    requires SliceOf(m, r) && GoodLog(h, r.log) && GoodLog(h, log)
    ensures Follows(m.entries, m.prevLogIndex)
    ensures SameTermSameEntry(log, m.prevLogIndex, m.entries)
  {
    var p := m.prevLogIndex;
    forall j | 0 <= j < |m.entries|
      ensures m.entries[j].index == p + 1 + j
      ensures p + j < |log| && log[p + j].term == m.entries[j].term ==> log[p + j] == m.entries[j]
    {
      assert m.entries[j] == r.log[p + j];
      if p + j < |log| && log[p + j].term == m.entries[j].term {
        SameEntrySamePast(h, log, r.log, p + j);
        assert log[..p + j + 1][p + j] == r.log[..p + j + 1][p + j];
      }
    }
  }

  lemma SliceOrPrefix(log: Log, leader: Log, p: nat, e: nat)
    requires p <= e <= |leader| && p <= |log| && log[..p] == leader[..p]
    ensures e <= |log| && log[p..e] == leader[p..e] <==> leader[..e] <= log
    ensures log[..p] + leader[p..e] == leader[..e]
  {
    assert leader[..e] == leader[..p] + leader[p..e];
    if e <= |log| {
      assert log[..e] == log[..p] + log[p..e];
    }
    if leader[..e] <= log {
      assert log[..e] == leader[..e];
      assert log[..e][p..] == log[p..e] && leader[..e][p..] == leader[p..e];
    }
  }

  /** After an accepted request the log is the old one, if that has the whole message, or
      exactly the leader's log up to the end of the message. */
  lemma AcceptedLog(ids: seq<NodeId>, h: History, log: Log, m: AppendEntries)
    requires HistoryOK(ids, h) && GoodLog(h, log)
    requires m.term in h.reigns && (Probe(m) || SliceOf(m, h.reigns[m.term]))
    requires LogMatches(log, m.prevLogIndex, m.prevLogTerm)
    ensures SliceOf(m, h.reigns[m.term])
    ensures var vouched := h.reigns[m.term].log[..EndIndex(m)];
            Reconcile(log, m.entries) == if vouched <= log then log else vouched
  {
    hide *;
    var r := h.reigns[m.term];
    AcceptedOverlap(ids, h, log, m);
    MessageEntries(h, log, m, r);
    ReconcileRefinesSpecification(log, m.prevLogIndex, m.entries);
    SliceOrPrefix(log, r.log, m.prevLogIndex, EndIndex(m));
  }

  lemma GoodAcceptedLog(ids: seq<NodeId>, h: History, host: Host, n: NodeId, m: AppendEntries)
    requires HistoryOK(ids, h) && HostOK(ids, h, n, host)
    requires PacketOK(ids, h, Packet(n, Append(m))) && Accepts(host.raft, m)
    ensures var log := Reconcile(host.disk.log, m.entries);
            GoodLog(h, log) && TermsAtMost(log, m.term)
  {
    AcceptedLog(ids, h, host.disk.log, m);
    var r := h.reigns[m.term];
    assert ReignOK(ids, h, m.term);
    GoodPrefix(h, r.log, EndIndex(m));
    assert TermsAtMost(r.log, m.term);
  }

  lemma AppendReplyOnly(ids: seq<NodeId>, rule: AckRule, h': History, s: RaftState,
                        m: AppendEntries)
    requires Accepts(s, m)
    ensures var o := HandleAppendEntries(rule, s, m);
            Persists(o.actions) && forall p | p in Sent(o.actions) :: PacketOK(ids, h', p)
  {
    var o := HandleAppendEntries(rule, s, m);
    var log := Reconcile(s.persistent.log, m.entries);
    AppendOutcome(rule, s, m);
    ApplyBetweenApplies(log, s.volatile.lastApplied, o.state.volatile.commitIndex);
    hide HandleAppendEntries, Reconcile;
    forall i | 3 <= i < |o.actions| ensures o.actions[i].ApplyCommand? {
      assert o.actions[3..][i - 3] in o.actions[3..];
    }
    forall p | p in Sent(o.actions) ensures PacketOK(ids, h', p) {
      SentIffSend(o.actions, p);
    }
  }

  lemma AppendAccepted(ids: seq<NodeId>, rule: AckRule, h: History, n: NodeId, host: Host,
                       m: AppendEntries, ack: Option<LogIndex>)
    requires HistoryOK(ids, h) && HostOK(ids, h, n, host)
    requires PacketOK(ids, h, Packet(n, Append(m))) && Accepts(host.raft, m)
    ensures var o := HandleAppendEntries(rule, host.raft, m);
            StepOK(ids, h, n, host, o, Record(ids, h, n, o.state, ack))
  {
    var o := HandleAppendEntries(rule, host.raft, m);
    var h' := Record(ids, h, n, o.state, ack);
    hide HistoryOK, HostOK, HandleAppendEntries, Record, Accepts, StepOK;
    AppendFacts(ids, rule, h, n, host, m);
    hide *;
    NothingToRecord(ids, h, n, host, o.state, ack);
    SavedHost(ids, h, n, host.(raft := o.state, disk := o.state.persistent));
    HostUnderSameHistory(ids, h, h', n, host.(raft := o.state, disk := o.state.persistent));
    AppendReplyOnly(ids, rule, h', host.raft, m);
    SavedStep(ids, h, h', n, host, o);
  }

  lemma AppendFacts(ids: seq<NodeId>, rule: AckRule, h: History, n: NodeId, host: Host,
                    m: AppendEntries)
    requires HistoryOK(ids, h) && HostOK(ids, h, n, host)
    requires PacketOK(ids, h, Packet(n, Append(m))) && Accepts(host.raft, m)
    requires m.term in h.reigns && h.reigns[m.term].leader != n
    ensures var s := HandleAppendEntries(rule, host.raft, m).state;
            && s.id == n && s.peers == PeersOf(ids, n) && RoleOK(s) && s.role == Follower
            && GoodLog(h, s.persistent.log)
            && TermsAtMost(s.persistent.log, s.persistent.currentTerm)
            && VotesOK(h, n, s.persistent) && OfficeOK(h, n, s)
            && ReignSaved(h, n, s.persistent)
            && (s.persistent.votedFor.Some? ==> Slot(n, s.persistent.currentTerm) in h.ballots)
  {
    hide *;
    var s2 := Yielded(Joined(host.raft, m.term));
    AppendOutcome(rule, host.raft, m);
    AcceptedInTime(host.raft, m);
    YieldedOK(ids, h, n, host, m);
    GoodAcceptedLog(ids, h, host, n, m);
    AppendsKeepStructure(rule, host.raft, m);
    var s := HandleAppendEntries(rule, host.raft, m).state;
    VotesIgnoreLog(h, n, s2.persistent, s.persistent.log);
    FollowersHoldNoOffice(h, n, s);
    OthersReign(h, n, s.persistent);
  }

  lemma AcceptedInTime(s: RaftState, m: AppendEntries)
    requires Accepts(s, m)
    ensures m.term >= s.persistent.currentTerm
  {
  }

  lemma VotesIgnoreLog(h: History, n: NodeId, p: PersistentState, log: Log)
    requires VotesOK(h, n, p)
    ensures VotesOK(h, n, p.(log := log))
  {
  }

  lemma FollowersHoldNoOffice(h: History, n: NodeId, s: RaftState)
    requires s.role == Follower
    ensures OfficeOK(h, n, s)
  {
  }

  lemma OthersReign(h: History, n: NodeId, disk: PersistentState)
    requires disk.currentTerm in h.reigns ==> h.reigns[disk.currentTerm].leader != n
    ensures ReignSaved(h, n, disk)
  {
  }

  lemma AppendStep(ids: seq<NodeId>, rule: AckRule, h: History, n: NodeId, host: Host,
                   m: AppendEntries)
    requires HistoryOK(ids, h) && HostOK(ids, h, n, host)
    requires PacketOK(ids, h, Packet(n, Append(m)))
    ensures var o := HandleAppendEntries(rule, host.raft, m);
            StepOK(ids, h, n, host, o,
                   Record(ids, h, n, o.state, Acknowledges(rule, host.raft, Receive(Append(m)))))
  {
    var ack := Acknowledges(rule, host.raft, Receive(Append(m)));
    hide HistoryOK, HostOK, PacketOK, HandleAppendEntries, StepOK, Record, Accepts;
    if Accepts(host.raft, m) {
      AppendAccepted(ids, rule, h, n, host, m, ack);
    } else {
      AppendRejected(ids, rule, h, n, host, m);
    }
  }

  // ── the leader's side ───────────────────────────────────────────────────────

  lemma AppendReplyOutcome(s: RaftState, m: AppendEntriesResponse)
    requires VectorsFit(s)
    ensures var o := HandleAppendEntriesResponse(s, m);
            && !Persists(o.actions) && Sent(o.actions) == []
            && (if m.term > s.persistent.currentTerm then o.state == StepDown(s, m.term)
                else o.state.persistent == s.persistent && o.state.role == s.role
                     && o.state.candidateState == s.candidateState)
            && o.state.id == s.id && o.state.peers == s.peers
  {
    var o := HandleAppendEntriesResponse(s, m);
    OnlyApplies(s, m);
    hide HandleAppendEntriesResponse;
    SendsNothing(o.actions);
  }

  lemma SameOfficeHost(ids: seq<NodeId>, h: History, n: NodeId, host: Host, post: RaftState)
    requires HostOK(ids, h, n, host)
    requires post.persistent == host.raft.persistent && post.role == host.raft.role
    requires post.candidateState == host.raft.candidateState
    requires post.id == host.raft.id && post.peers == host.raft.peers && RoleOK(post)
    ensures HostOK(ids, h, n, host.(raft := post))
  {
  }

  lemma AppendReplyStep(ids: seq<NodeId>, h: History, n: NodeId, host: Host,
                        m: AppendEntriesResponse)
    requires HistoryOK(ids, h) && HostOK(ids, h, n, host)
    ensures var o := HandleAppendEntriesResponse(host.raft, m);
            StepOK(ids, h, n, host, o, Record(ids, h, n, o.state, None))
  {
    assert RoleOK(host.raft) && VectorsFit(host.raft);
    var o := HandleAppendEntriesResponse(host.raft, m);
    assert StepDown(host.raft, m.term).role == Follower;
    hide *;
    AppendReplyOutcome(host.raft, m);
    AppendRepliesKeepStructure(host.raft, m);
    if m.term > host.raft.persistent.currentTerm {
      SteppedDown(ids, h, n, host, m.term);
    } else {
      SameOfficeHost(ids, h, n, host, o.state);
    }
    QuietStep(ids, h, n, host, o, None);
  }

  /** The fields of a request, with the searches resolved. */
  lemma RequestFields(s: RaftState, i: nat)
    requires VectorsFit(s) && s.leaderState.Some? && i < |s.peers|
    requires Contiguous(s.persistent.log) && s.leaderState.value.nextIndex[i] >= 1
    ensures var log, prev := s.persistent.log, s.leaderState.value.nextIndex[i] - 1;
            AppendEntriesForPeer(s, i) == Send(s.peers[i], Append(AppendEntries(
              s.persistent.currentTerm, s.id, prev, TermAt(log, prev),
              if prev < |log| then log[prev..] else [], s.volatile.commitIndex)))
  {
    var next := s.leaderState.value.nextIndex[i];
    PrevLogInfoIsTermAt(s.persistent.log, next);
    EntriesFromIsSuffix(s.persistent.log, next);
  }

  lemma SuffixIsSlice(m: AppendEntries, r: Reign)
    requires r.start <= r.log && m.prevLogTerm == TermAt(r.log, m.prevLogIndex)
    requires m.entries == if m.prevLogIndex < |r.log| then r.log[m.prevLogIndex..] else []
    ensures EndIndex(m) >= |r.log|
    ensures if m.prevLogIndex <= |r.log| then EndIndex(m) == |r.log| && SliceOf(m, r) else Probe(m)
  {
  }

  /** Every request on the wire is a slice of the leader's log up to its end, or a probe. */
  lemma RequestIsSlice(ids: seq<NodeId>, h: History, n: NodeId, s: RaftState, i: nat)
    requires Distinct(ids) && s.id == n && s.peers == PeersOf(ids, n) && i < |s.peers|
    requires RoleOK(s) && s.role == Leader
    requires var t := s.persistent.currentTerm;
             && t in h.reigns && h.reigns[t].leader == n
             && h.reigns[t].log == s.persistent.log
             && h.reigns[t].start <= h.reigns[t].log
    requires Contiguous(s.persistent.log)
    ensures var a := AppendEntriesForPeer(s, i);
            && PacketOK(ids, h, Packet(a.to, a.msg))
            && a.to == s.peers[i] && a.msg.Append?
            && a.msg.ae.term == s.persistent.currentTerm
            && a.msg.ae.leaderCommit == s.volatile.commitIndex
            && EndIndex(a.msg.ae) >= |s.persistent.log|
            && (a.msg.ae.prevLogIndex <= |s.persistent.log| ==>
                  SliceOf(a.msg.ae, h.reigns[s.persistent.currentTerm]))
  {
    PeersAreTheOthers(ids, n);
    RequestFields(s, i);
    var m := AppendEntriesForPeer(s, i).msg.ae;
    hide AppendEntriesForPeer, RoleOK;
    SuffixIsSlice(m, h.reigns[s.persistent.currentTerm]);
  }

  lemma LeaderFacts(ids: seq<NodeId>, h: History, n: NodeId, host: Host)
    requires HistoryOK(ids, h) && HostOK(ids, h, n, host) && host.raft.role == Leader
    ensures host.raft.id == n && host.raft.peers == PeersOf(ids, n) && RoleOK(host.raft)
    ensures host.raft.persistent == host.disk && Shape(host.disk.log)
    ensures TermsAtMost(host.disk.log, host.disk.currentTerm)
    ensures VotesOK(h, n, host.disk) && host.disk.votedFor == Some(n)
    ensures var t := host.disk.currentTerm;
            && t in h.reigns && h.reigns[t].leader == n && h.reigns[t].log == host.disk.log
            && ReignOK(ids, h, t) && h.reigns[t].start <= h.reigns[t].log
            && GoodLog(h, host.disk.log)
  {
    OfficeHolderVotedForItself(ids, h, n, host);
  }

  lemma HeartbeatPacket(s: RaftState, p: Packet) returns (i: nat)
    requires VectorsFit(s) && s.role == Leader && p in Sent(HandleHeartbeatTimeout(s).actions)
    ensures i < |s.peers| && AppendEntriesForPeer(s, i) == Send(p.to, p.msg)
  {
    var actions := HandleHeartbeatTimeout(s).actions;
    SentIffSend(actions, p);
    var k :| 0 <= k < |actions| && actions[k] == Send(p.to, p.msg);
    i := k - 1;
  }

  lemma HeartbeatsOK(ids: seq<NodeId>, h: History, n: NodeId, host: Host)
    requires Distinct(ids) && HistoryOK(ids, h) && HostOK(ids, h, n, host)
    requires host.raft.role == Leader && VectorsFit(host.raft)
    ensures var o := HandleHeartbeatTimeout(host.raft);
            forall p | p in Sent(o.actions) :: PacketOK(ids, h, p)
  {
    LeaderFacts(ids, h, n, host);
    assert Contiguous(host.raft.persistent.log);
    hide *;
    forall p | p in Sent(HandleHeartbeatTimeout(host.raft).actions) ensures PacketOK(ids, h, p) {
      var i := HeartbeatPacket(host.raft, p);
      RequestIsSlice(ids, h, n, host.raft, i);
    }
  }

  lemma HeartbeatsOnlySend(s: RaftState)
    requires VectorsFit(s)
    ensures !Persists(HandleHeartbeatTimeout(s).actions)
    ensures Applied(HandleHeartbeatTimeout(s).actions) == []
    ensures HandleHeartbeatTimeout(s).state == s
  {
    AppliedNothing(HandleHeartbeatTimeout(s).actions);
  }

  lemma HeartbeatStep(ids: seq<NodeId>, h: History, n: NodeId, host: Host)
    requires Config(ids) && HistoryOK(ids, h) && HostOK(ids, h, n, host)
    ensures var o := HandleHeartbeatTimeout(host.raft);
            StepOK(ids, h, n, host, o, Record(ids, h, n, o.state, None))
  {
    assert VectorsFit(host.raft);
    var o := HandleHeartbeatTimeout(host.raft);
    if host.raft.role != Leader {
      SentNothing();
    } else {
      HeartbeatsOK(ids, h, n, host);
    }
    hide *;
    HeartbeatsOnlySend(host.raft);
    QuietStep(ids, h, n, host, o, None);
  }

  // ── client commands ─────────────────────────────────────────────────────────

  function Extended(s: RaftState, command: Command): Log {
    s.persistent.log + [LogEntry(s.persistent.currentTerm, LastLogIndex(s.persistent.log) + 1,
                                 command)]
  }

  lemma ClientOutcome(s: RaftState, command: Command)
    requires s.role == Leader
    ensures var o := HandleClientRequest(s, command);
            && o.state.persistent == s.persistent.(log := Extended(s, command))
            && o.state.role == Leader && o.state.id == s.id && o.state.peers == s.peers
            && o.state.candidateState == s.candidateState && o.state.leaderState == s.leaderState
            && Persists(o.actions) && Sent(o.actions) == []
  {
    var o := HandleClientRequest(s, command);
    ApplyBetweenApplies(Extended(s, command), s.volatile.lastApplied,
                        o.state.volatile.commitIndex);
    assert o.actions[1] == PersistState;
    SendsNothing(o.actions);
  }

  lemma ExtendedShape(log: Log, e: LogEntry)
    requires Shape(log) && TermsAtMost(log, e.term) && 1 <= e.term && e.index == |log| + 1
    ensures Shape(log + [e]) && TermsAtMost(log + [e], e.term)
  {
  }

  lemma GoodLogAppends(h: History, log: Log, e: LogEntry)
    requires GoodLog(h, log) && Shape(log + [e])
    requires e.term in h.reigns && log + [e] <= h.reigns[e.term].log
    ensures GoodLog(h, log + [e])
  {
    var longer := log + [e];
    forall i | 0 <= i < |longer| ensures FromReign(h, longer, i) {
      if i < |log| {
        assert FromReign(h, log, i);
        assert longer[..i + 1] == log[..i + 1];
      } else {
        assert longer[..i + 1] == longer;
      }
    }
  }

  lemma ReignExtends(ids: seq<NodeId>, h: History, h': History, t: Term, e: LogEntry)
    requires t in h.reigns && ReignOK(ids, h, t) && e.term == t
    requires t in h'.reigns && h'.ballots == h.ballots
    requires h'.reigns[t] == h.reigns[t].(log := h.reigns[t].log + [e])
    requires GoodLog(h', h'.reigns[t].log)
    ensures ReignOK(ids, h', t)
  {
    hide GoodLog;
    forall u | u in h'.reigns[t].electors ensures Voted(h', u, t, h'.reigns[t].leader) {
      assert Voted(h, u, t, h.reigns[t].leader);
    }
  }

  lemma LongerReign(h: History, h': History, t: Term, log: Log)
    requires t in h.reigns && h.reigns[t].log <= log
    requires h'.ballots == h.ballots && h'.reigns == h.reigns[t := h.reigns[t].(log := log)]
    ensures Grows(h, h', h.reigns[t].leader) && SameOffice(h.reigns[t], h'.reigns[t])
  {
  }

  /** The leader's own log grows by an entry of its term. */
  lemma ExtendedIsGood(ids: seq<NodeId>, h: History, h': History, t: Term, e: LogEntry)
    requires HistoryOK(ids, h) && t in h.reigns && ReignOK(ids, h, t) && e.term == t
    requires var log := h.reigns[t].log;
             && GoodLog(h, log) && TermsAtMost(log, t) && e.index == |log| + 1
             && h'.ballots == h.ballots
             && h'.reigns == h.reigns[t := h.reigns[t].(log := log + [e])]
    ensures Grows(h, h', h.reigns[t].leader) && HistoryOK(ids, h')
    ensures GoodLog(h', h.reigns[t].log + [e]) && TermsAtMost(h.reigns[t].log + [e], t)
  {
    hide *;
    var log := h.reigns[t].log;
    var n := h.reigns[t].leader;
    ReignFacts(ids, h, t);
    LongerReign(h, h', t, log + [e]);
    ExtendedShape(log, e);
    GoodLogGrows(h, h', n, log);
    GoodLogAppends(h', log, e);
    ReignExtends(ids, h, h', t, e);
    NewReignGrows(ids, h, h', t, h'.reigns[t]);
  }

  lemma ClientRecords(ids: seq<NodeId>, h: History, n: NodeId, host: Host, command: Command)
    requires HistoryOK(ids, h) && HostOK(ids, h, n, host) && host.raft.role == Leader
    ensures var o := HandleClientRequest(host.raft, command);
            var t, h' := host.disk.currentTerm, Record(ids, h, n, o.state, None);
            && o.state.persistent == host.disk.(log := Extended(host.raft, command))
            && t in h.reigns && h.reigns[t].log == host.disk.log
            && h'.ballots == h.ballots
            && h'.reigns == h.reigns[t := h.reigns[t].(log := o.state.persistent.log)]
            && Extended(host.raft, command)
               == host.disk.log + [LogEntry(t, |host.disk.log| + 1, command)]
  {
    ClientOutcome(host.raft, command);
    LeaderFacts(ids, h, n, host);
    LastIndexIsLength(host.disk.log);
    hide HandleClientRequest, HistoryOK, HostOK, GoodLog, Shape, ReignOK;
    assert Slot(n, host.disk.currentTerm) in h.ballots;
  }

  lemma ClientAccepted(ids: seq<NodeId>, h: History, n: NodeId, host: Host, command: Command)
    requires HistoryOK(ids, h) && HostOK(ids, h, n, host) && host.raft.role == Leader
    ensures var o := HandleClientRequest(host.raft, command);
            StepOK(ids, h, n, host, o, Record(ids, h, n, o.state, None))
  {
    hide *;
    var t := host.disk.currentTerm;
    var o := HandleClientRequest(host.raft, command);
    var h' := Record(ids, h, n, o.state, None);
    LeaderFacts(ids, h, n, host);
    ClientOutcome(host.raft, command);
    ClientRecords(ids, h, n, host, command);
    ClientKeepsStructure(host.raft, command);
    ExtendedIsGood(ids, h, h', t, LogEntry(t, |host.disk.log| + 1, command));
    VotesIgnoreLog(h, n, host.disk, o.state.persistent.log);
    LeaderHost(ids, h, h', n, o.state);
    SavedHost(ids, h', n, host.(raft := o.state, disk := o.state.persistent));
    SavedStep(ids, h, h', n, host, o);
  }

  lemma LeaderHost(ids: seq<NodeId>, h: History, h': History, n: NodeId, s: RaftState)
    requires VotesOK(h, n, s.persistent) && h'.ballots == h.ballots && s.role == Leader
    requires var t := s.persistent.currentTerm;
             t in h'.reigns && h'.reigns[t].leader == n && h'.reigns[t].log == s.persistent.log
    ensures VotesOK(h', n, s.persistent) && OfficeOK(h', n, s)
  {
  }

  lemma ClientKeepsStructure(s: RaftState, command: Command)
    requires RoleOK(s)
    ensures RoleOK(HandleClientRequest(s, command).state)
  {
    StepKeepsStructure(LastLogIndexRule, s, ClientRequest(command));
  }

  lemma ClientStep(ids: seq<NodeId>, h: History, n: NodeId, host: Host, command: Command)
    requires HistoryOK(ids, h) && HostOK(ids, h, n, host)
    ensures var o := HandleClientRequest(host.raft, command);
            StepOK(ids, h, n, host, o, Record(ids, h, n, o.state, None))
  {
    if host.raft.role == Leader {
      ClientAccepted(ids, h, n, host, command);
    } else {
      var o := HandleClientRequest(host.raft, command);
      SendsNothing(o.actions);
      hide *;
      QuietStep(ids, h, n, host, o, None);
    }
  }

  // ── every step ──────────────────────────────────────────────────────────────

  lemma StepIsOK(ids: seq<NodeId>, rule: AckRule, h: History, n: NodeId, host: Host, event: Event)
    requires Config(ids) && n in ids && HistoryOK(ids, h) && HostOK(ids, h, n, host)
    requires event.Receive? ==> PacketOK(ids, h, Packet(n, event.msg))
    requires VectorsFit(host.raft)
    ensures var o := Step(rule, host.raft, event);
            StepOK(ids, h, n, host, o,
                   Record(ids, h, n, o.state, Acknowledges(rule, host.raft, event)))
  {
    hide HistoryOK, HostOK, PacketOK, StepOK, Record, Config;
    match event
    case Receive(VoteRequest(m)) =>
      hide HandleRequestVote;
      if |HandleRequestVote(host.raft, m).actions| == 1 {
        VoteRequestRejected(ids, h, n, host, m);
      } else {
        VoteRequestGranted(ids, h, n, host, m);
      }
    case Receive(VoteReply(m)) => hide HandleVoteResponse; VoteReplyStep(ids, h, n, host, m);
    case Receive(Append(m)) => hide HandleAppendEntries, Accepts; AppendStep(ids, rule, h, n, host, m);
    case Receive(AppendReply(m)) =>
      hide HandleAppendEntriesResponse;
      AppendReplyStep(ids, h, n, host, m);
    case ElectionTimeout => hide HandleElectionTimeout; ElectionStep(ids, h, n, host);
    case HeartbeatTimeout => hide HandleHeartbeatTimeout; HeartbeatStep(ids, h, n, host);
    case ClientRequest(command) => hide HandleClientRequest; ClientStep(ids, h, n, host, command);
  }

  lemma RunEventKeepsCore(ids: seq<NodeId>, rule: AckRule, s: System, n: NodeId, event: Event)
    requires Config(ids) && CoreInv(ids, s) && Enabled(rule, s, Exec(n, event))
    ensures CoreInv(ids, RunEvent(ids, rule, s, n, event))
  {
    assert n in Members(ids);
    hide HistoryOK, HostOK, PacketOK, StepOK, Record, Step, Config;
    StepIsOK(ids, rule, s.history, n, s.hosts[n], event);
    StepOKGivesInvariant(ids, rule, s, n, event);
  }

  // ── crashes ─────────────────────────────────────────────────────────────────

  /** What a restart reads back is in order: only the term may fall back. */
  lemma RestartedOK(ids: seq<NodeId>, h: History, n: NodeId, host: Host)
    requires HostOK(ids, h, n, host)
    ensures HostOK(ids, h, n, Restarted(host))
  {
  }

  lemma RestartKeepsCore(ids: seq<NodeId>, s: System, n: NodeId)
    requires CoreInv(ids, s) && n in s.hosts
    ensures CoreInv(ids, s.(hosts := s.hosts[n := Restarted(s.hosts[n])]))
  {
    RestartedOK(ids, s.history, n, s.hosts[n]);
    hide HistoryOK, HostOK, PacketOK;
    var s' := s.(hosts := s.hosts[n := Restarted(s.hosts[n])]);
    forall u | u in s'.hosts ensures HostOK(ids, s'.history, u, s'.hosts[u]) {
    }
  }

  lemma SentPrefix(actions: seq<Action>, k: nat)
    requires k <= |actions|
    ensures forall p | p in Sent(actions[..k]) :: p in Sent(actions)
  {
    forall p | p in Sent(actions[..k]) ensures p in Sent(actions) {
      SentIffSend(actions[..k], p);
      SentIffSend(actions, p);
    }
  }

  /** Before anything is saved nothing has happened. */
  lemma EarlyCrash(ids: seq<NodeId>, rule: AckRule, s: System, n: NodeId, event: Event, k: nat)
    requires Enabled(rule, s, Crash(n, event, k))
    ensures var o := Step(rule, s.hosts[n].raft, event);
            Persists(o.actions) && !Persists(o.actions[..k]) ==>
              CrashEvent(ids, rule, s, n, event, k)
              == s.(hosts := s.hosts[n := Restarted(s.hosts[n])])
  {
    var host := s.hosts[n];
    var o := Step(rule, host.raft, event);
    WriteAhead(rule, host.raft, event, k);
    hide Step, Record;
    if Persists(o.actions) && !Persists(o.actions[..k]) {
      assert host.(disk := host.disk) == host;
      assert Emissions(n, |host.applied|, Applied(o.actions[..k])) == {};
      assert Packets(o.actions[..k]) == {};
    }
  }

  lemma FewerEmissions(n: NodeId, before: nat, a: seq<Command>, b: seq<Command>)
    requires a <= b
    ensures Emissions(n, before, a) <= Emissions(n, before, b)
  {
  }

  lemma LateCrashHosts(ids: seq<NodeId>, rule: AckRule, s: System, n: NodeId, event: Event, k: nat)
    requires Enabled(rule, s, Crash(n, event, k))
    requires var o := Step(rule, s.hosts[n].raft, event);
             Persists(o.actions) ==> Persists(o.actions[..k])
    ensures var c, r := CrashEvent(ids, rule, s, n, event, k), RunEvent(ids, rule, s, n, event);
            c.hosts == r.hosts[n := Restarted(r.hosts[n])] && c.history == r.history
  {
    var host := s.hosts[n];
    var o := Step(rule, host.raft, event);
    StepKeepsIdentity(rule, host.raft, event);
    hide Step, Record, Sent, Applied, ApplyAll, Packets, Emissions, After, Restarted, Persists;
    SameRestart(host, o, k);
    assert CrashEvent(ids, rule, s, n, event, k).hosts[n]
        == Restarted(RunEvent(ids, rule, s, n, event).hosts[n]);
  }

  /** A restart depends on nothing but the disk. */
  lemma SameRestart(host: Host, o: Outcome, k: nat)
    requires k <= |o.actions| && (Persists(o.actions) ==> Persists(o.actions[..k]))
    requires o.state.id == host.raft.id && o.state.peers == host.raft.peers
    ensures Persists(o.actions[..k]) ==> Persists(o.actions)
    ensures var disk := if Persists(o.actions[..k]) then o.state.persistent else host.disk;
            Restarted(host.(disk := disk)) == Restarted(After(host, o))
  {
    hide Applied, ApplyAll;
    if Persists(o.actions[..k]) { PrefixPersists(o.actions, k); }
  }

  lemma LateCrash(ids: seq<NodeId>, rule: AckRule, s: System, n: NodeId, event: Event, k: nat)
    requires Enabled(rule, s, Crash(n, event, k))
    requires var o := Step(rule, s.hosts[n].raft, event);
             Persists(o.actions) ==> Persists(o.actions[..k])
    ensures var c := CrashEvent(ids, rule, s, n, event, k);
            var r := RunEvent(ids, rule, s, n, event);
            && c.hosts == r.hosts[n := Restarted(r.hosts[n])]
            && c.history == r.history
            && c.network <= r.network
            && c.emitted <= r.emitted
  {
    var host := s.hosts[n];
    var o := Step(rule, host.raft, event);
    SentPrefix(o.actions, k);
    AppliedPrefix(o.actions, k);
    FewerEmissions(n, |host.applied|, Applied(o.actions[..k]), Applied(o.actions));
    LateCrashHosts(ids, rule, s, n, event, k);
    hide Step, Record, Sent, Applied, Emissions, Restarted, After;
  }

  /** A crash in the middle of a step is a restart, in front of the step or behind it, with
      some packets and applications missing. */
  lemma CrashIsRestart(ids: seq<NodeId>, rule: AckRule, s: System, n: NodeId, event: Event, k: nat)
    requires Enabled(rule, s, Crash(n, event, k))
    ensures var c := CrashEvent(ids, rule, s, n, event, k);
            var r := RunEvent(ids, rule, s, n, event);
            || c == s.(hosts := s.hosts[n := Restarted(s.hosts[n])])
            || (&& c.hosts == r.hosts[n := Restarted(r.hosts[n])]
                && c.history == r.history
                && c.network <= r.network
                && c.emitted <= r.emitted)
  {
    CrashableRuns(rule, s, n, event, k);
    hide *;
    EarlyCrash(ids, rule, s, n, event, k);
    if Persists(Step(rule, s.hosts[n].raft, event).actions)
       ==> Persists(Step(rule, s.hosts[n].raft, event).actions[..k]) {
      LateCrash(ids, rule, s, n, event, k);
    }
  }

  lemma CrashableRuns(rule: AckRule, s: System, n: NodeId, event: Event, k: nat)
    requires Enabled(rule, s, Crash(n, event, k))
    ensures Enabled(rule, s, Exec(n, event)) && n in s.hosts && VectorsFit(s.hosts[n].raft)
    ensures k <= |Step(rule, s.hosts[n].raft, event).actions|
  {
  }

  lemma PrefixPersists(actions: seq<Action>, k: nat)
    requires k <= |actions| && Persists(actions[..k])
    ensures Persists(actions)
  {
  }

  lemma StepKeepsIdentity(rule: AckRule, s: RaftState, event: Event)
    requires VectorsFit(s)
    ensures Step(rule, s, event).state.id == s.id && Step(rule, s, event).state.peers == s.peers
  {
    hide Reconcile, ApplyBetween, CommitScan, Position, CountAtLeast, LogMatches, UpToDate,
         AckIndex, LastNewIndex, PrevLogInfo, EntriesFrom, PeerPosition;
  }

  lemma StepKeepsCore(ids: seq<NodeId>, rule: AckRule, s: System, l: Label)
    requires Config(ids) && CoreInv(ids, s) && Enabled(rule, s, l)
    ensures CoreInv(ids, Do(ids, rule, s, l))
  {
    match l
    case Exec(n, event) => RunEventKeepsCore(ids, rule, s, n, event);
    case Crash(n, event, k) =>
      CrashIsRestart(ids, rule, s, n, event, k);
      RestartKeepsCore(ids, s, n);
      RunEventKeepsCore(ids, rule, s, n, event);
      RestartKeepsCore(ids, RunEvent(ids, rule, s, n, event), n);
    case Restart(n) => RestartKeepsCore(ids, s, n);
  }

  lemma NewHostOK(ids: seq<NodeId>, h: History, n: NodeId)
    requires h == History(map[], map[], map[])
    ensures HostOK(ids, h, n, NewHost(ids, n))
  {
    hide PeersOf;
  }

  lemma InitialCore(ids: seq<NodeId>)
    requires Config(ids)
    ensures CoreInv(ids, Initial(ids))
  {
    var s := Initial(ids);
    hide HostOK, NewHost, ReignOK, BallotOK;
    forall n | n in s.hosts ensures HostOK(ids, s.history, n, s.hosts[n]) {
      NewHostOK(ids, s.history, n);
    }
  }

  lemma RunStarts(ids: seq<NodeId>, rule: AckRule, r: Run)
    requires IsRun(ids, rule, r)
    ensures |r.states| == |r.labels| + 1 && r.states[0] == Initial(ids)
  {
  }

  lemma RunMoves(ids: seq<NodeId>, rule: AckRule, r: Run, i: nat)
    requires IsRun(ids, rule, r) && i + 1 < |r.states|
    ensures Enabled(rule, r.states[i], r.labels[i])
    ensures r.states[i + 1] == Do(ids, rule, r.states[i], r.labels[i])
    ensures r.labels[i].node in r.states[i].hosts
  {
  }

  /** The core invariant holds in every state of every run, whatever the replies say. */
  lemma {:induction false} CoreHolds(ids: seq<NodeId>, rule: AckRule, r: Run, i: nat)
    requires Config(ids) && IsRun(ids, rule, r) && i < |r.states|
    ensures CoreInv(ids, r.states[i])
  {
    hide *;
    RunStarts(ids, rule, r);
    if i == 0 {
      InitialCore(ids);
    } else {
      CoreHolds(ids, rule, r, i - 1);
      RunMoves(ids, rule, r, i - 1);
      StepKeepsCore(ids, rule, r.states[i - 1], r.labels[i - 1]);
    }
  }
}
