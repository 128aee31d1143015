/** Runs of the literal code in a cluster of three, event by event. In the first an entry is
    committed and every reply is honest. The second shows what an acknowledged old suffix
    costs, with no crash and with messages that are merely late or doubled:

      term 1  node 2 leads and keeps three entries to itself;
      term 2  node 1 leads and sends node 2 an empty heartbeat. The reply claims index 3, and
              with it node 1 commits its own first three entries, of which node 3 has one
              and node 2 has none;
      term 3  node 3 leads without them, overwrites the second one at node 1 and commits
              another command at its index;
      term 4  node 1 leads and announces a commit index beyond its own log.

    Every result that rests on honest replies fails in it. */
module ConcreteRuns {
  import opened Protocol
  import opened RaftSteps
  import opened LogFacts
  import opened Runtime
  import opened Cluster
  import opened CoreInvariant
  import opened CoreSteps
  import opened Runs
  import opened Safety
  import opened Acknowledgements
  import StateMachineSafety

  const IDS: seq<NodeId> := [1, 2, 3]
  const RULE := LastLogIndexRule
  const X := Command(Set("x", ""))
  const Y := Command(Set("y", ""))
  const Z := Command(Set("z", ""))
  const LOG_X1: Log := [LogEntry(1, 1, X)]
  const LOG_X2: Log := [LogEntry(1, 1, X), LogEntry(1, 2, X)]
  const LOG_X: Log := [LogEntry(1, 1, X), LogEntry(1, 2, X), LogEntry(1, 3, X)]
  const LOG_Y1: Log := [LogEntry(2, 1, X)]
  const LOG_Y2: Log := [LogEntry(2, 1, X), LogEntry(2, 2, Y)]
  const LOG_Y: Log := [LogEntry(2, 1, X), LogEntry(2, 2, Y), LogEntry(2, 3, Y)]
  const LOG_Z: Log := [LogEntry(2, 1, X), LogEntry(3, 2, Z)]

  function Others(id: NodeId): seq<NodeId> {
    if id == 1 then [2, 3] else if id == 2 then [1, 3] else [1, 2]
  }

  /** A follower that has committed and applied `c` entries. */
  function Foll(id: NodeId, leader: Option<NodeId>, p: PersistentState, c: LogIndex): RaftState {
    RaftState(id, Others(id), Follower, leader, p, VolatileState(c, c), None, None)
  }

  /** A candidate with its own vote only. */
  function Cand(id: NodeId, leader: Option<NodeId>, t: Term, log: Log, c: LogIndex): RaftState {
    RaftState(id, Others(id), Candidate, leader, PersistentState(t, Some(id), log),
              VolatileState(c, c), None, Some(CandidateState({id}, {id})))
  }

  function Lead(id: NodeId, t: Term, log: Log, c: LogIndex,
                next: seq<LogIndex>, matches: seq<LogIndex>): RaftState {
    RaftState(id, Others(id), Leader, Some(id), PersistentState(t, Some(id), log),
              VolatileState(c, c), Some(LeaderState(next, matches)), None)
  }

  /** The event takes `s` to `t`, applies `commands` and puts `p` on the network. */
  ghost predicate Does(s: RaftState, e: Event, t: RaftState, commands: seq<Command>,
                       p: Option<Packet>)
  {
    && VectorsFit(s)
    && var o := Step(RULE, s, e);
       && o.state == t && Applied(o.actions) == commands
       && (p.Some? ==> p.value in Packets(o.actions))
  }

  // ── what the handlers do here ───────────────────────────────────────────────

  lemma Stands(s: RaftState, u: NodeId, c: LogIndex)
    requires s.role != Leader && s.peers == Others(s.id) && u in s.peers
    requires s.leaderState == None && s.volatile == VolatileState(c, c)
    ensures var p := s.persistent;
            Does(s, ElectionTimeout, Cand(s.id, s.knownLeader, p.currentTerm + 1, p.log, c), [],
                 Some(Packet(u, VoteRequest(RequestVote(p.currentTerm + 1, s.id,
                                                        LastLogIndex(p.log), LastLogTerm(p.log))))))
  {
    var o := HandleElectionTimeout(s);
    var i :| 0 <= i < |s.peers| && s.peers[i] == u;
    assert o.actions[i + 2] == VoteAction(o.state, u);
    SendIsPacket(o.actions, u, o.actions[i + 2].msg);
    AppliedNothing(o.actions);
  }

  /** A vote of a new term. */
  lemma Grants(s: RaftState, m: RequestVote, c: LogIndex)
    requires m.term > s.persistent.currentTerm && s.peers == Others(s.id) && VectorsFit(s)
    requires UpToDate(m.lastLogTerm, m.lastLogIndex, s.persistent.log)
    requires s.volatile == VolatileState(c, c)
    ensures Does(s, Receive(VoteRequest(m)),
                 Foll(s.id, None, PersistentState(m.term, Some(m.candidateId), s.persistent.log), c),
                 [], Some(Packet(m.candidateId, VoteReply(RequestVoteResponse(m.term, true, s.id)))))
  {
    var o := HandleRequestVote(s, m);
    assert o.actions[2] == VoteResponse(o.state, m.candidateId, true);
    SendIsPacket(o.actions, m.candidateId, o.actions[2].msg);
    AppliedNothing(o.actions);
  }

  lemma Wins(id: NodeId, voter: NodeId, leader: Option<NodeId>, t: Term, log: Log, c: LogIndex)
    requires voter in Others(id) && voter != id
    ensures var next := LastLogIndex(log) + 1;
            Does(Cand(id, leader, t, log, c),
                 Receive(VoteReply(RequestVoteResponse(t, true, voter))),
                 Lead(id, t, log, c, [next, next], [0, 0]), [], None)
  {
    var s := Cand(id, leader, t, log, c);
    assert |{id} + {voter}| == 2;
    var next := LastLogIndex(log) + 1;
    assert seq(|s.peers|, _ => next) == [next, next] && seq(|s.peers|, _ => 0) == [0, 0];
    var o := HandleVoteResponse(s, RequestVoteResponse(t, true, voter));
    AppliedNothing(o.actions);
  }

  lemma Takes(id: NodeId, t: Term, log: Log, longer: Log, c: LogIndex, next: seq<LogIndex>,
              matches: seq<LogIndex>, command: Command)
    requires |next| == |matches| == 2
    requires longer == log + [LogEntry(t, LastLogIndex(log) + 1, command)]
    ensures Does(Lead(id, t, log, c, next, matches), ClientRequest(command),
                 Lead(id, t, longer, c, next, matches), [], None)
  {
    AppliedNothing([ResetHeartbeatTimer, PersistState]);
  }

  lemma Beats(s: RaftState, i: nat, prev: LogIndex, term: Term, entries: Log)
    requires s.role == Leader && VectorsFit(s) && s.leaderState.Some? && i < |s.peers|
    requires PrevLogInfo(s.persistent.log, s.leaderState.value.nextIndex[i]) == (prev, term)
    requires EntriesFrom(s.persistent.log, s.leaderState.value.nextIndex[i]) == entries
    ensures Does(s, HeartbeatTimeout, s, [],
                 Some(Packet(s.peers[i], Append(AppendEntries(
                   s.persistent.currentTerm, s.id, prev, term, entries, s.volatile.commitIndex)))))
  {
    var o := HandleHeartbeatTimeout(s);
    assert o.actions[i + 1] == AppendEntriesForPeer(s, i);
    SendIsPacket(o.actions, s.peers[i], o.actions[i + 1].msg);
    AppliedNothing(o.actions);
  }

  /** A request that is accepted and commits nothing. */
  lemma Copies(s: RaftState, m: AppendEntries, log: Log, c: LogIndex, voted: Option<NodeId>)
    requires VectorsFit(s) && Accepts(s, m) && s.role != Candidate
    requires s.peers == Others(s.id) && log != []
    requires s.role == Leader ==> m.term > s.persistent.currentTerm
    requires s.role == Follower ==> s.leaderState == None && s.candidateState == None
    requires Reconcile(s.persistent.log, m.entries) == log
    requires s.volatile == VolatileState(c, c) && m.leaderCommit <= c
    requires voted == if m.term > s.persistent.currentTerm then None else s.persistent.votedFor
    ensures Does(s, Receive(Append(m)),
                 Foll(s.id, Some(m.leaderId), PersistentState(m.term, voted, log), c), [],
                 Some(Packet(m.leaderId, AppendReply(AppendEntriesResponse(
                   m.term, true, s.id, log[|log| - 1].index)))))
  {
    var o := HandleAppendEntries(RULE, s, m);
    var reply := AppendReply(AppendEntriesResponse(m.term, true, s.id, log[|log| - 1].index));
    assert o.actions == [PersistState, ResetElectionTimer, Send(m.leaderId, reply)];
    assert o.state == Foll(s.id, Some(m.leaderId), PersistentState(m.term, voted, log), c);
    hide HandleAppendEntries, Reconcile, Accepts;
    assert o.actions[2] == Send(m.leaderId, reply);
    SendIsPacket(o.actions, m.leaderId, reply);
    AppliedNothing(o.actions);
  }

  /** A leader that finds `c` committed applies everything up to it. */
  lemma Advances(s: RaftState, c0: LogIndex, c: LogIndex)
    requires s.leaderState.Some? && Contiguous(s.persistent.log)
    requires s.volatile == VolatileState(c0, c0) && c0 < c <= |s.persistent.log|
    requires CommitScan(s.persistent.log, c0, s.persistent.currentTerm,
                        s.leaderState.value.matchIndex, Quorum(|s.peers|)) == c
    ensures TryAdvanceCommit(s) == Outcome(s.(volatile := VolatileState(c, c)),
                                           Applications(Commands(s.persistent.log[c0..c])))
  {
    ApplyBetweenIsSlice(s.persistent.log, c0, c);
  }

  lemma Counts(matches: seq<LogIndex>, n: LogIndex)
    requires |matches| == 2 && (matches[0] >= n <==> matches[1] < n)
    ensures CountAtLeast(matches, n) == 1
  {
    assert matches[..1] == [matches[0]] && [matches[0]][..0] == [];
  }

  lemma WholeLogScanned(log: Log, c0: LogIndex, t: Term, matches: seq<LogIndex>)
    requires Contiguous(log) && c0 < |log| && log[|log| - 1].term == t
    requires CountAtLeast(matches, |log|) == 1
    ensures CommitScan(log, c0, t, matches, 2) == |log| && Quorum(2) == 2
  {
    assert log[|log| - 1].index == |log|;
  }

  lemma Credits(id: NodeId, t: Term, log: Log, c0: LogIndex, next: seq<LogIndex>,
                matches: seq<LogIndex>, next': seq<LogIndex>, matches': seq<LogIndex>,
                m: AppendEntriesResponse, i: nat)
    requires |next| == |matches| == 2 && i < 2 && 1 <= id <= 3
    requires m.success && m.term == t && m.from == Others(id)[i]
    requires if m.matchIndex > matches[i]
             then next' == next[i := m.matchIndex + 1] && matches' == matches[i := m.matchIndex]
             else next' == next && matches' == matches
    ensures HandleAppendEntriesResponse(Lead(id, t, log, c0, next, matches), m)
         == TryAdvanceCommit(Lead(id, t, log, c0, next', matches'))
  {
    FoundAt(id, i);
    hide TryAdvanceCommit, PeerPosition, Others;
  }

  /** A leader books a true or false success reply and commits its whole log. */
  lemma Books(id: NodeId, t: Term, log: Log, c0: LogIndex, next: seq<LogIndex>,
              matches: seq<LogIndex>, next': seq<LogIndex>, matches': seq<LogIndex>,
              m: AppendEntriesResponse, i: nat, commands: seq<Command>)
    requires |next| == |matches| == 2 && i < 2 && 1 <= id <= 3
    requires m.success && m.term == t && m.from == Others(id)[i] && m.matchIndex >= |log|
    requires if m.matchIndex > matches[i]
             then next' == next[i := m.matchIndex + 1] && matches' == matches[i := m.matchIndex]
             else next' == next && matches' == matches
    requires Contiguous(log) && c0 < |log| && log[|log| - 1].term == t
    requires matches'[i] >= |log| && matches'[1 - i] < |log|
    requires commands == Commands(log[c0..])
    ensures Does(Lead(id, t, log, c0, next, matches), Receive(AppendReply(m)),
                 Lead(id, t, log, |log|, next', matches'), commands, None)
  {
    hide HandleAppendEntriesResponse, TryAdvanceCommit, Applied, Applications, Commands, Others,
         Contiguous;
    Credits(id, t, log, c0, next, matches, next', matches', m, i);
    CommitsAll(id, t, log, c0, next', matches', i, commands);
    AppliedApplications(commands);
    hide Contiguous;
    BookingFits(id, t, log, c0, next, matches);
  }

  lemma BookingFits(id: NodeId, t: Term, log: Log, c: LogIndex, next: seq<LogIndex>,
                    matches: seq<LogIndex>)
    requires |next| == |matches| == 2
    ensures VectorsFit(Lead(id, t, log, c, next, matches))
  {
  }

  lemma CommitsAll(id: NodeId, t: Term, log: Log, c0: LogIndex, next: seq<LogIndex>,
                   matches: seq<LogIndex>, i: nat, commands: seq<Command>)
    requires |next| == |matches| == 2 && i < 2
    requires Contiguous(log) && c0 < |log| && log[|log| - 1].term == t
    requires matches[i] >= |log| && matches[1 - i] < |log|
    requires commands == Commands(log[c0..])
    ensures TryAdvanceCommit(Lead(id, t, log, c0, next, matches))
         == Outcome(Lead(id, t, log, |log|, next, matches), Applications(commands))
  {
    Counts(matches, |log|);
    WholeLogScanned(log, c0, t, matches);
    hide TryAdvanceCommit, Applications, CommitScan, CountAtLeast, Contiguous, Quorum;
    Advances(Lead(id, t, log, c0, next, matches), c0, |log|);
    assert log[c0..|log|] == log[c0..];
  }

  lemma FoundAt(id: NodeId, i: nat)
    requires i < 2 && 1 <= id <= 3
    ensures PeerPosition(Others(id), Others(id)[i]) == Some(i)
  {
    assert Others(id)[1..] == [Others(id)[1]];
    assert PeerPosition([Others(id)[1]], Others(id)[1]) == Some(0);
  }

  // ── runs ────────────────────────────────────────────────────────────────────

  /** The three nodes and what each has applied so far. */
  datatype Scene = Scene(a: RaftState, b: RaftState, c: RaftState,
                         xs: seq<Command>, ys: seq<Command>, zs: seq<Command>)

  function Last(r: Run): System
    requires r.states != []
  {
    r.states[|r.states| - 1]
  }

  ghost predicate Shows(s: System, sc: Scene) {
    && s.hosts.Keys == {1, 2, 3}
    && s.hosts[1].raft == sc.a && s.hosts[2].raft == sc.b && s.hosts[3].raft == sc.c
    && s.hosts[1].applied == sc.xs && s.hosts[2].applied == sc.ys && s.hosts[3].applied == sc.zs
    && forall n | n in s.hosts :: s.hosts[n].store == ApplyAll(map[], s.hosts[n].applied)
  }

  /** A run without a crash that has come to this scene. */
  ghost predicate At(r: Run, sc: Scene) {
    IsRun(IDS, RULE, r) && Shows(Last(r), sc) && Uncrashed(r)
  }

  ghost predicate Uncrashed(r: Run) {
    forall l | l in r.labels :: l.Exec?
  }

  /** The packet is on the network at the end of the run. */
  ghost predicate Travels(r: Run, p: Option<Packet>) {
    r.states != [] && (p.Some? ==> p.value in Last(r).network)
  }

  /** `r'` goes on where `r` ends. */
  ghost predicate Continues(r: Run, r': Run) {
    && r.states != [] && r.states <= r'.states
    && Last(r).network <= Last(r').network && Last(r).emitted <= Last(r').emitted
  }

  predicate IsReply(e: Event) {
    e.Receive? && e.msg.AppendReply?
  }

  predicate HonestHere(s: RaftState, e: Event) {
    e.Receive? && e.msg.Append? ==> HonestAck(RULE, s, e.msg.ae)
  }

  /** `r'` is `r` and one step. */
  ghost predicate Adds(r: Run, r': Run, l: Label) {
    && |r.states| == |r.labels| + 1 && r'.states != []
    && r'.states == r.states + [Last(r')] && r'.labels == r.labels + [l]
  }

  lemma ExtendRun(r: Run, l: Label) returns (r': Run)
    requires IsRun(IDS, RULE, r) && Enabled(RULE, Last(r), l)
    ensures IsRun(IDS, RULE, r') && Last(r') == Do(IDS, RULE, Last(r), l)
    ensures Adds(r, r', l)
  {
    hide Enabled, Do, Initial;
    r' := Run(r.states + [Do(IDS, RULE, Last(r), l)], r.labels + [l]);
    forall i {:trigger r'.labels[i]} | 0 <= i < |r'.labels|
      ensures Enabled(RULE, r'.states[i], r'.labels[i])
           && r'.states[i + 1] == Do(IDS, RULE, r'.states[i], r'.labels[i])
    {
      if i < |r.labels| { assert r'.labels[i] == r.labels[i]; }
    }
  }

  lemma StaysHonest(r: Run, r': Run, l: Label)
    requires IsRun(IDS, RULE, r) && IsRun(IDS, RULE, r') && l.node in Last(r).hosts
    requires Adds(r, r', l)
    requires HonestRun(IDS, RULE, r) && HonestLabel(Last(r), l)
    ensures HonestRun(IDS, RULE, r')
  {
    RunStarts(IDS, RULE, r);
    forall i | 0 <= i < |r'.labels|
      ensures r'.labels[i].node in r'.states[i].hosts
      ensures HonestLabel(r'.states[i], r'.labels[i])
    {
      RunMoves(IDS, RULE, r', i);
      hide IsRun, Do, Enabled, HonestLabel;
      if i < |r.labels| {
        assert r'.labels[i] == r.labels[i] && r'.states[i] == r.states[i];
      }
    }
    hide IsRun, HonestLabel;
  }

  lemma SameLabel(r: Run, r': Run, l: Label, i: nat)
    requires Adds(r, r', l) && i < |r'.labels|
    ensures r'.labels[i] == if i < |r.labels| then r.labels[i] else l
    ensures r'.states[i] == if i < |r.labels| then r.states[i] else Last(r)
  {
  }

  lemma RepliesStayHonest(r: Run, r': Run, l: Label)
    requires IsRun(IDS, RULE, r) && IsRun(IDS, RULE, r') && l.node in Last(r).hosts
    requires Adds(r, r', l)
    ensures HonestReplies(IDS, RULE, r')
       <==> HonestReplies(IDS, RULE, r) && HonestRequest(RULE, Last(r), l)
  {
    hide IsRun, HonestRequest, Adds, Last;
    RunStarts(IDS, RULE, r);
    RunStarts(IDS, RULE, r');
    AddsOne(r, r', l);
    if HonestReplies(IDS, RULE, r) && HonestRequest(RULE, Last(r), l) {
      forall i {:trigger r'.labels[i]} | 0 <= i < |r'.labels|
        ensures r'.labels[i].node in r'.states[i].hosts
        ensures HonestRequest(RULE, r'.states[i], r'.labels[i])
      {
        SameLabel(r, r', l, i);
        RunMoves(IDS, RULE, r', i);
        if i < |r.labels| { HonestRepliesMove(IDS, RULE, r, i); }
      }
    }
    if HonestReplies(IDS, RULE, r') {
      forall i {:trigger r.labels[i]} | 0 <= i < |r.labels|
        ensures r.labels[i].node in r.states[i].hosts
        ensures HonestRequest(RULE, r.states[i], r.labels[i])
      {
        SameLabel(r, r', l, i);
        RunMoves(IDS, RULE, r', i);
        HonestRepliesMove(IDS, RULE, r', i);
      }
      SameLabel(r, r', l, |r.labels|);
      HonestRepliesMove(IDS, RULE, r', |r.labels|);
    }
  }

  lemma AddsOne(r: Run, r': Run, l: Label)
    requires Adds(r, r', l)
    ensures |r'.labels| == |r.labels| + 1
  {
  }

  /** One event at node 1, 2 or 3, which moves to `t`. */
  lemma Moves(s: System, sc: Scene, n: NodeId, e: Event, t: RaftState, commands: seq<Command>,
              p: Option<Packet>)
    requires Shows(s, sc) && n in {1, 2, 3}
    requires e.Receive? ==> Packet(n, e.msg) in s.network
    requires Does(if n == 1 then sc.a else if n == 2 then sc.b else sc.c, e, t, commands, p)
    ensures n in s.hosts && Enabled(RULE, s, Exec(n, e))
    ensures !IsReply(e) ==> HonestLabel(s, Exec(n, e))
    ensures HonestRequest(RULE, s, Exec(n, e))
       <==> HonestHere(if n == 1 then sc.a else if n == 2 then sc.b else sc.c, e)
    ensures var s' := Do(IDS, RULE, s, Exec(n, e));
            && Shows(s', Scene(if n == 1 then t else sc.a, if n == 2 then t else sc.b,
                               if n == 3 then t else sc.c,
                               if n == 1 then sc.xs + commands else sc.xs,
                               if n == 2 then sc.ys + commands else sc.ys,
                               if n == 3 then sc.zs + commands else sc.zs))
            && s.network <= s'.network && (p.Some? ==> p.value in s'.network)
            && s.emitted <= s'.emitted
            && Emissions(n, |if n == 1 then sc.xs else if n == 2 then sc.ys else sc.zs|, commands)
               <= s'.emitted
  {
    hide HonestAck, Step, Record, Packets, Emissions, Applied, ApplyAll, BooksTruth;
    ExecEffect(IDS, RULE, s, n, e);
    ApplyAllConcat(map[], s.hosts[n].applied, commands);
    hide Do, Enabled;
  }

  /** Play one event on a run. */
  lemma Play(r: Run, sc: Scene, n: NodeId, e: Event, t: RaftState, commands: seq<Command>,
             p: Option<Packet>) returns (r': Run)
    requires At(r, sc) && n in {1, 2, 3}
    requires e.Receive? ==> Travels(r, Some(Packet(n, e.msg)))
    requires Does(if n == 1 then sc.a else if n == 2 then sc.b else sc.c, e, t, commands, p)
    ensures At(r', Scene(if n == 1 then t else sc.a, if n == 2 then t else sc.b,
                         if n == 3 then t else sc.c,
                         if n == 1 then sc.xs + commands else sc.xs,
                         if n == 2 then sc.ys + commands else sc.ys,
                         if n == 3 then sc.zs + commands else sc.zs))
    ensures Travels(r', p) && Continues(r, r')
    ensures Emissions(n, |if n == 1 then sc.xs else if n == 2 then sc.ys else sc.zs|, commands)
         <= Last(r').emitted
    ensures HonestRun(IDS, RULE, r) && !IsReply(e) ==> HonestRun(IDS, RULE, r')
    ensures HonestReplies(IDS, RULE, r')
       <==> HonestReplies(IDS, RULE, r)
            && HonestHere(if n == 1 then sc.a else if n == 2 then sc.b else sc.c, e)
  {
    RunStarts(IDS, RULE, r);
    hide IsRun, HonestRun, HonestLabel, HonestRequest, HonestReplies, HonestHere, Do, Enabled,
         Shows, Does, Emissions, IsReply;
    Moves(Last(r), sc, n, e, t, commands, p);
    r' := ExtendRun(r, Exec(n, e));
    assert Uncrashed(r') && r.states <= r'.states;
    hide Adds, Uncrashed;
    RepliesStayHonest(r, r', Exec(n, e));
    if HonestRun(IDS, RULE, r) && HonestLabel(Last(r), Exec(n, e)) {
      StaysHonest(r, r', Exec(n, e));
    }
  }

  lemma StillTravels(r: Run, r': Run, p: Packet)
    requires Continues(r, r') && Travels(r, Some(p))
    ensures Travels(r', Some(p))
  {
  }

  lemma ContinuesOn(r: Run, r1: Run, r2: Run)
    requires Continues(r, r1) && Continues(r1, r2)
    ensures Continues(r, r2)
  {
  }

  lemma NothingMore<T>(s: seq<T>)
    ensures s + [] == s && [] + s == s
  {
  }

  // ── term 1 ──────────────────────────────────────────────────────────────────

  lemma Start() returns (r: Run)
    ensures At(r, Scene(Foll(1, None, FRESH_DISK, 0), Foll(2, None, FRESH_DISK, 0),
                        Foll(3, None, FRESH_DISK, 0), [], [], []))
    ensures HonestRun(IDS, RULE, r) && HonestReplies(IDS, RULE, r)
  {
    r := Run([Initial(IDS)], []);
    StartHosts();
    hide Initial;
  }

  lemma StartHosts()
    ensures Shows(Initial(IDS), Scene(Foll(1, None, FRESH_DISK, 0), Foll(2, None, FRESH_DISK, 0),
                                      Foll(3, None, FRESH_DISK, 0), [], [], []))
  {
    PeersHere(1);
    PeersHere(2);
    PeersHere(3);
    hide PeersOf;
    assert Members(IDS) == {1, 2, 3};
  }

  lemma PeersHere(id: NodeId)
    requires id == 1 || id == 2 || id == 3
    ensures PeersOf(IDS, id) == Others(id)
  {
    assert PeersOf([], id) == [];
    assert [1][..0] == [];
    assert PeersOf([1], id) == if id == 1 then [] else [1];
    assert [1, 2][..1] == [1];
    assert PeersOf([1, 2], id) == if id == 1 then [2] else if id == 2 then [1] else [1, 2];
    assert IDS[..2] == [1, 2];
  }

  const CALL1 := VoteRequest(RequestVote(1, 2, 0, 0))
  const VOTE1 := VoteReply(RequestVoteResponse(1, true, 3))
  const VOTER1 := Foll(3, None, PersistentState(1, Some(2), []), 0)
  const LEADER1 := Lead(2, 1, LOG_X, 0, [1, 1], [0, 0])

  lemma TermOneEvents()
    ensures Does(Foll(2, None, FRESH_DISK, 0), ElectionTimeout, Cand(2, None, 1, [], 0), [],
                 Some(Packet(3, CALL1)))
    ensures Does(Foll(3, None, FRESH_DISK, 0), Receive(CALL1), VOTER1, [], Some(Packet(2, VOTE1)))
    ensures Does(Cand(2, None, 1, [], 0), Receive(VOTE1), Lead(2, 1, [], 0, [1, 1], [0, 0]), [], None)
    ensures Does(Lead(2, 1, [], 0, [1, 1], [0, 0]), ClientRequest(X),
                 Lead(2, 1, LOG_X1, 0, [1, 1], [0, 0]), [], None)
    ensures Does(Lead(2, 1, LOG_X1, 0, [1, 1], [0, 0]), ClientRequest(X),
                 Lead(2, 1, LOG_X2, 0, [1, 1], [0, 0]), [], None)
    ensures Does(Lead(2, 1, LOG_X2, 0, [1, 1], [0, 0]), ClientRequest(X), LEADER1, [], None)
  {
    hide Does;
    Stands(Foll(2, None, FRESH_DISK, 0), 3, 0);
    Grants(Foll(3, None, FRESH_DISK, 0), CALL1.rv, 0);
    Wins(2, 3, None, 1, [], 0);
    Takes(2, 1, [], LOG_X1, 0, [1, 1], [0, 0], X);
    Takes(2, 1, LOG_X1, LOG_X2, 0, [1, 1], [0, 0], X);
    Takes(2, 1, LOG_X2, LOG_X, 0, [1, 1], [0, 0], X);
  }

  lemma TermOneIsHonest()
    ensures forall s :: HonestHere(s, ElectionTimeout) && HonestHere(s, HeartbeatTimeout)
    ensures forall s, c :: HonestHere(s, ClientRequest(c))
    ensures forall s :: HonestHere(s, Receive(CALL1)) && HonestHere(s, Receive(VOTE1))
    ensures !IsReply(ElectionTimeout) && !IsReply(HeartbeatTimeout)
    ensures forall c :: !IsReply(ClientRequest(c))
    ensures !IsReply(Receive(CALL1)) && !IsReply(Receive(VOTE1))
  {
  }

  /** Node 2 is elected by node 3 and keeps three entries to itself. */
  lemma TermOne() returns (r: Run)
    ensures At(r, Scene(Foll(1, None, FRESH_DISK, 0), LEADER1, VOTER1, [], [], []))
    ensures HonestRun(IDS, RULE, r) && HonestReplies(IDS, RULE, r)
  {
    hide *;
    TermOneEvents();
    TermOneIsHonest();
    NothingMore<Command>([]);
    var sc := Scene(Foll(1, None, FRESH_DISK, 0), Foll(2, None, FRESH_DISK, 0),
                    Foll(3, None, FRESH_DISK, 0), [], [], []);
    r := Start();
    r := Play(r, sc, 2, ElectionTimeout, Cand(2, None, 1, [], 0), [], Some(Packet(3, CALL1)));
    sc := sc.(b := Cand(2, None, 1, [], 0));
    r := Play(r, sc, 3, Receive(CALL1), VOTER1, [], Some(Packet(2, VOTE1)));
    sc := sc.(c := VOTER1);
    r := Play(r, sc, 2, Receive(VOTE1), Lead(2, 1, [], 0, [1, 1], [0, 0]), [], None);
    sc := sc.(b := Lead(2, 1, [], 0, [1, 1], [0, 0]));
    r := Play(r, sc, 2, ClientRequest(X), Lead(2, 1, LOG_X1, 0, [1, 1], [0, 0]), [], None);
    sc := sc.(b := Lead(2, 1, LOG_X1, 0, [1, 1], [0, 0]));
    r := Play(r, sc, 2, ClientRequest(X), Lead(2, 1, LOG_X2, 0, [1, 1], [0, 0]), [], None);
    sc := sc.(b := Lead(2, 1, LOG_X2, 0, [1, 1], [0, 0]));
    r := Play(r, sc, 2, ClientRequest(X), LEADER1, [], None);
  }

  // ── a run that goes well ────────────────────────────────────────────────────

  const BEAT1 := Append(AppendEntries(1, 2, 0, 0, LOG_X, 0))
  const ACK1 := AppendReply(AppendEntriesResponse(1, true, 3, 3))
  const HOLDER1 := Foll(3, Some(2), PersistentState(1, Some(2), LOG_X), 0)
  const DONE1 := Lead(2, 1, LOG_X, 3, [1, 4], [0, 3])

  lemma FirstLog(log: Log, entries: Log)
    requires log == [] && entries != []
    ensures Reconcile(log, entries) == entries
  {
    assert log + entries == entries;
  }

  lemma WholeLog(log: Log)
    requires Contiguous(log) && log != []
    ensures EntriesFrom(log, 1) == log && PrevLogInfo(log, 1) == (0, 0)
  {
    EntriesFromIsSuffix(log, 1);
    assert log[0..] == log;
  }

  lemma Replicates()
    ensures Does(LEADER1, HeartbeatTimeout, LEADER1, [], Some(Packet(3, BEAT1)))
    ensures Does(VOTER1, Receive(BEAT1), HOLDER1, [], Some(Packet(2, ACK1)))
  {
    hide Does;
    WholeLog(LOG_X);
    Beats(LEADER1, 1, 0, 0, LOG_X);
    FirstLog([], LOG_X);
    Copies(VOTER1, BEAT1.ae, LOG_X, 0, Some(2));
  }

  lemma CommitsX()
    ensures Does(LEADER1, Receive(ACK1), DONE1, [X, X, X], None)
  {
    assert [0, 0][1 := 3] == [0, 3] && [1, 1][1 := 4] == [1, 4];
    assert LOG_X[0..] == LOG_X && Commands(LOG_X) == [X, X, X];
    hide Does, Commands;
    Books(2, 1, LOG_X, 0, [1, 1], [0, 0], [1, 4], [0, 3], ACK1.ar, 1, [X, X, X]);
  }

  lemma ReplicationIsHonest()
    ensures HonestHere(LEADER1, HeartbeatTimeout) && HonestHere(LEADER1, Receive(ACK1))
    ensures HonestHere(VOTER1, Receive(BEAT1))
  {
    FirstLog([], LOG_X);
    hide Reconcile, Accepts;
  }

  lemma ReplicatedRun() returns (r: Run)
    ensures At(r, Scene(Foll(1, None, FRESH_DISK, 0), DONE1, HOLDER1, [], [X, X, X], []))
    ensures HonestReplies(IDS, RULE, r)
    ensures r.states != [] && Emissions(2, 0, [X, X, X]) <= Last(r).emitted
  {
    hide *;
    Replicates();
    CommitsX();
    ReplicationIsHonest();
    NothingMore<Command>([]);
    NothingMore([X, X, X]);
    var sc := Scene(Foll(1, None, FRESH_DISK, 0), LEADER1, VOTER1, [], [], []);
    r := TermOne();
    r := Play(r, sc, 2, HeartbeatTimeout, LEADER1, [], Some(Packet(3, BEAT1)));
    r := Play(r, sc, 3, Receive(BEAT1), HOLDER1, [], Some(Packet(2, ACK1)));
    sc := sc.(c := HOLDER1);
    var before := r;
    r := Play(r, sc, 2, Receive(ACK1), DONE1, [X, X, X], None);
    Nonempty(before, r);
  }

  lemma Nonempty(r: Run, r': Run)
    requires Continues(r, r')
    ensures r.states != [] && r'.states != []
    ensures Last(r).emitted <= Last(r').emitted
  {
  }

  /** The literal code elects, replicates, commits and applies in a run in which every reply
      is honest. */
  lemma HonestRunCommits() returns (r: Run)
    ensures Config(IDS) && IsRun(IDS, LastLogIndexRule, r)
    ensures HonestReplies(IDS, LastLogIndexRule, r) && HonestRun(IDS, LastLogIndexRule, r)
    ensures r.states != [] && Leads(Last(r), 2, 1)
    ensures Last(r).hosts[2].raft.volatile.commitIndex == 3
    ensures Emission(2, 3, X) in Last(r).emitted
  {
    r := ReplicatedRun();
    hide IsRun, HonestRun, HonestReplies;
    assert Config(IDS);
    HonestRepliesMakeHonestRun(IDS, RULE, r);
    assert [X, X, X][2] == X;
    assert Emission(2, 3, X) in Emissions(2, 0, [X, X, X]);
  }

  // ── term 2 ──────────────────────────────────────────────────────────────────

  const CALL2 := VoteRequest(RequestVote(2, 1, 0, 0))
  const VOTE2 := VoteReply(RequestVoteResponse(2, true, 3))
  const VOTER2 := Foll(3, None, PersistentState(2, Some(1), []), 0)
  const BEAT2 := Append(AppendEntries(2, 1, 0, 0, [], 0))
  const ACK2 := AppendReply(AppendEntriesResponse(2, true, 2, 3))
  const STALE2 := Foll(2, Some(1), PersistentState(2, None, LOG_X), 0)
  const COPY2 := Append(AppendEntries(2, 1, 0, 0, LOG_Y1, 0))
  const HOLDER2 := Foll(3, Some(1), PersistentState(2, Some(1), LOG_Y1), 0)
  const FIRST2 := Lead(1, 2, LOG_Y1, 0, [1, 1], [0, 0])
  const SECOND2 := Lead(1, 2, LOG_Y2, 0, [1, 1], [0, 0])
  const PAUSE2 := Lead(1, 2, LOG_Y2, 2, [4, 1], [3, 0])
  const THIRD2 := Lead(1, 2, LOG_Y, 2, [4, 1], [3, 0])
  const DONE2 := Lead(1, 2, LOG_Y, 3, [4, 1], [3, 0])

  /** The empty heartbeat leaves the old entries in place, and the reply claims them. */
  lemma StaleReply()
    ensures Does(LEADER1, Receive(BEAT2), STALE2, [], Some(Packet(1, ACK2)))
    ensures !HonestHere(LEADER1, Receive(BEAT2))
  {
    Copies(LEADER1, BEAT2.ae, LOG_X, 0, None);
    hide Does;
    assert Accepts(LEADER1, BEAT2.ae) && Reconcile(LOG_X, []) == LOG_X;
  }

  lemma ElectionTwoEvents()
    ensures Does(Foll(1, None, FRESH_DISK, 0), ElectionTimeout, Cand(1, None, 1, [], 0), [], None)
    ensures Does(Cand(1, None, 1, [], 0), ElectionTimeout, Cand(1, None, 2, [], 0), [],
                 Some(Packet(3, CALL2)))
    ensures Does(VOTER1, Receive(CALL2), VOTER2, [], Some(Packet(1, VOTE2)))
    ensures Does(Cand(1, None, 2, [], 0), Receive(VOTE2), Lead(1, 2, [], 0, [1, 1], [0, 0]), [], None)
    ensures var s := Lead(1, 2, [], 0, [1, 1], [0, 0]);
            Does(s, HeartbeatTimeout, s, [], Some(Packet(2, BEAT2)))
    ensures !IsReply(ElectionTimeout) && !IsReply(HeartbeatTimeout) && !IsReply(Receive(CALL2))
    ensures !IsReply(Receive(VOTE2)) && !IsReply(Receive(BEAT2))
  {
    Stands(Foll(1, None, FRESH_DISK, 0), 3, 0);
    hide Does;
    assert Does(Foll(1, None, FRESH_DISK, 0), ElectionTimeout, Cand(1, None, 1, [], 0), [], None) by {
      WithoutPacket(Foll(1, None, FRESH_DISK, 0), ElectionTimeout, Cand(1, None, 1, [], 0), [],
                    Some(Packet(3, VoteRequest(RequestVote(1, 1, 0, 0)))));
    }
    Stands(Cand(1, None, 1, [], 0), 3, 0);
    Grants(VOTER1, CALL2.rv, 0);
    Wins(1, 3, None, 2, [], 0);
    Beats(Lead(1, 2, [], 0, [1, 1], [0, 0]), 0, 0, 0, []);
  }

  lemma WithoutPacket(s: RaftState, e: Event, t: RaftState, commands: seq<Command>,
                      p: Option<Packet>)
    requires Does(s, e, t, commands, p)
    ensures Does(s, e, t, commands, None)
  {
  }

  /** Node 1 is elected by node 3, and the false reply of node 2 is on its way. */
  lemma ElectionTwo() returns (r: Run)
    ensures At(r, Scene(Lead(1, 2, [], 0, [1, 1], [0, 0]), STALE2, VOTER2, [], [], []))
    ensures Travels(r, Some(Packet(1, ACK2)))
    ensures HonestRun(IDS, RULE, r) && !HonestReplies(IDS, RULE, r)
  {
    hide *;
    ElectionTwoEvents();
    StaleReply();
    NothingMore<Command>([]);
    var sc := Scene(Foll(1, None, FRESH_DISK, 0), LEADER1, VOTER1, [], [], []);
    r := TermOne();
    r := Play(r, sc, 1, ElectionTimeout, Cand(1, None, 1, [], 0), [], None);
    sc := sc.(a := Cand(1, None, 1, [], 0));
    r := Play(r, sc, 1, ElectionTimeout, Cand(1, None, 2, [], 0), [], Some(Packet(3, CALL2)));
    sc := sc.(a := Cand(1, None, 2, [], 0));
    r := Play(r, sc, 3, Receive(CALL2), VOTER2, [], Some(Packet(1, VOTE2)));
    sc := sc.(c := VOTER2);
    r := Play(r, sc, 1, Receive(VOTE2), Lead(1, 2, [], 0, [1, 1], [0, 0]), [], None);
    sc := sc.(a := Lead(1, 2, [], 0, [1, 1], [0, 0]));
    r := Play(r, sc, 1, HeartbeatTimeout, sc.a, [], Some(Packet(2, BEAT2)));
    r := Play(r, sc, 2, Receive(BEAT2), STALE2, [], Some(Packet(1, ACK2)));
  }

  /** A false reply does no harm as long as no leader in office books it. */
  lemma FalseReplyAlone() returns (r: Run)
    ensures Config(IDS) && IsRun(IDS, LastLogIndexRule, r)
    ensures HonestRun(IDS, LastLogIndexRule, r) && !HonestReplies(IDS, LastLogIndexRule, r)
  {
    r := ElectionTwo();
    hide IsRun, HonestRun, HonestReplies, Shows;
    assert Config(IDS);
  }

  lemma CommitTwoEvents()
    ensures Does(Lead(1, 2, [], 0, [1, 1], [0, 0]), ClientRequest(X), FIRST2, [], None)
    ensures Does(FIRST2, HeartbeatTimeout, FIRST2, [], Some(Packet(3, COPY2)))
    ensures Does(VOTER2, Receive(COPY2), HOLDER2, [], None)
    ensures Does(FIRST2, ClientRequest(Y), SECOND2, [], None)
    ensures Does(PAUSE2, ClientRequest(Y), THIRD2, [], None)
  {
    WholeLog(LOG_Y1);
    FirstLog([], LOG_Y1);
    Copies(VOTER2, COPY2.ae, LOG_Y1, 0, Some(1));
    hide Does;
    WithoutPacket(VOTER2, Receive(COPY2), HOLDER2, [],
                  Some(Packet(1, AppendReply(AppendEntriesResponse(2, true, 3, 1)))));
    Takes(1, 2, [], LOG_Y1, 0, [1, 1], [0, 0], X);
    Beats(FIRST2, 1, 0, 0, LOG_Y1);
    Takes(1, 2, LOG_Y1, LOG_Y2, 0, [1, 1], [0, 0], Y);
    Takes(1, 2, LOG_Y2, LOG_Y, 2, [4, 1], [3, 0], Y);
  }

  /** The leader commits what nobody has. */
  lemma FalseBookings()
    ensures Does(SECOND2, Receive(ACK2), PAUSE2, [X, Y], None)
    ensures Does(THIRD2, Receive(ACK2), DONE2, [Y], None)
  {
    assert [0, 0][0 := 3] == [3, 0] && [1, 1][0 := 4] == [4, 1];
    assert LOG_Y2[0..] == LOG_Y2 && Commands(LOG_Y2) == [X, Y];
    assert LOG_Y[2..] == [LogEntry(2, 3, Y)] && Commands([LogEntry(2, 3, Y)]) == [Y];
    hide Does, Commands;
    Books(1, 2, LOG_Y2, 0, [1, 1], [0, 0], [4, 1], [3, 0], ACK2.ar, 0, [X, Y]);
    Books(1, 2, LOG_Y, 2, [4, 1], [3, 0], [4, 1], [3, 0], ACK2.ar, 0, [Y]);
  }

  /** Up to the first false commit. */
  lemma TermTwo() returns (r: Run)
    ensures At(r, Scene(PAUSE2, STALE2, HOLDER2, [X, Y], [], []))
    ensures Travels(r, Some(Packet(1, ACK2)))
    ensures r.states != [] && Emissions(1, 0, [X, Y]) <= Last(r).emitted
  {
    hide *;
    CommitTwoEvents();
    FalseBookings();
    NothingMore<Command>([]);
    NothingMore([X, Y]);
    var sc := Scene(Lead(1, 2, [], 0, [1, 1], [0, 0]), STALE2, VOTER2, [], [], []);
    r := ElectionTwo();
    var before := r;
    r := Play(r, sc, 1, ClientRequest(X), FIRST2, [], None);
    StillTravels(before, r, Packet(1, ACK2));
    sc, before := sc.(a := FIRST2), r;
    r := Play(r, sc, 1, HeartbeatTimeout, FIRST2, [], Some(Packet(3, COPY2)));
    StillTravels(before, r, Packet(1, ACK2));
    before := r;
    r := Play(r, sc, 3, Receive(COPY2), HOLDER2, [], None);
    StillTravels(before, r, Packet(1, ACK2));
    sc, before := sc.(c := HOLDER2), r;
    r := Play(r, sc, 1, ClientRequest(Y), SECOND2, [], None);
    StillTravels(before, r, Packet(1, ACK2));
    sc, before := sc.(a := SECOND2), r;
    r := Play(r, sc, 1, Receive(ACK2), PAUSE2, [X, Y], None);
    StillTravels(before, r, Packet(1, ACK2));
    Nonempty(before, r);
  }

  // ── term 3 ──────────────────────────────────────────────────────────────────

  const CALL3 := VoteRequest(RequestVote(3, 3, 1, 2))
  const VOTE3 := VoteReply(RequestVoteResponse(3, true, 2))
  const VOTER3 := Foll(2, None, PersistentState(3, Some(3), LOG_X), 0)
  const FIRST3 := Lead(3, 3, LOG_Y1, 0, [2, 2], [0, 0])
  const LEADER3 := Lead(3, 3, LOG_Z, 0, [2, 2], [0, 0])
  const COPY3 := Append(AppendEntries(3, 3, 1, 2, [LogEntry(3, 2, Z)], 0))
  const CUT3 := Foll(1, Some(3), PersistentState(3, None, LOG_Z), 3)
  const ACK3 := AppendReply(AppendEntriesResponse(3, true, 1, 2))
  const DONE3 := Lead(3, 3, LOG_Z, 2, [3, 2], [2, 0])

  lemma ElectionThreeEvents()
    ensures Does(HOLDER2, ElectionTimeout, Cand(3, Some(1), 3, LOG_Y1, 0), [],
                 Some(Packet(2, CALL3)))
    ensures Does(STALE2, Receive(CALL3), VOTER3, [], Some(Packet(3, VOTE3)))
    ensures Does(Cand(3, Some(1), 3, LOG_Y1, 0), Receive(VOTE3), FIRST3, [], None)
    ensures Does(FIRST3, ClientRequest(Z), LEADER3, [], None)
    ensures Does(LEADER3, HeartbeatTimeout, LEADER3, [], Some(Packet(1, COPY3)))
  {
    hide Does;
    Stands(HOLDER2, 2, 0);
    Grants(STALE2, CALL3.rv, 0);
    Wins(3, 2, Some(1), 3, LOG_Y1, 0);
    Takes(3, 3, LOG_Y1, LOG_Z, 0, [2, 2], [0, 0], Z);
    PrevLogInfoIsTermAt(LOG_Z, 2);
    EntriesFromIsSuffix(LOG_Z, 2);
    assert LOG_Z[1..] == [LogEntry(3, 2, Z)];
    Beats(LEADER3, 0, 1, 2, [LogEntry(3, 2, Z)]);
  }

  /** Node 1 cuts off two entries it has committed and applied. */
  lemma CutsCommitted()
    ensures Does(DONE2, Receive(COPY3), CUT3, [], Some(Packet(3, ACK3)))
  {
    var entries := [LogEntry(3, 2, Z)];
    PositionIsIndex(LOG_Y, 2);
    assert LOG_Y[..1] + entries == LOG_Z;
    assert Reconcile(LOG_Y, entries) == LOG_Z;
    LogMatchesIsTermAt(LOG_Y, 1, 2);
    assert Accepts(DONE2, COPY3.ae);
    hide Does, Reconcile, Accepts;
    Copies(DONE2, COPY3.ae, LOG_Z, 3, None);
  }

  lemma CommitsZ()
    ensures Does(LEADER3, Receive(ACK3), DONE3, [X, Z], None)
  {
    assert [0, 0][0 := 2] == [2, 0] && [2, 2][0 := 3] == [3, 2];
    assert LOG_Z[0..] == LOG_Z && Commands(LOG_Z) == [X, Z];
    hide Does, Commands;
    Books(3, 3, LOG_Z, 0, [2, 2], [0, 0], [3, 2], [2, 0], ACK3.ar, 0, [X, Z]);
  }

  lemma TermThree(r0: Run) returns (r: Run)
    requires At(r0, Scene(PAUSE2, STALE2, HOLDER2, [X, Y], [], []))
    requires Travels(r0, Some(Packet(1, ACK2)))
    ensures At(r, Scene(CUT3, VOTER3, DONE3, [X, Y, Y], [], [X, Z])) && Continues(r0, r)
    ensures r.states != [] && Emissions(3, 0, [X, Z]) <= Last(r).emitted
  {
    hide *;
    CommitTwoEvents();
    FalseBookings();
    ElectionThreeEvents();
    CutsCommitted();
    CommitsZ();
    NothingMore<Command>([]);
    NothingMore([X, Y]);
    NothingMore([X, Y, Y]);
    NothingMore([X, Z]);
    assert [X, Y] + [Y] == [X, Y, Y];
    var sc := Scene(PAUSE2, STALE2, HOLDER2, [X, Y], [], []);
    r := Play(r0, sc, 1, ClientRequest(Y), THIRD2, [], None);
    StillTravels(r0, r, Packet(1, ACK2));
    sc := sc.(a := THIRD2);
    var before := r;
    r := Play(r, sc, 1, Receive(ACK2), DONE2, [Y], None);
    ContinuesOn(r0, before, r);
    sc, before := sc.(a := DONE2, xs := [X, Y, Y]), r;
    r := Play(r, sc, 3, ElectionTimeout, Cand(3, Some(1), 3, LOG_Y1, 0), [], Some(Packet(2, CALL3)));
    ContinuesOn(r0, before, r);
    sc, before := sc.(c := Cand(3, Some(1), 3, LOG_Y1, 0)), r;
    r := Play(r, sc, 2, Receive(CALL3), VOTER3, [], Some(Packet(3, VOTE3)));
    ContinuesOn(r0, before, r);
    sc, before := sc.(b := VOTER3), r;
    r := Play(r, sc, 3, Receive(VOTE3), FIRST3, [], None);
    ContinuesOn(r0, before, r);
    sc, before := sc.(c := FIRST3), r;
    r := Play(r, sc, 3, ClientRequest(Z), LEADER3, [], None);
    ContinuesOn(r0, before, r);
    sc, before := sc.(c := LEADER3), r;
    r := Play(r, sc, 3, HeartbeatTimeout, LEADER3, [], Some(Packet(1, COPY3)));
    ContinuesOn(r0, before, r);
    before := r;
    r := Play(r, sc, 1, Receive(COPY3), CUT3, [], Some(Packet(3, ACK3)));
    ContinuesOn(r0, before, r);
    sc, before := sc.(a := CUT3), r;
    r := Play(r, sc, 3, Receive(ACK3), DONE3, [X, Z], None);
    ContinuesOn(r0, before, r);
    Nonempty(before, r);
  }

  // ── term 4 ──────────────────────────────────────────────────────────────────

  const CALL4 := VoteRequest(RequestVote(4, 1, 2, 3))
  const VOTE4 := VoteReply(RequestVoteResponse(4, true, 3))
  const VOTER4 := Foll(3, None, PersistentState(4, Some(1), LOG_Z), 2)
  const LEADER4 := Lead(1, 4, LOG_Z, 3, [3, 3], [0, 0])
  const BEAT4 := Append(AppendEntries(4, 1, 2, 3, [], 3))

  lemma TermFourEvents()
    ensures Does(CUT3, ElectionTimeout, Cand(1, Some(3), 4, LOG_Z, 3), [], Some(Packet(3, CALL4)))
    ensures Does(DONE3, Receive(CALL4), VOTER4, [], Some(Packet(1, VOTE4)))
    ensures Does(Cand(1, Some(3), 4, LOG_Z, 3), Receive(VOTE4), LEADER4, [], None)
    ensures Does(LEADER4, HeartbeatTimeout, LEADER4, [], Some(Packet(3, BEAT4)))
  {
    hide Does;
    Stands(CUT3, 3, 3);
    Grants(DONE3, CALL4.rv, 2);
    Wins(1, 3, Some(3), 4, LOG_Z, 3);
    PrevLogInfoIsTermAt(LOG_Z, 3);
    EntriesFromIsSuffix(LOG_Z, 3);
    Beats(LEADER4, 1, 2, 3, []);
  }

  lemma TermFour(r0: Run) returns (r: Run)
    requires At(r0, Scene(CUT3, VOTER3, DONE3, [X, Y, Y], [], [X, Z]))
    ensures At(r, Scene(LEADER4, VOTER3, VOTER4, [X, Y, Y], [], [X, Z]))
    ensures Travels(r, Some(Packet(3, BEAT4)))
  {
    hide *;
    TermFourEvents();
    NothingMore([X, Y, Y]);
    NothingMore([X, Z]);
    var sc := Scene(CUT3, VOTER3, DONE3, [X, Y, Y], [], [X, Z]);
    r := Play(r0, sc, 1, ElectionTimeout, Cand(1, Some(3), 4, LOG_Z, 3), [], Some(Packet(3, CALL4)));
    sc := sc.(a := Cand(1, Some(3), 4, LOG_Z, 3));
    r := Play(r, sc, 3, Receive(CALL4), VOTER4, [], Some(Packet(1, VOTE4)));
    sc := sc.(c := VOTER4);
    r := Play(r, sc, 1, Receive(VOTE4), LEADER4, [], None);
    sc := sc.(a := LEADER4);
    r := Play(r, sc, 1, HeartbeatTimeout, LEADER4, [], Some(Packet(3, BEAT4)));
  }

  // ── what fails ──────────────────────────────────────────────────────────────

  /** The whole run to the end of term 3, with the state `p` right after the first false
      commit. */
  lemma BadRun() returns (r: Run, p: nat)
    ensures IsRun(IDS, LastLogIndexRule, r) && Config(IDS) && p + 1 < |r.states|
    ensures forall l | l in r.labels :: l.Exec?
    ensures Shows(r.states[p], Scene(PAUSE2, STALE2, HOLDER2, [X, Y], [], []))
    ensures Shows(Last(r), Scene(CUT3, VOTER3, DONE3, [X, Y, Y], [], [X, Z]))
    ensures Emissions(1, 0, [X, Y]) + Emissions(3, 0, [X, Z]) <= Last(r).emitted
  {
    var r0 := TermTwo();
    r := TermThree(r0);
    p := |r0.states| - 1;
    assert Config(IDS);
    hide IsRun;
    assert r.states[p] == Last(r0);
    assert r.states[p].hosts[1].raft != Last(r).hosts[1].raft;
  }

  /** State Machine Safety fails: two nodes apply different commands at index 2. */
  lemma LiteralRunBreaksSafety() returns (r: Run, d: Emission, e: Emission)
    ensures Config(IDS) && IsRun(IDS, LastLogIndexRule, r) && !HonestRun(IDS, LastLogIndexRule, r)
    ensures r.states != [] && d in Last(r).emitted && e in Last(r).emitted
    ensures d.index == e.index == 2 && d.node == 1 && e.node == 3 && d.command != e.command
  {
    var p;
    r, p := BadRun();
    d, e := Emission(1, 2, Y), Emission(3, 2, Z);
    assert [X, Y][1] == Y && [X, Z][1] == Z;
    assert d in Emissions(1, 0, [X, Y]) && e in Emissions(3, 0, [X, Z]);
    hide IsRun, HonestRun, Shows;
    if HonestRun(IDS, RULE, r) {
      StateMachineSafety.StateMachineSafety(IDS, RULE, r, |r.states| - 1, |r.states| - 1, d, e);
    }
  }

  /** Leader Completeness fails, and committed prefixes disagree: node 1 has committed an entry
      in term 2 that the leader of term 3 does not have, and that leader has committed another
      one in its place. */
  lemma LeaderCompletenessFails() returns (r: Run, i: nat, j: nat)
    ensures IsRun(IDS, LastLogIndexRule, r) && i < |r.states| && j < |r.states|
    ensures Leads(r.states[i], 1, 2) && Leads(r.states[j], 3, 3)
    ensures r.states[i].hosts[1].raft.volatile.commitIndex == 2 <= |LogOf(r.states[i], 1)|
    ensures r.states[j].hosts[3].raft.volatile.commitIndex == 2 <= |LogOf(r.states[j], 3)|
    ensures !(LogOf(r.states[i], 1)[..2] <= LogOf(r.states[j], 3))
  {
    r, i := BadRun();
    j := |r.states| - 1;
    hide IsRun;
    assert LogOf(r.states[i], 1)[..2][1] != LogOf(r.states[j], 3)[1];
  }

  /** Commits are not stable: node 1, which never stops, loses a committed entry from its
      log, and what it has applied is no longer what its log holds. */
  lemma CommittedEntryIsCut() returns (r: Run, i: nat, j: nat)
    ensures IsRun(IDS, LastLogIndexRule, r) && i < j < |r.states|
    ensures forall l | l in r.labels :: l.Exec?
    ensures 1 in r.states[i].hosts && 1 in r.states[j].hosts
    ensures r.states[i].hosts[1].raft.volatile.commitIndex == 2 <= |LogOf(r.states[i], 1)|
    ensures !(LogOf(r.states[i], 1)[..2] <= LogOf(r.states[j], 1))
    ensures r.states[j].hosts[1].raft.volatile.lastApplied > |LogOf(r.states[j], 1)| == 2
    ensures !(Commands(LogOf(r.states[j], 1)) <= r.states[j].hosts[1].applied)
  {
    r, i := BadRun();
    j := |r.states| - 1;
    hide IsRun;
    assert LogOf(r.states[i], 1)[..2][1] != LogOf(r.states[j], 1)[1];
    assert Commands(LogOf(r.states[j], 1))[1] != r.states[j].hosts[1].applied[1];
  }

  /** Replicated maps diverge: both nodes have applied two entries. */
  lemma MapsDiverge() returns (r: Run, i: nat, j: nat)
    ensures IsRun(IDS, LastLogIndexRule, r) && i < |r.states| && j < |r.states|
    ensures 1 in r.states[i].hosts && 3 in r.states[j].hosts
    ensures r.states[i].hosts[1].raft.volatile.lastApplied == 2
    ensures r.states[j].hosts[3].raft.volatile.lastApplied == 2
    ensures r.states[i].hosts[1].store != r.states[j].hosts[3].store
  {
    r, i := BadRun();
    j := |r.states| - 1;
    hide IsRun;
    TwoKeys(Y);
    TwoKeys(Z);
  }

  lemma TwoKeys(c: Command)
    requires c == Y || c == Z
    ensures ApplyAll(map[], [X, c]).Keys == {X.op.key, c.op.key}
  {
    assert [X, c][..1] == [X] && [X][..0] == [];
    assert ApplyAll(map[], [X]) == map["x" := ""];
  }

  /** Match-index soundness fails: the leader credits node 2 with three entries and has two
      itself; the reply it has booked is on the network. */
  lemma CreditIsFalse() returns (r: Run, i: nat)
    ensures IsRun(IDS, LastLogIndexRule, r) && i < |r.states|
    ensures Leads(r.states[i], 1, 2) && 2 in r.states[i].hosts
    ensures r.states[i].hosts[2].raft.persistent.currentTerm == 2
    ensures var ls := r.states[i].hosts[1].raft.leaderState;
            && r.states[i].hosts[1].raft.peers == [2, 3]
            && ls.Some? && |ls.value.matchIndex| == 2
            && ls.value.matchIndex[0] > |LogOf(r.states[i], 1)|
  {
    r, i := BadRun();
    hide IsRun;
  }

  /** A request announces a commit index beyond the log it vouches for. */
  lemma CommitBeyondRequest() returns (r: Run, p: Packet)
    ensures IsRun(IDS, LastLogIndexRule, r) && r.states != []
    ensures p in Last(r).network && p.msg.Append? && p.msg.ae.leaderCommit > EndIndex(p.msg.ae)
  {
    r := TermTwo();
    r := TermThree(r);
    r := TermFour(r);
    p := Packet(3, BEAT4);
    hide IsRun, Shows;
  }
}
