/** The node's transition function (raft-core/src/lib.rs and raft-core/src/raft).
    Every handler is a function from a node state to a new state and the ordered
    list of actions. The searches through the log are the linear ones of the
    source: they look at the `index` field of an entry and never at its position. */
module RaftSteps {
  import opened Protocol

  datatype Role = Follower | Candidate | Leader

  datatype PersistentState = PersistentState(
    currentTerm: Term, votedFor: Option<NodeId>, log: Log)

  datatype VolatileState = VolatileState(commitIndex: LogIndex, lastApplied: LogIndex)

  datatype CandidateState = CandidateState(
    votesReceived: set<NodeId>, votesGranted: set<NodeId>)

  /** Both vectors are indexed by the position of the peer in `peers`. */
  datatype LeaderState = LeaderState(nextIndex: seq<LogIndex>, matchIndex: seq<LogIndex>)

  datatype RaftState = RaftState(
    id: NodeId, peers: seq<NodeId>, role: Role, knownLeader: Option<NodeId>,
    persistent: PersistentState, volatile: VolatileState,
    leaderState: Option<LeaderState>, candidateState: Option<CandidateState>)

  datatype Outcome = Outcome(state: RaftState, actions: seq<Action>)

  /** What a success reply acknowledges. The code sends `last_log_index()`; the field
      is documented as "replicated", which is the index the request has verified. */
  datatype AckRule = LastLogIndexRule | VerifiedIndexRule

  const FRESH_DISK := PersistentState(0, None, [])

  function New(id: NodeId, peers: seq<NodeId>): RaftState {
    RaftState(id, peers, Follower, None, FRESH_DISK, VolatileState(0, 0), None, None)
  }

  function Restore(id: NodeId, peers: seq<NodeId>, persistent: PersistentState): RaftState {
    New(id, peers).(persistent := persistent)
  }

  // ── reading the log ─────────────────────────────────────────────────────────

  function LastLogIndex(log: Log): LogIndex {
    if log == [] then 0 else log[|log| - 1].index
  }

  function LastLogTerm(log: Log): Term {
    if log == [] then 0 else log[|log| - 1].term
  }

  /** `iter().position(|e| e.index == index)` */
  function Position(log: Log, index: LogIndex): (r: Option<nat>)
    ensures r.Some? ==> r.value < |log| && log[r.value].index == index
    ensures r.Some? ==> forall j | 0 <= j < r.value :: log[j].index != index
    ensures r.None? ==> forall j | 0 <= j < |log| :: log[j].index != index
  {
    if log == [] then None
    else if log[0].index == index then Some(0)
    else match Position(log[1..], index)
         case None => None
         case Some(k) => Some(k + 1)
  }

  /** `iter().find(|e| e.index == index)` */
  function Find(log: Log, index: LogIndex): Option<LogEntry> {
    match Position(log, index)
    case None => None
    case Some(k) => Some(log[k])
  }

  /** `iter().filter(|e| e.index >= next)` */
  function EntriesFrom(log: Log, next: LogIndex): Log {
    if log == [] then []
    else
      var last := log[|log| - 1];
      EntriesFrom(log[..|log| - 1], next) + if last.index >= next then [last] else []
  }

  predicate LogMatches(log: Log, index: LogIndex, term: Term) {
    index == 0 || exists e | e in log :: e.index == index && e.term == term
  }

  function PrevLogInfo(log: Log, next: LogIndex): (LogIndex, Term) {
    if next <= 1 then (0, 0)
    else
      (next - 1, match Find(log, next - 1) case None => 0 case Some(e) => e.term)
  }

  // ── elections ───────────────────────────────────────────────────────────────

  /** `div_ceil` */
  function DivCeil(n: nat, d: nat): nat
    requires d > 0
  {
    n / d + if n % d > 0 then 1 else 0
  }

  /** Votes needed to win, the node's own included. */
  function Quorum(peerCount: nat): nat {
    DivCeil(peerCount, 2) + 1
  }

  function StepDown(s: RaftState, term: Term): RaftState {
    s.(persistent := s.persistent.(currentTerm := term, votedFor := None),
       role := Follower, candidateState := None, leaderState := None, knownLeader := None)
  }

  predicate UpToDate(lastTerm: Term, lastIndex: LogIndex, log: Log) {
    || lastTerm > LastLogTerm(log)
    || (lastTerm == LastLogTerm(log) && lastIndex >= LastLogIndex(log))
  }

  function VoteResponse(s: RaftState, candidate: NodeId, granted: bool): Action {
    Send(candidate, VoteReply(RequestVoteResponse(s.persistent.currentTerm, granted, s.id)))
  }

  function HandleRequestVote(s0: RaftState, m: RequestVote): Outcome {
    var s := if m.term > s0.persistent.currentTerm then StepDown(s0, m.term) else s0;
    if m.term < s.persistent.currentTerm then
      Outcome(s, [VoteResponse(s, m.candidateId, false)])
    else if s.persistent.votedFor.Some? && s.persistent.votedFor.value != m.candidateId then
      Outcome(s, [VoteResponse(s, m.candidateId, false)])
    else if !UpToDate(m.lastLogTerm, m.lastLogIndex, s.persistent.log) then
      Outcome(s, [VoteResponse(s, m.candidateId, false)])
    else
      var voted := s.(persistent := s.persistent.(votedFor := Some(m.candidateId)));
      Outcome(voted,
              [PersistState, ResetElectionTimer, VoteResponse(voted, m.candidateId, true)])
  }

  function BecomeLeader(s: RaftState): RaftState {
    var next := LastLogIndex(s.persistent.log) + 1;
    s.(role := Leader, knownLeader := Some(s.id), candidateState := None,
       leaderState := Some(LeaderState(seq(|s.peers|, _ => next), seq(|s.peers|, _ => 0))))
  }

  function HandleVoteResponse(s: RaftState, m: RequestVoteResponse): Outcome {
    if m.term > s.persistent.currentTerm then Outcome(StepDown(s, m.term), [])
    else if m.term < s.persistent.currentTerm then Outcome(s, [])
    else if s.role != Candidate then Outcome(s, [])
    else if m.voteFrom !in s.peers then Outcome(s, [])
    else
      var cs := if s.candidateState.Some? then s.candidateState.value else CandidateState({}, {});
      if m.voteFrom in cs.votesReceived then Outcome(s.(candidateState := Some(cs)), [])
      else
        var counted := CandidateState(
          cs.votesReceived + {m.voteFrom},
          if m.voteGranted then cs.votesGranted + {m.voteFrom} else cs.votesGranted);
        var s1 := s.(candidateState := Some(counted));
        if |counted.votesGranted| < Quorum(|s.peers|) then Outcome(s1, [])
        else Outcome(BecomeLeader(s1), [ResetHeartbeatTimer])
  }

  function VoteAction(s: RaftState, peer: NodeId): Action {
    Send(peer, VoteRequest(RequestVote(
      s.persistent.currentTerm, s.id,
      LastLogIndex(s.persistent.log), LastLogTerm(s.persistent.log))))
  }

  function HandleElectionTimeout(s: RaftState): Outcome {
    if s.role == Leader then Outcome(s, [])
    else
      var s1 := s.(
        role := Candidate,
        persistent := s.persistent.(currentTerm := s.persistent.currentTerm + 1,
                                    votedFor := Some(s.id)),
        leaderState := None,
        candidateState := Some(CandidateState({s.id}, {s.id})));
      if s.peers == [] then Outcome(BecomeLeader(s1), [ResetHeartbeatTimer, PersistState])
      else
        Outcome(s1, [ResetElectionTimer, PersistState] +
                    seq(|s.peers|, i requires 0 <= i < |s.peers| => VoteAction(s1, s.peers[i])))
  }

  // ── replication ─────────────────────────────────────────────────────────────

  /** Walk the new entries; at the first one that conflicts or is missing, cut the
      log there and append the rest of the message. */
  function Reconcile(log: Log, entries: Log): Log {
    if entries == [] then log
    else match Position(log, entries[0].index)
         case None => log + entries
         case Some(pos) =>
           if log[pos].term != entries[0].term then log[..pos] + entries
           else Reconcile(log, entries[1..])
  }

  /** Index of the last entry of the message, or the one it hangs on. */
  function LastNewIndex(m: AppendEntries): LogIndex {
    if m.entries == [] then m.prevLogIndex else m.entries[|m.entries| - 1].index
  }

  function Min(a: nat, b: nat): nat { if a <= b then a else b }

  function AckIndex(rule: AckRule, log: Log, m: AppendEntries): LogIndex {
    match rule
    case LastLogIndexRule => LastLogIndex(log)
    case VerifiedIndexRule => m.prevLogIndex + |m.entries|
  }

  function AppendResponse(s: RaftState, leader: NodeId, success: bool, matchIndex: LogIndex): Action {
    Send(leader, AppendReply(
      AppendEntriesResponse(s.persistent.currentTerm, success, s.id, matchIndex)))
  }

  /** Apply the entries of indices `lo + 1 ..= hi`; an index without entry is skipped. */
  function ApplyBetween(log: Log, lo: LogIndex, hi: LogIndex): seq<Action>
    decreases hi - lo
  {
    if lo >= hi then []
    else
      var next := Find(log, lo + 1);
      (if next.Some? then [ApplyCommand(next.value.command)] else [])
      + ApplyBetween(log, lo + 1, hi)
  }

  /** Apply everything in `(lastApplied, commitIndex]`. */
  function ApplyCommitted(s: RaftState): Outcome {
    var v := s.volatile;
    Outcome(
      s.(volatile := v.(lastApplied := if v.lastApplied < v.commitIndex then v.commitIndex
                                       else v.lastApplied)),
      ApplyBetween(s.persistent.log, v.lastApplied, v.commitIndex))
  }

  /** The request survives the term check and the consistency check. */
  predicate Accepts(s: RaftState, m: AppendEntries) {
    && m.term >= s.persistent.currentTerm
    && LogMatches(s.persistent.log, m.prevLogIndex, m.prevLogTerm)
  }

  function HandleAppendEntries(rule: AckRule, s0: RaftState, m: AppendEntries): Outcome {
    var s1 := if m.term > s0.persistent.currentTerm then StepDown(s0, m.term) else s0;
    if m.term < s1.persistent.currentTerm then
      Outcome(s1, [AppendResponse(s1, m.leaderId, false, 0)])
    else
      var s := if s1.role == Candidate then s1.(role := Follower, candidateState := None) else s1;
      if !LogMatches(s.persistent.log, m.prevLogIndex, m.prevLogTerm) then
        Outcome(s, [AppendResponse(s, m.leaderId, false, 0)])
      else
        var log := Reconcile(s.persistent.log, m.entries);
        var commit := if m.leaderCommit > s.volatile.commitIndex
                      then Min(m.leaderCommit, LastNewIndex(m)) else s.volatile.commitIndex;
        var applied := ApplyCommitted(
          s.(knownLeader := Some(m.leaderId), persistent := s.persistent.(log := log),
             volatile := s.volatile.(commitIndex := commit)));
        Outcome(applied.state,
                [PersistState, ResetElectionTimer,
                 AppendResponse(applied.state, m.leaderId, true, AckIndex(rule, log, m))]
                + applied.actions)
  }

  function CountAtLeast(matches: seq<LogIndex>, index: LogIndex): (n: nat)
    ensures n <= |matches|
  {
    if matches == [] then 0
    else CountAtLeast(matches[..|matches| - 1], index)
         + if matches[|matches| - 1] >= index then 1 else 0
  }

  /** The downward scan for the highest index to commit. */
  function CommitScan(log: Log, commit: LogIndex, term: Term,
                      matches: seq<LogIndex>, quorum: nat): LogIndex
  {
    if log == [] then commit
    else
      var e := log[|log| - 1];
      if e.index <= commit then commit
      else if e.term == term && 1 + CountAtLeast(matches, e.index) >= quorum then e.index
      else CommitScan(log[..|log| - 1], commit, term, matches, quorum)
  }

  function TryAdvanceCommit(s: RaftState): Outcome {
    var matches := if s.leaderState.Some? then s.leaderState.value.matchIndex else [];
    var scanned := CommitScan(s.persistent.log, s.volatile.commitIndex, s.persistent.currentTerm,
                              matches, Quorum(|s.peers|));
    var commit := if scanned > s.volatile.commitIndex then scanned else s.volatile.commitIndex;
    ApplyCommitted(s.(volatile := s.volatile.(commitIndex := commit)))
  }

  /** Leader vectors are as long as `peers`; the source indexes them without a check. */
  predicate VectorsFit(s: RaftState) {
    s.leaderState.Some? ==>
      && |s.leaderState.value.nextIndex| == |s.peers|
      && |s.leaderState.value.matchIndex| == |s.peers|
  }

  function PeerPosition(peers: seq<NodeId>, id: NodeId): (r: Option<nat>)
    ensures r.Some? ==> r.value < |peers| && peers[r.value] == id
    ensures r.None? ==> id !in peers
  {
    if peers == [] then None
    else if peers[0] == id then Some(0)
    else match PeerPosition(peers[1..], id)
         case None => None
         case Some(k) => Some(k + 1)
  }

  /** `saturating_sub(1).max(1)` */
  function BackUp(next: LogIndex): LogIndex {
    if next <= 2 then 1 else next - 1
  }

  function HandleAppendEntriesResponse(s: RaftState, m: AppendEntriesResponse): Outcome
    requires VectorsFit(s)
  {
    if m.term > s.persistent.currentTerm then Outcome(StepDown(s, m.term), [])
    else if m.term < s.persistent.currentTerm then Outcome(s, [])
    else if s.role != Leader then Outcome(s, [])
    else match PeerPosition(s.peers, m.from)
         case None => Outcome(s, [])
         case Some(i) =>
           if s.leaderState.None? then Outcome(s, [])
           else
             var ls := s.leaderState.value;
             if !m.success then
               Outcome(s.(leaderState := Some(
                 ls.(nextIndex := ls.nextIndex[i := BackUp(ls.nextIndex[i])]))), [])
             else if m.matchIndex > ls.matchIndex[i] then
               TryAdvanceCommit(s.(leaderState := Some(LeaderState(
                 ls.nextIndex[i := m.matchIndex + 1], ls.matchIndex[i := m.matchIndex]))))
             else TryAdvanceCommit(s)
  }

  function AppendEntriesForPeer(s: RaftState, i: nat): Action
    requires VectorsFit(s) && i < |s.peers|
  {
    var next := if s.leaderState.Some? then s.leaderState.value.nextIndex[i] else 1;
    var prev := PrevLogInfo(s.persistent.log, next);
    Send(s.peers[i], Append(AppendEntries(
      s.persistent.currentTerm, s.id, prev.0, prev.1,
      EntriesFrom(s.persistent.log, next), s.volatile.commitIndex)))
  }

  function HandleHeartbeatTimeout(s: RaftState): Outcome
    requires VectorsFit(s)
  {
    if s.role != Leader then Outcome(s, [])
    else
      Outcome(s, [ResetHeartbeatTimer] +
                 seq(|s.peers|, i requires 0 <= i < |s.peers| => AppendEntriesForPeer(s, i)))
  }

  function HandleClientRequest(s: RaftState, command: Command): Outcome {
    if s.role != Leader then Outcome(s, [NotLeader(s.knownLeader)])
    else
      var entry := LogEntry(s.persistent.currentTerm, LastLogIndex(s.persistent.log) + 1, command);
      var s1 := s.(persistent := s.persistent.(log := s.persistent.log + [entry]));
      if s.peers == [] then
        var o := TryAdvanceCommit(s1);
        Outcome(o.state, [ResetHeartbeatTimer, PersistState] + o.actions)
      else Outcome(s1, [ResetHeartbeatTimer, PersistState])
  }

  // ── dispatch ────────────────────────────────────────────────────────────────

  function Step(rule: AckRule, s: RaftState, event: Event): Outcome
    requires VectorsFit(s)
  {
    match event
    case Receive(VoteRequest(m)) => HandleRequestVote(s, m)
    case Receive(VoteReply(m)) => HandleVoteResponse(s, m)
    case Receive(Append(m)) => HandleAppendEntries(rule, s, m)
    case Receive(AppendReply(m)) => HandleAppendEntriesResponse(s, m)
    case ElectionTimeout => HandleElectionTimeout(s)
    case HeartbeatTimeout => HandleHeartbeatTimeout(s)
    case ClientRequest(command) => HandleClientRequest(s, command)
  }
}
