/** The whole system: a fixed set of nodes, each with a volatile state and a disk; an
    ever-growing set of packets, any of which may be delivered at any time and any
    number of times; and crashes after any prefix of any action list. */
module Cluster {
  import opened Protocol
  import opened RaftSteps
  import opened Runtime

  /** A node as an outside observer sees it. `applied` and `store` start empty at every
      start of the process. */
  datatype Host = Host(raft: RaftState, disk: PersistentState,
                       applied: seq<Command>, store: Data)

  /** The `index`-th `ApplyCommand` of `node` since its last start carried `command`. */
  datatype Emission = Emission(node: NodeId, index: LogIndex, command: Command)

  // ── history variables ───────────────────────────────────────────────────────

  datatype Slot = Slot(node: NodeId, term: Term)

  /** The vote of a node in a term, with the log the voter had when it first cast it. */
  datatype Ballot = Ballot(candidate: NodeId, log: Log)

  /** A leader's time in office: who elected it, the log it started with and its log by
      now (or when it left). */
  datatype Reign = Reign(leader: NodeId, electors: set<NodeId>, start: Log, log: Log)

  /** `acks` is the highest index a node has truly acknowledged in a term, to itself if it
      leads: for a reply that claims more than it can vouch for, what its request has
      verified. */
  datatype History = History(
    reigns: map<Term, Reign>, ballots: map<Slot, Ballot>, acks: map<Slot, LogIndex>)

  datatype System = System(
    hosts: map<NodeId, Host>, network: set<Packet>, emitted: set<Emission>, history: History)

  // ── configuration ───────────────────────────────────────────────────────────

  predicate Config(ids: seq<NodeId>) {
    && ids != []
    && forall i, j | 0 <= i < j < |ids| :: ids[i] != ids[j]
  }

  function Members(ids: seq<NodeId>): set<NodeId> {
    set i | i in ids
  }

  /** The cluster minus the node itself. */
  function PeersOf(ids: seq<NodeId>, id: NodeId): seq<NodeId> {
    if ids == [] then []
    else PeersOf(ids[..|ids| - 1], id) + if ids[|ids| - 1] == id then [] else [ids[|ids| - 1]]
  }

  function NewHost(ids: seq<NodeId>, id: NodeId): Host {
    Host(New(id, PeersOf(ids, id)), FRESH_DISK, [], map[])
  }

  function Initial(ids: seq<NodeId>): System {
    System(map id | id in Members(ids) :: NewHost(ids, id), {}, {}, History(map[], map[], map[]))
  }

  // ── steps ───────────────────────────────────────────────────────────────────

  /** `Exec` handles an event to completion, `Crash` dies after `executed` actions and
      starts again from the disk, `Restart` dies between two events. */
  datatype Label =
    | Exec(node: NodeId, event: Event)
    | Crash(node: NodeId, event: Event, executed: nat)
    | Restart(node: NodeId)

  function Packets(actions: seq<Action>): set<Packet> {
    set p | p in Sent(actions)
  }

  function Emissions(node: NodeId, before: nat, commands: seq<Command>): set<Emission> {
    set i | 0 <= i < |commands| :: Emission(node, before + i + 1, commands[i])
  }

  function After(host: Host, o: Outcome): Host {
    Host(o.state, if Persists(o.actions) then o.state.persistent else host.disk,
         host.applied + Applied(o.actions), ApplyAll(host.store, Applied(o.actions)))
  }

  function Restarted(host: Host): Host {
    Host(Restore(host.raft.id, host.raft.peers, host.disk), host.disk, [], map[])
  }

  function Electors(ids: seq<NodeId>, ballots: map<Slot, Ballot>, term: Term, candidate: NodeId)
    : set<NodeId>
  {
    set u | u in Members(ids) && Slot(u, term) in ballots
            && ballots[Slot(u, term)].candidate == candidate
  }

  /** A success reply claims no more than the message has verified, or the follower's log
      ends in an entry of the sending leader. */
  predicate HonestAck(rule: AckRule, s: RaftState, m: AppendEntries) {
    var log := Reconcile(s.persistent.log, m.entries);
    Accepts(s, m) ==>
      || AckIndex(rule, log, m) <= m.prevLogIndex + |m.entries|
      || LastLogTerm(log) == m.term
  }

  /** What a success reply truly acknowledges. */
  function TrueAck(rule: AckRule, s: RaftState, m: AppendEntries): LogIndex {
    if HonestAck(rule, s, m) then AckIndex(rule, Reconcile(s.persistent.log, m.entries), m)
    else m.prevLogIndex + |m.entries|
  }

  /** What a success reply to this event truly acknowledges, if there is one. */
  function Acknowledges(rule: AckRule, s: RaftState, event: Event): Option<LogIndex> {
    match event
    case Receive(Append(m)) =>
      if Accepts(s, m) then Some(TrueAck(rule, s, m)) else None
    case _ => None
  }

  function RecordBallot(h: History, n: NodeId, post: RaftState): map<Slot, Ballot> {
    var p := post.persistent;
    var slot := Slot(n, p.currentTerm);
    if p.votedFor.Some? && slot !in h.ballots
    then h.ballots[slot := Ballot(p.votedFor.value, p.log)] else h.ballots
  }

  function RecordReign(ids: seq<NodeId>, h: History, n: NodeId, post: RaftState): map<Term, Reign> {
    var p := post.persistent;
    var t := p.currentTerm;
    if post.role != Leader then h.reigns
    else if t in h.reigns then h.reigns[t := h.reigns[t].(log := p.log)]
    else h.reigns[t := Reign(n, Electors(ids, RecordBallot(h, n, post), t, n), p.log, p.log)]
  }

  function Max(a: nat, b: nat): nat { if a >= b then a else b }

  function AckOf(acks: map<Slot, LogIndex>, n: NodeId, t: Term): LogIndex {
    if Slot(n, t) in acks then acks[Slot(n, t)] else 0
  }

  function RecordAck(h: History, n: NodeId, post: RaftState, ack: Option<LogIndex>)
    : map<Slot, LogIndex>
  {
    var t := post.persistent.currentTerm;
    if post.role == Leader then h.acks[Slot(n, t) := |post.persistent.log|]
    else if ack.Some? then h.acks[Slot(n, t) := Max(AckOf(h.acks, n, t), ack.value)]
    else h.acks
  }

  function Record(ids: seq<NodeId>, h: History, n: NodeId, post: RaftState, ack: Option<LogIndex>)
    : History
  {
    History(RecordReign(ids, h, n, post), RecordBallot(h, n, post), RecordAck(h, n, post, ack))
  }

  /** A message is delivered only if it was sent to this node; the leader vectors are
      indexed only within their bounds. */
  predicate Enabled(rule: AckRule, s: System, l: Label) {
    && l.node in s.hosts
    && VectorsFit(s.hosts[l.node].raft)
    && (!l.Restart? && l.event.Receive? ==> Packet(l.node, l.event.msg) in s.network)
    && (l.Crash? ==> l.executed <= |Step(rule, s.hosts[l.node].raft, l.event).actions|)
  }

  function RunEvent(ids: seq<NodeId>, rule: AckRule, s: System, n: NodeId, event: Event): System
    requires Enabled(rule, s, Exec(n, event))
  {
    var host := s.hosts[n];
    var o := Step(rule, host.raft, event);
    System(s.hosts[n := After(host, o)],
           s.network + Packets(o.actions),
           s.emitted + Emissions(n, |host.applied|, Applied(o.actions)),
           Record(ids, s.history, n, o.state, Acknowledges(rule, host.raft, event)))
  }

  /** The process dies after `k` actions and starts again from what it has saved. A state
      that was to be persisted and was not never existed for anybody else. */
  function CrashEvent(ids: seq<NodeId>, rule: AckRule, s: System, n: NodeId, event: Event, k: nat)
    : System
    requires Enabled(rule, s, Crash(n, event, k))
  {
    var host := s.hosts[n];
    var o := Step(rule, host.raft, event);
    var done := o.actions[..k];
    var disk := if Persists(done) then o.state.persistent else host.disk;
    System(s.hosts[n := Restarted(host.(disk := disk))],
           s.network + Packets(done),
           s.emitted + Emissions(n, |host.applied|, Applied(done)),
           if Persists(o.actions) && !Persists(done) then s.history
           else Record(ids, s.history, n, o.state, Acknowledges(rule, host.raft, event)))
  }

  function Do(ids: seq<NodeId>, rule: AckRule, s: System, l: Label): System
    requires Enabled(rule, s, l)
  {
    match l
    case Exec(n, event) => RunEvent(ids, rule, s, n, event)
    case Crash(n, event, k) => CrashEvent(ids, rule, s, n, event, k)
    case Restart(n) => s.(hosts := s.hosts[n := Restarted(s.hosts[n])])
  }

  // ── runs ────────────────────────────────────────────────────────────────────

  datatype Run = Run(states: seq<System>, labels: seq<Label>)

  predicate IsRun(ids: seq<NodeId>, rule: AckRule, r: Run) {
    && |r.states| == |r.labels| + 1
    && r.states[0] == Initial(ids)
    && forall i {:trigger r.labels[i]} | 0 <= i < |r.labels| ::
         && Enabled(rule, r.states[i], r.labels[i])
         && r.states[i + 1] == Do(ids, rule, r.states[i], r.labels[i])
  }

  /** A leader in office that counts this success reply credits the sender with no more than
      it has truly acknowledged by now. */
  predicate BooksTruth(h: History, s: RaftState, m: AppendEntriesResponse) {
    m.success && s.role == Leader && m.term == s.persistent.currentTerm && m.from in s.peers ==>
      m.matchIndex <= AckOf(h.acks, m.from, m.term)
  }

  predicate HonestEvent(h: History, s: RaftState, event: Event) {
    event.Receive? && event.msg.AppendReply? ==> BooksTruth(h, s, event.msg.ar)
  }

  predicate HonestLabel(s: System, l: Label)
    requires l.node in s.hosts
  {
    !l.Restart? ==> HonestEvent(s.history, s.hosts[l.node].raft, l.event)
  }

  /** No leader in office ever books a false success reply. False replies may be sent, lost,
      or reach a leader that is out of office. */
  predicate HonestRun(ids: seq<NodeId>, rule: AckRule, r: Run)
    requires IsRun(ids, rule, r)
  {
    forall i {:trigger r.labels[i]} | 0 <= i < |r.labels| :: HonestLabel(r.states[i], r.labels[i])
  }
}
