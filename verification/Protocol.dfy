/** The vocabulary of the protocol: log entries, messages, events and actions
    (raft-core/src/protocol). Terms and indices are unbounded. */
module Protocol {
  type NodeId = nat
  type Term = nat
  type LogIndex = nat

  datatype Option<+T> = None | Some(value: T)

  datatype Op = Set(key: string, value: string) | Delete(key: string)

  datatype Command = Command(op: Op)

  datatype LogEntry = LogEntry(term: Term, index: LogIndex, command: Command)

  type Log = seq<LogEntry>

  datatype RequestVote = RequestVote(
    term: Term, candidateId: NodeId, lastLogIndex: LogIndex, lastLogTerm: Term)

  datatype RequestVoteResponse = RequestVoteResponse(
    term: Term, voteGranted: bool, voteFrom: NodeId)

  datatype AppendEntries = AppendEntries(
    term: Term, leaderId: NodeId, prevLogIndex: LogIndex, prevLogTerm: Term,
    entries: Log, leaderCommit: LogIndex)

  datatype AppendEntriesResponse = AppendEntriesResponse(
    term: Term, success: bool, from: NodeId, matchIndex: LogIndex)

  datatype Message =
    | VoteRequest(rv: RequestVote)
    | VoteReply(vr: RequestVoteResponse)
    | Append(ae: AppendEntries)
    | AppendReply(ar: AppendEntriesResponse)

  datatype Event =
    | Receive(msg: Message)
    | ElectionTimeout
    | HeartbeatTimeout
    | ClientRequest(command: Command)

  datatype Action =
    | Send(to: NodeId, msg: Message)
    | ResetElectionTimer
    | ResetHeartbeatTimer
    | PersistState
    | NotLeader(leader: Option<NodeId>)
    | ApplyCommand(command: Command)
}
