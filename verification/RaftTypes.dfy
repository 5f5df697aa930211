/** Data model of the Raft core: configurations, log entries, messages and the
    pluggable replicated state machine. Terms, indices and counters are u64 in
    the source; here they are unbounded naturals. */
module RaftTypes {
  import opened Wrappers

  type Byte = b: int | 0 <= b < 256
  type Bytes = seq<Byte>
  type ReplicaId = nat
  type Term = nat
  type Index = nat

  /** A membership configuration; `Joint` is the transitional C_old,new. */
  datatype ConfState =
    | Simple(voters: seq<ReplicaId>)
    | Joint(outgoing: seq<ReplicaId>, incoming: seq<ReplicaId>)

  datatype EntryPayload = Command(command: Bytes) | Noop | Config(conf: ConfState)

  datatype Entry = Entry(term: Term, index: Index, payload: EntryPayload)

  datatype Message =
    | RequestVote(term: Term, candidate: ReplicaId, lastLogIndex: Index, lastLogTerm: Term)
    | RequestVoteResp(term: Term, granted: bool)
    | AppendEntries(term: Term, leader: ReplicaId, prevLogIndex: Index, prevLogTerm: Term,
                    entries: seq<Entry>, leaderCommit: Index, readSeq: nat)
    | AppendEntriesResp(term: Term, success: bool, matchIndex: Index, conflictIndex: Index, readSeq: nat)
    | InstallSnapshot(term: Term, leader: ReplicaId, lastIncludedIndex: Index, lastIncludedTerm: Term,
                      lastIncludedConfig: ConfState, data: Bytes, readSeq: nat)

  datatype Role = Follower | Candidate | Leader

  datatype ReadResult = Value(value: Bytes) | NotLeader

  datatype PendingRead = PendingRead(reqId: nat, query: Bytes, readIndex: Index, minSeq: nat)

  datatype Applied = Applied(index: Index, command: Bytes, result: Bytes)

  datatype HardState = HardState(term: Term, votedFor: Option<ReplicaId>, commitIndex: Index)

  datatype SnapshotMeta = SnapshotMeta(lastIncludedIndex: Index, lastIncludedTerm: Term, data: Bytes)

  /** An addressed outbound message. */
  datatype Out = Out(dest: ReplicaId, msg: Message)

  /** The state machine a group replicates, as a record of functions on its state. */
  datatype StateMachine<!S> = StateMachine(
    initial: S,
    apply: (S, Bytes) -> (S, Bytes),
    query: (S, Bytes) -> Bytes,
    snapshot: S -> Bytes,
    restore: (S, Bytes) -> S)
}
