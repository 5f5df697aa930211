/** One Raft replica as a value, and every public step of the core as a function
    from a replica (and an input) to the next replica and the messages it sends.
    Timers are inputs: a tick says whether the running timer is due. */
module RaftModel {
  import opened Wrappers
  import opened RaftTypes
  import opened Membership
  import opened ConfigChain
  import opened LogStore

  datatype Node<S> = Node(
    id: ReplicaId,
    config: ConfState,
    baseConfig: ConfState,
    snapshotThreshold: nat,
    term: Term,
    votedFor: Option<ReplicaId>,
    store: Store,
    role: Role,
    leaderId: Option<ReplicaId>,
    commitIndex: Index,
    lastApplied: Index,
    outbox: seq<Applied>,
    votes: set<ReplicaId>,
    nextIndex: map<ReplicaId, Index>,
    matchIndex: map<ReplicaId, Index>,
    readSeq: nat,
    ackedSeq: map<ReplicaId, nat>,
    pending: seq<PendingRead>,
    ready: seq<(nat, ReadResult)>,
    sm: S)

  // ---- construction ----

  function NewWithStore<S>(m: StateMachine<S>, id: ReplicaId, voters: seq<ReplicaId>,
                           threshold: nat, store: Store): Node<S>
  {
    var initial := Simple(Sorted(voters));
    Node(id, initial, initial, threshold, 0, None, store, Follower, None, 0, 0, [],
         {}, map[], map[], 0, map[], [], [], m.initial)
  }

  function RestoreFrom<S>(m: StateMachine<S>, id: ReplicaId, voters: seq<ReplicaId>,
                          threshold: nat, store: Store): Node<S>
  {
    ApplyCommitted(m, RecomputeConfig(Rebased(Reloaded(m, NewWithStore(m, id, voters, threshold, store)))))
  }

  /** Term, vote and snapshot as the store has them. */
  function Reloaded<S>(m: StateMachine<S>, n: Node<S>): Node<S> {
    var n1 := n.(term := n.store.hardState.term, votedFor := n.store.hardState.votedFor);
    match LoadSnapshot(n.store)
    case None => n1
    case Some(snap) => n1.(sm := m.restore(n1.sm, snap.data), lastApplied := snap.lastIncludedIndex)
  }

  /** Membership at the snapshot base; commit and applied indices never below it. */
  function Rebased<S>(n: Node<S>): Node<S> {
    n.(baseConfig := ConfigAt(n, n.store.baseIndex),
       commitIndex := Max(n.store.hardState.commitIndex, n.store.baseIndex),
       lastApplied := Max(n.lastApplied, n.store.baseIndex))
  }

  function Max(a: nat, b: nat): nat { if a < b then b else a }

  function Min(a: nat, b: nat): nat { if a < b then a else b }

  // ---- log and membership lookups ----

  function LiveEntries<S>(n: Node<S>): seq<Entry> {
    Entries(n.store, n.store.baseIndex + 1, LastIndex(n.store))
  }

  function TermAt<S>(n: Node<S>, index: Index): Option<Term> {
    if index == 0 then Some(0)
    else if index == n.store.baseIndex then Some(n.store.baseTerm)
    else if index < n.store.baseIndex then None
    else EntryTerm(n.store, index)
  }

  function NodeEntryAt<S>(n: Node<S>, index: Index): Option<Entry> {
    if index <= n.store.baseIndex then None else EntryAt(n.store, index)
  }

  function LastConfigIndex<S>(n: Node<S>): Option<Index> {
    var live := LiveEntries(n);
    var p := LastConfigPos(live);
    if p < 0 then None else Some(live[p].index)
  }

  /** The last `Config` among `log` with index at most `index`, else `base`. */
  function ConfigUpTo(base: ConfState, log: seq<Entry>, index: Index): ConfState {
    if log == [] then base
    else
      var e := log[|log| - 1];
      if e.index <= index && IsConfig(e) then e.payload.conf
      else ConfigUpTo(base, log[..|log| - 1], index)
  }

  function ConfigAt<S>(n: Node<S>, index: Index): ConfState {
    ConfigUpTo(n.baseConfig, LiveEntries(n), index)
  }

  function RecomputeConfig<S>(n: Node<S>): Node<S> {
    n.(config := ConfigOf(n.baseConfig, LiveEntries(n)))
  }

  function Peers<S>(n: Node<S>): seq<ReplicaId> {
    Without(Voters(n.config), n.id)
  }

  function PersistHardState<S>(n: Node<S>): Node<S> {
    n.(store := SaveHardState(n.store, HardState(n.term, n.votedFor, n.commitIndex)))
  }

  // ---- role transitions ----

  function FailReads(rs: seq<PendingRead>): seq<(nat, ReadResult)> {
    seq(|rs|, i requires 0 <= i < |rs| => (rs[i].reqId, NotLeader))
  }

  function BecomeFollower<S>(n: Node<S>, term: Term, leader: Option<ReplicaId>): Node<S> {
    var n1 := n.(role := Follower, term := term, leaderId := leader,
                 votedFor := if term != n.term then None else n.votedFor,
                 votes := {},
                 ready := n.ready + FailReads(n.pending),
                 pending := [],
                 ackedSeq := map[]);
    if term != n.term then PersistHardState(n1) else n1
  }

  function Stand<S>(n: Node<S>): Node<S> {
    PersistHardState(n.(role := Candidate, term := n.term + 1, votedFor := Some(n.id), leaderId := None,
                        votes := {n.id}))
  }

  function StartElection<S>(m: StateMachine<S>, n: Node<S>): (Node<S>, seq<Out>) {
    var n1 := Stand(n);
    if IsQuorum(n1.config, n1.votes) then BecomeLeader(m, n1) else (n1, VoteRequests(n1))
  }

  function VoteRequests<S>(n: Node<S>): seq<Out> {
    var msg := RequestVote(n.term, n.id, LastIndex(n.store), LastTerm(n.store));
    var ps := Peers(n);
    seq(|ps|, i requires 0 <= i < |ps| => Out(ps[i], msg))
  }

  function BecomeLeader<S>(m: StateMachine<S>, n: Node<S>): (Node<S>, seq<Out>) {
    BroadcastAppend(MaybeAdvanceCommit(m, OpenedReign(n)))
  }

  /** The same value for every peer. */
  function Filled(ps: seq<ReplicaId>, x: nat): (r: map<ReplicaId, nat>)
    ensures forall p :: p in r <==> p in ps
    ensures forall p :: p in r ==> r[p] == x
  {
    if ps == [] then map[] else Filled(ps[..|ps| - 1], x)[ps[|ps| - 1] := x]
  }

  /** Leader of the current term, with its opening no-op appended. */
  function OpenedReign<S>(n: Node<S>): Node<S> {
    AppendLocal(InOffice(n), Noop)
  }

  /** Leader of the current term, with everybody's progress unknown. */
  function InOffice<S>(n: Node<S>): Node<S> {
    n.(role := Leader, leaderId := Some(n.id),
       nextIndex := Filled(Peers(n), LastIndex(n.store) + 1), matchIndex := Filled(Peers(n), 0))
  }

  // ---- log mutation ----

  function AppendLocal<S>(n: Node<S>, payload: EntryPayload): Node<S> {
    var index := LastIndex(n.store) + 1;
    var n1 := n.(store := Append(n.store, [Entry(n.term, index, payload)]),
                 matchIndex := if n.id in n.matchIndex then n.matchIndex[n.id := index] else n.matchIndex);
    if payload.Config? then RecomputeConfig(n1) else n1
  }

  // ---- elections ----

  /** (t1, i1) >= (t2, i2) lexicographically: at least as up to date. */
  predicate UpToDate(t1: Term, i1: Index, t2: Term, i2: Index) {
    t1 > t2 || (t1 == t2 && i1 >= i2)
  }

  function HandleRequestVote<S>(n: Node<S>, term: Term, candidate: ReplicaId,
                                candLastIndex: Index, candLastTerm: Term): (Node<S>, seq<Out>)
  {
    DecideVote(if term > n.term then BecomeFollower(n, term, None) else n, term, candidate, candLastIndex, candLastTerm)
  }

  predicate Grants<S>(n: Node<S>, term: Term, candidate: ReplicaId, candLastIndex: Index, candLastTerm: Term) {
    && term == n.term
    && UpToDate(candLastTerm, candLastIndex, LastTerm(n.store), LastIndex(n.store))
    && (n.votedFor == None || n.votedFor == Some(candidate))
  }

  function DecideVote<S>(n: Node<S>, term: Term, candidate: ReplicaId,
                         candLastIndex: Index, candLastTerm: Term): (Node<S>, seq<Out>)
  {
    var granted := Grants(n, term, candidate, candLastIndex, candLastTerm);
    (if granted then PersistHardState(n.(votedFor := Some(candidate))) else n,
     [Out(candidate, RequestVoteResp(n.term, granted))])
  }

  function HandleRequestVoteResp<S>(m: StateMachine<S>, n: Node<S>, from: ReplicaId, term: Term, granted: bool)
    : (Node<S>, seq<Out>)
  {
    if term > n.term then (BecomeFollower(n, term, None), [])
    else if n.role != Candidate || term != n.term || !granted then (n, [])
    else
      var n1 := n.(votes := n.votes + {from});
      if IsQuorum(n1.config, n1.votes) then BecomeLeader(m, n1) else (n1, [])
  }

  // ---- AppendEntries, follower side ----

  function SpliceOne<S>(n: Node<S>, e: Entry): Node<S> {
    if e.index <= n.store.baseIndex then n
    else
      match TermAt(n, e.index)
      case Some(t) =>
        if t == e.term then n
        else n.(store := Append(TruncateSuffix(n.store, e.index), [e]))
      case None => n.(store := Append(n.store, [e]))
  }

  function Splice<S>(n: Node<S>, entries: seq<Entry>): Node<S>
    decreases |entries|
  {
    if entries == [] then n else Splice(SpliceOne(n, entries[0]), entries[1..])
  }

  function HandleAppendEntries<S>(m: StateMachine<S>, n: Node<S>, msg: Message): (Node<S>, seq<Out>)
    requires msg.AppendEntries?
  {
    if msg.term < n.term then
      (n, [Out(msg.leader, AppendEntriesResp(n.term, false, 0, 0, msg.readSeq))])
    else FollowLeader(m, BecomeFollower(n, msg.term, Some(msg.leader)), msg)
  }

  /** The matching check at the previous entry, by a follower of the sender's term. */
  function FollowLeader<S>(m: StateMachine<S>, n: Node<S>, msg: Message): (Node<S>, seq<Out>)
    requires msg.AppendEntries?
  {
    if TermAt(n, msg.prevLogIndex) != Some(msg.prevLogTerm) then
      var conflict := if LastIndex(n.store) < msg.prevLogIndex then LastIndex(n.store) + 1 else msg.prevLogIndex;
      (n, [Out(msg.leader, AppendEntriesResp(n.term, false, 0, conflict, msg.readSeq))])
    else Accept(m, n, msg)
  }

  function Accept<S>(m: StateMachine<S>, n: Node<S>, msg: Message): (Node<S>, seq<Out>)
    requires msg.AppendEntries?
  {
    Acknowledged(FollowCommit(m, RecomputeConfig(Splice(n, msg.entries)), msg.leaderCommit), msg)
  }

  function Acknowledged<S>(n: Node<S>, msg: Message): (Node<S>, seq<Out>)
    requires msg.AppendEntries?
  {
    (n, [Out(msg.leader, AppendEntriesResp(n.term, true, msg.prevLogIndex + |msg.entries|, 0, msg.readSeq))])
  }

  /** Advance commit to the leader's, bounded by what is held, and apply. */
  function FollowCommit<S>(m: StateMachine<S>, n: Node<S>, leaderCommit: Index): Node<S> {
    if leaderCommit > n.commitIndex then
      ApplyCommitted(m, PersistHardState(n.(commitIndex := Min(leaderCommit, LastIndex(n.store)))))
    else n
  }

  function HandleInstallSnapshot<S>(m: StateMachine<S>, n: Node<S>, msg: Message): (Node<S>, seq<Out>)
    requires msg.InstallSnapshot?
  {
    if msg.term < n.term then
      (n, [Out(msg.leader, AppendEntriesResp(n.term, false, 0, 0, msg.readSeq))])
    else
      var n1 := BecomeFollower(n, msg.term, Some(msg.leader));
      if msg.lastIncludedIndex <= n1.store.baseIndex then
        (n1, [Out(msg.leader, AppendEntriesResp(n1.term, true, LastIndex(n1.store), 0, msg.readSeq))])
      else
        var n2 := Installed(m, n1, msg);
        (n2, [Out(msg.leader, AppendEntriesResp(n2.term, true, msg.lastIncludedIndex, 0, msg.readSeq))])
  }

  /** Replace the state machine and the log up to the snapshot. */
  function Installed<S>(m: StateMachine<S>, n: Node<S>, msg: Message): Node<S>
    requires msg.InstallSnapshot?
  {
    var n1 := if TermAt(n, msg.lastIncludedIndex) != Some(msg.lastIncludedTerm)
              then n.(store := TruncateSuffix(n.store, n.store.baseIndex + 1)) else n;
    var n2 := n1.(sm := m.restore(n1.sm, msg.data),
                  store := SaveSnapshot(n1.store, SnapshotMeta(msg.lastIncludedIndex, msg.lastIncludedTerm, msg.data)),
                  baseConfig := msg.lastIncludedConfig,
                  commitIndex := Max(n1.commitIndex, msg.lastIncludedIndex),
                  lastApplied := Max(n1.lastApplied, msg.lastIncludedIndex));
    RecomputeConfig(PersistHardState(n2))
  }

  // ---- AppendEntries, leader side ----

  function Get(m: map<ReplicaId, nat>, k: ReplicaId, default: nat): nat {
    if k in m then m[k] else default
  }

  function Backed(next: Index, conflict: Index): Index {
    var less := if next == 0 then 0 else next - 1;
    if conflict > 0 then Max(Min(conflict, less), 1) else Max(less, 1)
  }

  function HandleAppendEntriesResp<S>(m: StateMachine<S>, n: Node<S>, from: ReplicaId, msg: Message)
    : (Node<S>, seq<Out>)
    requires msg.AppendEntriesResp?
  {
    if msg.term > n.term then (BecomeFollower(n, msg.term, None), [])
    else if n.role != Leader || msg.term != n.term then (n, [])
    else
      HearBack(m, n.(ackedSeq := n.ackedSeq[from := Max(msg.readSeq, Get(n.ackedSeq, from, 0))]), from, msg)
  }

  function Matched<S>(n: Node<S>, from: ReplicaId, k: Index): Node<S> {
    n.(matchIndex := n.matchIndex[from := k], nextIndex := n.nextIndex[from := k + 1])
  }

  /** A leader takes in a response of its own term. */
  function HearBack<S>(m: StateMachine<S>, n: Node<S>, from: ReplicaId, msg: Message): (Node<S>, seq<Out>)
    requires msg.AppendEntriesResp?
  {
    if msg.success then
      (ServeReads(m, MaybeAdvanceCommit(m, Matched(n, from, msg.matchIndex))), [])
    else
      var next := Backed(Get(n.nextIndex, from, 1), msg.conflictIndex);
      var n1 := ServeReads(m, n.(nextIndex := n.nextIndex[from := next]));
      (n1, [Out(from, AppendFor(n1, from))])
  }

  function AppendFor<S>(n: Node<S>, peer: ReplicaId): Message {
    var next := Get(n.nextIndex, peer, 1);
    if next <= n.store.baseIndex then
      InstallSnapshot(n.term, n.id, n.store.baseIndex, n.store.baseTerm, n.baseConfig,
                      n.store.snapshotData, n.readSeq)
    else
      var prev := if next == 0 then 0 else next - 1;
      var prevTerm := match TermAt(n, prev) case Some(t) => t case None => 0;
      AppendEntries(n.term, n.id, prev, prevTerm, Entries(n.store, next, LastIndex(n.store)),
                    n.commitIndex, n.readSeq)
  }

  function BroadcastAppend<S>(n: Node<S>): (Node<S>, seq<Out>) {
    var n1 := n.(readSeq := n.readSeq + 1);
    var ps := Peers(n1);
    (n1, seq(|ps|, i requires 0 <= i < |ps| => Out(ps[i], AppendFor(n1, ps[i]))))
  }

  /** The replicas known to hold entry `k`: the leader and the peers that matched it. */
  function Holders<S>(n: Node<S>, k: Index): set<ReplicaId> {
    {n.id} + set p | p in Peers(n) && Get(n.matchIndex, p, 0) >= k
  }

  /** Entry `k` is of the current term and held by a quorum. */
  predicate Committable<S>(n: Node<S>, k: Index) {
    TermAt(n, k) == Some(n.term) && IsQuorum(n.config, Holders(n, k))
  }

  /** The highest committable index above `commitIndex` and at most `k`. */
  function HighestCommittable<S>(n: Node<S>, k: Index): (r: Index)
    ensures r == n.commitIndex || (n.commitIndex < r <= k && Committable(n, r))
    ensures forall i :: r < i <= k && n.commitIndex < i ==> !Committable(n, i)
  {
    if k <= n.commitIndex then n.commitIndex
    else if Committable(n, k) then k
    else HighestCommittable(n, k - 1)
  }

  function MaybeAdvanceCommit<S>(m: StateMachine<S>, n: Node<S>): Node<S> {
    if n.role != Leader then n
    else
      var k := HighestCommittable(n, LastIndex(n.store));
      if k == n.commitIndex then n else CommitTo(m, n, k)
  }

  function CommitTo<S>(m: StateMachine<S>, n: Node<S>, k: Index): Node<S> {
    FinalizeJointIfCommitted(ApplyCommitted(m, PersistHardState(n.(commitIndex := k))))
  }

  function FinalizeJointIfCommitted<S>(n: Node<S>): Node<S> {
    if n.role != Leader || n.config.Simple? then n
    else
      match LastConfigIndex(n)
      case Some(j) => if n.commitIndex >= j then AppendLocal(n, Config(Simple(n.config.incoming))) else n
      case None => n
  }

  // ---- applying, reads and compaction ----

  function ApplyOne<S>(m: StateMachine<S>, n: Node<S>): Node<S> {
    var idx := n.lastApplied + 1;
    var n1 := n.(lastApplied := idx);
    match NodeEntryAt(n1, idx)
    case None => n1
    case Some(e) =>
      if e.payload.Command? then
        var (s, result) := m.apply(n1.sm, e.payload.command);
        n1.(sm := s, outbox := n1.outbox + [Applied(idx, e.payload.command, result)])
      else n1.(outbox := n1.outbox + [Applied(idx, [], [])])
  }

  function ApplyLoop<S>(m: StateMachine<S>, n: Node<S>): Node<S>
    decreases n.commitIndex - n.lastApplied
  {
    if n.lastApplied < n.commitIndex then ApplyLoop(m, ApplyOne(m, n)) else n
  }

  function ApplyCommitted<S>(m: StateMachine<S>, n: Node<S>): Node<S> {
    MaybeCompact(m, ServeReads(m, ApplyLoop(m, n)))
  }

  function Compact<S>(m: StateMachine<S>, n: Node<S>): Node<S> {
    if n.lastApplied <= n.store.baseIndex then n
    else
      // The source expects the term of an applied entry to be present.
      var t := match TermAt(n, n.lastApplied) case Some(t) => t case None => 0;
      var conf := ConfigAt(n, n.lastApplied);
      var n1 := n.(store := SaveSnapshot(n.store, SnapshotMeta(n.lastApplied, t, m.snapshot(n.sm))),
                   baseConfig := conf);
      RecomputeConfig(n1)
  }

  function MaybeCompact<S>(m: StateMachine<S>, n: Node<S>): Node<S> {
    var past := if n.lastApplied < n.store.baseIndex then 0 else n.lastApplied - n.store.baseIndex;
    if n.snapshotThreshold > 0 && past >= n.snapshotThreshold then Compact(m, n) else n
  }

  /** The heartbeat counter replica `v` is known to have confirmed. */
  function ConfirmedBy<S>(n: Node<S>, v: ReplicaId): nat {
    if v == n.id then n.readSeq else Get(n.ackedSeq, v, 0)
  }

  function Reached<S>(n: Node<S>, s: nat): set<ReplicaId> {
    set v | v in Voters(n.config) && ConfirmedBy(n, v) >= s
  }

  /** Scan candidate counters from the largest down for one a quorum has reached. */
  function ScanDown<S>(n: Node<S>, cands: seq<nat>, k: nat): (r: nat)
    requires k <= |cands|
    ensures r > 0 ==> IsQuorum(n.config, Reached(n, r))
  {
    if k == 0 then 0
    else if IsQuorum(n.config, Reached(n, cands[k - 1])) then cands[k - 1]
    else ScanDown(n, cands, k - 1)
  }

  function ConfirmedReadSeq<S>(n: Node<S>): (r: nat)
    ensures r > 0 ==> IsQuorum(n.config, Reached(n, r))
  {
    var voters := Voters(n.config);
    var cands := Sorted(seq(|voters|, i requires 0 <= i < |voters| => ConfirmedBy(n, voters[i])));
    ScanDown(n, cands, |cands|)
  }

  predicate Servable(r: PendingRead, confirmed: nat, applied: Index) {
    r.minSeq <= confirmed && r.readIndex <= applied
  }

  function Served<S>(m: StateMachine<S>, sm: S, rs: seq<PendingRead>, confirmed: nat, applied: Index)
    : seq<(nat, ReadResult)>
  {
    if rs == [] then []
    else (if Servable(rs[0], confirmed, applied) then [(rs[0].reqId, Value(m.query(sm, rs[0].query)))] else [])
         + Served(m, sm, rs[1..], confirmed, applied)
  }

  function StillPending(rs: seq<PendingRead>, confirmed: nat, applied: Index): seq<PendingRead> {
    if rs == [] then []
    else (if Servable(rs[0], confirmed, applied) then [] else [rs[0]])
         + StillPending(rs[1..], confirmed, applied)
  }

  function ServeReads<S>(m: StateMachine<S>, n: Node<S>): Node<S> {
    if n.role != Leader then n
    else
      var confirmed := ConfirmedReadSeq(n);
      n.(ready := n.ready + Served(m, n.sm, n.pending, confirmed, n.lastApplied),
         pending := StillPending(n.pending, confirmed, n.lastApplied))
  }

  // ---- public driving API ----

  function OnTick<S>(m: StateMachine<S>, n: Node<S>, due: bool): (Node<S>, seq<Out>) {
    if !due then (n, [])
    else if n.role == Leader then BroadcastAppend(n)
    else if n.id !in Voters(n.config) then (n, [])
    else StartElection(m, n)
  }

  function Propose<S>(m: StateMachine<S>, n: Node<S>, command: Bytes): (Node<S>, seq<Out>) {
    if n.role != Leader then (n, [])
    else
      var (n1, outs) := BroadcastAppend(AppendLocal(n, Command(command)));
      (MaybeAdvanceCommit(m, n1), outs)
  }

  function ProposeConf<S>(n: Node<S>, newVoters: seq<ReplicaId>): (Node<S>, seq<Out>) {
    if n.role != Leader || n.config.Joint? then (n, [])
    else BroadcastAppend(AppendLocal(n, Config(Joint(n.config.voters, Sorted(newVoters)))))
  }

  function Read<S>(m: StateMachine<S>, n: Node<S>, reqId: nat, query: Bytes): (Node<S>, seq<Out>) {
    if n.role != Leader then (n.(ready := n.ready + [(reqId, NotLeader)]), [])
    else
      var (n1, outs) := BroadcastAppend(n);
      var n2 := n1.(pending := n1.pending + [PendingRead(reqId, query, n1.commitIndex, n1.readSeq)]);
      (ServeReads(m, n2), outs)
  }

  function OnMessage<S>(m: StateMachine<S>, n: Node<S>, from: ReplicaId, msg: Message): (Node<S>, seq<Out>) {
    match msg
    case RequestVote(term, candidate, lli, llt) => HandleRequestVote(n, term, candidate, lli, llt)
    case RequestVoteResp(term, granted) => HandleRequestVoteResp(m, n, from, term, granted)
    case AppendEntries(_, _, _, _, _, _, _) => HandleAppendEntries(m, n, msg)
    case AppendEntriesResp(_, _, _, _, _) => HandleAppendEntriesResp(m, n, from, msg)
    case InstallSnapshot(_, _, _, _, _, _, _) => HandleInstallSnapshot(m, n, msg)
  }
}
