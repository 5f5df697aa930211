/** Why a read needs what `RaftReads.ReadIndexFresh` asks for: two runs of a group of three
    in which a leader answers a read with a value that another replica's commits had
    already outdated when the read was issued. */
module RaftStale {
  import opened Wrappers
  import opened RaftTypes
  import opened Membership
  import opened ConfigChain
  import opened LogStore
  import opened RaftModel
  import opened RaftHistory
  import opened RaftInvariant
  import opened RaftHandlers
  import opened RaftCluster
  import opened RaftReads

  // ---- a group of three that counts commands ----

  /** Counts the commands applied; a query tells whether there were any. */
  const Counter: StateMachine<nat> :=
    StateMachine(0, (s, c) => (s + 1, []), (s, q) => if s == 0 then [0] else [1], s => [], (s, d) => s)

  const Three: seq<ReplicaId> := [0, 1, 2]

  const Ids: set<ReplicaId> := {0, 1, 2}

  lemma ThreeSorted()
    ensures Sorted(Three) == Three
  {
    assert Three[1..] == [1, 2] && [1, 2][1..] == [2] && [2][1..] == [];
    assert Sorted([2]) == [2];
    assert Sorted([1, 2]) == [1, 2];
  }

  lemma ThreePeers(me: ReplicaId)
    requires me in Three
    ensures |Without(Three, me)| == 2 && forall p :: p in Without(Three, me) <==> p in Three && p != me
  {
    assert Three[1..] == [1, 2] && [1, 2][1..] == [2] && [2][1..] == [];
    assert Without([2], me) == if me == 2 then [] else [2];
    assert Without([1, 2], me) == (if me == 1 then [] else [1]) + Without([2], me);
  }

  lemma ThreeQuorum(s: set<ReplicaId>)
    ensures Majority(Three, s) <==> (0 in s && 1 in s) || (0 in s && 2 in s) || (1 in s && 2 in s)
  {
    assert Three[1..] == [1, 2] && [1, 2][1..] == [2] && [2][1..] == [];
    assert CountIn([2], s) == if 2 in s then 1 else 0;
    assert CountIn([1, 2], s) == (if 1 in s then 1 else 0) + CountIn([2], s);
  }

  lemma OnePeerIsNoQuorum(n: Node<nat>, s: set<ReplicaId>)
    requires n.config == Simple(Three) && s <= {n.id}
    ensures !IsQuorum(n.config, s)
  {
    ThreeQuorum(s);
  }

  // ---- what a replica looks like, without compaction or membership changes ----

  /** `next` is where every peer's progress stands while nobody has answered, 0 if that is over. */
  datatype View = View(role: Role, term: Term, vote: Option<ReplicaId>, log: Log, commit: Index, readSeq: nat,
                       acked: map<ReplicaId, nat>, next: Index, pending: seq<PendingRead>)

  ghost predicate PlainEntries(log: Log) {
    forall k {:trigger log[k]} :: 0 <= k < |log| ==> log[k].index == k + 1 && !log[k].payload.Config?
  }

  /** Nothing is known to have matched, and every peer is next sent entry `next`. */
  ghost predicate Untouched(n: Node<nat>, next: Index) {
    && (forall p {:trigger p in n.matchIndex} :: p in n.matchIndex ==> n.matchIndex[p] == 0)
    && (forall p {:trigger p in n.nextIndex} :: p in n.nextIndex <==> p in Three && p != n.id)
    && (forall p {:trigger n.nextIndex[p]} :: p in n.nextIndex ==> n.nextIndex[p] == next)
    && n.id !in n.matchIndex
  }

  ghost predicate Looks(n: Node<nat>, id: ReplicaId, v: View) {
    && n.id == id && id in Three && n.config == Simple(Three) && n.baseConfig == Simple(Three)
    && n.snapshotThreshold == 0 && n.role == v.role && n.term == v.term && n.votedFor == v.vote
    && n.commitIndex == v.commit && n.lastApplied == v.commit <= |v.log| && PlainEntries(v.log)
    && n.store == Store(v.log, 0, 0, [], HardState(v.term, v.vote, v.commit), false)
    && n.readSeq == v.readSeq && n.ackedSeq == v.acked && n.pending == v.pending
    && (v.role == Candidate ==> n.votes == {id})
    && v.next <= |v.log| + 1 && (v.next > 0 ==> Untouched(n, v.next))
  }

  const New: View := View(Follower, 0, None, [], 0, 0, map[], 0, [])

  /** What a leader that looks like `v` sends everybody. */
  ghost function Beat(id: ReplicaId, v: View): Message
    requires 1 <= v.next <= |v.log| + 1
  {
    AppendEntries(v.term, id, v.next - 1, TermOfLast(v.log[..v.next - 1]), v.log[v.next - 1..], v.commit, v.readSeq)
  }

  ghost predicate ToOthers(outs: seq<Out>, id: ReplicaId, msg: Message) {
    forall p {:trigger Out(p, msg)} :: p in Three && p != id ==> Out(p, msg) in outs
  }

  lemma LogFacts(n: Node<nat>, id: ReplicaId, v: View)
    requires Looks(n, id, v)
    ensures LastIndex(n.store) == |v.log| && LastTerm(n.store) == TermOfLast(v.log) && LiveEntries(n) == v.log
    ensures RecomputeConfig(n) == n
    ensures forall i: nat {:trigger TermAt(n, i)} ::
              TermAt(n, i) == if i == 0 then Some(0) else if i <= |v.log| then Some(v.log[i - 1].term) else None
  {
    EntriesToEnd(n.store, 1);
  }

  // ---- steps of one replica ----

  ghost predicate ActIs(n: Node<nat>, s: Step, res: (Node<nat>, seq<Out>)) {
    res == Act(Counter, Three, n, s)
  }

  /** Step `s` takes the replica from `n` to `res`. */
  ghost predicate Acts(n: Node<nat>, s: Step, res: (Node<nat>, seq<Out>)) {
    forall r {:trigger ActIs(n, s, r)} :: ActIs(n, s, r) ==> r == res
  }

  lemma ActsAre(n: Node<nat>, s: Step, res: (Node<nat>, seq<Out>))
    requires ActIs(n, s, res)
    ensures Acts(n, s, res)
  {
  }

  // ---- elections ----

  function Standing(v: View, id: ReplicaId): View {
    v.(role := Candidate, term := v.term + 1, vote := Some(id))
  }

  lemma StandFacts(n: Node<nat>, id: ReplicaId, v: View)
    requires Looks(n, id, v) && v.role == Follower && v.next == 0
    ensures var (r, outs) := OnTick(Counter, n, true);
            && Looks(r, id, Standing(v, id))
            && ToOthers(outs, id, RequestVote(v.term + 1, id, |v.log|, TermOfLast(v.log)))
  {
    var r := Stand(n);
    OnePeerIsNoQuorum(r, r.votes);
    LogFacts(r, id, Standing(v, id));
    ThreePeers(id);
    var ps, outs := Peers(r), VoteRequests(r);
    var msg := RequestVote(v.term + 1, id, |v.log|, TermOfLast(v.log));
    forall p | p in Three && p != id ensures Out(p, msg) in outs {
      var j :| 0 <= j < |ps| && ps[j] == p;
      assert outs[j].dest == p;
    }
  }

  lemma Stands(n: Node<nat>, id: ReplicaId, v: View) returns (res: (Node<nat>, seq<Out>))
    requires Looks(n, id, v) && v.role == Follower && v.next == 0
    ensures Acts(n, Tick(id, true), res) && Looks(res.0, id, Standing(v, id))
    ensures ToOthers(res.1, id, RequestVote(v.term + 1, id, |v.log|, TermOfLast(v.log)))
  {
    StandFacts(n, id, v);
    res := OnTick(Counter, n, true);
    ActsAre(n, Tick(id, true), res);
  }

  function Voting(u: View, t: Term, id: ReplicaId): View {
    u.(role := Follower, term := t, vote := Some(id), acked := map[], next := 0)
  }

  lemma Grants(n: Node<nat>, id: ReplicaId, u: View, p: Packet) returns (res: (Node<nat>, seq<Out>))
    requires Looks(n, id, u) && u.pending == [] && p.dst == id && p.msg.RequestVote? && p.msg.term > u.term
    requires UpToDate(p.msg.lastLogTerm, p.msg.lastLogIndex, TermOfLast(u.log), |u.log|)
    ensures Acts(n, Deliver(p), res) && Looks(res.0, id, Voting(u, p.msg.term, p.msg.candidate))
    ensures Out(p.msg.candidate, RequestVoteResp(p.msg.term, true)) in res.1
  {
    LogFacts(n, id, u);
    res := HandleRequestVote(n, p.msg.term, p.msg.candidate, p.msg.lastLogIndex, p.msg.lastLogTerm);
    ActsAre(n, Deliver(p), res);
  }

  /** A leader's log ends in its no-op. */
  function Leading(v: View): View {
    v.(role := Leader, log := v.log + [Entry(v.term, |v.log| + 1, Noop)], next := |v.log| + 1)
  }

  function Beating(v: View): View {
    v.(readSeq := v.readSeq + 1)
  }

  lemma Opens(n: Node<nat>, id: ReplicaId, v: View)
    requires Looks(n.(votes := {id}), id, v)
    ensures Looks(OpenedReign(n), id, Leading(v))
  {
    LogFacts(n.(votes := {id}), id, v);
    ThreePeers(id);
  }

  /** A leader that nobody has answered commits nothing. */
  lemma CommitsNothing(n: Node<nat>, id: ReplicaId, v: View)
    requires Looks(n, id, v) && v.next > 0
    ensures MaybeAdvanceCommit(Counter, n) == n
  {
    var r := HighestCommittable(n, LastIndex(n.store));
    if r > n.commitIndex {
      assert Holders(n, r) == {n.id};
      OnePeerIsNoQuorum(n, Holders(n, r));
    }
  }

  lemma Sends(n: Node<nat>, id: ReplicaId, v: View)
    requires Looks(n, id, v) && v.next > 0
    ensures var (r, outs) := BroadcastAppend(n); Looks(r, id, Beating(v)) && ToOthers(outs, id, Beat(id, Beating(v)))
  {
    var r, outs, ps := BroadcastAppend(n).0, BroadcastAppend(n).1, Peers(n);
    BroadcastParts(n);
    ThreePeers(id);
    forall p | p in Three && p != id ensures Out(p, Beat(id, Beating(v))) in outs {
      var j :| 0 <= j < |ps| && ps[j] == p;
      assert outs[j] == Out(p, AppendFor(r, p));
      SendsOne(r, id, Beating(v), p);
    }
  }

  lemma SendsOne(n: Node<nat>, id: ReplicaId, v: View, p: ReplicaId)
    requires Looks(n, id, v) && v.next > 0 && p in Three && p != id
    ensures AppendFor(n, p) == Beat(id, v)
  {
    assert p in n.nextIndex && n.nextIndex[p] == v.next;
    TermBefore(n, id, v);
    RestFrom(n, id, v);
    AppendIs(n, p, v.next, TermOfLast(v.log[..v.next - 1]), v.log[v.next - 1..]);
  }

  lemma TermBefore(n: Node<nat>, id: ReplicaId, v: View)
    requires Looks(n, id, v) && v.next > 0
    ensures TermAt(n, v.next - 1) == Some(TermOfLast(v.log[..v.next - 1]))
  {
    LogFacts(n, id, v);
  }

  lemma RestFrom(n: Node<nat>, id: ReplicaId, v: View)
    requires Looks(n, id, v) && v.next > 0
    ensures Entries(n.store, v.next, LastIndex(n.store)) == v.log[v.next - 1..]
  {
    EntriesToEnd(n.store, v.next);
  }

  lemma AppendIs(n: Node<nat>, p: ReplicaId, next: nat, t: Term, entries: Log)
    requires Get(n.nextIndex, p, 1) == next > n.store.baseIndex && TermAt(n, next - 1) == Some(t)
    requires Entries(n.store, next, LastIndex(n.store)) == entries
    ensures AppendFor(n, p) == AppendEntries(n.term, n.id, next - 1, t, entries, n.commitIndex, n.readSeq)
  {
  }

  lemma LeadFacts(n: Node<nat>, id: ReplicaId, v: View, from: ReplicaId)
    requires Looks(n, id, v) && v.role == Candidate && from in Three && from != id
    ensures var (r, outs) := HandleRequestVoteResp(Counter, n, from, v.term, true);
            Looks(r, id, Beating(Leading(v))) && ToOthers(outs, id, Beat(id, Beating(Leading(v))))
  {
    var n1 := n.(votes := {id, from});
    assert n.votes + {from} == {id, from};
    ThreeQuorum(n1.votes);
    assert IsQuorum(n1.config, n1.votes);
    assert n1.(votes := {id}) == n;
    Opens(n1, id, v);
    CommitsNothing(OpenedReign(n1), id, Leading(v));
    Sends(OpenedReign(n1), id, Leading(v));
  }

  lemma Leads(n: Node<nat>, id: ReplicaId, v: View, from: ReplicaId) returns (res: (Node<nat>, seq<Out>))
    requires Looks(n, id, v) && v.role == Candidate && from in Three && from != id
    ensures Acts(n, Deliver(Packet(from, id, RequestVoteResp(v.term, true))), res)
    ensures Looks(res.0, id, Beating(Leading(v))) && ToOthers(res.1, id, Beat(id, Beating(Leading(v))))
  {
    LeadFacts(n, id, v, from);
    res := HandleRequestVoteResp(Counter, n, from, v.term, true);
    VoteRespActs(n, Packet(from, id, RequestVoteResp(v.term, true)));
  }

  lemma VoteRespActs(n: Node<nat>, p: Packet)
    requires p.msg.RequestVoteResp?
    ensures Acts(n, Deliver(p), HandleRequestVoteResp(Counter, n, p.src, p.msg.term, p.msg.granted))
  {
    ActsAre(n, Deliver(p), HandleRequestVoteResp(Counter, n, p.src, p.msg.term, p.msg.granted));
  }

  // ---- replication ----

  lemma Beats(n: Node<nat>, id: ReplicaId, v: View) returns (res: (Node<nat>, seq<Out>))
    requires Looks(n, id, v) && v.role == Leader && v.next > 0
    ensures Acts(n, Tick(id, true), res)
    ensures Looks(res.0, id, Beating(v)) && ToOthers(res.1, id, Beat(id, Beating(v)))
  {
    Sends(n, id, v);
    res := BroadcastAppend(n);
    BeatActs(n, id);
  }

  lemma BeatActs(n: Node<nat>, id: ReplicaId)
    requires n.role == Leader
    ensures Acts(n, Tick(id, true), BroadcastAppend(n))
  {
    ActsAre(n, Tick(id, true), BroadcastAppend(n));
  }

  function Told(v: View): View {
    v.(log := v.log + [Entry(v.term, |v.log| + 1, Command([]))])
  }

  lemma SubmitFacts(n: Node<nat>, id: ReplicaId, v: View)
    requires Looks(n, id, v) && v.role == Leader && v.next > 0
    ensures var (r, outs) := Propose(Counter, n, []);
            Looks(r, id, Beating(Told(v))) && ToOthers(outs, id, Beat(id, Beating(Told(v))))
  {
    LogFacts(n, id, v);
    var n1 := AppendLocal(n, Command([]));
    assert Looks(n1, id, Told(v));
    Sends(n1, id, Told(v));
    CommitsNothing(BroadcastAppend(n1).0, id, Beating(Told(v)));
  }

  lemma Submits(n: Node<nat>, id: ReplicaId, v: View) returns (res: (Node<nat>, seq<Out>))
    requires Looks(n, id, v) && v.role == Leader && v.next > 0
    ensures Acts(n, SubmitCommand(id, []), res)
    ensures Looks(res.0, id, Beating(Told(v))) && ToOthers(res.1, id, Beat(id, Beating(Told(v))))
  {
    SubmitFacts(n, id, v);
    res := Propose(Counter, n, []);
    ActsAre(n, SubmitCommand(id, []), res);
  }

  /** Appending behind a log that ends where the message begins. */
  lemma {:induction false} Splicing(n: Node<nat>, id: ReplicaId, v: View, entries: Log)
    requires Looks(n, id, v) && PlainEntries(v.log + entries) && v.next == 0
    ensures Looks(Splice(n, entries), id, v.(log := v.log + entries))
    decreases |entries|
  {
    if entries == [] {
      assert v.log + entries == v.log;
    } else {
      var e, v1 := entries[0], v.(log := v.log + [entries[0]]);
      LogFacts(n, id, v);
      assert (v.log + entries)[|v.log|] == e;
      assert v.log + entries == v1.log + entries[1..];
      assert PlainEntries(v1.log) by {
        forall i | 0 <= i < |v1.log| ensures v1.log[i] == (v.log + entries)[i] { }
      }
      assert Looks(SpliceOne(n, e), id, v1);
      Splicing(SpliceOne(n, e), id, v1, entries[1..]);
    }
  }

  /** A follower of leader `v`, its log as the leader's. */
  function Following(u: View, v: View): View {
    u.(role := Follower, term := v.term, vote := if v.term != u.term then None else u.vote, log := v.log,
       acked := map[], next := 0)
  }

  lemma Follows(n: Node<nat>, id: ReplicaId, u: View, l: ReplicaId, v: View)
    requires Looks(n, id, u) && u.pending == [] && u.term <= v.term
    ensures var n1, log := BecomeFollower(n, v.term, Some(l)), u.log;
            && Looks(n1, id, Following(u, v).(log := log)) && LastIndex(n1.store) == |log|
            && forall i: nat {:trigger TermAt(n1, i)} ::
                 TermAt(n1, i) == if i == 0 then Some(0) else if i <= |log| then Some(log[i - 1].term) else None
  {
    LogFacts(BecomeFollower(n, v.term, Some(l)), id, Following(u, v).(log := u.log));
  }

  lemma AcceptFacts(n: Node<nat>, id: ReplicaId, u: View, l: ReplicaId, v: View)
    requires Looks(n, id, u) && u.pending == [] && u.term <= v.term && v.commit <= u.commit && PlainEntries(v.log)
    requires 1 <= v.next <= |v.log| + 1 && u.log == v.log[..v.next - 1]
    ensures var (r, outs) := HandleAppendEntries(Counter, n, Beat(l, v));
            && Looks(r, id, Following(u, v))
            && outs == [Out(l, AppendEntriesResp(v.term, true, |v.log|, 0, v.readSeq))]
  {
    var n1 := BecomeFollower(n, v.term, Some(l));
    MatchesAt(n, id, u, l, v);
    var n2 := TakesRest(n1, id, Following(u, v).(log := u.log), v.log, v.next - 1);
    OnlySplices(n, Beat(l, v), n1, n2);
  }

  lemma MatchesAt(n: Node<nat>, id: ReplicaId, u: View, l: ReplicaId, v: View)
    requires Looks(n, id, u) && u.pending == [] && u.term <= v.term
    ensures var n1 := BecomeFollower(n, v.term, Some(l));
            Looks(n1, id, Following(u, v).(log := u.log)) && TermAt(n1, |u.log|) == Some(TermOfLast(u.log))
  {
    Follows(n, id, u, l, v);
  }

  /** The rest of the leader's log, from `k` on, goes where it belongs. */
  lemma TakesRest(n: Node<nat>, id: ReplicaId, u: View, log: Log, k: nat) returns (r: Node<nat>)
    requires Looks(n, id, u) && u.next == 0 && PlainEntries(log) && k <= |log| && u.log == log[..k]
    ensures r == Splice(n, log[k..]) && Looks(r, id, u.(log := log)) && RecomputeConfig(r) == r
  {
    r := Splice(n, log[k..]);
    assert log == u.log + log[k..];
    Splicing(n, id, u, log[k..]);
    LogFacts(r, id, u.(log := log));
  }

  /** With nothing new to commit, a matching message leaves the spliced log and an acknowledgement. */
  lemma OnlySplices(n: Node<nat>, msg: Message, n1: Node<nat>, n2: Node<nat>)
    requires msg.AppendEntries? && n.term <= msg.term && n1 == BecomeFollower(n, msg.term, Some(msg.leader))
    requires TermAt(n1, msg.prevLogIndex) == Some(msg.prevLogTerm)
    requires n2 == Splice(n1, msg.entries) && RecomputeConfig(n2) == n2 && msg.leaderCommit <= n2.commitIndex
    ensures HandleAppendEntries(Counter, n, msg) == Acknowledged(n2, msg)
  {
    assert HandleAppendEntries(Counter, n, msg) == Accept(Counter, n1, msg);
  }

  lemma Accepts(n: Node<nat>, id: ReplicaId, u: View, l: ReplicaId, v: View) returns (res: (Node<nat>, seq<Out>))
    requires Looks(n, id, u) && u.pending == [] && u.term <= v.term && v.commit <= u.commit && PlainEntries(v.log)
    requires 1 <= v.next <= |v.log| + 1 && u.log == v.log[..v.next - 1]
    ensures Acts(n, Deliver(Packet(l, id, Beat(l, v))), res) && Looks(res.0, id, Following(u, v))
    ensures Out(l, AppendEntriesResp(v.term, true, |v.log|, 0, v.readSeq)) in res.1
  {
    AcceptFacts(n, id, u, l, v);
    res := HandleAppendEntries(Counter, n, Beat(l, v));
    AppendActs(n, Packet(l, id, Beat(l, v)));
  }

  lemma AppendActs(n: Node<nat>, p: Packet)
    requires p.msg.AppendEntries?
    ensures Acts(n, Deliver(p), HandleAppendEntries(Counter, n, p.msg))
  {
    ActsAre(n, Deliver(p), HandleAppendEntries(Counter, n, p.msg));
  }

  /** The previous entry is missing: the replica says so, and echoes the counter. */
  lemma Rejects(n: Node<nat>, id: ReplicaId, u: View, l: ReplicaId, v: View) returns (res: (Node<nat>, seq<Out>))
    requires Looks(n, id, u) && u.pending == [] && u.term <= v.term && |u.log| + 1 < v.next <= |v.log| + 1
    ensures Acts(n, Deliver(Packet(l, id, Beat(l, v))), res)
    ensures Out(l, AppendEntriesResp(v.term, false, 0, |u.log| + 1, v.readSeq)) in res.1
  {
    Follows(n, id, u, l, v);
    res := FollowLeader(Counter, BecomeFollower(n, v.term, Some(l)), Beat(l, v));
    AppendActs(n, Packet(l, id, Beat(l, v)));
  }

  /** A message of an earlier term is turned down in the replica's own term, and its counter echoed all the same. */
  lemma TurnsDown(n: Node<nat>, p: Packet) returns (res: (Node<nat>, seq<Out>))
    requires p.msg.AppendEntries? && p.msg.term < n.term
    ensures Acts(n, Deliver(p), res)
    ensures res.0 == n && Out(p.msg.leader, AppendEntriesResp(n.term, false, 0, 0, p.msg.readSeq)) in res.1
  {
    AppendActs(n, p);
    res := HandleAppendEntries(Counter, n, p.msg);
  }

  /** The whole log is committed, `from` having confirmed counter `q`. */
  function Decided(v: View, from: ReplicaId, q: nat): View {
    v.(commit := |v.log|, acked := v.acked[from := Max(q, Get(v.acked, from, 0))], next := 0)
  }

  /** The leader's whole log, held by one more replica and ending in its own term, is committed. */
  lemma CommitFacts(n: Node<nat>, id: ReplicaId, v: View, from: ReplicaId, q: nat)
    requires Looks(n, id, v) && v.role == Leader && v.pending == [] && v.commit < |v.log|
    requires TermOfLast(v.log) == v.term && from in Three && from != id
    ensures var r := HandleAppendEntriesResp(Counter, n, from, AppendEntriesResp(v.term, true, |v.log|, 0, q)).0;
            Looks(r, id, Decided(v, from, q))
  {
    var n1 := n.(ackedSeq := n.ackedSeq[from := Max(q, Get(n.ackedSeq, from, 0))]);
    var n2, last := Matched(n1, from, |v.log|), |v.log|;
    LogFacts(n2, id, Decided(v, from, q).(commit := v.commit));
    ThreePeers(id);
    assert from in Peers(n2) && {id, from} <= Holders(n2, last);
    ThreeQuorum(Holders(n2, last));
    assert Committable(n2, last);
    assert HighestCommittable(n2, last) == last;
    var n3 := PersistHardState(n2.(commitIndex := last));
    ApplyLoopFrame(Counter, n3);
    assert CommitTo(Counter, n2, last) == ServeReads(Counter, ApplyLoop(Counter, n3));
  }

  lemma Commits(n: Node<nat>, id: ReplicaId, v: View, from: ReplicaId, q: nat) returns (res: (Node<nat>, seq<Out>))
    requires Looks(n, id, v) && v.role == Leader && v.pending == [] && v.commit < |v.log|
    requires TermOfLast(v.log) == v.term && from in Three && from != id
    ensures Acts(n, Deliver(Packet(from, id, AppendEntriesResp(v.term, true, |v.log|, 0, q))), res)
    ensures Looks(res.0, id, Decided(v, from, q))
  {
    CommitFacts(n, id, v, from, q);
    res := HandleAppendEntriesResp(Counter, n, from, AppendEntriesResp(v.term, true, |v.log|, 0, q));
    RespActs(n, Packet(from, id, AppendEntriesResp(v.term, true, |v.log|, 0, q)));
  }

  lemma RespActs(n: Node<nat>, p: Packet)
    requires p.msg.AppendEntriesResp?
    ensures Acts(n, Deliver(p), HandleAppendEntriesResp(Counter, n, p.src, p.msg))
  {
    ActsAre(n, Deliver(p), HandleAppendEntriesResp(Counter, n, p.src, p.msg));
  }

  // ---- restarts ----

  function Restarted(v: View): View {
    v.(role := Follower, readSeq := 0, acked := map[], next := 0, pending := [])
  }

  lemma RestartFacts(n: Node<nat>, id: ReplicaId, v: View)
    requires Looks(n, id, v)
    ensures Looks(RestoreFrom(Counter, id, Three, 0, n.store), id, Restarted(v))
  {
    ThreeSorted();
    var n0 := NewWithStore(Counter, id, Three, 0, n.store);
    var n1 := n0.(term := v.term, votedFor := v.vote);
    assert Reloaded(Counter, n0) == n1;
    Rebasing(n1, v.log, v.commit);
    ApplyCommittedFrame(Counter, n1.(commitIndex := v.commit));
    ApplyLoopFrame(Counter, n1.(commitIndex := v.commit));
  }

  lemma Rebasing(n: Node<nat>, log: Log, k: Index)
    requires n.config == n.baseConfig == Simple(Three) && n.lastApplied == 0 && PlainEntries(log)
    requires n.store == Store(log, 0, 0, [], HardState(n.term, n.votedFor, k), false)
    ensures RecomputeConfig(Rebased(n)) == n.(commitIndex := k)
  {
    EntriesToEnd(n.store, 1);
    assert LiveEntries(n) == log;
    PlainConfig(log, 0);
    assert Rebased(n) == n.(commitIndex := k);
  }

  lemma {:induction false} PlainConfig(log: Log, i: Index)
    requires forall k {:trigger log[k]} :: 0 <= k < |log| ==> !log[k].payload.Config?
    ensures ConfigUpTo(Simple(Three), log, i) == Simple(Three)
  {
    if log != [] { PlainConfig(log[..|log| - 1], i); }
  }

  lemma Restarts(n: Node<nat>, id: ReplicaId, v: View) returns (res: (Node<nat>, seq<Out>))
    requires Looks(n, id, v)
    ensures Acts(n, Restart(id), res) && Looks(res.0, id, Restarted(v))
  {
    res := Act(Counter, Three, n, Restart(id));
    ActsAre(n, Restart(id), res);
    RestartAct(Counter, Three, n, id);
    RestartFacts(n, id, v);
  }

  lemma RestartAct<S>(m: StateMachine<S>, voters: seq<ReplicaId>, n: Node<S>, id: ReplicaId)
    ensures Act(m, voters, n, Restart(id)) == (RestoreFrom(m, id, voters, n.snapshotThreshold, n.store), [])
  {
  }

  // ---- reads ----

  /** Nobody but the leader itself has confirmed counter `q`. */
  ghost predicate Unconfirmed(acked: map<ReplicaId, nat>, q: nat) {
    q > 0 && forall v {:trigger acked[v]} :: v in acked ==> acked[v] < q
  }

  lemma ConfirmedBelow(n: Node<nat>, q: nat)
    requires n.config == Simple(Three) && Unconfirmed(n.ackedSeq, q)
    ensures ConfirmedReadSeq(n) < q
  {
    var r := ConfirmedReadSeq(n);
    if r >= q { OnePeerIsNoQuorum(n, Reached(n, r)); }
  }

  lemma OnePending(sm: nat, pr: PendingRead, confirmed: nat, applied: Index)
    ensures var ok := Servable(pr, confirmed, applied);
            && Served(Counter, sm, [pr], confirmed, applied)
               == (if ok then [(pr.reqId, Value(Counter.query(sm, pr.query)))] else [])
            && StillPending([pr], confirmed, applied) == (if ok then [] else [pr])
  {
    assert [pr][1..] == [];
    assert Served(Counter, sm, [], confirmed, applied) == [] && StillPending([], confirmed, applied) == [];
  }

  /** The read a leader that looks like `v` registers. */
  function TheRead(v: View): PendingRead {
    PendingRead(7, [], v.commit, v.readSeq + 1)
  }

  function Reading(v: View): View {
    Beating(v).(pending := [TheRead(v)])
  }

  lemma ReadFacts(n: Node<nat>, id: ReplicaId, v: View)
    requires Looks(n, id, v) && v.role == Leader && v.pending == [] && Unconfirmed(v.acked, v.readSeq + 1)
    ensures var (r, outs) := Read(Counter, n, 7, []);
            Looks(r, id, Reading(v)) && (v.next > 0 ==> ToOthers(outs, id, Beat(id, Beating(v))))
  {
    BroadcastParts(n);
    if v.next > 0 { Sends(n, id, v); }
    var n2 := BroadcastAppend(n).0.(pending := [TheRead(v)]);
    ConfirmedBelow(n2, v.readSeq + 1);
    OnePending(n2.sm, TheRead(v), ConfirmedReadSeq(n2), v.commit);
    assert n2.ready + [] == n2.ready;
    assert ServeReads(Counter, n2) == n2;
    assert n.pending + [TheRead(v)] == [TheRead(v)];
  }

  lemma Reads(n: Node<nat>, id: ReplicaId, v: View) returns (res: (Node<nat>, seq<Out>))
    requires Looks(n, id, v) && v.role == Leader && v.pending == [] && Unconfirmed(v.acked, v.readSeq + 1)
    ensures Acts(n, SubmitRead(id, 7, []), res) && Looks(res.0, id, Reading(v))
    ensures v.next > 0 ==> ToOthers(res.1, id, Beat(id, Beating(v)))
  {
    ReadFacts(n, id, v);
    res := Read(Counter, n, 7, []);
    ReadActs(n, id);
  }

  lemma ReadActs(n: Node<nat>, id: ReplicaId)
    ensures Acts(n, SubmitRead(id, 7, []), Read(Counter, n, 7, []))
  {
    ActsAre(n, SubmitRead(id, 7, []), Read(Counter, n, 7, []));
  }

  lemma {:induction false} ScanReaches(n: Node<nat>, cands: seq<nat>, k: nat, i: nat)
    requires i < k <= |cands| && StrictlyIncreasing(cands) && IsQuorum(n.config, Reached(n, cands[i]))
    ensures ScanDown(n, cands, k) >= cands[i]
    decreases k
  {
    if i + 1 < k && !IsQuorum(n.config, Reached(n, cands[k - 1])) { ScanReaches(n, cands, k - 1, i); }
  }

  lemma ConfirmedReaches(n: Node<nat>, p: ReplicaId, q: nat)
    requires n.config == Simple(Three) && n.id in Three && p in Three && p != n.id
    requires p in n.ackedSeq && n.ackedSeq[p] == q <= n.readSeq
    ensures ConfirmedReadSeq(n) >= q
  {
    var all := seq(|Three|, i requires 0 <= i < |Three| => ConfirmedBy(n, Three[i]));
    var cands := Sorted(all);
    var j :| 0 <= j < |Three| && Three[j] == p;
    assert all[j] == q && q in cands;
    var i :| 0 <= i < |cands| && cands[i] == q;
    assert {n.id, p} <= Reached(n, q);
    ThreeQuorum(Reached(n, q));
    ScanReaches(n, cands, |cands|, i);
  }

  /** `r` has answered `pr` from the state of `n`. */
  ghost predicate Answers(n: Node<nat>, r: Node<nat>, pr: PendingRead) {
    && r.role == Leader && r.term == n.term && r.pending == [] && r.store == n.store
    && r.ready == n.ready + [(pr.reqId, Value(Counter.query(n.sm, pr.query)))]
  }

  /** A failed append that echoes the read's counter confirms it, and the read is answered. */
  lemma ConfirmFacts(n: Node<nat>, id: ReplicaId, v: View, from: ReplicaId, conflict: Index)
    requires Looks(n, id, Reading(v)) && v.role == Leader && from in Three && from != id
    requires Unconfirmed(v.acked, v.readSeq + 1)
    ensures var msg := AppendEntriesResp(v.term, false, 0, conflict, v.readSeq + 1);
            Answers(n, HandleAppendEntriesResp(Counter, n, from, msg).0, TheRead(v))
  {
    RefusalServes(Counter, n, from, AppendEntriesResp(v.term, false, 0, conflict, v.readSeq + 1));
    ServesOne(Refused(n, from, conflict, v.readSeq + 1), from, TheRead(v));
  }

  /** A leader that has counted a refusal. */
  function Refused<S>(n: Node<S>, from: ReplicaId, conflict: Index, q: nat): Node<S> {
    n.(ackedSeq := n.ackedSeq[from := Max(q, Get(n.ackedSeq, from, 0))],
       nextIndex := n.nextIndex[from := Backed(Get(n.nextIndex, from, 1), conflict)])
  }

  lemma RefusalServes<S>(m: StateMachine<S>, n: Node<S>, from: ReplicaId, msg: Message)
    requires msg.AppendEntriesResp? && n.role == Leader && msg.term == n.term && !msg.success
    ensures HandleAppendEntriesResp(m, n, from, msg).0
         == ServeReads(m, Refused(n, from, msg.conflictIndex, msg.readSeq))
  {
  }

  lemma ServesOne(n: Node<nat>, p: ReplicaId, pr: PendingRead)
    requires n.role == Leader && n.config == Simple(Three) && n.id in Three && p in Three && p != n.id
    requires p in n.ackedSeq && n.ackedSeq[p] == n.readSeq && n.pending == [pr]
    requires pr.minSeq <= n.readSeq && pr.readIndex <= n.lastApplied
    ensures Answers(n, ServeReads(Counter, n), pr)
  {
    ConfirmedReaches(n, p, n.readSeq);
    OnePending(n.sm, pr, ConfirmedReadSeq(n), n.lastApplied);
  }

  lemma Confirms(n: Node<nat>, id: ReplicaId, v: View, from: ReplicaId, conflict: Index)
    returns (res: (Node<nat>, seq<Out>))
    requires Looks(n, id, Reading(v)) && v.role == Leader && from in Three && from != id
    requires Unconfirmed(v.acked, v.readSeq + 1)
    ensures Acts(n, Deliver(Packet(from, id, AppendEntriesResp(v.term, false, 0, conflict, v.readSeq + 1))), res)
    ensures Answers(n, res.0, TheRead(v))
  {
    ConfirmFacts(n, id, v, from, conflict);
    res := HandleAppendEntriesResp(Counter, n, from, AppendEntriesResp(v.term, false, 0, conflict, v.readSeq + 1));
    RespActs(n, Packet(from, id, AppendEntriesResp(v.term, false, 0, conflict, v.readSeq + 1)));
  }

  // ---- runs ----

  ghost predicate RunIs(c: Cluster<nat>, steps: seq<Step>) {
    c == Run(Counter, Ids, Three, steps)
  }

  /** `steps` end in `c`. */
  ghost predicate Reaches(steps: seq<Step>, c: Cluster<nat>) {
    forall d {:trigger RunIs(d, steps)} :: RunIs(d, steps) ==> d == c
  }

  lemma ReachesRun(steps: seq<Step>, c: Cluster<nat>)
    ensures Reaches(steps, c) <==> c == Run(Counter, Ids, Three, steps)
  {
    assert RunIs(Run(Counter, Ids, Three, steps), steps);
  }

  /** From `c` to `d` replica `id` goes to `r`, the others stay, and `outs` are sent on top of what was. */
  ghost predicate Moves(c: Cluster<nat>, d: Cluster<nat>, id: ReplicaId, r: Node<nat>, outs: seq<Out>) {
    && c.net <= d.net && d.nodes == c.nodes[id := r]
    && forall o {:trigger o in outs} :: o in outs ==> Packet(id, o.dest, o.msg) in d.net
  }

  /** A step, by its effect on the replica that takes it. */
  lemma Go(steps: seq<Step>, c: Cluster<nat>, s: Step, res: (Node<nat>, seq<Out>)) returns (d: Cluster<nat>)
    requires Reaches(steps, c) && Enabled(c, s) && Acts(c.nodes[Actor(s)], s, res)
    ensures Reaches(steps + [s], d) && Moves(c, d, Actor(s), res.0, res.1)
  {
    d := Route(c, Actor(s), res);
    ReachesRun(steps, c);
    assert ActIs(c.nodes[Actor(s)], s, Act(Counter, Three, c.nodes[Actor(s)], s));
    assert (steps + [s])[..|steps|] == steps;
    ReachesRun(steps + [s], d);
    forall o | o in res.1 ensures Packet(Actor(s), o.dest, o.msg) in d.net {
      var i :| 0 <= i < |res.1| && res.1[i] == o;
    }
  }

  ghost predicate Is(c: Cluster<nat>, id: ReplicaId, v: View) {
    id in c.nodes && Looks(c.nodes[id], id, v)
  }

  /** Replica `id` has sent `msg` to everybody else. */
  ghost predicate Sent(c: Cluster<nat>, id: ReplicaId, msg: Message) {
    forall p {:trigger Packet(id, p, msg)} :: p in Three && p != id ==> Packet(id, p, msg) in c.net
  }

  lemma OthersSent(c: Cluster<nat>, d: Cluster<nat>, id: ReplicaId, r: Node<nat>, outs: seq<Out>, msg: Message)
    requires Moves(c, d, id, r, outs) && ToOthers(outs, id, msg)
    ensures Sent(d, id, msg)
  {
    forall p | p in Three && p != id ensures Packet(id, p, msg) in d.net {
      assert Out(p, msg) in outs;
    }
  }

  /** `more` goes on from `steps` without a restart. */
  ghost predicate GoesOn(steps: seq<Step>, more: seq<Step>) {
    (forall s :: s in steps ==> s in more) && (forall s :: s in more ==> s in steps || !s.Restart?)
  }

  lemma AtStart() returns (c: Cluster<nat>)
    ensures Reaches([], c) && Is(c, 0, New) && Is(c, 1, New) && Is(c, 2, New)
  {
    c := Init(Counter, Ids, Three);
    ReachesRun([], c);
    ThreeSorted();
  }

  /** `id` stands, and `w` votes for it. */
  lemma Canvass(steps: seq<Step>, c: Cluster<nat>, id: ReplicaId, v: View, w: ReplicaId, u: View)
    returns (more: seq<Step>, d: Cluster<nat>)
    requires Reaches(steps, c) && Is(c, id, v) && v.role == Follower && v.next == 0
    requires Is(c, w, u) && w != id && u.pending == [] && u.term <= v.term
    requires UpToDate(TermOfLast(v.log), |v.log|, TermOfLast(u.log), |u.log|)
    ensures Reaches(more, d) && GoesOn(steps, more) && Is(d, id, Standing(v, id)) && Is(d, w, Voting(u, v.term + 1, id))
    ensures c.net <= d.net && d.nodes == c.nodes[id := d.nodes[id]][w := d.nodes[w]]
    ensures Packet(w, id, RequestVoteResp(v.term + 1, true)) in d.net
  {
    var msg := RequestVote(v.term + 1, id, |v.log|, TermOfLast(v.log));
    var r1 := Stands(c.nodes[id], id, v);
    var c1 := Go(steps, c, Tick(id, true), r1);
    OthersSent(c, c1, id, r1.0, r1.1, msg);
    var s1 := steps + [Tick(id, true)];
    var r2 := Grants(c1.nodes[w], w, u, Packet(id, w, msg));
    d := Go(s1, c1, Deliver(Packet(id, w, msg)), r2);
    more := s1 + [Deliver(Packet(id, w, msg))];
  }

  /** `id` stands, `w` votes for it, and it leads. */
  lemma Elect(steps: seq<Step>, c: Cluster<nat>, id: ReplicaId, v: View, w: ReplicaId, u: View)
    returns (more: seq<Step>, d: Cluster<nat>)
    requires Reaches(steps, c) && Is(c, id, v) && v.role == Follower && v.pending == [] && v.next == 0
    requires Is(c, w, u) && w != id && u.pending == [] && u.term <= v.term
    requires UpToDate(TermOfLast(v.log), |v.log|, TermOfLast(u.log), |u.log|)
    ensures var l := Beating(Leading(Standing(v, id))); Is(d, id, l) && Sent(d, id, Beat(id, l))
    ensures Reaches(more, d) && GoesOn(steps, more) && Is(d, w, Voting(u, v.term + 1, id))
    ensures c.net <= d.net && d.nodes == c.nodes[id := d.nodes[id]][w := d.nodes[w]]
  {
    var s1, c1 := Canvass(steps, c, id, v, w, u);
    var res := Leads(c1.nodes[id], id, Standing(v, id), w);
    d := Go(s1, c1, Deliver(Packet(w, id, RequestVoteResp(v.term + 1, true))), res);
    more := s1 + [Deliver(Packet(w, id, RequestVoteResp(v.term + 1, true)))];
    OthersSent(c1, d, id, res.0, res.1, Beat(id, Beating(Leading(Standing(v, id)))));
  }

  /** `w` takes what leader `l` has sent it, and answers. */
  lemma Replicate(steps: seq<Step>, c: Cluster<nat>, l: ReplicaId, v: View, w: ReplicaId, u: View)
    returns (more: seq<Step>, d: Cluster<nat>)
    requires Reaches(steps, c) && 1 <= v.next <= |v.log| + 1 && Sent(c, l, Beat(l, v)) && PlainEntries(v.log)
    requires Is(c, w, u) && w != l && u.pending == [] && u.term <= v.term && v.commit <= u.commit
    requires u.log == v.log[..v.next - 1]
    ensures Reaches(more, d) && GoesOn(steps, more)
    ensures Is(d, w, Following(u, v)) && Packet(w, l, AppendEntriesResp(v.term, true, |v.log|, 0, v.readSeq)) in d.net
    ensures c.net <= d.net && d.nodes == c.nodes[w := d.nodes[w]]
  {
    var p := Packet(l, w, Beat(l, v));
    var res := Accepts(c.nodes[w], w, u, l, v);
    d := Go(steps, c, Deliver(p), res);
    more := steps + [Deliver(p)];
  }

  /** Leader `l` hears that `w` holds its log, and commits it. */
  lemma Settle(steps: seq<Step>, c: Cluster<nat>, l: ReplicaId, v: View, w: ReplicaId)
    returns (more: seq<Step>, d: Cluster<nat>)
    requires Reaches(steps, c) && Is(c, l, v) && v.role == Leader && v.pending == [] && v.commit < |v.log|
    requires TermOfLast(v.log) == v.term && w in Three && w != l
    requires Packet(w, l, AppendEntriesResp(v.term, true, |v.log|, 0, v.readSeq)) in c.net
    ensures Reaches(more, d) && GoesOn(steps, more) && Is(d, l, Decided(v, w, v.readSeq))
    ensures c.net <= d.net && d.nodes == c.nodes[l := d.nodes[l]]
  {
    var p := Packet(w, l, AppendEntriesResp(v.term, true, |v.log|, 0, v.readSeq));
    var res := Commits(c.nodes[l], l, v, w, v.readSeq);
    d := Go(steps, c, Deliver(p), res);
    more := steps + [Deliver(p)];
  }

  /** Leader `l` takes a command, and commits it with `w`. */
  lemma CommandDecided(steps: seq<Step>, c: Cluster<nat>, l: ReplicaId, v: View, w: ReplicaId, u: View)
    returns (more: seq<Step>, d: Cluster<nat>)
    requires Reaches(steps, c) && Is(c, l, v) && v.role == Leader && v.pending == [] && v.next > 0
    requires Is(c, w, u) && w != l && u.pending == [] && u.term <= v.term && v.commit <= u.commit
    requires v.next <= |v.log| + 1 && u.log == v.log[..v.next - 1]
    ensures var t := Beating(Told(v)); Is(d, l, Decided(t, w, t.readSeq)) && Is(d, w, Following(u, t))
    ensures Reaches(more, d) && GoesOn(steps, more)
    ensures c.net <= d.net && d.nodes == c.nodes[l := d.nodes[l]][w := d.nodes[w]]
  {
    var t := Beating(Told(v));
    var s1, c1 := Tell(steps, c, l, v);
    assert t.log[..v.next - 1] == v.log[..v.next - 1];
    var s2, c2 := Replicate(s1, c1, l, t, w, u);
    more, d := Settle(s2, c2, l, t, w);
  }

  lemma Tell(steps: seq<Step>, c: Cluster<nat>, l: ReplicaId, v: View) returns (more: seq<Step>, d: Cluster<nat>)
    requires Reaches(steps, c) && Is(c, l, v) && v.role == Leader && v.next > 0
    ensures Reaches(more, d) && GoesOn(steps, more)
    ensures Is(d, l, Beating(Told(v))) && Sent(d, l, Beat(l, Beating(Told(v))))
    ensures c.net <= d.net && d.nodes == c.nodes[l := d.nodes[l]]
  {
    var res := Submits(c.nodes[l], l, v);
    d := Go(steps, c, SubmitCommand(l, []), res);
    OthersSent(c, d, l, res.0, res.1, Beat(l, Beating(Told(v))));
    more := steps + [SubmitCommand(l, [])];
  }

  // ---- what a stale answer is ----

  /** From `d` to `e` leader `l` answers `pr`, and only from log prefixes shorter than what some replica had
      committed in `c`. */
  ghost predicate AnsweredStale(c: Cluster<nat>, d: Cluster<nat>, e: Cluster<nat>, l: ReplicaId, pr: PendingRead) {
    && l in d.nodes && l in e.nodes
    && (exists a :: AnsweredFrom(Counter, d.nodes[l].ready, e.nodes[l], pr, a))
    && (forall a :: AnsweredFrom(Counter, d.nodes[l].ready, e.nodes[l], pr, a) ==>
          exists x :: x in c.nodes && c.nodes[x].commitIndex > a)
  }

  /** `l` leads in `c`, is asked `pr` there, and in `e`, still leading that term, has just dropped it from its
      pending reads. */
  ghost predicate ReadThrough(steps: seq<Step>, i: nat, j: nat, l: ReplicaId, pr: PendingRead,
                              c: Cluster<nat>, d: Cluster<nat>, e: Cluster<nat>) {
    && i <= j < |steps| && c == Run(Counter, Ids, Three, steps[..i])
    && d == Run(Counter, Ids, Three, steps[..j]) && e == Run(Counter, Ids, Three, steps[..j + 1])
    && steps[i] == SubmitRead(l, pr.reqId, pr.query) && l in c.nodes && c.nodes[l].role == Leader
    && pr.readIndex == c.nodes[l].commitIndex && pr.minSeq == c.nodes[l].readSeq + 1
    && l in d.nodes && (j == i || pr in d.nodes[l].pending)
    && l in e.nodes && pr !in e.nodes[l].pending && e.nodes[l].role == Leader && e.nodes[l].term == c.nodes[l].term
  }

  /** With a command among them, the first `a` entries do not count as none. */
  lemma {:induction false} CommandCounts(log: Log, i: nat, a: nat)
    requires i < a <= |log| && log[i].payload.Command?
    ensures Replay(Counter, log[..a]) > 0
  {
    assert log[..a][..a - 1] == log[..a - 1];
    if i < a - 1 { CommandCounts(log, i, a - 1); }
  }

  /** The answer comes from prefixes of `l`'s log shorter than what `x` had committed: the log is that short, or
      nothing is applied and what `x` had committed begins with a command. */
  lemma OneStaleAnswer(steps: seq<Step>, c: Cluster<nat>, d: Cluster<nat>, e: Cluster<nat>, l: ReplicaId,
                       pr: PendingRead, x: ReplicaId, i: nat)
    requires Reaches(steps, d) && l in d.nodes && l in e.nodes && Answers(d.nodes[l], e.nodes[l], pr)
    requires x in c.nodes && d.nodes[l].lastApplied < c.nodes[x].commitIndex
    requires var log := d.nodes[l].store.log;
             |log| < c.nodes[x].commitIndex
                 || (d.nodes[l].lastApplied == 0 && i < |log| && i < c.nodes[x].commitIndex && log[i].payload.Command?)
    ensures AnsweredStale(c, d, e, l, pr)
  {
    var n, r := d.nodes[l], e.nodes[l];
    StateFollowsLog(steps, d, l);
    assert r.ready[|n.ready|..] == [(pr.reqId, Value(Counter.query(n.sm, pr.query)))];
    assert AnsweredFrom(Counter, n.ready, r, pr, n.lastApplied);
    forall a: nat | AnsweredFrom(Counter, n.ready, r, pr, a) ensures c.nodes[x].commitIndex > a {
      assert r.store.log[..0] == [];
      if a > i && i < |r.store.log| && r.store.log[i].payload.Command? { CommandCounts(r.store.log, i, a); }
    }
  }

  lemma StateFollowsLog(steps: seq<Step>, c: Cluster<nat>, id: ReplicaId)
    requires Reaches(steps, c) && id in c.nodes
    ensures AppliedOk(Counter, c.nodes[id])
  {
    ReachesRun(steps, c);
    var _ := RunOk(Counter, Ids, Three, steps);
  }

  /** From the steps to the read, those up to the answer, and the answer. */
  lemma ReadsThrough(s: seq<Step>, more: seq<Step>, last: Step, l: ReplicaId, pr: PendingRead,
                     c: Cluster<nat>, d: Cluster<nat>, e: Cluster<nat>)
    requires more != [] && more[0] == SubmitRead(l, pr.reqId, pr.query)
    requires Reaches(s, c) && Reaches(s + more, d) && Reaches(s + more + [last], e)
    requires l in c.nodes && c.nodes[l].role == Leader && pr.readIndex == c.nodes[l].commitIndex
             && pr.minSeq == c.nodes[l].readSeq + 1
    requires l in d.nodes && pr in d.nodes[l].pending && d.nodes[l].term == c.nodes[l].term
    requires l in e.nodes && Answers(d.nodes[l], e.nodes[l], pr)
    ensures ReadThrough(s + more + [last], |s|, |s| + |more|, l, pr, c, d, e)
  {
    var steps := s + more + [last];
    ReachesRun(s, c);
    ReachesRun(s + more, d);
    ReachesRun(steps, e);
    assert steps[..|s|] == s && steps[..|s| + |more|] == s + more && steps[..|s| + |more| + 1] == steps;
    assert steps[|s|] == more[0];
  }

  /** A read that `from` confirms with a refusal, although `x` has committed further than its answer goes. */
  lemma StaleRead(s: seq<Step>, more: seq<Step>, c: Cluster<nat>, d: Cluster<nat>, l: ReplicaId, v: View,
                  from: ReplicaId, conflict: Index, x: ReplicaId, i: nat)
    returns (steps: seq<Step>, e: Cluster<nat>)
    requires Reaches(s, c) && Reaches(s + more, d) && more != [] && more[0] == SubmitRead(l, 7, [])
    requires Is(c, l, v) && v.role == Leader && Unconfirmed(v.acked, v.readSeq + 1) && Is(d, l, Reading(v))
    requires from in Three && from != l
    requires Packet(from, l, AppendEntriesResp(v.term, false, 0, conflict, v.readSeq + 1)) in d.net
    requires x in c.nodes && v.commit < c.nodes[x].commitIndex
    requires |v.log| < c.nodes[x].commitIndex
             || (v.commit == 0 && i < |v.log| && i < c.nodes[x].commitIndex && v.log[i].payload.Command?)
    ensures steps == s + more + [Deliver(Packet(from, l, AppendEntriesResp(v.term, false, 0, conflict, v.readSeq + 1)))]
    ensures ReadThrough(steps, |s|, |s| + |more|, l, TheRead(v), c, d, e) && AnsweredStale(c, d, e, l, TheRead(v))
  {
    var last := Deliver(Packet(from, l, AppendEntriesResp(v.term, false, 0, conflict, v.readSeq + 1)));
    var res := Confirms(d.nodes[l], l, v, from, conflict);
    e := Go(s + more, d, last, res);
    steps := s + more + [last];
    OneStaleAnswer(s + more, c, d, e, l, TheRead(v), x, i);
    ReadsThrough(s, more, last, l, TheRead(v), c, d, e);
  }

  // ---- a leader that has committed nothing of its own term ----

  /** The first leader of the group. */
  function First(): View {
    Beating(Leading(Standing(New, 0)))
  }

  lemma FirstLeads() returns (steps: seq<Step>, c: Cluster<nat>)
    ensures Reaches(steps, c) && forall s :: s in steps ==> !s.Restart?
    ensures Is(c, 0, First()) && Sent(c, 0, Beat(0, First())) && Is(c, 1, Voting(New, 1, 0)) && Is(c, 2, New)
  {
    var c0 := AtStart();
    steps, c := Elect([], c0, 0, New, 1, New);
  }

  /** The first leader has committed a command with replica 1, which now leads the next term by replica 2's vote. */
  lemma SecondLeads() returns (steps: seq<Step>, c: Cluster<nat>, v: View)
    ensures Reaches(steps, c) && forall s :: s in steps ==> !s.Restart?
    ensures Is(c, 1, v) && v.role == Leader && v.term == 2 && v.commit == 0 && v.readSeq == 1 && v.acked == map[]
    ensures v.pending == [] && v.next == 3 && |v.log| == 3 && v.log[1].payload.Command?
    ensures Is(c, 2, Voting(New, 2, 1)) && 0 in c.nodes && c.nodes[0].commitIndex == 2
  {
    var s1, c1 := FirstLeads();
    assert First().log[..0] == [];
    var s2, c2 := CommandDecided(s1, c1, 0, First(), 1, Voting(New, 1, 0));
    var u := Following(Voting(New, 1, 0), Beating(Told(First())));
    steps, c := Elect(s2, c2, 1, u, 2, New);
    v := Beating(Leading(Standing(u, 1)));
  }

  /** It is asked to read, and replica 2, which lacks its log, turns its entries down. */
  lemma ReadTurnedDown(s: seq<Step>, c: Cluster<nat>, v: View) returns (more: seq<Step>, d: Cluster<nat>)
    requires Reaches(s, c) && Is(c, 1, v) && v.role == Leader && v.term == 2 && v.readSeq == 1 && v.acked == map[]
    requires v.pending == [] && v.next == |v.log| == 3 && Is(c, 2, Voting(New, 2, 1))
    ensures Reaches(s + more, d) && |more| == 2 && more[0] == SubmitRead(1, 7, []) && !more[1].Restart?
    ensures Is(d, 1, Reading(v)) && Packet(2, 1, AppendEntriesResp(2, false, 0, 1, 2)) in d.net
  {
    var r1 := Reads(c.nodes[1], 1, v);
    var c1 := Go(s, c, SubmitRead(1, 7, []), r1);
    OthersSent(c, c1, 1, r1.0, r1.1, Beat(1, Beating(v)));
    var p := Packet(1, 2, Beat(1, Beating(v)));
    var r2 := Rejects(c1.nodes[2], 2, Voting(New, 2, 1), 1, Beating(v));
    d := Go(s + [SubmitRead(1, 7, [])], c1, Deliver(p), r2);
    more := [SubmitRead(1, 7, []), Deliver(p)];
    assert s + [SubmitRead(1, 7, [])] + [Deliver(p)] == s + more;
  }

  /** Replica 0 has committed a command. Replica 1 leads the next term, has committed nothing, and is asked to read.
      Replica 2's refusal confirms it, and it answers as if there had been no command. Nobody has restarted. */
  lemma OwnCommitNeeded()
    returns (steps: seq<Step>, i: nat, j: nat, pr: PendingRead, c: Cluster<nat>, d: Cluster<nat>, e: Cluster<nat>)
    ensures ReadThrough(steps, i, j, 1, pr, c, d, e) && (forall s :: s in steps ==> !s.Restart?)
    ensures c.nodes[1].commitIndex == 0 && AnsweredStale(c, d, e, 1, pr)
  {
    var s, more, v;
    s, c, v := SecondLeads();
    more, d := ReadTurnedDown(s, c, v);
    pr, i, j := TheRead(v), |s|, |s| + |more|;
    assert c.nodes[1].commitIndex == 0;
    NoneRestarts(s, more, Packet(2, 1, AppendEntriesResp(2, false, 0, 1, 2)));
    steps, e := StaleRead(s, more, c, d, 1, v, 2, 1, 0, 1);
  }

  lemma NoneRestarts(s: seq<Step>, more: seq<Step>, p: Packet)
    requires (forall x :: x in s ==> !x.Restart?) && |more| == 2 && !more[0].Restart? && !more[1].Restart?
    ensures forall x :: x in s + more + [Deliver(p)] ==> !x.Restart?
  {
  }

  // ---- a leader that has restarted ----

  /** Both followers hold the first leader's entry, and another heartbeat is still on its way to replica 1. */
  lemma FirstBeats() returns (steps: seq<Step>, c: Cluster<nat>)
    ensures Reaches(steps, c) && Is(c, 0, Beating(First())) && Sent(c, 0, Beat(0, Beating(First())))
    ensures Is(c, 1, Following(Voting(New, 1, 0), First())) && Is(c, 2, Following(New, First()))
  {
    var s1, c1 := FirstLeads();
    assert First().log[..0] == [];
    var s2, c2 := Replicate(s1, c1, 0, First(), 1, Voting(New, 1, 0));
    var s3, c3 := Replicate(s2, c2, 0, First(), 2, New);
    var res := Beats(c3.nodes[0], 0, First());
    c := Go(s3, c3, Tick(0, true), res);
    steps := s3 + [Tick(0, true)];
    OthersSent(c3, c, 0, res.0, res.1, Beat(0, Beating(First())));
  }

  /** The first leader, restarted and leading again, its read counter starting over. */
  function Again(): View {
    Beating(Leading(Standing(Restarted(Beating(First())), 0)))
  }

  lemma LeadsAgain() returns (steps: seq<Step>, c: Cluster<nat>)
    ensures Reaches(steps, c) && Restart(0) in steps && Sent(c, 0, Beat(0, Beating(First())))
    ensures Is(c, 0, Again()) && Sent(c, 0, Beat(0, Again()))
    ensures Is(c, 1, Voting(Following(Voting(New, 1, 0), First()), 2, 0)) && Is(c, 2, Following(New, First()))
  {
    var s1, c1 := FirstBeats();
    var res := Restarts(c1.nodes[0], 0, Beating(First()));
    var c2 := Go(s1, c1, Restart(0), res);
    var s2 := s1 + [Restart(0)];
    assert Restart(0) in s2;
    steps, c := Elect(s2, c2, 0, Restarted(Beating(First())), 1, Following(Voting(New, 1, 0), First()));
  }

  /** Its entry is held by all and committed, and replica 1's answer to the old heartbeat is on its way. */
  lemma OldEcho() returns (steps: seq<Step>, c: Cluster<nat>, v: View, u: View, w: View)
    ensures Reaches(steps, c) && Restart(0) in steps && Is(c, 0, v) && Is(c, 1, u) && Is(c, 2, w)
    ensures v.role == Leader && v.term == 2 && v.commit == 2 && v.readSeq == 1 && v.pending == []
    ensures |v.log| == 2 && v.log[1].term == 2 && Unconfirmed(v.acked, 2)
    ensures Awaits(u, v.log) && Awaits(w, v.log) && Packet(1, 0, AppendEntriesResp(2, false, 0, 0, 2)) in c.net
  {
    var s1, c1 := LeadsAgain();
    assert Again().log[..1] == First().log;
    var s2, c2 := Replicate(s1, c1, 0, Again(), 1, Voting(Following(Voting(New, 1, 0), First()), 2, 0));
    var s3, c3 := Replicate(s2, c2, 0, Again(), 2, Following(New, First()));
    var s4, c4 := Settle(s3, c3, 0, Again(), 1);
    var beat := Packet(0, 1, Beat(0, Beating(First())));
    var res := TurnsDown(c4.nodes[1], beat);
    c := Go(s4, c4, Deliver(beat), res);
    steps, v, w := s4 + [Deliver(beat)], Decided(Again(), 1, 1), Following(Following(New, First()), Again());
    u := Following(Voting(Following(Voting(New, 1, 0), First()), 2, 0), Again());
  }

  /** A follower of term 2 with this log, none of which it knows to be committed. */
  ghost predicate Awaits(u: View, log: Log) {
    u.role == Follower && u.term == 2 && u.log == log && u.commit == 0 && u.pending == [] && u.next == 0
  }

  /** Replica 1 leads term 3, by replica 2's vote, and commits a command with it. */
  lemma ThirdCommits(s: seq<Step>, c: Cluster<nat>, u: View, w: View) returns (steps: seq<Step>, d: Cluster<nat>)
    requires Reaches(s, c) && Is(c, 1, u) && Is(c, 2, w) && Awaits(u, w.log) && Awaits(w, w.log) && |w.log| == 2
    ensures Reaches(steps, d) && GoesOn(s, steps) && c.net <= d.net && 1 in d.nodes && d.nodes[1].commitIndex == 4
    ensures forall x :: x in c.nodes && x != 1 && x != 2 ==> x in d.nodes && d.nodes[x] == c.nodes[x]
  {
    var v := Beating(Leading(Standing(u, 1)));
    var s1, c1 := Elect(s, c, 1, u, 2, w);
    assert v.log[..2] == w.log;
    steps, d := CommandDecided(s1, c1, 1, v, 2, Voting(w, 3, 1));
  }

  /** Replica 0, restarted, leads term 2 and has committed in it; replica 1 has since committed further in term 3.
      Its answer to a heartbeat from before the restart confirms a read that misses those commits. */
  lemma NoRestartNeeded()
    returns (steps: seq<Step>, i: nat, j: nat, pr: PendingRead, c: Cluster<nat>, d: Cluster<nat>, e: Cluster<nat>)
    ensures ReadThrough(steps, i, j, 0, pr, c, d, e) && Asked(c, 0, pr) && Restart(0) in steps[..i]
    ensures AnsweredStale(c, d, e, 0, pr)
  {
    var more := [SubmitRead(0, 7, [])];
    var s1, c1, v, u, w := OldEcho();
    var s;
    s, c := ThirdCommits(s1, c1, u, w);
    pr, i, j := TheRead(v), |s|, |s| + 1;
    var r1 := Reads(c.nodes[0], 0, v);
    d := Go(s, c, SubmitRead(0, 7, []), r1);
    assert Asked(c, 0, pr);
    assert (s + more + [Deliver(Packet(1, 0, AppendEntriesResp(2, false, 0, 0, 2)))])[..i] == s;
    steps, e := StaleRead(s, more, c, d, 0, v, 1, 0, 1, 0);
  }
}
