/** Local log compaction is invisible to a group with fixed membership: beside every
    replica that folds applied entries into snapshots runs an imagined twin that never
    does, and the twins behave like a group without compaction. Snapshots are not shipped:
    an InstallSnapshot is sent but never delivered. */
module RaftCompaction {
  import opened Wrappers
  import opened RaftTypes
  import opened Membership
  import opened ConfigChain
  import opened LogStore
  import opened RaftModel
  import opened RaftHandlers
  import opened RaftRecovery

  // ---- a replica and its twin ----

  ghost predicate NoConfig(log: Log) {
    forall k {:trigger log[k]} :: 0 <= k < |log| ==> !log[k].payload.Config?
  }

  /** `w` is `n` but for keeping its whole log. */
  ghost predicate Twin<S>(m: StateMachine<S>, n: Node<S>, w: Node<S>) {
    && w == n.(store := Store(w.store.log, 0, 0, [], n.store.hardState, false), snapshotThreshold := 0,
               outbox := w.outbox)
    && n.config == n.baseConfig && n.config.Simple? && NoConfig(w.store.log)
    && Live(m, n, w.store.log)
  }

  lemma {:induction false} NoConfigUpTo(base: ConfState, log: Log, i: Index)
    requires NoConfig(log)
    ensures ConfigUpTo(base, log, i) == base && ConfigOf(base, log) == base
  {
    if log != [] {
      assert forall k :: 0 <= k < |log| - 1 ==> log[..|log| - 1][k] == log[k];
      NoConfigUpTo(base, log[..|log| - 1], i);
    }
  }

  /** Whatever both still hold looks the same. */
  lemma TwinLooks<S>(m: StateMachine<S>, n: Node<S>, w: Node<S>)
    requires Twin(m, n, w)
    ensures LastIndex(n.store) == LastIndex(w.store) == |w.store.log| && LastTerm(n.store) == LastTerm(w.store)
    ensures Peers(n) == Peers(w) && Live(m, w, w.store.log)
  {
    StoredLog(m, n.store, w.store.log);
    assert n.store.log == w.store.log[n.store.baseIndex..];
  }

  lemma NoLiveConfig<S>(m: StateMachine<S>, n: Node<S>, full: Log)
    requires Stored(m, n.store, full) && NoConfig(full) && n.config == n.baseConfig
    ensures RecomputeConfig(n) == n && forall i {:trigger ConfigAt(n, i)} :: ConfigAt(n, i) == n.config
  {
    StoredLog(m, n.store, full);
    EntriesToEnd(n.store, n.store.baseIndex + 1);
    var live := LiveEntries(n);
    assert NoConfig(live) by {
      forall k | 0 <= k < |live| ensures !live[k].payload.Config? { assert live[k] == full[n.store.baseIndex + k]; }
    }
    forall i: nat ensures ConfigAt(n, i) == n.config { NoConfigUpTo(n.baseConfig, live, i); }
    NoConfigUpTo(n.baseConfig, live, 0);
  }

  lemma TwinConfig<S>(m: StateMachine<S>, n: Node<S>, w: Node<S>)
    requires Twin(m, n, w)
    ensures RecomputeConfig(n) == n && RecomputeConfig(w) == w
    ensures forall i {:trigger ConfigAt(n, i)} :: ConfigAt(n, i) == n.config
  {
    TwinLooks(m, n, w);
    NoLiveConfig(m, n, w.store.log);
    NoLiveConfig(m, w, w.store.log);
  }

  lemma TwinTerm<S>(m: StateMachine<S>, n: Node<S>, w: Node<S>, k: nat)
    requires Twin(m, n, w) && (k == 0 || k >= n.store.baseIndex)
    ensures TermAt(n, k) == TermAt(w, k)
  {
    TwinLooks(m, n, w);
    StoredEntry(m, n, w.store.log, k);
    StoredEntry(m, w, w.store.log, k);
  }

  // ---- steps that only touch what both share ----

  lemma FollowerTwin<S>(m: StateMachine<S>, n: Node<S>, w: Node<S>, t: Term, leader: Option<ReplicaId>)
    requires Twin(m, n, w)
    ensures Twin(m, BecomeFollower(n, t, leader), BecomeFollower(w, t, leader))
  {
  }

  lemma StandTwin<S>(m: StateMachine<S>, n: Node<S>, w: Node<S>)
    requires Twin(m, n, w)
    ensures Twin(m, Stand(n), Stand(w)) && VoteRequests(Stand(n)) == VoteRequests(Stand(w))
  {
    TwinLooks(m, Stand(n), Stand(w));
  }

  lemma DecideTwin<S>(m: StateMachine<S>, n: Node<S>, w: Node<S>, t: Term, c: ReplicaId, lli: Index, llt: Term)
    requires Twin(m, n, w)
    ensures Twin(m, DecideVote(n, t, c, lli, llt).0, DecideVote(w, t, c, lli, llt).0)
    ensures DecideVote(n, t, c, lli, llt).1 == DecideVote(w, t, c, lli, llt).1
  {
    TwinLooks(m, n, w);
  }

  lemma VoteTwin<S>(m: StateMachine<S>, n: Node<S>, w: Node<S>, t: Term, c: ReplicaId, lli: Index, llt: Term)
    requires Twin(m, n, w)
    ensures Twin(m, HandleRequestVote(n, t, c, lli, llt).0, HandleRequestVote(w, t, c, lli, llt).0)
    ensures HandleRequestVote(n, t, c, lli, llt).1 == HandleRequestVote(w, t, c, lli, llt).1
  {
    FollowerTwin(m, n, w, t, None);
    if t > n.term {
      DecideTwin(m, BecomeFollower(n, t, None), BecomeFollower(w, t, None), t, c, lli, llt);
    } else {
      DecideTwin(m, n, w, t, c, lli, llt);
    }
  }

  // ---- appending ----

  lemma AppendTwin<S>(m: StateMachine<S>, n: Node<S>, w: Node<S>, payload: EntryPayload)
    requires Twin(m, n, w) && !payload.Config?
    ensures Twin(m, AppendLocal(n, payload), AppendLocal(w, payload))
  {
    TwinLooks(m, n, w);
    LiveAppend(m, n, w.store.log, Entry(n.term, |w.store.log| + 1, payload));
  }

  lemma ReignTwin<S>(m: StateMachine<S>, n: Node<S>, w: Node<S>)
    requires Twin(m, n, w)
    ensures Twin(m, OpenedReign(n), OpenedReign(w))
  {
    OfficeTwin(m, n, w);
    AppendTwin(m, InOffice(n), InOffice(w), Noop);
  }

  lemma OfficeTwin<S>(m: StateMachine<S>, n: Node<S>, w: Node<S>)
    requires Twin(m, n, w)
    ensures Twin(m, InOffice(n), InOffice(w))
  {
    TwinLooks(m, n, w);
  }

  // ---- applying, answering, folding ----

  lemma ApplyTwin<S>(m: StateMachine<S>, n: Node<S>, w: Node<S>)
    requires Twin(m, n, w)
    ensures Twin(m, ApplyLoop(m, n), ApplyLoop(m, w))
  {
    TwinLooks(m, n, w);
    ApplyLoopLive(m, n, w.store.log);
    ApplyLoopLive(m, w, w.store.log);
  }

  lemma {:induction false} ScanTwin<S>(n: Node<S>, w: Node<S>, cands: seq<nat>, k: nat)
    requires k <= |cands| && n.id == w.id && n.config == w.config && n.readSeq == w.readSeq && n.ackedSeq == w.ackedSeq
    ensures ScanDown(n, cands, k) == ScanDown(w, cands, k)
  {
    if k > 0 {
      assert Reached(n, cands[k - 1]) == Reached(w, cands[k - 1]);
      ScanTwin(n, w, cands, k - 1);
    }
  }

  lemma ConfirmTwin<S>(n: Node<S>, w: Node<S>)
    requires n.id == w.id && n.config == w.config && n.readSeq == w.readSeq && n.ackedSeq == w.ackedSeq
    ensures ConfirmedReadSeq(n) == ConfirmedReadSeq(w)
  {
    var v := Voters(n.config);
    var a := seq(|v|, i requires 0 <= i < |v| => ConfirmedBy(n, v[i]));
    var b := seq(|v|, i requires 0 <= i < |v| => ConfirmedBy(w, v[i]));
    assert a == b;
    ScanTwin(n, w, Sorted(a), |Sorted(a)|);
  }

  lemma ServeTwin<S>(m: StateMachine<S>, n: Node<S>, w: Node<S>)
    requires Twin(m, n, w)
    ensures Twin(m, ServeReads(m, n), ServeReads(m, w))
  {
    ConfirmTwin(n, w);
  }

  lemma CompactTwin<S>(m: StateMachine<S>, n: Node<S>, w: Node<S>)
    requires Twin(m, n, w)
    ensures Twin(m, Compact(m, n), w)
  {
    CompactLive(m, n, w.store.log);
    TwinConfig(m, n, w);
    if n.lastApplied > n.store.baseIndex {
      var r := Compact(m, n);
      assert r.baseConfig == n.config;
      NoLiveConfig(m, r.(config := n.config), w.store.log);
    }
  }

  lemma SettleTwin<S>(m: StateMachine<S>, n: Node<S>, w: Node<S>)
    requires Twin(m, n, w)
    ensures Twin(m, ApplyCommitted(m, n), ApplyCommitted(m, w))
  {
    ApplyTwin(m, n, w);
    ServeTwin(m, ApplyLoop(m, n), ApplyLoop(m, w));
    CompactTwin(m, ServeReads(m, ApplyLoop(m, n)), ServeReads(m, ApplyLoop(m, w)));
  }

  // ---- committing ----

  lemma {:induction false} HighestTwin<S>(m: StateMachine<S>, n: Node<S>, w: Node<S>, k: Index)
    requires Twin(m, n, w)
    ensures HighestCommittable(n, k) == HighestCommittable(w, k)
    decreases k
  {
    if k > n.commitIndex {
      TwinTerm(m, n, w, k);
      TwinLooks(m, n, w);
      assert Holders(n, k) == Holders(w, k);
      HighestTwin(m, n, w, k - 1);
    }
  }

  lemma CommitTwin<S>(m: StateMachine<S>, n: Node<S>, w: Node<S>, k: Index)
    requires Twin(m, n, w) && n.commitIndex <= k <= |w.store.log|
    ensures Twin(m, CommitTo(m, n, k), CommitTo(m, w, k))
  {
    var n1, w1 := PersistHardState(n.(commitIndex := k)), PersistHardState(w.(commitIndex := k));
    assert Twin(m, n1, w1);
    SettleTwin(m, n1, w1);
  }

  lemma AdvanceTwin<S>(m: StateMachine<S>, n: Node<S>, w: Node<S>)
    requires Twin(m, n, w)
    ensures Twin(m, MaybeAdvanceCommit(m, n), MaybeAdvanceCommit(m, w))
  {
    TwinLooks(m, n, w);
    HighestTwin(m, n, w, LastIndex(n.store));
    if n.role == Leader { CommitTwin(m, n, w, HighestCommittable(n, LastIndex(n.store))); }
  }

  // ---- sending ----

  /** The same messages, but a snapshot where the entries asked for are folded away. */
  ghost predicate SameOuts(a: seq<Out>, b: seq<Out>) {
    |a| == |b| && forall i {:trigger a[i]} :: 0 <= i < |a| ==> a[i] == b[i] || a[i].msg.InstallSnapshot?
  }

  /** Messages that carry no configuration. */
  ghost predicate PlainMsg(msg: Message) {
    msg.AppendEntries? ==> NoConfig(msg.entries)
  }

  ghost predicate PlainOuts(outs: seq<Out>) {
    forall i {:trigger outs[i]} :: 0 <= i < |outs| ==> PlainMsg(outs[i].msg)
  }

  /** The same step by both. */
  ghost predicate Mirrored<S>(m: StateMachine<S>, a: (Node<S>, seq<Out>), b: (Node<S>, seq<Out>)) {
    Twin(m, a.0, b.0) && SameOuts(a.1, b.1) && PlainOuts(b.1)
  }

  /** A leader's progress marks lie within its log. */
  ghost predicate InRange<S>(w: Node<S>) {
    forall p {:trigger p in w.nextIndex} :: p in w.nextIndex ==> 1 <= w.nextIndex[p] <= |w.store.log| + 1
  }

  lemma SuffixTwin<S>(m: StateMachine<S>, n: Node<S>, w: Node<S>, next: Index)
    requires Twin(m, n, w) && n.store.baseIndex < next <= |w.store.log| + 1
    ensures Entries(n.store, next, LastIndex(n.store)) == Entries(w.store, next, LastIndex(w.store))
         == w.store.log[next - 1..]
  {
    TwinLooks(m, n, w);
    StoredLog(m, n.store, w.store.log);
    EntriesToEnd(n.store, next);
    EntriesToEnd(w.store, next);
    assert w.store.log[n.store.baseIndex..][next - n.store.baseIndex - 1..] == w.store.log[next - 1..];
  }

  lemma AppendForTwin<S>(m: StateMachine<S>, n: Node<S>, w: Node<S>, p: ReplicaId)
    requires Twin(m, n, w) && InRange(w)
    ensures AppendFor(n, p) == AppendFor(w, p) || AppendFor(n, p).InstallSnapshot?
    ensures PlainMsg(AppendFor(w, p))
  {
    var next := Get(n.nextIndex, p, 1);
    TwinLooks(m, n, w);
    EntriesToEnd(w.store, next);
    if next > n.store.baseIndex {
      TwinTerm(m, n, w, next - 1);
      SuffixTwin(m, n, w, next);
    }
  }

  lemma BroadcastTwin<S>(m: StateMachine<S>, n: Node<S>, w: Node<S>)
    requires Twin(m, n, w) && InRange(w)
    ensures Mirrored(m, BroadcastAppend(n), BroadcastAppend(w))
  {
    TwinLooks(m, n, w);
    var n1, w1 := n.(readSeq := n.readSeq + 1), w.(readSeq := w.readSeq + 1);
    assert Twin(m, n1, w1) && InRange(w1);
    BroadcastParts(n);
    BroadcastParts(w);
    forall i | 0 <= i < |Peers(n)|
      ensures BroadcastAppend(n).1[i] == BroadcastAppend(w).1[i] || BroadcastAppend(n).1[i].msg.InstallSnapshot?
      ensures PlainMsg(BroadcastAppend(w).1[i].msg)
    {
      AppendForTwin(m, n1, w1, Peers(n)[i]);
    }
  }

  // ---- elections ----

  lemma ReignInRange<S>(n: Node<S>)
    requires Indexed(n.store.log) && n.store.baseIndex == 0
    ensures InRange(OpenedReign(n))
  {
  }

  lemma AdvanceInRange<S>(m: StateMachine<S>, n: Node<S>, w: Node<S>)
    requires Twin(m, n, w) && InRange(w)
    ensures InRange(MaybeAdvanceCommit(m, w))
  {
    if w.role == Leader {
      var k := HighestCommittable(w, LastIndex(w.store));
      var w1 := PersistHardState(w.(commitIndex := k));
      ApplyCommittedFrame(m, w1);
    }
  }

  lemma LeadTwin<S>(m: StateMachine<S>, n: Node<S>, w: Node<S>)
    requires Twin(m, n, w)
    ensures Mirrored(m, BecomeLeader(m, n), BecomeLeader(m, w))
  {
    ReignTwin(m, n, w);
    ReignInRange(w);
    AdvanceTwin(m, OpenedReign(n), OpenedReign(w));
    AdvanceInRange(m, OpenedReign(n), OpenedReign(w));
    BroadcastTwin(m, MaybeAdvanceCommit(m, OpenedReign(n)), MaybeAdvanceCommit(m, OpenedReign(w)));
  }

  lemma TickTwin<S>(m: StateMachine<S>, n: Node<S>, w: Node<S>, due: bool)
    requires Twin(m, n, w) && (n.role == Leader ==> InRange(w))
    ensures Mirrored(m, OnTick(m, n, due), OnTick(m, w, due))
  {
    if due && n.role == Leader {
      BroadcastTwin(m, n, w);
    } else if due && n.id in Voters(n.config) {
      StandTwin(m, n, w);
      if IsQuorum(Stand(n).config, Stand(n).votes) { LeadTwin(m, Stand(n), Stand(w)); }
    }
  }

  lemma VoteRespTwin<S>(m: StateMachine<S>, n: Node<S>, w: Node<S>, from: ReplicaId, t: Term, granted: bool)
    requires Twin(m, n, w)
    ensures Mirrored(m, HandleRequestVoteResp(m, n, from, t, granted), HandleRequestVoteResp(m, w, from, t, granted))
  {
    if t > n.term {
      FollowerTwin(m, n, w, t, None);
    } else if n.role == Candidate && t == n.term && granted {
      var n1, w1 := n.(votes := n.votes + {from}), w.(votes := w.votes + {from});
      assert Twin(m, n1, w1);
      if IsQuorum(n1.config, n1.votes) { LeadTwin(m, n1, w1); }
    }
  }

  // ---- following a leader ----

  lemma NextTwin<S>(m: StateMachine<S>, n: Node<S>, w: Node<S>, e: Entry)
    requires Twin(m, n, w) && e.index == |w.store.log| + 1 && !e.payload.Config?
    ensures Twin(m, n.(store := Append(n.store, [e])), w.(store := Append(w.store, [e])))
  {
    LiveAppend(m, n, w.store.log, e);
  }

  lemma CutTwin<S>(m: StateMachine<S>, n: Node<S>, w: Node<S>, e: Entry)
    requires Twin(m, n, w) && n.commitIndex < e.index <= |w.store.log| && !e.payload.Config?
    ensures Twin(m, n.(store := Append(TruncateSuffix(n.store, e.index), [e])),
                 w.(store := Append(TruncateSuffix(w.store, e.index), [e])))
  {
    LiveCut(m, n, w.store.log, e);
  }

  lemma SpliceOneTwin<S>(m: StateMachine<S>, n: Node<S>, w: Node<S>, e: Entry)
    requires Twin(m, n, w) && 1 <= e.index <= |w.store.log| + 1 && !e.payload.Config?
    requires e.index <= n.commitIndex ==> TermAt(w, e.index) == Some(e.term)
    ensures Twin(m, SpliceOne(n, e), SpliceOne(w, e))
  {
    TwinLooks(m, n, w);
    StoredEntry(m, w, w.store.log, e.index);
    if e.index > n.store.baseIndex {
      TwinTerm(m, n, w, e.index);
      if e.index > |w.store.log| {
        NextTwin(m, n, w, e);
      } else if w.store.log[e.index - 1].term != e.term {
        CutTwin(m, n, w, e);
      }
    }
  }

  lemma {:induction false} SpliceTwin<S>(m: StateMachine<S>, n: Node<S>, w: Node<S>, entries: Log, next: Index)
    requires Twin(m, n, w) && n.lastApplied == n.commitIndex && 1 <= next <= |w.store.log| + 1
    requires Fits(w, entries, next) && NoConfig(entries)
    ensures Twin(m, Splice(n, entries), Splice(w, entries))
    decreases |entries|
  {
    if entries != [] {
      var e := entries[0];
      TwinLooks(m, n, w);
      SpliceOneTwin(m, n, w, e);
      var more := SpliceOneSettled(m, w, w.store.log, e);
      var n1, w1 := SpliceOne(n, e), SpliceOne(w, e);
      assert |w1.store.log| == |more|;
      assert forall k :: 0 <= k < |entries| - 1 ==> entries[1..][k] == entries[k + 1];
      SpliceTwin(m, n1, w1, entries[1..], next + 1);
    }
  }

  lemma FollowCommitTwin<S>(m: StateMachine<S>, n: Node<S>, w: Node<S>, leaderCommit: Index)
    requires Twin(m, n, w)
    ensures Twin(m, FollowCommit(m, n, leaderCommit), FollowCommit(m, w, leaderCommit))
  {
    TwinLooks(m, n, w);
    if leaderCommit > n.commitIndex {
      var k := Min(leaderCommit, LastIndex(n.store));
      var n1, w1 := PersistHardState(n.(commitIndex := k)), PersistHardState(w.(commitIndex := k));
      assert Twin(m, n1, w1);
      SettleTwin(m, n1, w1);
    }
  }

  lemma AcceptTwin<S>(m: StateMachine<S>, n: Node<S>, w: Node<S>, msg: Message)
    requires Twin(m, n, w) && n.lastApplied == n.commitIndex && msg.AppendEntries? && msg.prevLogIndex <= |w.store.log|
    requires Fits(w, msg.entries, msg.prevLogIndex + 1) && NoConfig(msg.entries)
    ensures Mirrored(m, Accept(m, n, msg), Accept(m, w, msg))
  {
    SpliceTwin(m, n, w, msg.entries, msg.prevLogIndex + 1);
    var n1, w1 := Splice(n, msg.entries), Splice(w, msg.entries);
    TwinConfig(m, n1, w1);
    FollowCommitTwin(m, n1, w1, msg.leaderCommit);
  }

  /** The entry before the message's lies inside the snapshot: a replica that has folded it cannot check it. */
  ghost predicate Folded<S>(n: Node<S>, msg: Message) {
    msg.AppendEntries? && msg.term >= n.term && 0 < msg.prevLogIndex < n.store.baseIndex
  }

  lemma FollowTwin<S>(m: StateMachine<S>, n: Node<S>, w: Node<S>, msg: Message)
    requires Twin(m, n, w) && n.lastApplied == n.commitIndex && msg.AppendEntries? && msg.term == n.term
             && !Folded(n, msg)
    requires TermAt(w, msg.prevLogIndex) == Some(msg.prevLogTerm) ==> Fits(w, msg.entries, msg.prevLogIndex + 1)
    requires NoConfig(msg.entries)
    ensures Mirrored(m, FollowLeader(m, n, msg), FollowLeader(m, w, msg))
  {
    TwinTerm(m, n, w, msg.prevLogIndex);
    TwinLooks(m, n, w);
    StoredEntry(m, w, w.store.log, msg.prevLogIndex);
    if TermAt(w, msg.prevLogIndex) == Some(msg.prevLogTerm) { AcceptTwin(m, n, w, msg); }
  }

  lemma FitsAfter<S>(w: Node<S>, t: Term, leader: Option<ReplicaId>, entries: Log, next: Index)
    requires Fits(w, entries, next)
    ensures Fits(BecomeFollower(w, t, leader), entries, next)
  {
    var r := BecomeFollower(w, t, leader);
    forall k | 0 <= k < |entries| && r.store.baseIndex < entries[k].index <= r.commitIndex
      ensures TermAt(r, entries[k].index) == Some(entries[k].term)
    {
      assert TermAt(w, entries[k].index) == TermAt(r, entries[k].index);
    }
  }

  lemma NewerTwin<S>(m: StateMachine<S>, n: Node<S>, w: Node<S>, msg: Message)
    requires Twin(m, n, w) && n.lastApplied == n.commitIndex && msg.AppendEntries? && msg.term >= n.term
             && !Folded(n, msg)
    requires Legal(w, msg) && NoConfig(msg.entries)
    ensures Mirrored(m, FollowLeader(m, BecomeFollower(n, msg.term, Some(msg.leader)), msg),
                     FollowLeader(m, BecomeFollower(w, msg.term, Some(msg.leader)), msg))
  {
    var n1, w1 := BecomeFollower(n, msg.term, Some(msg.leader)), BecomeFollower(w, msg.term, Some(msg.leader));
    FollowerTwin(m, n, w, msg.term, Some(msg.leader));
    assert TermAt(w1, msg.prevLogIndex) == TermAt(w, msg.prevLogIndex);
    if TermAt(w, msg.prevLogIndex) == Some(msg.prevLogTerm) {
      FitsAfter(w, msg.term, Some(msg.leader), msg.entries, msg.prevLogIndex + 1);
    }
    FollowTwin(m, n1, w1, msg);
  }

  lemma AppendEntriesTwin<S>(m: StateMachine<S>, n: Node<S>, w: Node<S>, msg: Message)
    requires Twin(m, n, w) && n.lastApplied == n.commitIndex && msg.AppendEntries? && !Folded(n, msg)
    requires Legal(w, msg) && NoConfig(msg.entries)
    ensures Mirrored(m, HandleAppendEntries(m, n, msg), HandleAppendEntries(m, w, msg))
  {
    if msg.term >= n.term {
      NewerTwin(m, n, w, msg);
      Newer(m, n, msg);
      Newer(m, w, msg);
    }
  }

  lemma Newer<S>(m: StateMachine<S>, n: Node<S>, msg: Message)
    requires msg.AppendEntries? && msg.term >= n.term
    ensures HandleAppendEntries(m, n, msg) == FollowLeader(m, BecomeFollower(n, msg.term, Some(msg.leader)), msg)
  {
  }

  /** It says no, and its twin could have said so too. */
  lemma FoldedTwin<S>(m: StateMachine<S>, n: Node<S>, w: Node<S>, msg: Message)
    requires Twin(m, n, w) && Folded(n, msg)
    ensures var res := HandleAppendEntries(m, n, msg);
            && res.0 == BecomeFollower(n, msg.term, Some(msg.leader))
            && Twin(m, res.0, BecomeFollower(w, msg.term, Some(msg.leader)))
            && res.1 == [Out(msg.leader, AppendEntriesResp(msg.term, false, 0, msg.prevLogIndex, msg.readSeq))]
  {
    FollowerTwin(m, n, w, msg.term, Some(msg.leader));
    TwinLooks(m, n, w);
    StoredEntry(m, n, w.store.log, msg.prevLogIndex);
    assert TermAt(BecomeFollower(n, msg.term, Some(msg.leader)), msg.prevLogIndex) == TermAt(n, msg.prevLogIndex);
  }

  // ---- leading ----

  lemma HearTwin<S>(m: StateMachine<S>, n: Node<S>, w: Node<S>, from: ReplicaId, msg: Message)
    requires Twin(m, n, w) && InRange(w) && n.role == Leader && msg.AppendEntriesResp?
    ensures Mirrored(m, HearBack(m, n, from, msg), HearBack(m, w, from, msg))
  {
    if msg.success {
      var n1, w1 := Matched(n, from, msg.matchIndex), Matched(w, from, msg.matchIndex);
      assert Twin(m, n1, w1);
      AdvanceTwin(m, n1, w1);
      ServeTwin(m, MaybeAdvanceCommit(m, n1), MaybeAdvanceCommit(m, w1));
    } else {
      var next := Backed(Get(n.nextIndex, from, 1), msg.conflictIndex);
      var n1, w1 := n.(nextIndex := n.nextIndex[from := next]), w.(nextIndex := w.nextIndex[from := next]);
      assert Twin(m, n1, w1) && InRange(w1);
      ServeTwin(m, n1, w1);
      AppendForTwin(m, ServeReads(m, n1), ServeReads(m, w1), from);
    }
  }

  lemma RespTwin<S>(m: StateMachine<S>, n: Node<S>, w: Node<S>, from: ReplicaId, msg: Message)
    requires Twin(m, n, w) && (n.role == Leader ==> InRange(w)) && msg.AppendEntriesResp?
    ensures Mirrored(m, HandleAppendEntriesResp(m, n, from, msg), HandleAppendEntriesResp(m, w, from, msg))
  {
    if msg.term > n.term {
      FollowerTwin(m, n, w, msg.term, None);
    } else if n.role == Leader && msg.term == n.term {
      var acked := n.ackedSeq[from := Max(msg.readSeq, Get(n.ackedSeq, from, 0))];
      HearTwin(m, n.(ackedSeq := acked), w.(ackedSeq := acked), from, msg);
    }
  }

  lemma ProposeTwin<S>(m: StateMachine<S>, n: Node<S>, w: Node<S>, command: Bytes)
    requires Twin(m, n, w) && (n.role == Leader ==> InRange(w))
    ensures Mirrored(m, Propose(m, n, command), Propose(m, w, command))
  {
    if n.role == Leader {
      AppendTwin(m, n, w, Command(command));
      var n1, w1 := AppendLocal(n, Command(command)), AppendLocal(w, Command(command));
      BroadcastTwin(m, n1, w1);
      AdvanceTwin(m, BroadcastAppend(n1).0, BroadcastAppend(w1).0);
    }
  }

  lemma ReadTwin<S>(m: StateMachine<S>, n: Node<S>, w: Node<S>, reqId: nat, query: Bytes)
    requires Twin(m, n, w) && (n.role == Leader ==> InRange(w))
    ensures Mirrored(m, Read(m, n, reqId, query), Read(m, w, reqId, query))
  {
    if n.role == Leader {
      BroadcastTwin(m, n, w);
      var n1, w1 := BroadcastAppend(n).0, BroadcastAppend(w).0;
      var pr := PendingRead(reqId, query, n1.commitIndex, n1.readSeq);
      ServeTwin(m, n1.(pending := n1.pending + [pr]), w1.(pending := w1.pending + [pr]));
    }
  }

  // ---- restarting ----

  lemma RestoreConfig<S>(m: StateMachine<S>, n: Node<S>, full: Log, id: ReplicaId, voters: seq<ReplicaId>,
                         threshold: nat)
    requires Stored(m, n.store, full) && NoConfig(full)
    ensures var n0 := NewWithStore(m, id, voters, threshold, n.store);
            RecomputeConfig(Rebased(Reloaded(m, n0))) == Rebased(Reloaded(m, n0))
            && Rebased(Reloaded(m, n0)).baseConfig == Rebased(Reloaded(m, n0)).config == Simple(Sorted(voters))
  {
    var n1 := Reloaded(m, NewWithStore(m, id, voters, threshold, n.store));
    NoLiveConfig(m, n1, full);
    NoLiveConfig(m, Rebased(n1), full);
  }

  /** Both come back to the same state, each from its own store. */
  lemma RestoreTwin<S(!new)>(m: StateMachine<S>, n: Node<S>, w: Node<S>, id: ReplicaId, voters: seq<ReplicaId>)
    requires Twin(m, n, w) && Reversible(m) && n.lastApplied == n.commitIndex
    ensures Twin(m, RestoreFrom(m, id, voters, n.snapshotThreshold, n.store), RestoreFrom(m, id, voters, 0, w.store))
    ensures Settled(m, RestoreFrom(m, id, voters, n.snapshotThreshold, n.store), w.store.log)
  {
    var full := w.store.log;
    var a := Restarted(m, n, full, id, voters, n.snapshotThreshold);
    TwinLooks(m, n, w);
    var b := Restarted(m, w, full, id, voters, 0);
    ApplyLoopLive(m, a, full);
    ApplyLoopLive(m, b, full);
    ServeTwin(m, ApplyLoop(m, a), ApplyLoop(m, b));
    CompactTwin(m, ServeReads(m, ApplyLoop(m, a)), ServeReads(m, ApplyLoop(m, b)));
    ApplyCommittedSettles(m, a, full);
  }

  /** What is reloaded, before the entries after the snapshot are applied again. */
  lemma Restarted<S(!new)>(m: StateMachine<S>, n: Node<S>, full: Log, id: ReplicaId, voters: seq<ReplicaId>,
                           threshold: nat)
    returns (r: Node<S>)
    requires Live(m, n, full) && Reversible(m) && NoConfig(full)
    ensures r == RecomputeConfig(Rebased(Reloaded(m, NewWithStore(m, id, voters, threshold, n.store))))
            && Live(m, r, full)
    ensures r == NewWithStore(m, id, voters, threshold, n.store).(term := n.term, votedFor := n.votedFor,
                   commitIndex := n.commitIndex, lastApplied := n.store.baseIndex, sm := r.sm)
  {
    var n0 := NewWithStore(m, id, voters, threshold, n.store);
    RestoreConfig(m, n, full, id, voters, threshold);
    r := RecomputeConfig(Rebased(Reloaded(m, n0)));
    assert r.sm == Replay(m, full[..n.store.baseIndex]);
  }
}
