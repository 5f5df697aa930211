/** The Raft replica as the source runs it: fields and a log store updated in place,
    with the splice, commit, apply and read-serving loops. Every method is tied to the
    function of `RaftModel` it implements, about which the theorems are. */
module RaftRuntime {
  import opened Wrappers
  import opened RaftTypes
  import opened Membership
  import opened ConfigChain
  import opened LogStore
  import opened RaftStore
  import opened RaftModel

  method FailAll(waiting: seq<PendingRead>) returns (failed: seq<(nat, ReadResult)>)
    ensures failed == FailReads(waiting)
  {
    failed := [];
    for k := 0 to |waiting|
      invariant |failed| == k && forall j :: 0 <= j < k ==> failed[j] == (waiting[j].reqId, NotLeader)
    {
      failed := failed + [(waiting[k].reqId, NotLeader)];
    }
  }

  /** Answer the reads whose leadership barrier is confirmed and whose index is applied; keep the rest. */
  method Answer<S>(m: StateMachine<S>, sm: S, waiting: seq<PendingRead>, confirmed: nat, applied: Index)
    returns (answered: seq<(nat, ReadResult)>, kept: seq<PendingRead>)
    ensures answered == Served(m, sm, waiting, confirmed, applied) && kept == StillPending(waiting, confirmed, applied)
  {
    answered, kept := [], [];
    for k := 0 to |waiting|
      invariant answered + Served(m, sm, waiting[k..], confirmed, applied) == Served(m, sm, waiting, confirmed, applied)
      invariant kept + StillPending(waiting[k..], confirmed, applied) == StillPending(waiting, confirmed, applied)
    {
      FirstOfRest(m, sm, waiting, k, confirmed, applied);
      if waiting[k].minSeq <= confirmed && waiting[k].readIndex <= applied {
        answered := answered + [(waiting[k].reqId, Value(m.query(sm, waiting[k].query)))];
      } else {
        kept := kept + [waiting[k]];
      }
    }
  }

  lemma FirstOfRest<S>(m: StateMachine<S>, sm: S, waiting: seq<PendingRead>, k: nat, confirmed: nat, applied: Index)
    requires k < |waiting|
    ensures var r, ok := waiting[k], Servable(waiting[k], confirmed, applied);
            && Served(m, sm, waiting[k..], confirmed, applied)
               == (if ok then [(r.reqId, Value(m.query(sm, r.query)))] else [])
                  + Served(m, sm, waiting[k + 1..], confirmed, applied)
            && StillPending(waiting[k..], confirmed, applied)
               == (if ok then [] else [r]) + StillPending(waiting[k + 1..], confirmed, applied)
  {
    assert waiting[k..][1..] == waiting[k + 1..];
  }

  lemma SameCommittable<S>(n: Node<S>, r: Node<S>, k: Index)
    requires r == n.(commitIndex := r.commitIndex)
    ensures Committable(r, k) == Committable(n, k)
  {
    assert TermAt(r, k) == TermAt(n, k) && Holders(r, k) == Holders(n, k);
  }

  lemma FilledMore(ps: seq<ReplicaId>, k: nat, x: nat)
    requires k < |ps|
    ensures Filled(ps[..k + 1], x) == Filled(ps[..k], x)[ps[k] := x]
  {
    assert ps[..k + 1][..k] == ps[..k];
  }

  /** The leader, and those of some peers known to hold entry `k`. */
  ghost function HoldersAmong(id: ReplicaId, matchIndex: map<ReplicaId, Index>, ps: seq<ReplicaId>,
                              k: Index): set<ReplicaId> {
    {id} + set p | p in ps && Get(matchIndex, p, 0) >= k
  }

  lemma HoldersMore(id: ReplicaId, matchIndex: map<ReplicaId, Index>, ps: seq<ReplicaId>, j: nat, k: Index)
    requires j < |ps|
    ensures HoldersAmong(id, matchIndex, ps[..j + 1], k)
         == HoldersAmong(id, matchIndex, ps[..j], k) + (if Get(matchIndex, ps[j], 0) >= k then {ps[j]} else {})
  {
    assert ps[..j + 1] == ps[..j] + [ps[j]];
  }

  lemma {:induction false} ApplyingKeepsStore<S>(m: StateMachine<S>, n: Node<S>)
    ensures ApplyLoop(m, n).store == n.store && ApplyLoop(m, n).snapshotThreshold == n.snapshotThreshold
    decreases n.commitIndex - n.lastApplied
  {
    if n.lastApplied < n.commitIndex { ApplyingKeepsStore(m, ApplyOne(m, n)); }
  }

  /** Without compaction, a command submitted to a leader is seen right behind everything its store held. */
  lemma SubmitShows<S>(m: StateMachine<S>, n: Node<S>, command: Bytes)
    requires n.snapshotThreshold == 0 && n.role == Leader
    ensures n.store.log + [Entry(n.term, LastIndex(n.store) + 1, Command(command))]
         <= Propose(m, n, command).0.store.log
  {
    AdvancingKeeps(m, BroadcastAppend(AppendLocal(n, Command(command))).0);
  }

  lemma AdvancingKeeps<S>(m: StateMachine<S>, n: Node<S>)
    requires n.snapshotThreshold == 0
    ensures n.store.log <= MaybeAdvanceCommit(m, n).store.log
  {
    CommittingKeeps(m, n, HighestCommittable(n, LastIndex(n.store)));
  }

  lemma CommittingKeeps<S>(m: StateMachine<S>, n: Node<S>, k: Index)
    requires n.snapshotThreshold == 0
    ensures n.store.log <= CommitTo(m, n, k).store.log
  {
    var n1 := PersistHardState(n.(commitIndex := k));
    ApplyingKeepsStore(m, n1);
    assert ApplyCommitted(m, n1) == ServeReads(m, ApplyLoop(m, n1));
    FinishingKeeps(ApplyCommitted(m, n1));
  }

  lemma FinishingKeeps<S>(n: Node<S>)
    ensures n.store.log <= FinalizeJointIfCommitted(n).store.log
  {
  }

  class RaftNode<S(!new)> {
    const id: ReplicaId
    const m: StateMachine<S>
    const snapshotThreshold: nat
    const store: MemLogStore
    var config: ConfState
    var baseConfig: ConfState
    var term: Term
    var votedFor: Option<ReplicaId>
    var role: Role
    var leaderId: Option<ReplicaId>
    var commitIndex: Index
    var lastApplied: Index
    var outbox: seq<Applied>
    var votes: set<ReplicaId>
    var nextIndex: map<ReplicaId, Index>
    var matchIndex: map<ReplicaId, Index>
    var readSeq: nat
    var ackedSeq: map<ReplicaId, nat>
    var pending: seq<PendingRead>
    var ready: seq<(nat, ReadResult)>
    var sm: S

    /** The replica's fields as a value. */
    function State(): Node<S>
      reads this, store
    {
      Node(id, config, baseConfig, snapshotThreshold, term, votedFor, store.Contents(), role, leaderId, commitIndex,
           lastApplied,
           outbox, votes, nextIndex, matchIndex, readSeq, ackedSeq, pending, ready, sm)
    }

    constructor (m: StateMachine<S>, id: ReplicaId, voters: seq<ReplicaId>, threshold: nat, store: MemLogStore)
      ensures this.store == store && this.m == m
      ensures State() == NewWithStore(m, id, voters, threshold, store.Contents())
    {
      this.m, this.id, this.snapshotThreshold, this.store := m, id, threshold, store;
      config, baseConfig := Simple(Sorted(voters)), Simple(Sorted(voters));
      term, votedFor, role, leaderId, commitIndex, lastApplied := 0, None, Follower, None, 0, 0;
      outbox, votes, nextIndex, matchIndex, readSeq, ackedSeq := [], {}, map[], map[], 0, map[];
      pending, ready, sm := [], [], m.initial;
    }

    // ---- membership and hard state ----

    /** Where the latest `Config` entry is among the live ones, searching backwards. */
    method FindConfig(live: seq<Entry>) returns (p: int)
      ensures p == LastConfigPos(live)
    {
      p := |live| - 1;
      while p >= 0 && !IsConfig(live[p])
        invariant -1 <= p < |live| && LastConfigPos(live[..p + 1]) == LastConfigPos(live)
      {
        assert live[..p + 1][..p] == live[..p];
        p := p - 1;
      }
      assert p >= 0 ==> live[..p + 1][p] == live[p];
    }

    method RecomputeMembership()
      modifies this`config
      ensures State() == RecomputeConfig(old(State()))
    {
      var live := store.Range(store.baseIndex + 1, LastIndex(store.Contents()));
      var p := FindConfig(live);
      config := if p < 0 then baseConfig else live[p].payload.conf;
    }

    /** The configuration in effect at `index`. */
    method MembershipAt(index: Index) returns (c: ConfState)
      ensures c == ConfigAt(State(), index)
    {
      var live := store.Range(store.baseIndex + 1, LastIndex(store.Contents()));
      var p := |live|;
      assert live[..p] == live;
      while p > 0
        invariant 0 <= p <= |live| && ConfigUpTo(baseConfig, live[..p], index) == ConfigAt(State(), index)
      {
        assert live[..p][..p - 1] == live[..p - 1];
        if live[p - 1].index <= index && IsConfig(live[p - 1]) {
          return live[p - 1].payload.conf;
        }
        p := p - 1;
      }
      c := baseConfig;
    }

    method SaveVote()
      modifies store
      ensures State() == PersistHardState(old(State()))
    {
      store.SetHardState(HardState(term, votedFor, commitIndex));
    }

    // ---- role transitions ----

    method StepDown(newTerm: Term, leader: Option<ReplicaId>)
      modifies this, store
      ensures State() == BecomeFollower(old(State()), newTerm, leader)
    {
      var termChanged := newTerm != term;
      role, term, leaderId, votes := Follower, newTerm, leader, {};
      if termChanged {
        votedFor := None;
      }
      assert State()
          == old(State()).(role := Follower, term := term, leaderId := leader, votes := {}, votedFor := votedFor);
      DropReads();
      if termChanged {
        SaveVote();
      }
    }

    /** Reads can only be served by a leader: fail those in flight. */
    method DropReads()
      modifies this`pending, this`ready, this`ackedSeq
      ensures State() == old(State()).(ready := old(ready) + FailReads(old(pending)), pending := [], ackedSeq := map[])
    {
      var waiting := pending;
      pending := [];
      var failed := FailAll(waiting);
      ready := ready + failed;
      ackedSeq := map[];
    }

    method Campaign() returns (outs: seq<Out>)
      modifies this, store
      ensures (State(), outs) == StartElection(m, old(State()))
    {
      VoteForSelf();
      if IsQuorum(config, votes) {
        outs := Lead();
      } else {
        outs := VoteRequests(State());
      }
    }

    method VoteForSelf()
      modifies this`role, this`term, this`votedFor, this`leaderId, this`votes, store
      ensures State() == Stand(old(State()))
    {
      role, term, votedFor, leaderId, votes := Candidate, term + 1, Some(id), None, {id};
      assert State()
          == old(State()).(role := Candidate, term := term, votedFor := votedFor, leaderId := None, votes := votes);
      SaveVote();
    }

    method Lead() returns (outs: seq<Out>)
      modifies this, store
      ensures (State(), outs) == BecomeLeader(m, old(State()))
    {
      OpenReign();
      AdvanceCommit();
      outs := Broadcast();
    }

    method OpenReign()
      modifies this, store
      ensures State() == OpenedReign(old(State()))
    {
      TakeOffice();
      var _ := AppendOwn(Noop);
    }

    method TakeOffice()
      modifies this
      ensures State() == InOffice(old(State()))
    {
      role, leaderId := Leader, Some(id);
      assert State() == old(State()).(role := Leader, leaderId := Some(id));
      ResetProgress(LastIndex(store.Contents()) + 1);
    }

    /** Start every peer from the same place. */
    method ResetProgress(next: Index)
      modifies this`nextIndex, this`matchIndex
      ensures var n := old(State());
              State() == n.(nextIndex := Filled(Peers(n), next), matchIndex := Filled(Peers(n), 0))
    {
      nextIndex, matchIndex := map[], map[];
      var ps := Without(Voters(config), id);
      for k := 0 to |ps|
        invariant nextIndex == Filled(ps[..k], next) && matchIndex == Filled(ps[..k], 0)
      {
        FilledMore(ps, k, next);
        FilledMore(ps, k, 0);
        nextIndex, matchIndex := nextIndex[ps[k] := next], matchIndex[ps[k] := 0];
      }
      assert ps[..|ps|] == ps;
    }

    // ---- log mutation ----

    method AppendOwn(payload: EntryPayload) returns (index: Index)
      modifies this, store
      ensures State() == AppendLocal(old(State()), payload) && index == LastIndex(old(store.Contents())) + 1
    {
      index := LastIndex(store.Contents()) + 1;
      store.AppendAll([Entry(term, index, payload)]);
      if id in matchIndex {
        matchIndex := matchIndex[id := index];
      }
      if payload.Config? {
        RecomputeMembership();
      }
    }

    // ---- replication, leader side ----

    method MessageFor(peer: ReplicaId) returns (msg: Message)
      ensures msg == AppendFor(State(), peer)
    {
      var next := Get(nextIndex, peer, 1);
      if next <= store.baseIndex {
        return InstallSnapshot(term, id, store.baseIndex, store.baseTerm, baseConfig, store.snapshotData, readSeq);
      }
      var prev := next - 1;
      var prevTerm := match TermAt(State(), prev) case Some(t) => t case None => 0;
      var entries := store.Range(next, LastIndex(store.Contents()));
      msg := AppendEntries(term, id, prev, prevTerm, entries, commitIndex, readSeq);
    }

    method Broadcast() returns (outs: seq<Out>)
      modifies this`readSeq
      ensures (State(), outs) == BroadcastAppend(old(State()))
    {
      readSeq := readSeq + 1;
      outs := [];
      var ps := Without(Voters(config), id);
      ghost var n1 := State();
      for k := 0 to |ps|
        invariant State() == n1
        invariant |outs| == k && forall j :: 0 <= j < k ==> outs[j] == Out(ps[j], AppendFor(n1, ps[j]))
      {
        var msg := MessageFor(ps[k]);
        outs := outs + [Out(ps[k], msg)];
      }
      assert n1 == old(State()).(readSeq := old(readSeq) + 1) && ps == Peers(n1);
      assert outs == BroadcastAppend(old(State())).1;
    }

    /** The replicas known to hold entry `k`. */
    method HoldersOf(k: Index) returns (acked: set<ReplicaId>)
      ensures acked == Holders(State(), k)
    {
      acked := {id};
      var ps := Without(Voters(config), id);
      for j := 0 to |ps|
        invariant acked == HoldersAmong(id, matchIndex, ps[..j], k)
      {
        HoldersMore(id, matchIndex, ps, j, k);
        if Get(matchIndex, ps[j], 0) >= k {
          acked := acked + {ps[j]};
        }
      }
      assert ps[..|ps|] == ps;
    }

    method AdvanceCommit()
      modifies this, store
      ensures State() == MaybeAdvanceCommit(m, old(State()))
    {
      if role != Leader {
        return;
      }
      var advanced := ScanCommit();
      if advanced {
        SaveVote();
        ApplyAll();
        FinalizeJoint();
      }
    }

    /** Look upwards for entries of the current term that a quorum holds. */
    method ScanCommit() returns (advanced: bool)
      modifies this`commitIndex
      ensures var k := HighestCommittable(old(State()), LastIndex(store.Contents()));
              State() == old(State()).(commitIndex := k) && (advanced <==> k != old(commitIndex))
    {
      ghost var n := State();
      var last := LastIndex(store.Contents());
      var k := commitIndex + 1;
      advanced := false;
      while k <= last
        invariant n.commitIndex < k && (k <= last + 1 || k == n.commitIndex + 1)
        invariant State() == n.(commitIndex := HighestCommittable(n, k - 1))
        invariant advanced <==> commitIndex != n.commitIndex
        decreases last - k
      {
        var held := HeldByQuorum(k);
        SameCommittable(n, State(), k);
        if held {
          commitIndex := k;
          advanced := true;
        }
        k := k + 1;
      }
    }

    method HeldByQuorum(k: Index) returns (held: bool)
      ensures held == Committable(State(), k)
    {
      var acked := HoldersOf(k);
      held := TermAt(State(), k) == Some(term) && IsQuorum(config, acked);
    }

    method FinalizeJoint()
      modifies this, store
      ensures State() == FinalizeJointIfCommitted(old(State()))
    {
      if role != Leader || config.Simple? {
        return;
      }
      var live := store.Range(store.baseIndex + 1, LastIndex(store.Contents()));
      var p := FindConfig(live);
      if p >= 0 && commitIndex >= live[p].index {
        var _ := AppendOwn(Config(Simple(config.incoming)));
      }
    }

    // ---- applying, compaction and waiting ----

    method ApplyAll()
      modifies this, store
      ensures State() == ApplyCommitted(m, old(State()))
    {
      while lastApplied < commitIndex
        invariant ApplyLoop(m, State()) == ApplyLoop(m, old(State()))
        decreases commitIndex - lastApplied
      {
        ApplyNext();
      }
      ServePending();
      CompactIfDue();
    }

    method ApplyNext()
      modifies this`lastApplied, this`sm, this`outbox
      ensures State() == ApplyOne(m, old(State()))
    {
      lastApplied := lastApplied + 1;
      assert State() == old(State()).(lastApplied := lastApplied);
      match NodeEntryAt(State(), lastApplied)
      case None =>
      case Some(e) =>
        var command, result := [], [];
        if e.payload.Command? {
          command := e.payload.command;
          var applied := m.apply(sm, command);
          sm, result := applied.0, applied.1;
        }
        outbox := outbox + [Applied(lastApplied, command, result)];
    }

    method CompactIfDue()
      modifies this, store
      ensures State() == MaybeCompact(m, old(State()))
    {
      var past := if lastApplied < store.baseIndex then 0 else lastApplied - store.baseIndex;
      if snapshotThreshold > 0 && past >= snapshotThreshold {
        FoldApplied();
      }
    }

    /** Fold every applied entry into a snapshot. */
    method FoldApplied()
      modifies this, store
      ensures State() == Compact(m, old(State()))
    {
      if lastApplied <= store.baseIndex {
        return;
      }
      var baseTerm := match TermAt(State(), lastApplied) case Some(t) => t case None => 0;
      var conf := MembershipAt(lastApplied);
      store.SetSnapshot(SnapshotMeta(lastApplied, baseTerm, m.snapshot(sm)));
      baseConfig := conf;
      RecomputeMembership();
    }

    /** The highest heartbeat counter a quorum has confirmed. */
    method ConfirmedSeq() returns (r: nat)
      ensures r == ConfirmedReadSeq(State())
    {
      var voters := Voters(config);
      var seqs := [];
      ghost var n := State();
      for k := 0 to |voters|
        invariant |seqs| == k && forall j :: 0 <= j < k ==> seqs[j] == ConfirmedBy(n, voters[j])
      {
        seqs := seqs + [if voters[k] == id then readSeq else Get(ackedSeq, voters[k], 0)];
      }
      assert seqs == seq(|voters|, i requires 0 <= i < |voters| => ConfirmedBy(n, voters[i]));
      var cands := Sorted(seqs);
      var k: nat := |cands|;
      while k > 0
        invariant k <= |cands| && ScanDown(State(), cands, k) == ConfirmedReadSeq(State())
      {
        var acked := set v | v in voters && (if v == id then readSeq else Get(ackedSeq, v, 0)) >= cands[k - 1];
        assert acked == Reached(State(), cands[k - 1]);
        if IsQuorum(config, acked) {
          return cands[k - 1];
        }
        k := k - 1;
      }
      r := 0;
    }

    method ServePending()
      modifies this`ready, this`pending
      ensures State() == ServeReads(m, old(State()))
    {
      if role != Leader {
        return;
      }
      var confirmed := ConfirmedSeq();
      var waiting := pending;
      var answered, stillPending := Answer(m, sm, waiting, confirmed, lastApplied);
      ready := ready + answered;
      pending := stillPending;
    }

    // ---- messages ----

    method OnRequestVote(newTerm: Term, candidate: ReplicaId, candLastIndex: Index, candLastTerm: Term)
      returns (outs: seq<Out>)
      modifies this, store
      ensures (State(), outs) == HandleRequestVote(old(State()), newTerm, candidate, candLastIndex, candLastTerm)
    {
      if newTerm > term {
        StepDown(newTerm, None);
      }
      outs := CastVote(newTerm, candidate, candLastIndex, candLastTerm);
    }

    method CastVote(newTerm: Term, candidate: ReplicaId, candLastIndex: Index, candLastTerm: Term)
      returns (outs: seq<Out>)
      modifies this, store
      ensures (State(), outs) == DecideVote(old(State()), newTerm, candidate, candLastIndex, candLastTerm)
    {
      var granted := false;
      if newTerm == term {
        var logOk := UpToDate(candLastTerm, candLastIndex, LastTerm(store.Contents()), LastIndex(store.Contents()));
        var canVote := votedFor == None || votedFor == Some(candidate);
        if logOk && canVote {
          granted := true;
          votedFor := Some(candidate);
          SaveVote();
        }
      }
      outs := [Out(candidate, RequestVoteResp(term, granted))];
    }

    method OnRequestVoteResp(from: ReplicaId, newTerm: Term, granted: bool) returns (outs: seq<Out>)
      modifies this, store
      ensures (State(), outs) == HandleRequestVoteResp(m, old(State()), from, newTerm, granted)
    {
      outs := [];
      if newTerm > term {
        StepDown(newTerm, None);
        return;
      }
      if role != Candidate || newTerm != term {
        return;
      }
      if granted {
        votes := votes + {from};
        assert State() == old(State()).(votes := votes);
        if IsQuorum(config, votes) {
          outs := Lead();
        }
      }
    }

    method OnAppendEntries(msg: Message) returns (outs: seq<Out>)
      requires msg.AppendEntries?
      modifies this, store
      ensures (State(), outs) == HandleAppendEntries(m, old(State()), msg)
    {
      if msg.term < term {
        return [Out(msg.leader, AppendEntriesResp(term, false, 0, 0, msg.readSeq))];
      }
      StepDown(msg.term, Some(msg.leader));
      if TermAt(State(), msg.prevLogIndex) != Some(msg.prevLogTerm) {
        var last := LastIndex(store.Contents());
        var conflict := if last < msg.prevLogIndex then last + 1 else msg.prevLogIndex;
        return [Out(msg.leader, AppendEntriesResp(term, false, 0, conflict, msg.readSeq))];
      }
      outs := TakeEntries(msg);
    }

    method TakeEntries(msg: Message) returns (outs: seq<Out>)
      requires msg.AppendEntries?
      modifies this, store
      ensures (State(), outs) == Accept(m, old(State()), msg)
    {
      SpliceAll(msg.entries);
      RecomputeMembership();
      CommitUpTo(msg.leaderCommit);
      outs := [Out(msg.leader, AppendEntriesResp(term, true, msg.prevLogIndex + |msg.entries|, 0, msg.readSeq))];
    }

    /** Splice in entries, truncating at the first conflict. */
    method SpliceAll(entries: seq<Entry>)
      modifies store
      ensures State() == Splice(old(State()), entries)
    {
      for k := 0 to |entries|
        invariant Splice(State(), entries[k..]) == Splice(old(State()), entries)
      {
        assert entries[k..][1..] == entries[k + 1..];
        TakeEntry(entries[k]);
      }
    }

    method TakeEntry(e: Entry)
      modifies store
      ensures State() == SpliceOne(old(State()), e)
    {
      if e.index <= store.baseIndex {
        return;
      }
      match TermAt(State(), e.index)
      case Some(t) =>
        if t != e.term {
          store.Truncate(e.index);
          store.AppendAll([e]);
        }
      case None => store.AppendAll([e]);
    }

    method CommitUpTo(leaderCommit: Index)
      modifies this, store
      ensures State() == FollowCommit(m, old(State()), leaderCommit)
    {
      if leaderCommit > commitIndex {
        commitIndex := Min(leaderCommit, LastIndex(store.Contents()));
        assert State() == old(State()).(commitIndex := commitIndex);
        SaveVote();
        ApplyAll();
      }
    }

    method OnAppendEntriesResp(from: ReplicaId, msg: Message) returns (outs: seq<Out>)
      requires msg.AppendEntriesResp?
      modifies this, store
      ensures (State(), outs) == HandleAppendEntriesResp(m, old(State()), from, msg)
    {
      if msg.term > term {
        StepDown(msg.term, None);
        return [];
      }
      if role != Leader || msg.term != term {
        return [];
      }
      ackedSeq := ackedSeq[from := Max(msg.readSeq, Get(ackedSeq, from, 0))];
      assert State() == old(State()).(ackedSeq := ackedSeq);
      outs := TakeResponse(from, msg);
    }

    method TakeResponse(from: ReplicaId, msg: Message) returns (outs: seq<Out>)
      requires msg.AppendEntriesResp?
      modifies this, store
      ensures (State(), outs) == HearBack(m, old(State()), from, msg)
    {
      if msg.success {
        matchIndex, nextIndex := matchIndex[from := msg.matchIndex], nextIndex[from := msg.matchIndex + 1];
        assert State() == Matched(old(State()), from, msg.matchIndex);
        AdvanceCommit();
        ServePending();
        outs := [];
      } else {
        var backed := Backed(Get(nextIndex, from, 1), msg.conflictIndex);
        nextIndex := nextIndex[from := backed];
        assert State() == old(State()).(nextIndex := nextIndex);
        ServePending();
        var retry := MessageFor(from);
        outs := [Out(from, retry)];
      }
    }

    method OnInstallSnapshot(msg: Message) returns (outs: seq<Out>)
      requires msg.InstallSnapshot?
      modifies this, store
      ensures (State(), outs) == HandleInstallSnapshot(m, old(State()), msg)
    {
      if msg.term < term {
        return [Out(msg.leader, AppendEntriesResp(term, false, 0, 0, msg.readSeq))];
      }
      StepDown(msg.term, Some(msg.leader));
      if msg.lastIncludedIndex <= store.baseIndex {
        return [Out(msg.leader, AppendEntriesResp(term, true, LastIndex(store.Contents()), 0, msg.readSeq))];
      }
      Install(msg);
      outs := [Out(msg.leader, AppendEntriesResp(term, true, msg.lastIncludedIndex, 0, msg.readSeq))];
    }

    /** Replace the state machine and the log up to the snapshot. */
    method Install(msg: Message)
      requires msg.InstallSnapshot?
      modifies this, store
      ensures State() == Installed(m, old(State()), msg)
    {
      if TermAt(State(), msg.lastIncludedIndex) != Some(msg.lastIncludedTerm) {
        store.Truncate(store.baseIndex + 1);
      }
      AdoptSnapshot(msg);
      SaveVote();
      RecomputeMembership();
    }

    method AdoptSnapshot(msg: Message)
      requires msg.InstallSnapshot?
      modifies this`sm, this`baseConfig, this`commitIndex, this`lastApplied, store
      ensures State() == old(State()).(
                sm := m.restore(old(sm), msg.data),
                store := SaveSnapshot(old(store.Contents()),
                                      SnapshotMeta(msg.lastIncludedIndex, msg.lastIncludedTerm, msg.data)),
                baseConfig := msg.lastIncludedConfig,
                commitIndex := Max(old(commitIndex), msg.lastIncludedIndex),
                lastApplied := Max(old(lastApplied), msg.lastIncludedIndex))
    {
      sm := m.restore(sm, msg.data);
      store.SetSnapshot(SnapshotMeta(msg.lastIncludedIndex, msg.lastIncludedTerm, msg.data));
      baseConfig := msg.lastIncludedConfig;
      commitIndex, lastApplied := Max(commitIndex, msg.lastIncludedIndex), Max(lastApplied, msg.lastIncludedIndex);
    }

    method HandleMessage(from: ReplicaId, msg: Message) returns (outs: seq<Out>)
      modifies this, store
      ensures (State(), outs) == OnMessage(m, old(State()), from, msg)
    {
      match msg
      case RequestVote(t, candidate, lli, llt) => outs := OnRequestVote(t, candidate, lli, llt);
      case RequestVoteResp(t, granted) => outs := OnRequestVoteResp(from, t, granted);
      case AppendEntries(_, _, _, _, _, _, _) => outs := OnAppendEntries(msg);
      case AppendEntriesResp(_, _, _, _, _) => outs := OnAppendEntriesResp(from, msg);
      case InstallSnapshot(_, _, _, _, _, _, _) => outs := OnInstallSnapshot(msg);
    }

    // ---- clients and the clock ----

    /** `due` says whether the running timer (heartbeat or election) has expired. */
    method Tick(due: bool) returns (outs: seq<Out>)
      modifies this, store
      ensures (State(), outs) == OnTick(m, old(State()), due)
    {
      if !due {
        return [];
      }
      if role == Leader {
        outs := Broadcast();
      } else if id !in Voters(config) {
        outs := [];
      } else {
        outs := Campaign();
      }
    }

    /** The index of the appended entry, if this replica leads. */
    method Submit(command: Bytes) returns (index: Option<Index>, outs: seq<Out>)
      modifies this, store
      ensures (State(), outs) == Propose(m, old(State()), command)
      ensures index == if old(role) == Leader then Some(LastIndex(old(store.Contents())) + 1) else None
      ensures index.Some? && snapshotThreshold == 0 ==>
                old(store.log) + [Entry(old(term), index.value, Command(command))] <= store.log
    {
      ghost var n := State();
      if role != Leader {
        return None, [];
      }
      var i;
      i, outs := AppendCommand(command);
      index := Some(i);
      if snapshotThreshold == 0 { SubmitShows(m, n, command); }
    }

    method AppendCommand(command: Bytes) returns (index: Index, outs: seq<Out>)
      requires role == Leader
      modifies this, store
      ensures (State(), outs) == Propose(m, old(State()), command) && index == LastIndex(old(store.Contents())) + 1
    {
      index := AppendOwn(Command(command));
      outs := Broadcast();
      AdvanceCommit();
    }

    /** Whether the change was started: only by a leader, one change at a time. */
    method ChangeMembership(newVoters: seq<ReplicaId>) returns (started: bool, outs: seq<Out>)
      modifies this, store
      ensures (State(), outs) == ProposeConf(old(State()), newVoters)
      ensures started <==> old(role) == Leader && old(config).Simple?
    {
      if role != Leader || config.Joint? {
        return false, [];
      }
      var _ := AppendOwn(Config(Joint(config.voters, Sorted(newVoters))));
      outs := Broadcast();
      started := true;
    }

    method LinearizableRead(reqId: nat, query: Bytes) returns (outs: seq<Out>)
      modifies this, store
      ensures (State(), outs) == Read(m, old(State()), reqId, query)
      ensures old(role) != Leader ==> outs == [] && ready == old(ready) + [(reqId, NotLeader)]
    {
      if role != Leader {
        ready := ready + [(reqId, NotLeader)];
        return [];
      }
      outs := Broadcast();
      pending := pending + [PendingRead(reqId, query, commitIndex, readSeq)];
      ServePending();
    }

    // ---- recovery ----

    /** Resume from what the store holds. */
    constructor Restore(m: StateMachine<S>, id: ReplicaId, voters: seq<ReplicaId>, threshold: nat, store: MemLogStore)
      modifies store
      ensures this.store == store && this.m == m
      ensures State() == RestoreFrom(m, id, voters, threshold, old(store.Contents()))
    {
      this.m, this.id, this.snapshotThreshold, this.store := m, id, threshold, store;
      config, baseConfig := Simple(Sorted(voters)), Simple(Sorted(voters));
      term, votedFor, role, leaderId, commitIndex, lastApplied := 0, None, Follower, None, 0, 0;
      outbox, votes, nextIndex, matchIndex, readSeq, ackedSeq := [], {}, map[], map[], 0, map[];
      pending, ready, sm := [], [], m.initial;
      new;
      Reload();
      Rebase();
      RecomputeMembership();
      ApplyAll();
    }

    method Reload()
      modifies this`term, this`votedFor, this`sm, this`lastApplied
      ensures State() == Reloaded(m, old(State()))
    {
      term, votedFor := store.hardState.term, store.hardState.votedFor;
      if store.hasSnapshot {
        sm := m.restore(sm, store.snapshotData);
        lastApplied := store.baseIndex;
      }
    }

    method Rebase()
      modifies this`baseConfig, this`commitIndex, this`lastApplied
      ensures State() == Rebased(old(State()))
    {
      var conf := MembershipAt(store.baseIndex);
      baseConfig := conf;
      commitIndex, lastApplied := Max(store.hardState.commitIndex, store.baseIndex), Max(lastApplied, store.baseIndex);
    }
  }
}
