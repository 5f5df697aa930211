/** What clients ask for is what reaches the logs: every command and every membership
    change in any log of any run was asked for, of the leader of its term, and stands at
    the index that was free then. Runs are arbitrary: compaction at any thresholds,
    snapshots shipped, membership changes, crashes and restarts. */
module RaftClients {
  import opened Wrappers
  import opened RaftTypes
  import opened Membership
  import opened ConfigChain
  import opened LogStore
  import opened RaftModel
  import opened RaftInvariant
  import opened RaftHandlers
  import opened RaftCluster
  import opened RaftRecovery
  import opened RaftCompactGroup

  // ---- who asks for what ----

  /** Entries that only a client brings about; no-ops and settled configurations are the leader's own. */
  predicate FromClient(e: Entry) {
    e.payload.Command? || (e.payload.Config? && e.payload.conf.Joint?)
  }

  /** Step `s` asks a replica in configuration `conf` for this payload. */
  ghost predicate Asks(s: Step, conf: ConfState, payload: EntryPayload) {
    match payload
    case Command(x) => s.SubmitCommand? && s.command == x
    case Config(Joint(outgoing, incoming)) =>
      && s.SubmitConf? && conf == Simple(outgoing)
      && StrictlyIncreasing(incoming) && Elements(incoming) == Elements(s.voters)
    case _ => false
  }

  /** In state `n`, step `s` has the leader put `e` at the end of its log. */
  ghost predicate Born<S>(n: Node<S>, s: Step, e: Entry) {
    && n.role == Leader && e.term == n.term && e.index == LastIndex(n.store) + 1
    && Asks(s, n.config, e.payload)
  }

  // ---- one step ----

  /** Whatever `a` holds of clients' entries is in `b` or born in this step. */
  ghost predicate Within<S>(n: Node<S>, s: Step, a: Log, b: Log) {
    forall e {:trigger e in a} :: e in a && FromClient(e) ==> e in b || Born(n, s, e)
  }

  /** Where entries can come from: the replica's log and the message it takes. */
  function Sources<S>(n: Node<S>, s: Step): Log {
    n.store.log + (if s.Deliver? && s.p.msg.AppendEntries? then s.p.msg.entries else [])
  }

  ghost predicate OutsWithin<S>(n: Node<S>, s: Step, outs: seq<Out>, b: Log) {
    forall o {:trigger o in outs} :: o in outs && o.msg.AppendEntries? ==> Within(n, s, o.msg.entries, b)
  }

  /** The log after the step and all messages sent hold nothing else of clients' entries. */
  ghost predicate Accounted<S>(n: Node<S>, s: Step, res: (Node<S>, seq<Out>), b: Log) {
    Within(n, s, res.0.store.log, b) && OutsWithin(n, s, res.1, b)
  }

  lemma {:induction false} BetweenIn(log: Log, lo: Index, hi: Index, base: Index)
    ensures forall e :: e in Between(log, lo, hi, base) ==> e in log
  {
    if log != [] { BetweenIn(log[1..], lo, hi, base); }
  }

  lemma {:induction false} AfterIn(log: Log, i: Index)
    ensures forall e :: e in After(log, i) ==> e in log
  {
    if log != [] { AfterIn(log[1..], i); }
  }

  /** Applying, answering and compacting add nothing. */
  lemma ApplyIn<S>(m: StateMachine<S>, n: Node<S>)
    ensures forall e :: e in ApplyCommitted(m, n).store.log ==> e in n.store.log
  {
    ApplyLoopFrame(m, n);
    CompactIn(m, ServeReads(m, ApplyLoop(m, n)));
  }

  lemma CompactIn<S>(m: StateMachine<S>, n: Node<S>)
    ensures forall e :: e in MaybeCompact(m, n).store.log ==> e in n.store.log
  {
    AfterIn(n.store.log, n.lastApplied);
  }

  lemma {:induction false} SpliceIn<S>(n: Node<S>, entries: seq<Entry>)
    ensures forall e :: e in Splice(n, entries).store.log ==> e in n.store.log || e in entries
    decreases |entries|
  {
    if entries != [] { SpliceIn(SpliceOne(n, entries[0]), entries[1..]); }
  }

  /** A leader's messages carry entries of its log. */
  lemma AppendForIn<S>(n: Node<S>, p: ReplicaId)
    ensures AppendFor(n, p).AppendEntries? ==> forall e :: e in AppendFor(n, p).entries ==> e in n.store.log
  {
    BetweenIn(n.store.log, Get(n.nextIndex, p, 1), LastIndex(n.store), n.store.baseIndex);
  }

  lemma BroadcastIn<S>(n0: Node<S>, s: Step, n: Node<S>, b: Log)
    requires Within(n0, s, n.store.log, b)
    ensures Accounted(n0, s, BroadcastAppend(n), b)
  {
    BroadcastParts(n);
    var n1, outs := BroadcastAppend(n).0, BroadcastAppend(n).1;
    forall o | o in outs && o.msg.AppendEntries? ensures Within(n0, s, o.msg.entries, b) {
      var i :| 0 <= i < |outs| && outs[i] == o;
      AppendForIn(n1, Peers(n)[i]);
    }
  }

  lemma AdvanceIn<S>(m: StateMachine<S>, n0: Node<S>, s: Step, n: Node<S>, b: Log)
    requires Within(n0, s, n.store.log, b)
    ensures Within(n0, s, MaybeAdvanceCommit(m, n).store.log, b)
  {
    if n.role == Leader {
      var k := HighestCommittable(n, LastIndex(n.store));
      if k != n.commitIndex {
        var n1 := ApplyCommitted(m, PersistHardState(n.(commitIndex := k)));
        ApplyIn(m, PersistHardState(n.(commitIndex := k)));
        FinalizeIn(n0, s, n1, b);
      }
    }
  }

  lemma FinalizeIn<S>(n0: Node<S>, s: Step, n: Node<S>, b: Log)
    requires Within(n0, s, n.store.log, b)
    ensures Within(n0, s, FinalizeJointIfCommitted(n).store.log, b)
  {
  }

  lemma LeadIn<S>(m: StateMachine<S>, n0: Node<S>, s: Step, n: Node<S>, b: Log)
    requires Within(n0, s, n.store.log, b)
    ensures Accounted(n0, s, BecomeLeader(m, n), b)
  {
    AdvanceIn(m, n0, s, OpenedReign(n), b);
    BroadcastIn(n0, s, MaybeAdvanceCommit(m, OpenedReign(n)), b);
  }

  lemma FollowIn<S>(n0: Node<S>, s: Step, n: Node<S>, term: Term, leader: Option<ReplicaId>, b: Log)
    requires Within(n0, s, n.store.log, b)
    ensures Within(n0, s, BecomeFollower(n, term, leader).store.log, b)
  {
  }

  lemma TickIn<S>(m: StateMachine<S>, n: Node<S>, s: Step)
    requires s.Tick?
    ensures Accounted(n, s, OnTick(m, n, s.due), Sources(n, s))
  {
    if s.due {
      if n.role == Leader {
        BroadcastIn(n, s, n, Sources(n, s));
      } else if n.id in Voters(n.config) && IsQuorum(Stand(n).config, Stand(n).votes) {
        LeadIn(m, n, s, Stand(n), Sources(n, s));
      }
    }
  }

  lemma VoteIn<S>(n: Node<S>, s: Step)
    requires s.Deliver? && s.p.msg.RequestVote?
    ensures var msg := s.p.msg;
            Accounted(n, s, HandleRequestVote(n, msg.term, msg.candidate, msg.lastLogIndex, msg.lastLogTerm),
                      Sources(n, s))
  {
    FollowIn(n, s, n, s.p.msg.term, None, Sources(n, s));
  }

  lemma VoteRespIn<S>(m: StateMachine<S>, n: Node<S>, s: Step)
    requires s.Deliver? && s.p.msg.RequestVoteResp?
    ensures Accounted(n, s, HandleRequestVoteResp(m, n, s.p.src, s.p.msg.term, s.p.msg.granted), Sources(n, s))
  {
    FollowIn(n, s, n, s.p.msg.term, None, Sources(n, s));
    LeadIn(m, n, s, n.(votes := n.votes + {s.p.src}), Sources(n, s));
  }

  lemma AppendEntriesIn<S>(m: StateMachine<S>, n: Node<S>, s: Step)
    requires s.Deliver? && s.p.msg.AppendEntries?
    ensures Accounted(n, s, HandleAppendEntries(m, n, s.p.msg), Sources(n, s))
  {
    var msg := s.p.msg;
    var n1 := BecomeFollower(n, msg.term, Some(msg.leader));
    SpliceIn(n1, msg.entries);
    var n2 := RecomputeConfig(Splice(n1, msg.entries));
    if msg.leaderCommit > n2.commitIndex {
      ApplyIn(m, PersistHardState(n2.(commitIndex := Min(msg.leaderCommit, LastIndex(n2.store)))));
    }
    assert Within(n, s, FollowCommit(m, n2, msg.leaderCommit).store.log, Sources(n, s));
  }

  lemma RespIn<S>(m: StateMachine<S>, n: Node<S>, s: Step)
    requires s.Deliver? && s.p.msg.AppendEntriesResp?
    ensures Accounted(n, s, HandleAppendEntriesResp(m, n, s.p.src, s.p.msg), Sources(n, s))
  {
    var msg, b := s.p.msg, Sources(n, s);
    FollowIn(n, s, n, msg.term, None, b);
    if n.role == Leader && msg.term == n.term {
      HearBackIn(m, n, s, n.(ackedSeq := n.ackedSeq[s.p.src := Max(msg.readSeq, Get(n.ackedSeq, s.p.src, 0))]), b);
    }
  }

  lemma HearBackIn<S>(m: StateMachine<S>, n0: Node<S>, s: Step, n: Node<S>, b: Log)
    requires s.Deliver? && s.p.msg.AppendEntriesResp? && Within(n0, s, n.store.log, b)
    ensures Accounted(n0, s, HearBack(m, n, s.p.src, s.p.msg), b)
  {
    var msg := s.p.msg;
    if msg.success {
      AdvanceIn(m, n0, s, Matched(n, s.p.src, msg.matchIndex), b);
    } else {
      var next := Backed(Get(n.nextIndex, s.p.src, 1), msg.conflictIndex);
      AppendForIn(ServeReads(m, n.(nextIndex := n.nextIndex[s.p.src := next])), s.p.src);
    }
  }

  lemma InstallIn<S>(m: StateMachine<S>, n: Node<S>, s: Step)
    requires s.Deliver? && s.p.msg.InstallSnapshot?
    ensures Accounted(n, s, HandleInstallSnapshot(m, n, s.p.msg), Sources(n, s))
  {
    var n1 := BecomeFollower(n, s.p.msg.term, Some(s.p.msg.leader));
    AfterIn(n1.store.log, s.p.msg.lastIncludedIndex);
    AfterIn(TruncateSuffix(n1.store, n1.store.baseIndex + 1).log, s.p.msg.lastIncludedIndex);
  }

  lemma MessageIn<S>(m: StateMachine<S>, n: Node<S>, s: Step)
    requires s.Deliver?
    ensures Accounted(n, s, OnMessage(m, n, s.p.src, s.p.msg), Sources(n, s))
  {
    match s.p.msg
    case RequestVote(_, _, _, _) => VoteIn(n, s);
    case RequestVoteResp(_, _) => VoteRespIn(m, n, s);
    case AppendEntries(_, _, _, _, _, _, _) => AppendEntriesIn(m, n, s);
    case AppendEntriesResp(_, _, _, _, _) => RespIn(m, n, s);
    case InstallSnapshot(_, _, _, _, _, _, _) => InstallIn(m, n, s);
  }

  lemma ProposeIn<S>(m: StateMachine<S>, n: Node<S>, s: Step)
    requires s.SubmitCommand?
    ensures Accounted(n, s, Propose(m, n, s.command), Sources(n, s))
  {
    if n.role == Leader {
      var n1 := AppendLocal(n, Command(s.command));
      assert Within(n, s, n1.store.log, Sources(n, s));
      BroadcastIn(n, s, n1, Sources(n, s));
      AdvanceIn(m, n, s, BroadcastAppend(n1).0, Sources(n, s));
    }
  }

  lemma ProposeConfIn<S>(n: Node<S>, s: Step)
    requires s.SubmitConf?
    ensures Accounted(n, s, ProposeConf(n, s.voters), Sources(n, s))
  {
    if n.role == Leader && n.config.Simple? {
      assert Elements(Sorted(s.voters)) == Elements(s.voters);
      var n1 := AppendLocal(n, Config(Joint(n.config.voters, Sorted(s.voters))));
      assert Within(n, s, n1.store.log, Sources(n, s));
      BroadcastIn(n, s, n1, Sources(n, s));
    }
  }

  lemma ReadIn<S>(m: StateMachine<S>, n: Node<S>, s: Step)
    requires s.SubmitRead?
    ensures Accounted(n, s, Read(m, n, s.reqId, s.query), Sources(n, s))
  {
    if n.role == Leader { BroadcastIn(n, s, n, Sources(n, s)); }
  }

  lemma RestartIn<S>(m: StateMachine<S>, voters: seq<ReplicaId>, n: Node<S>, id: ReplicaId)
    ensures forall e :: e in RestoreFrom(m, id, voters, n.snapshotThreshold, n.store).store.log ==> e in n.store.log
  {
    ApplyIn(m, RecomputeConfig(Rebased(Reloaded(m, NewWithStore(m, id, voters, n.snapshotThreshold, n.store)))));
  }

  lemma ActIn<S>(m: StateMachine<S>, voters: seq<ReplicaId>, n: Node<S>, s: Step)
    ensures Accounted(n, s, Act(m, voters, n, s), Sources(n, s))
  {
    match s
    case Tick(_, _) => TickIn(m, n, s);
    case Deliver(_) => MessageIn(m, n, s);
    case SubmitCommand(_, _) => ProposeIn(m, n, s);
    case SubmitConf(_, _) => ProposeConfIn(n, s);
    case SubmitRead(_, _, _) => ReadIn(m, n, s);
    case Drain(_) =>
    case Restart(id) => RestartIn(m, voters, n, id);
  }

  // ---- whole runs ----

  /** Step `i` of the run asked the leader of that term for `e`, and gave it the index that was free. */
  ghost predicate OriginAt<S>(m: StateMachine<S>, voters: seq<ReplicaId>, c: Cluster<S>, steps: seq<Step>, i: int,
                              e: Entry) {
    && 0 <= i < |steps|
    && var d := Go(m, voters, c, steps[..i]);
    && Actor(steps[i]) in d.nodes && Born(d.nodes[Actor(steps[i])], steps[i], e)
  }

  ghost predicate Asked<S>(m: StateMachine<S>, voters: seq<ReplicaId>, c: Cluster<S>, steps: seq<Step>, e: Entry) {
    FromClient(e) ==> exists i :: OriginAt(m, voters, c, steps, i, e)
  }

  ghost predicate AllAsked<S>(m: StateMachine<S>, voters: seq<ReplicaId>, c: Cluster<S>, steps: seq<Step>, log: Log) {
    forall e {:trigger e in log} :: e in log ==> Asked(m, voters, c, steps, e)
  }

  /** Everything clients' in the logs and messages of `d` was asked for. */
  ghost predicate Accountable<S>(m: StateMachine<S>, voters: seq<ReplicaId>, c: Cluster<S>, steps: seq<Step>,
                                 d: Cluster<S>) {
    && (forall v {:trigger d.nodes[v]} :: v in d.nodes ==> AllAsked(m, voters, c, steps, d.nodes[v].store.log))
    && (forall p {:trigger p in d.net} :: p in d.net && p.msg.AppendEntries? ==>
          AllAsked(m, voters, c, steps, p.msg.entries))
  }

  /** No entries and no messages yet. */
  ghost predicate Blank<S>(c: Cluster<S>) {
    c.net == {} && forall v {:trigger c.nodes[v]} :: v in c.nodes ==> c.nodes[v].store.log == []
  }

  lemma AskedLater<S>(m: StateMachine<S>, voters: seq<ReplicaId>, c: Cluster<S>, steps: seq<Step>, k: nat, e: Entry)
    requires k <= |steps| && Asked(m, voters, c, steps[..k], e)
    ensures Asked(m, voters, c, steps, e)
  {
    if FromClient(e) {
      var i :| OriginAt(m, voters, c, steps[..k], i, e);
      assert steps[..k][..i] == steps[..i];
      assert OriginAt(m, voters, c, steps, i, e);
    }
  }

  lemma AllAskedLater<S>(m: StateMachine<S>, voters: seq<ReplicaId>, c: Cluster<S>, steps: seq<Step>, k: nat, log: Log)
    requires k <= |steps| && AllAsked(m, voters, c, steps[..k], log)
    ensures AllAsked(m, voters, c, steps, log)
  {
    forall e | e in log ensures Asked(m, voters, c, steps, e) { AskedLater(m, voters, c, steps, k, e); }
  }

  /** Entries from accounted sources, or born in the last step. */
  lemma WithinAsked<S>(m: StateMachine<S>, voters: seq<ReplicaId>, c: Cluster<S>, steps: seq<Step>, n: Node<S>,
                       log: Log, b: Log)
    requires steps != []
    requires var s, d := steps[|steps| - 1], Go(m, voters, c, steps[..|steps| - 1]);
             Actor(s) in d.nodes && d.nodes[Actor(s)] == n && Within(n, s, log, b)
    requires AllAsked(m, voters, c, steps, b)
    ensures AllAsked(m, voters, c, steps, log)
  {
    forall e | e in log ensures Asked(m, voters, c, steps, e) {
      if FromClient(e) {
        if e in b {
          assert Asked(m, voters, c, steps, e);
        } else {
          assert OriginAt(m, voters, c, steps, |steps| - 1, e);
        }
      }
    }
  }

  lemma SourcesAsked<S>(m: StateMachine<S>, voters: seq<ReplicaId>, c: Cluster<S>, steps: seq<Step>, d: Cluster<S>,
                        s: Step)
    requires Accountable(m, voters, c, steps, d) && Enabled(d, s)
    ensures AllAsked(m, voters, c, steps, Sources(d.nodes[Actor(s)], s))
  {
  }

  lemma AccountableLater<S>(m: StateMachine<S>, voters: seq<ReplicaId>, c: Cluster<S>, steps: seq<Step>, k: nat,
                            d: Cluster<S>)
    requires k <= |steps| && Accountable(m, voters, c, steps[..k], d)
    ensures Accountable(m, voters, c, steps, d)
  {
    forall v | v in d.nodes ensures AllAsked(m, voters, c, steps, d.nodes[v].store.log) {
      AllAskedLater(m, voters, c, steps, k, d.nodes[v].store.log);
    }
    forall p | p in d.net && p.msg.AppendEntries? ensures AllAsked(m, voters, c, steps, p.msg.entries) {
      AllAskedLater(m, voters, c, steps, k, p.msg.entries);
    }
  }

  lemma RouteAccountable<S>(m: StateMachine<S>, voters: seq<ReplicaId>, c: Cluster<S>, steps: seq<Step>, d: Cluster<S>,
                            res: (Node<S>, seq<Out>))
    requires steps != [] && d == Go(m, voters, c, steps[..|steps| - 1]) && Enabled(d, steps[|steps| - 1])
    requires Accountable(m, voters, c, steps, d)
    requires var s := steps[|steps| - 1]; Accounted(d.nodes[Actor(s)], s, res, Sources(d.nodes[Actor(s)], s))
    ensures Accountable(m, voters, c, steps, Route(d, Actor(steps[|steps| - 1]), res))
  {
    var s := steps[|steps| - 1];
    var id, n := Actor(s), d.nodes[Actor(s)];
    var e := Route(d, id, res);
    SourcesAsked(m, voters, c, steps, d, s);
    forall v | v in e.nodes ensures AllAsked(m, voters, c, steps, e.nodes[v].store.log) {
      if v == id { WithinAsked(m, voters, c, steps, n, res.0.store.log, Sources(n, s)); }
    }
    forall p | p in e.net && p.msg.AppendEntries? ensures AllAsked(m, voters, c, steps, p.msg.entries) {
      if p !in d.net {
        var i :| 0 <= i < |res.1| && p == Packet(id, res.1[i].dest, res.1[i].msg);
        assert res.1[i] in res.1;
        WithinAsked(m, voters, c, steps, n, p.msg.entries, Sources(n, s));
      }
    }
  }

  lemma {:induction false} GoAccountable<S>(m: StateMachine<S>, voters: seq<ReplicaId>, c: Cluster<S>, steps: seq<Step>)
    requires Blank(c)
    ensures Accountable(m, voters, c, steps, Go(m, voters, c, steps))
    decreases |steps|
  {
    if steps != [] {
      var k := |steps| - 1;
      var d := Go(m, voters, c, steps[..k]);
      GoAccountable(m, voters, c, steps[..k]);
      AccountableLater(m, voters, c, steps, k, d);
      if Enabled(d, steps[k]) {
        var n := d.nodes[Actor(steps[k])];
        ActIn(m, voters, n, steps[k]);
        RouteAccountable(m, voters, c, steps, d, Act(m, voters, n, steps[k]));
      }
    }
  }

  // ---- the theorems ----

  /** Validity: every command in any log of any run was submitted, at an earlier step, to the leader of its term,
      whose log ended just before it; and every joint configuration was asked for like that, with exactly the voters
      asked for. No two entries have the same step behind them. */
  lemma EntriesWereAsked<S>(m: StateMachine<S>, ids: set<ReplicaId>, voters: seq<ReplicaId>,
                            thresholds: ReplicaId -> nat, steps: seq<Step>, a: ReplicaId, e: Entry)
    returns (i: nat)
    requires a in Go(m, voters, Begin(m, ids, voters, thresholds), steps).nodes && FromClient(e)
    requires e in Go(m, voters, Begin(m, ids, voters, thresholds), steps).nodes[a].store.log
    ensures OriginAt(m, voters, Begin(m, ids, voters, thresholds), steps, i, e)
    ensures forall f :: OriginAt(m, voters, Begin(m, ids, voters, thresholds), steps, i, f) ==> f == e
  {
    var c := Begin(m, ids, voters, thresholds);
    GoAccountable(m, voters, c, steps);
    assert AllAsked(m, voters, c, steps, Go(m, voters, c, steps).nodes[a].store.log);
    i :| OriginAt(m, voters, c, steps, i, e);
    forall f | OriginAt(m, voters, c, steps, i, f) ensures f == e {
      SameBirth(Go(m, voters, c, steps[..i]).nodes[Actor(steps[i])], steps[i], e, f);
    }
  }

  lemma SameBirth<S>(n: Node<S>, s: Step, e: Entry, f: Entry)
    requires Born(n, s, e) && Born(n, s, f)
    ensures e == f
  {
    if e.payload.Config? { SameIncreasing(e.payload.conf.incoming, f.payload.conf.incoming); }
  }

  lemma {:induction false} SameIncreasing(a: seq<nat>, b: seq<nat>)
    requires StrictlyIncreasing(a) && StrictlyIncreasing(b) && Elements(a) == Elements(b)
    ensures a == b
  {
    NoElements(a);
    NoElements(b);
    if a != [] {
      assert a[0] in Elements(b);
      assert b[0] in Elements(a);
      assert Elements(a[1..]) == Elements(a) - {a[0]} by { TailElements(a); }
      assert Elements(b[1..]) == Elements(b) - {b[0]} by { TailElements(b); }
      SameIncreasing(a[1..], b[1..]);
      assert a == [a[0]] + a[1..] && b == [b[0]] + b[1..];
    }
  }

  lemma NoElements(a: seq<nat>)
    ensures Elements(a) == {} <==> a == []
  {
    if a != [] { assert a[0] in Elements(a); }
  }

  lemma TailElements(a: seq<nat>)
    requires StrictlyIncreasing(a) && a != []
    ensures Elements(a[1..]) == Elements(a) - {a[0]}
  {
  }

  /** A command submitted to a leader stands, in its term, right behind everything it held. */
  lemma SubmitPlaces<S>(m: StateMachine<S>, n: Node<S>, full: Log, command: Bytes) returns (more: Log)
    requires Settled(m, n, full) && n.role == Leader
    ensures Settled(m, Propose(m, n, command).0, more)
    ensures full + [Entry(n.term, LastIndex(n.store) + 1, Command(command))] <= more
  {
    var e, n1 := Entry(n.term, |full| + 1, Command(command)), AppendLocal(n, Command(command));
    StoredLog(m, n.store, full);
    AppendLocalSettled(m, n, full, Command(command));
    more := SentAndCounted(m, n1, full + [e]);
  }

  lemma SentAndCounted<S>(m: StateMachine<S>, n: Node<S>, full: Log) returns (more: Log)
    requires Settled(m, n, full)
    ensures Settled(m, MaybeAdvanceCommit(m, BroadcastAppend(n).0), more) && full <= more
  {
    BroadcastSettled(m, n, full);
    more := AdvanceSettled(m, BroadcastAppend(n).0, full);
  }

  /** A change submitted to a leader in a simple configuration stands right behind everything it held, as the joint
      configuration of its voters and exactly those asked for. */
  lemma ChangePlaces<S>(m: StateMachine<S>, n: Node<S>, full: Log, voters: seq<ReplicaId>) returns (incoming: seq<nat>)
    requires Settled(m, n, full) && n.role == Leader && n.config.Simple?
    ensures StrictlyIncreasing(incoming) && Elements(incoming) == Elements(voters)
    ensures Settled(m, ProposeConf(n, voters).0,
                    full + [Entry(n.term, LastIndex(n.store) + 1, Config(Joint(n.config.voters, incoming)))])
  {
    incoming := Sorted(voters);
    assert Elements(incoming) == Elements(voters);
    var n1 := AppendLocal(n, Config(Joint(n.config.voters, incoming)));
    StoredLog(m, n.store, full);
    AppendLocalSettled(m, n, full, Config(Joint(n.config.voters, incoming)));
    BroadcastSettled(m, n1, full + [Entry(n.term, |full| + 1, Config(Joint(n.config.voters, incoming)))]);
  }
}
