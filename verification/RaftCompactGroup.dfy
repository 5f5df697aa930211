/** Groups whose replicas compact their logs locally: the safety theorems and crash
    recovery for every run with fixed membership in which no snapshot is delivered. */
module RaftCompactGroup {
  import opened Wrappers
  import opened RaftTypes
  import opened Membership
  import opened ConfigChain
  import opened LogStore
  import opened RaftModel
  import opened RaftHistory
  import opened RaftSteps
  import opened RaftInvariant
  import opened RaftHandlers
  import opened RaftCluster
  import opened RaftTheorems
  import opened RaftRecovery
  import opened RaftCompaction

  // ---- runs ----

  /** Neither a membership change nor the delivery of a snapshot. */
  predicate Local(s: Step) {
    !s.SubmitConf? && (s.Deliver? ==> !s.p.msg.InstallSnapshot?)
  }

  /** Every replica compacts at its own threshold. */
  function Begin<S>(m: StateMachine<S>, ids: set<ReplicaId>, voters: seq<ReplicaId>,
                    thresholds: ReplicaId -> nat): Cluster<S> {
    Cluster(map id | id in ids :: NewWithStore(m, id, voters, thresholds(id), EmptyStore), {})
  }

  function Go<S>(m: StateMachine<S>, voters: seq<ReplicaId>, c: Cluster<S>, steps: seq<Step>): Cluster<S>
    decreases |steps|
  {
    if steps == [] then c else Next(m, voters, Go(m, voters, c, steps[..|steps| - 1]), steps[|steps| - 1])
  }

  ghost predicate AllLocal(steps: seq<Step>) {
    forall k {:trigger steps[k]} :: 0 <= k < |steps| ==> Local(steps[k])
  }

  // ---- a group and its twins ----

  ghost predicate PairOk<S>(m: StateMachine<S>, voters: seq<ReplicaId>, n: Node<S>, w: Node<S>) {
    Twin(m, n, w) && Settled(m, n, w.store.log) && n.config == Simple(Sorted(voters))
  }

  /** `t` is a group without compaction in which the twins could have got where they are. */
  ghost predicate GroupOk<S>(m: StateMachine<S>, voters: seq<ReplicaId>, h: History, c: Cluster<S>, t: Cluster<S>) {
    && ClusterOk(h, t) && h.base == Simple(Sorted(voters)) && t.nodes.Keys == c.nodes.Keys
    && (forall id {:trigger PairOk(m, voters, c.nodes[id], t.nodes[id])} :: id in c.nodes ==>
          PairOk(m, voters, c.nodes[id], t.nodes[id]))
    && (forall p {:trigger p in c.net} :: p in c.net ==> p.msg.InstallSnapshot? || p in t.net)
    && (forall p {:trigger p in t.net} :: p in t.net ==> PlainMsg(p.msg))
  }

  lemma BeginOk<S>(m: StateMachine<S>, ids: set<ReplicaId>, voters: seq<ReplicaId>, thresholds: ReplicaId -> nat)
    ensures GroupOk(m, voters, EmptyHistory(voters), Begin(m, ids, voters, thresholds), Init(m, ids, voters))
  {
    InitOk(m, ids, voters);
    var c, t := Begin(m, ids, voters, thresholds), Init(m, ids, voters);
    forall id | id in ids ensures PairOk(m, voters, c.nodes[id], t.nodes[id]) { }
  }

  // ---- one step ----

  lemma LegalTwin<S>(m: StateMachine<S>, n: Node<S>, w: Node<S>, msg: Message)
    requires Twin(m, n, w) && Legal(w, msg)
    ensures Legal(n, msg)
  {
    if msg.AppendEntries? && msg.term >= n.term && TermAt(n, msg.prevLogIndex) == Some(msg.prevLogTerm) {
      TwinLooks(m, n, w);
      StoredEntry(m, n, w.store.log, msg.prevLogIndex);
      StoredEntry(m, w, w.store.log, msg.prevLogIndex);
      forall k | 0 <= k < |msg.entries| && n.store.baseIndex < msg.entries[k].index <= n.commitIndex
        ensures TermAt(n, msg.entries[k].index) == Some(msg.entries[k].term)
      {
        TwinTerm(m, n, w, msg.entries[k].index);
      }
    }
  }

  lemma LeaderInRange<S>(h: History, id: ReplicaId, w: Node<S>)
    requires NodeOk(h, id, w) && w.role == Leader
    ensures InRange(w)
  {
  }

  lemma MessageTwin<S>(m: StateMachine<S>, h: History, id: ReplicaId, n: Node<S>, w: Node<S>, p: Packet)
    requires Twin(m, n, w) && n.lastApplied == n.commitIndex && Valid(h) && NodeOk(h, id, w) && MsgOk(h, p)
             && PlainMsg(p.msg)
    requires !Folded(n, p.msg)
    ensures Mirrored(m, OnMessage(m, n, p.src, p.msg), OnMessage(m, w, p.src, p.msg))
  {
    match p.msg
    case RequestVote(t, c, lli, llt) => VoteTwin(m, n, w, t, c, lli, llt);
    case RequestVoteResp(t, granted) => VoteRespTwin(m, n, w, p.src, t, granted);
    case AppendEntries(_, _, _, _, _, _, _) =>
      GroupMessagesLegal(h, id, w, p);
      AppendEntriesTwin(m, n, w, p.msg);
    case AppendEntriesResp(_, _, _, _, _) =>
      if n.role == Leader { LeaderInRange(h, id, w); }
      RespTwin(m, n, w, p.src, p.msg);
  }

  /** Both take the same step. */
  lemma ActTwin<S(!new)>(m: StateMachine<S>, voters: seq<ReplicaId>, h: History, id: ReplicaId, n: Node<S>, w: Node<S>,
                         s: Step)
    requires Reversible(m) && PairOk(m, voters, n, w) && Valid(h) && NodeOk(h, id, w) && Local(s) && Actor(s) == id
    requires s.Deliver? ==> MsgOk(h, s.p) && PlainMsg(s.p.msg) && !Folded(n, s.p.msg)
    ensures Mirrored(m, Act(m, voters, n, s), Act(m, voters, w, s))
  {
    if n.role == Leader { LeaderInRange(h, id, w); }
    match s
    case Tick(_, due) => TickTwin(m, n, w, due);
    case Deliver(p) => MessageTwin(m, h, id, n, w, p);
    case SubmitCommand(_, command) => ProposeTwin(m, n, w, command);
    case SubmitRead(_, reqId, query) => ReadTwin(m, n, w, reqId, query);
    case Drain(_) =>
    case Restart(_) => RestoreTwin(m, n, w, id, voters);
  }

  function InputOf(s: Step): Input
    requires Local(s) && !s.Restart?
  {
    match s
    case Tick(_, due) => Timer(due)
    case Deliver(p) => Receive(p.src, p.msg)
    case SubmitCommand(_, command) => Submit(command)
    case SubmitRead(_, reqId, query) => Query(reqId, query)
    case Drain(_) => TakeOutput
  }

  /** After its step a replica has applied what it has committed, and nothing is due for compaction. */
  lemma ActSettles<S(!new)>(m: StateMachine<S>, voters: seq<ReplicaId>, h: History, id: ReplicaId, n: Node<S>,
                            w: Node<S>, s: Step, full: Log)
    requires Reversible(m) && PairOk(m, voters, n, w) && Valid(h) && NodeOk(h, id, w) && Local(s) && Actor(s) == id
    requires s.Deliver? ==> MsgOk(h, s.p)
    requires Live(m, Act(m, voters, n, s).0, full)
    ensures Settled(m, Act(m, voters, n, s).0, full)
  {
    if s.Restart? {
      RestoreTwin(m, n, w, id, voters);
    } else {
      if s.Deliver? {
        GroupMessagesLegal(h, id, w, s.p);
        LegalTwin(m, n, w, s.p.msg);
      }
      var _ := FeedSettled(m, n, w.store.log, InputOf(s));
      assert Feed(m, n, InputOf(s)) == Act(m, voters, n, s).0;
    }
  }

  /** Both groups after a step by `id` that the twins mirror. */
  lemma RouteGroup<S>(m: StateMachine<S>, voters: seq<ReplicaId>, h: History, g: History, c: Cluster<S>, t: Cluster<S>,
                      id: ReplicaId, a: (Node<S>, seq<Out>), b: (Node<S>, seq<Out>))
    requires GroupOk(m, voters, h, c, t) && id in c.nodes && ClusterOk(g, Route(t, id, b)) && g.base == h.base
    requires Mirrored(m, a, b) && PairOk(m, voters, a.0, b.0)
    ensures GroupOk(m, voters, g, Route(c, id, a), Route(t, id, b))
  {
    var d, u := Route(c, id, a), Route(t, id, b);
    forall v | v in d.nodes ensures PairOk(m, voters, d.nodes[v], u.nodes[v]) {
      if v != id { assert PairOk(m, voters, c.nodes[v], t.nodes[v]); }
    }
    forall p | p in d.net ensures p.msg.InstallSnapshot? || p in u.net {
      if p !in c.net {
        var i :| 0 <= i < |a.1| && p == Packet(id, a.1[i].dest, a.1[i].msg);
        assert a.1[i] == b.1[i] || a.1[i].msg.InstallSnapshot?;
      }
    }
    forall p | p in u.net ensures PlainMsg(p.msg) {
      if p !in t.net {
        var i :| 0 <= i < |b.1| && p == Packet(id, b.1[i].dest, b.1[i].msg);
        assert PlainMsg(b.1[i].msg);
      }
    }
  }

  /** With fixed membership the configuration never changes. */
  lemma ConfigStays<S>(h: History, id: ReplicaId, w: Node<S>)
    requires NodeOk(h, id, w) && NoConfig(w.store.log)
    ensures w.config == h.base
  {
    NoConfigUpTo(h.base, w.store.log, 0);
  }

  lemma MirrorStep<S(!new)>(m: StateMachine<S>, voters: seq<ReplicaId>, h: History, c: Cluster<S>, t: Cluster<S>,
                            s: Step)
    returns (g: History)
    requires Reversible(m) && GroupOk(m, voters, h, c, t) && Local(s) && Enabled(c, s) && Enabled(t, s)
    requires s.Deliver? ==> s.p in t.net && !Folded(c.nodes[Actor(s)], s.p.msg)
    ensures GroupOk(m, voters, g, Next(m, voters, c, s), Next(m, voters, t, s)) && Later(h, g)
    ensures Onward(m, t, Next(m, voters, t, s))
  {
    var id := Actor(s);
    var n, w := c.nodes[id], t.nodes[id];
    assert PairOk(m, voters, n, w) && NodeOk(h, id, w) && (s.Deliver? ==> MsgOk(h, s.p) && PlainMsg(s.p.msg));
    ActTwin(m, voters, h, id, n, w, s);
    g := NextOk(m, voters, h, t, s);
    var a, b := Act(m, voters, n, s), Act(m, voters, w, s);
    assert Next(m, voters, t, s) == Route(t, id, b) && Next(m, voters, c, s) == Route(c, id, a);
    ActSettles(m, voters, h, id, n, w, s, b.0.store.log);
    assert NodeOk(g, id, Route(t, id, b).nodes[id]);
    ConfigStays(g, id, b.0);
    RouteGroup(m, voters, h, g, c, t, id, a, b);
  }

  /** The twin of a replica that cannot check the entry before the message's steps down and says no as well. */
  ghost function No<S>(w: Node<S>, msg: Message): (Node<S>, seq<Out>)
    requires msg.AppendEntries?
  {
    (BecomeFollower(w, msg.term, Some(msg.leader)),
     [Out(msg.leader, AppendEntriesResp(msg.term, false, 0, msg.prevLogIndex, msg.readSeq))])
  }

  lemma NoOk<S>(m: StateMachine<S>, h: History, id: ReplicaId, w: Node<S>, p: Packet)
    requires Valid(h) && NodeOk(h, id, w) && MsgOk(h, p) && p.dst == id && p.msg.AppendEntries? && p.msg.term >= w.term
    ensures StepOk(m, h, h, id, w, No(w, p.msg))
  {
    ExtendsRefl(h, id);
    BecomeFollowerOk(h, id, w, p.msg.term, Some(p.msg.leader));
    BecomeFollowerAdvances(m, w, p.msg.term, Some(p.msg.leader));
  }

  lemma FoldedStep<S(!new)>(m: StateMachine<S>, voters: seq<ReplicaId>, h: History, c: Cluster<S>, t: Cluster<S>,
                            p: Packet)
    requires Reversible(m) && GroupOk(m, voters, h, c, t) && Enabled(c, Deliver(p)) && p in t.net
             && Folded(c.nodes[p.dst], p.msg)
    ensures var u := Route(t, p.dst, No(t.nodes[p.dst], p.msg));
            GroupOk(m, voters, h, Next(m, voters, c, Deliver(p)), u) && Onward(m, t, u)
  {
    var id := p.dst;
    var n, w := c.nodes[id], t.nodes[id];
    assert PairOk(m, voters, n, w) && NodeOk(h, id, w) && MsgOk(h, p);
    NoOk(m, h, id, w, p);
    var a, b := Act(m, voters, n, Deliver(p)), No(w, p.msg);
    RouteOk(m, h, h, t, id, b);
    FoldedPair(m, voters, n, w, p);
    RouteGroup(m, voters, h, h, c, t, id, a, b);
  }

  lemma FoldedPair<S>(m: StateMachine<S>, voters: seq<ReplicaId>, n: Node<S>, w: Node<S>, p: Packet)
    requires PairOk(m, voters, n, w) && Folded(n, p.msg)
    ensures var a := Act(m, voters, n, Deliver(p));
            Mirrored(m, a, No(w, p.msg)) && PairOk(m, voters, a.0, No(w, p.msg).0)
  {
    FoldedTwin(m, n, w, p.msg);
    ActAppends(m, voters, n, p);
    FollowerSettled(m, n, w.store.log, p.msg.term, Some(p.msg.leader));
  }

  lemma ActAppends<S>(m: StateMachine<S>, voters: seq<ReplicaId>, n: Node<S>, p: Packet)
    requires p.msg.AppendEntries?
    ensures Act(m, voters, n, Deliver(p)) == HandleAppendEntries(m, n, p.msg)
  {
  }

  /** What a step of the group does to the twins. */
  ghost function Shadow<S>(m: StateMachine<S>, voters: seq<ReplicaId>, c: Cluster<S>, t: Cluster<S>, s: Step)
    : Cluster<S>
    requires t.nodes.Keys == c.nodes.Keys
  {
    if !Enabled(c, s) then t
    else if s.Deliver? && Folded(c.nodes[s.p.dst], s.p.msg) then Route(t, s.p.dst, No(t.nodes[s.p.dst], s.p.msg))
    else Next(m, voters, t, s)
  }

  lemma GroupStep<S(!new)>(m: StateMachine<S>, voters: seq<ReplicaId>, h: History, c: Cluster<S>, t: Cluster<S>,
                           s: Step)
    returns (g: History, u: Cluster<S>)
    requires Reversible(m) && GroupOk(m, voters, h, c, t) && Local(s)
    ensures GroupOk(m, voters, g, Next(m, voters, c, s), u) && Later(h, g) && Onward(m, t, u)
    ensures u == Shadow(m, voters, c, t, s)
  {
    g, u := h, Shadow(m, voters, c, t, s);
    OnwardRefl(m, t);
    if Enabled(c, s) {
      assert s.Deliver? ==> s.p in t.net;
      if s.Deliver? && Folded(c.nodes[s.p.dst], s.p.msg) {
        FoldedStep(m, voters, h, c, t, s.p);
      } else {
        g := MirrorStep(m, voters, h, c, t, s);
      }
    }
  }

  // ---- whole runs ----

  /** From any state in good standing, local steps lead to states in good standing. */
  lemma {:induction false} GroupGoes<S(!new)>(m: StateMachine<S>, voters: seq<ReplicaId>, h: History, c: Cluster<S>,
                                              t: Cluster<S>, steps: seq<Step>)
    returns (g: History, u: Cluster<S>)
    requires Reversible(m) && GroupOk(m, voters, h, c, t) && AllLocal(steps)
    ensures GroupOk(m, voters, g, Go(m, voters, c, steps), u) && Later(h, g) && Onward(m, t, u)
    decreases |steps|
  {
    if steps == [] {
      g, u := h, t;
      OnwardRefl(m, t);
    } else {
      var k := |steps| - 1;
      assert AllLocal(steps[..k]);
      var f, v := GroupGoes(m, voters, h, c, t, steps[..k]);
      g, u := GroupStep(m, voters, f, Go(m, voters, c, steps[..k]), v, steps[k]);
      LaterTrans(h, f, g);
      OnwardTrans(m, t, v, u);
    }
  }

  lemma {:induction false} GoOn<S>(m: StateMachine<S>, voters: seq<ReplicaId>, c: Cluster<S>, steps: seq<Step>, i: nat)
    requires i <= |steps|
    ensures Go(m, voters, Go(m, voters, c, steps[..i]), steps[i..]) == Go(m, voters, c, steps)
    decreases |steps| - i
  {
    if i == |steps| {
      assert steps[..i] == steps;
    } else {
      GoShift(m, voters, Go(m, voters, c, steps[..i]), steps[i..]);
      assert steps[..i + 1][..i] == steps[..i] && steps[i..][1..] == steps[i + 1..];
      GoOn(m, voters, c, steps, i + 1);
    }
  }

  /** The first step, then the others. */
  lemma {:induction false} GoShift<S>(m: StateMachine<S>, voters: seq<ReplicaId>, c: Cluster<S>, steps: seq<Step>)
    requires steps != []
    ensures Go(m, voters, c, steps) == Go(m, voters, Next(m, voters, c, steps[0]), steps[1..])
    decreases |steps|
  {
    var k := |steps| - 1;
    if k > 0 {
      GoShift(m, voters, c, steps[..k]);
      assert steps[..k][1..] == steps[1..][..k - 1];
    }
  }

  /** Two states of a run, each with its twins, the second history grown from the first. */
  lemma TwoStates<S(!new)>(m: StateMachine<S>, ids: set<ReplicaId>, voters: seq<ReplicaId>,
                           thresholds: ReplicaId -> nat, steps: seq<Step>, i: nat)
    returns (h: History, t: Cluster<S>, g: History, u: Cluster<S>)
    requires Reversible(m) && AllLocal(steps) && i <= |steps|
    ensures var c := Begin(m, ids, voters, thresholds);
            GroupOk(m, voters, h, Go(m, voters, c, steps[..i]), t) && GroupOk(m, voters, g, Go(m, voters, c, steps), u)
    ensures Later(h, g) && Onward(m, t, u) && AllApplied(m, t) && AllApplied(m, u)
  {
    var c := Begin(m, ids, voters, thresholds);
    BeginOk(m, ids, voters, thresholds);
    h, t := GroupGoes(m, voters, EmptyHistory(voters), c, Init(m, ids, voters), steps[..i]);
    assert AllLocal(steps[i..]);
    g, u := GroupGoes(m, voters, h, Go(m, voters, c, steps[..i]), t, steps[i..]);
    GoOn(m, voters, c, steps, i);
    TwinsApplied(m, voters, h, Go(m, voters, c, steps[..i]), t);
    TwinsApplied(m, voters, g, Go(m, voters, c, steps), u);
  }

  lemma TwinsApplied<S>(m: StateMachine<S>, voters: seq<ReplicaId>, h: History, c: Cluster<S>, t: Cluster<S>)
    requires GroupOk(m, voters, h, c, t)
    ensures AllApplied(m, t)
  {
    forall id | id in t.nodes ensures AppliedOk(m, t.nodes[id]) { assert PairOk(m, voters, c.nodes[id], t.nodes[id]); }
  }

  // ---- the theorems ----

  /** Election safety with compaction: at most one leader per term, over the whole run. */
  lemma CompactedElections<S(!new)>(m: StateMachine<S>, ids: set<ReplicaId>, voters: seq<ReplicaId>,
                                    thresholds: ReplicaId -> nat, steps: seq<Step>, i: nat, a: ReplicaId, b: ReplicaId)
    requires Reversible(m) && AllLocal(steps) && i <= |steps|
    requires var c := Go(m, voters, Begin(m, ids, voters, thresholds), steps[..i]);
             a in c.nodes && c.nodes[a].role == Leader
    requires var d := Go(m, voters, Begin(m, ids, voters, thresholds), steps);
             b in d.nodes && d.nodes[b].role == Leader
             && d.nodes[b].term == Go(m, voters, Begin(m, ids, voters, thresholds), steps[..i]).nodes[a].term
    ensures a == b
  {
    var start := Begin(m, ids, voters, thresholds);
    var h, t, g, u := TwoStates(m, ids, voters, thresholds, steps, i);
    assert PairOk(m, voters, Go(m, voters, start, steps[..i]).nodes[a], t.nodes[a]);
    assert PairOk(m, voters, Go(m, voters, start, steps).nodes[b], u.nodes[b]);
    assert NodeOk(h, a, t.nodes[a]) && NodeOk(g, b, u.nodes[b]);
    assert GrowsAt(h.reigns, g.reigns, u.nodes[b].term);
  }

  /** Log `x` of `n` and log `y` of `l`, seen no earlier, match (the same term at an index means the same entries
      up to it) and agree on everything both have committed; if `l` leads a term no earlier, it holds all `n` had
      committed. */
  ghost predicate LogsFit<S>(n: Node<S>, x: Log, l: Node<S>, y: Log) {
    && (forall k {:trigger Agree(x, y, k + 1)} :: 0 <= k < |x| && k < |y| && x[k].term == y[k].term ==>
          Agree(x, y, k + 1))
    && Agree(x, y, Min(n.commitIndex, l.commitIndex))
    && (l.role == Leader && n.term <= l.term ==> Agree(x, y, n.commitIndex))
  }

  /** Log matching, agreement and leader completeness with compaction: what two replicas have stored are two logs
      that fit, each folded up to its base. */
  lemma CompactedLogs<S(!new)>(m: StateMachine<S>, ids: set<ReplicaId>, voters: seq<ReplicaId>,
                               thresholds: ReplicaId -> nat, steps: seq<Step>, i: nat, a: ReplicaId, b: ReplicaId)
    returns (x: Log, y: Log)
    requires Reversible(m) && AllLocal(steps) && i <= |steps|
    requires a in Go(m, voters, Begin(m, ids, voters, thresholds), steps[..i]).nodes
    requires b in Go(m, voters, Begin(m, ids, voters, thresholds), steps).nodes
    ensures var n := Go(m, voters, Begin(m, ids, voters, thresholds), steps[..i]).nodes[a];
            var l := Go(m, voters, Begin(m, ids, voters, thresholds), steps).nodes[b];
            && Stored(m, n.store, x) && Stored(m, l.store, y)
            && LogsFit(n, x, l, y)
  {
    var start := Begin(m, ids, voters, thresholds);
    var h, t, g, u := TwoStates(m, ids, voters, thresholds, steps, i);
    assert PairOk(m, voters, Go(m, voters, start, steps[..i]).nodes[a], t.nodes[a]);
    assert PairOk(m, voters, Go(m, voters, start, steps).nodes[b], u.nodes[b]);
    assert NodeOk(h, a, t.nodes[a]) && NodeOk(g, b, u.nodes[b]);
    x, y := t.nodes[a].store.log, u.nodes[b].store.log;
    LogsOfPair(h, g, a, t.nodes[a], b, u.nodes[b]);
    assert LogsFit(Go(m, voters, start, steps[..i]).nodes[a], x, Go(m, voters, start, steps).nodes[b], y);
  }

  lemma LogsOfPair<S>(h: History, g: History, a: ReplicaId, n: Node<S>, b: ReplicaId, l: Node<S>)
    requires Valid(h) && Valid(g) && Later(h, g) && NodeOk(h, a, n) && NodeOk(g, b, l)
    ensures LogsFit(n, n.store.log, l, l.store.log)
  {
    var x, y := n.store.log, l.store.log;
    CoherentGrows(h.reigns, g.reigns, x);
    forall k | 0 <= k < |x| && k < |y| && x[k].term == y[k].term ensures Agree(x, y, k + 1) {
      LogMatching(g.reigns, x, y, k);
    }
    CommittedPair(h, g, a, n, b, l);
    if l.role == Leader && n.term <= l.term {
      LaterCommitted(h, g, n.term, x, n.commitIndex);
      LeaderHoldsCommitted(g, n.term, l.term, x, n.commitIndex);
    }
  }

  /** State machine safety with compaction: replicas that have applied equally far hold the same state. */
  lemma CompactedStates<S(!new)>(m: StateMachine<S>, ids: set<ReplicaId>, voters: seq<ReplicaId>,
                                 thresholds: ReplicaId -> nat, steps: seq<Step>, i: nat, a: ReplicaId, b: ReplicaId)
    requires Reversible(m) && AllLocal(steps) && i <= |steps|
    requires a in Go(m, voters, Begin(m, ids, voters, thresholds), steps[..i]).nodes
    requires b in Go(m, voters, Begin(m, ids, voters, thresholds), steps).nodes
    ensures var n := Go(m, voters, Begin(m, ids, voters, thresholds), steps[..i]).nodes[a];
            var l := Go(m, voters, Begin(m, ids, voters, thresholds), steps).nodes[b];
            n.lastApplied == l.lastApplied ==> n.sm == l.sm
  {
    var start := Begin(m, ids, voters, thresholds);
    var h, t, g, u := TwoStates(m, ids, voters, thresholds, steps, i);
    var n, l := t.nodes[a], u.nodes[b];
    assert PairOk(m, voters, Go(m, voters, start, steps[..i]).nodes[a], n);
    assert PairOk(m, voters, Go(m, voters, start, steps).nodes[b], l);
    assert NodeOk(h, a, n) && NodeOk(g, b, l) && AppliedOk(m, n) && AppliedOk(m, l);
    if n.lastApplied == l.lastApplied && n.lastApplied > 0 { AppliedPair(m, h, g, a, n, b, l, n.lastApplied); }
  }

  /** No replica's term or commit index ever goes back, across crashes, restarts and compaction. */
  lemma CompactedOnward<S(!new)>(m: StateMachine<S>, ids: set<ReplicaId>, voters: seq<ReplicaId>,
                                 thresholds: ReplicaId -> nat, steps: seq<Step>, i: nat, a: ReplicaId)
    requires Reversible(m) && AllLocal(steps) && i <= |steps|
    requires a in Go(m, voters, Begin(m, ids, voters, thresholds), steps[..i]).nodes
    ensures a in Go(m, voters, Begin(m, ids, voters, thresholds), steps).nodes
    ensures var n := Go(m, voters, Begin(m, ids, voters, thresholds), steps[..i]).nodes[a];
            var l := Go(m, voters, Begin(m, ids, voters, thresholds), steps).nodes[a];
            n.term <= l.term && n.commitIndex <= l.commitIndex && n.lastApplied <= l.lastApplied
  {
    var start := Begin(m, ids, voters, thresholds);
    var h, t, g, u := TwoStates(m, ids, voters, thresholds, steps, i);
    assert PairOk(m, voters, Go(m, voters, start, steps[..i]).nodes[a], t.nodes[a]);
    assert PairOk(m, voters, Go(m, voters, start, steps).nodes[a], u.nodes[a]);
    assert Advances(m, t.nodes[a], u.nodes[a]);
  }

  /** Crash recovery in a group: at any time in the run, every replica's store alone rebuilds it. */
  lemma GroupRecovers<S(!new)>(m: StateMachine<S>, ids: set<ReplicaId>, voters: seq<ReplicaId>,
                               thresholds: ReplicaId -> nat, steps: seq<Step>, a: ReplicaId)
    requires Reversible(m) && AllLocal(steps) && a in Go(m, voters, Begin(m, ids, voters, thresholds), steps).nodes
    ensures var n := Go(m, voters, Begin(m, ids, voters, thresholds), steps).nodes[a];
            var r := RestoreFrom(m, a, voters, n.snapshotThreshold, n.store);
            && n.store.hardState == HardState(n.term, n.votedFor, n.commitIndex)
            && r.store == n.store && r.term == n.term && r.votedFor == n.votedFor && r.config == n.config
            && r.commitIndex == n.commitIndex && r.lastApplied == n.lastApplied && r.sm == n.sm
  {
    var start := Begin(m, ids, voters, thresholds);
    assert steps[..|steps|] == steps;
    var h, t, g, u := TwoStates(m, ids, voters, thresholds, steps, |steps|);
    var n, w := Go(m, voters, start, steps).nodes[a], u.nodes[a];
    assert PairOk(m, voters, n, w);
    SettledRecovers(m, n, w.store.log, a, voters);
    RestoreTwin(m, n, w, a, voters);
    RestoredConfig(m, n, w, a, voters);
  }

  lemma RestoredConfig<S(!new)>(m: StateMachine<S>, n: Node<S>, w: Node<S>, id: ReplicaId, voters: seq<ReplicaId>)
    requires Twin(m, n, w) && Reversible(m)
    ensures RestoreFrom(m, id, voters, n.snapshotThreshold, n.store).config == Simple(Sorted(voters))
  {
    var a := Restarted(m, n, w.store.log, id, voters, n.snapshotThreshold);
    ApplyLoopLive(m, a, w.store.log);
    var b := ServeReads(m, ApplyLoop(m, a));
    if b.lastApplied > b.store.baseIndex {
      CompactLive(m, b, w.store.log);
      NoLiveConfig(m, b, w.store.log);
      NoLiveConfig(m, Compact(m, b).(config := b.config), w.store.log);
    }
  }

  /** In a group that compacts locally every message a replica can be sent, short of a snapshot, is legal. */
  lemma CompactedMessagesLegal<S(!new)>(m: StateMachine<S>, ids: set<ReplicaId>, voters: seq<ReplicaId>,
                                        thresholds: ReplicaId -> nat, steps: seq<Step>, p: Packet)
    requires Reversible(m) && AllLocal(steps)
    requires var c := Go(m, voters, Begin(m, ids, voters, thresholds), steps);
             p in c.net && p.dst in c.nodes && !p.msg.InstallSnapshot?
    ensures Legal(Go(m, voters, Begin(m, ids, voters, thresholds), steps).nodes[p.dst], p.msg)
  {
    var start := Begin(m, ids, voters, thresholds);
    assert steps[..|steps|] == steps;
    var h, t, g, u := TwoStates(m, ids, voters, thresholds, steps, |steps|);
    var n, w := Go(m, voters, start, steps).nodes[p.dst], u.nodes[p.dst];
    assert PairOk(m, voters, n, w) && NodeOk(g, p.dst, w) && MsgOk(g, p);
    GroupMessagesLegal(g, p.dst, w, p);
    LegalTwin(m, n, w, p.msg);
  }
}
