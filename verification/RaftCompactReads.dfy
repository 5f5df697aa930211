/** ReadIndex freshness in groups whose replicas compact their logs locally. */
module RaftCompactReads {
  import opened Wrappers
  import opened RaftTypes
  import opened ConfigChain
  import opened RaftModel
  import opened RaftHistory
  import opened RaftInvariant
  import opened RaftHandlers
  import opened RaftCluster
  import opened RaftReads
  import opened RaftRecovery
  import opened RaftCompaction
  import opened RaftCompactGroup

  // ---- what the twins know about heartbeats and their echoes ----

  lemma NoFacts<S>(w: Node<S>, p: Packet)
    requires p.msg.AppendEntries?
    ensures StepFacts(w, Deliver(p), No(w, p.msg))
  {
  }

  /** A step keeps what is known about echoes, and heartbeat numbers unless `l` restarts. */
  lemma ShadowReads<S(!new)>(m: StateMachine<S>, voters: seq<ReplicaId>, h: History, c: Cluster<S>, t: Cluster<S>,
                             s: Step, l: ReplicaId, u: Term, q: nat, calm: set<ReplicaId>)
    requires GroupOk(m, voters, h, c, t) && Local(s) && AllIdle(t)
    ensures var r := Shadow(m, voters, c, t, s);
            && AllIdle(r) && (ReadInv(t, l, u, q, calm) ==> ReadInv(r, l, u, q, calm))
            && (SeqInv(t, l) && s != Restart(l) ==> SeqInv(r, l))
  {
    if Enabled(c, s) {
      if s.Deliver? && Folded(c.nodes[s.p.dst], s.p.msg) {
        FoldedReads(m, voters, h, c, t, s, l, u, q, calm);
      } else {
        ReadInvNext(m, voters, h, t, s, l, u, q, calm);
        if SeqInv(t, l) && s != Restart(l) { SeqInvNext(m, voters, h, t, s, l); }
      }
    }
  }

  lemma FoldedReads<S>(m: StateMachine<S>, voters: seq<ReplicaId>, h: History, c: Cluster<S>, t: Cluster<S>, s: Step,
                       l: ReplicaId, u: Term, q: nat, calm: set<ReplicaId>)
    requires GroupOk(m, voters, h, c, t) && AllIdle(t)
    requires s.Deliver? && Enabled(c, s) && Folded(c.nodes[s.p.dst], s.p.msg) && !s.p.msg.InstallSnapshot?
    ensures var r := Route(t, s.p.dst, No(t.nodes[s.p.dst], s.p.msg));
            && AllIdle(r) && (ReadInv(t, l, u, q, calm) ==> ReadInv(r, l, u, q, calm))
            && (SeqInv(t, l) ==> SeqInv(r, l))
  {
    var p := s.p;
    var w := t.nodes[p.dst];
    assert p in t.net && PairOk(m, voters, c.nodes[p.dst], w) && NodeOk(h, p.dst, w) && MsgOk(h, p);
    NoOk(m, h, p.dst, w, p);
    NoFacts(w, p);
    ReadInvRoute(m, h, h, t, s, No(w, p.msg), l, u, q, calm);
    if SeqInv(t, l) && l in t.nodes { SeqInvRoute(t, s, No(w, p.msg), l); }
  }

  /** From any state in good standing, local steps keep the twins in good standing and what is known about echoes. */
  lemma {:induction false} GroupReads<S(!new)>(m: StateMachine<S>, voters: seq<ReplicaId>, h: History, c: Cluster<S>,
                                               t: Cluster<S>, steps: seq<Step>, l: ReplicaId, u: Term, q: nat,
                                               calm: set<ReplicaId>)
    returns (g: History, r: Cluster<S>)
    requires Reversible(m) && GroupOk(m, voters, h, c, t) && AllLocal(steps) && AllIdle(t)
    ensures GroupOk(m, voters, g, Go(m, voters, c, steps), r) && Later(h, g) && Onward(m, t, r) && AllIdle(r)
    ensures ReadInv(t, l, u, q, calm) ==> ReadInv(r, l, u, q, calm)
    ensures SeqInv(t, l) && Restart(l) !in steps ==> SeqInv(r, l)
    ensures steps == [] ==> r == t
    decreases |steps|
  {
    if steps == [] {
      g, r := h, t;
      OnwardRefl(m, t);
    } else {
      var k := |steps| - 1;
      assert AllLocal(steps[..k]);
      var f, v := GroupReads(m, voters, h, c, t, steps[..k], l, u, q, calm);
      ShadowReads(m, voters, f, Go(m, voters, c, steps[..k]), v, steps[k], l, u, q, calm);
      g, r := GroupStep(m, voters, f, Go(m, voters, c, steps[..k]), v, steps[k]);
      LaterTrans(h, f, g);
      OnwardTrans(m, t, v, r);
    }
  }

  // ---- freshness ----

  /** In `c`, leader `l` has committed an entry of its own term and `pr` is the read it is about to register. */
  ghost predicate AskedFolded<S>(c: Cluster<S>, l: ReplicaId, pr: PendingRead) {
    && l in c.nodes
    && var n := c.nodes[l];
    && n.role == Leader && n.commitIndex > 0 && TermAt(n, n.commitIndex) == Some(n.term)
    && pr.readIndex == n.commitIndex && pr.minSeq == n.readSeq + 1
  }

  lemma TwinAsked<S>(m: StateMachine<S>, voters: seq<ReplicaId>, h: History, c: Cluster<S>, t: Cluster<S>,
                     l: ReplicaId, pr: PendingRead)
    requires GroupOk(m, voters, h, c, t) && AskedFolded(c, l, pr)
    ensures Asked(t, l, pr)
  {
    assert PairOk(m, voters, c.nodes[l], t.nodes[l]);
    StoredEntry(m, c.nodes[l], t.nodes[l].store.log, c.nodes[l].commitIndex);
  }

  ghost predicate EchoedByCalm<S>(t: Cluster<S>, l: ReplicaId) {
    l in t.nodes ==> var n := t.nodes[l]; ReadInv(t, l, n.term, n.readSeq + 1, Calm(t, n.term))
  }

  /** A replica that has not restarted: nothing echoes the heartbeat its next read will wait for. */
  lemma TwinCalm<S>(t: Cluster<S>, l: ReplicaId)
    requires SeqInv(t, l) && l in t.nodes
    ensures EchoedByCalm(t, l)
  {
    forall p | p in t.net ensures !EchoFrom(p, l, t.nodes[l].term, t.nodes[l].readSeq + 1) {
      assert SeqBound(p, l, t.nodes[l].readSeq);
    }
  }

  /** The step that takes the read off the pending list is taken by the twin as well. */
  lemma AnswerMirrored<S>(m: StateMachine<S>, voters: seq<ReplicaId>, h: History, d: Cluster<S>, t: Cluster<S>,
                          s: Step, l: ReplicaId, pr: PendingRead)
    requires GroupOk(m, voters, h, d, t) && Local(s) && l in d.nodes
    requires pr in d.nodes[l].pending || s == SubmitRead(l, pr.reqId, pr.query)
    requires var e := Next(m, voters, d, s);
             l in e.nodes && e.nodes[l].role == Leader && pr !in e.nodes[l].pending
    ensures Shadow(m, voters, d, t, s) == Next(m, voters, t, s)
  {
    if Enabled(d, s) && s.Deliver? && Folded(d.nodes[s.p.dst], s.p.msg) {
      assert PairOk(m, voters, d.nodes[s.p.dst], t.nodes[s.p.dst]);
      FoldedPair(m, voters, d.nodes[s.p.dst], t.nodes[s.p.dst], s.p);
    }
  }

  /** The answer is the query's value on the first `a` entries of the log the replica has stored. */
  ghost predicate AnsweredFolded<S>(m: StateMachine<S>, before: seq<(nat, ReadResult)>, r: Node<S>, pr: PendingRead,
                                    full: Log, a: nat) {
    && Stored(m, r.store, full) && a <= |full|
    && Added(before, r.ready, (pr.reqId, Value(m.query(Replay(m, full[..a]), pr.query))))
  }

  lemma TwinAnswer<S(!new)>(m: StateMachine<S>, voters: seq<ReplicaId>, h: History, f: History, g: History,
                            c: Cluster<S>, t: Cluster<S>, d: Cluster<S>, r: Cluster<S>, s: Step, l: ReplicaId,
                            pr: PendingRead)
    returns (a: nat, full: Log)
    requires GroupOk(m, voters, h, c, t) && GroupOk(m, voters, f, d, r) && Later(h, f) && Onward(m, t, r) && AllIdle(r)
    requires Asked(t, l, pr) && l in d.nodes
    requires pr in d.nodes[l].pending || (r == t && s == SubmitRead(l, pr.reqId, pr.query))
    requires GroupOk(m, voters, g, Next(m, voters, d, s), Next(m, voters, r, s))
    requires ReadInv(Next(m, voters, r, s), l, t.nodes[l].term, pr.minSeq, Calm(t, t.nodes[l].term))
    requires var e := Next(m, voters, d, s);
             && l in e.nodes && e.nodes[l].role == Leader && e.nodes[l].term == c.nodes[l].term
             && pr !in e.nodes[l].pending
    ensures AnsweredFolded(m, d.nodes[l].ready, Next(m, voters, d, s).nodes[l], pr, full, a)
    ensures forall x :: x in c.nodes ==> c.nodes[x].commitIndex <= a
  {
    var e, v := Next(m, voters, d, s), Next(m, voters, r, s);
    assert PairOk(m, voters, c.nodes[l], t.nodes[l]) && PairOk(m, voters, d.nodes[l], r.nodes[l]);
    assert PairOk(m, voters, e.nodes[l], v.nodes[l]);
    TwinsApplied(m, voters, f, d, r);
    a := AnswerStep(m, voters, h, f, t, r, s, l, pr);
    full := v.nodes[l].store.log;
    forall x | x in c.nodes ensures c.nodes[x].commitIndex <= a {
      assert PairOk(m, voters, c.nodes[x], t.nodes[x]);
    }
  }

  /** From `c`, where the read is asked, to `d`, where step `s` takes it off the pending list. */
  lemma FoldedAnswer<S(!new)>(m: StateMachine<S>, voters: seq<ReplicaId>, h: History, f: History, c: Cluster<S>,
                              t: Cluster<S>, d: Cluster<S>, r: Cluster<S>, e: Cluster<S>, s: Step, l: ReplicaId,
                              pr: PendingRead)
    returns (a: nat, full: Log)
    requires Reversible(m) && Local(s) && e == Next(m, voters, d, s)
    requires GroupOk(m, voters, h, c, t) && GroupOk(m, voters, f, d, r) && Later(h, f) && Onward(m, t, r) && AllIdle(r)
    requires AskedFolded(c, l, pr) && l in t.nodes && l in d.nodes
    requires pr in d.nodes[l].pending || (r == t && s == SubmitRead(l, pr.reqId, pr.query))
    requires var n := t.nodes[l]; ReadInv(r, l, n.term, n.readSeq + 1, Calm(t, n.term))
    requires l in e.nodes && e.nodes[l].role == Leader && e.nodes[l].term == c.nodes[l].term
             && pr !in e.nodes[l].pending
    ensures AnsweredFolded(m, d.nodes[l].ready, e.nodes[l], pr, full, a)
    ensures forall x :: x in c.nodes ==> c.nodes[x].commitIndex <= a
  {
    var u := t.nodes[l].term;
    TwinAsked(m, voters, h, c, t, l, pr);
    ShadowReads(m, voters, f, d, r, s, l, u, pr.minSeq, Calm(t, u));
    AnswerMirrored(m, voters, f, d, r, s, l, pr);
    var g, w := GroupStep(m, voters, f, d, r, s);
    a, full := TwinAnswer(m, voters, h, f, g, c, t, d, r, s, l, pr);
  }

  lemma FirstReads<S(!new)>(m: StateMachine<S>, ids: set<ReplicaId>, voters: seq<ReplicaId>,
                            thresholds: ReplicaId -> nat, steps: seq<Step>, l: ReplicaId)
    returns (h: History, t: Cluster<S>)
    requires Reversible(m) && AllLocal(steps) && Restart(l) !in steps
    ensures GroupOk(m, voters, h, Go(m, voters, Begin(m, ids, voters, thresholds), steps), t)
    ensures AllIdle(t) && EchoedByCalm(t, l)
  {
    BeginOk(m, ids, voters, thresholds);
    var b, t0 := Begin(m, ids, voters, thresholds), Init(m, ids, voters);
    assert AllIdle(t0) && SeqInv(t0, l);
    h, t := GroupReads(m, voters, EmptyHistory(voters), b, t0, steps, l, 0, 0, {});
    if l in t.nodes { TwinCalm(t, l); }
  }

  lemma GoBetween<S>(m: StateMachine<S>, voters: seq<ReplicaId>, b: Cluster<S>, steps: seq<Step>, i: nat, j: nat)
    requires i <= j <= |steps|
    ensures Go(m, voters, b, steps[..j]) == Go(m, voters, Go(m, voters, b, steps[..i]), steps[i..j])
  {
    GoOn(m, voters, b, steps[..j], i);
    assert steps[..j][..i] == steps[..i] && steps[..j][i..] == steps[i..j];
  }

  lemma GoOnce<S>(m: StateMachine<S>, voters: seq<ReplicaId>, b: Cluster<S>, steps: seq<Step>, j: nat)
    requires j < |steps|
    ensures Go(m, voters, b, steps[..j + 1]) == Next(m, voters, Go(m, voters, b, steps[..j]), steps[j])
  {
    assert steps[..j + 1][..j] == steps[..j];
  }

  lemma ReadsOn<S(!new)>(m: StateMachine<S>, voters: seq<ReplicaId>, h: History, c: Cluster<S>, t: Cluster<S>,
                         steps: seq<Step>, l: ReplicaId, d: Cluster<S>)
    returns (f: History, r: Cluster<S>)
    requires Reversible(m) && AllLocal(steps) && GroupOk(m, voters, h, c, t) && AllIdle(t) && l in t.nodes
    requires d == Go(m, voters, c, steps) && EchoedByCalm(t, l)
    ensures GroupOk(m, voters, f, d, r) && Later(h, f) && Onward(m, t, r) && AllIdle(r) && (steps == [] ==> r == t)
    ensures var n := t.nodes[l]; ReadInv(r, l, n.term, n.readSeq + 1, Calm(t, n.term))
  {
    var u, q := t.nodes[l].term, t.nodes[l].readSeq + 1;
    var calm := Calm(t, u);
    assert ReadInv(t, l, u, q, calm);
    f, r := GroupReads(m, voters, h, c, t, steps, l, u, q, calm);
    assert ReadInv(r, l, u, q, calm);
  }

  /** The twins in states `i` and `j` of a run, and what is known in `j` about echoes when `l`, which has not
      restarted before `i`, is asked to read there. */
  lemma ReadStates<S(!new)>(m: StateMachine<S>, ids: set<ReplicaId>, voters: seq<ReplicaId>,
                            thresholds: ReplicaId -> nat, steps: seq<Step>, i: nat, j: nat, l: ReplicaId,
                            c: Cluster<S>, d: Cluster<S>)
    returns (h: History, t: Cluster<S>, f: History, r: Cluster<S>)
    requires Reversible(m) && AllLocal(steps) && i <= j < |steps| && Restart(l) !in steps[..i] && l in c.nodes
    requires var b := Begin(m, ids, voters, thresholds);
             c == Go(m, voters, b, steps[..i]) && d == Go(m, voters, b, steps[..j])
    ensures GroupOk(m, voters, h, c, t) && GroupOk(m, voters, f, d, r) && Later(h, f) && Onward(m, t, r) && AllIdle(r)
    ensures l in t.nodes && (i == j ==> r == t)
    ensures var n := t.nodes[l]; ReadInv(r, l, n.term, n.readSeq + 1, Calm(t, n.term))
  {
    h, t := FirstReads(m, ids, voters, thresholds, steps[..i], l);
    GoBetween(m, voters, Begin(m, ids, voters, thresholds), steps, i, j);
    f, r := ReadsOn(m, voters, h, c, t, steps[i..j], l, d);
  }

  /** ReadIndex freshness with compaction. Leader `l`, which has committed an entry of its own term and has not
      restarted, is asked to read at step `i`, in state `c`. If at step `j`, from `d` to `e`, the read leaves its
      pending list while it still leads that term, step `j` adds an answer to it: the query's value on a prefix of the
      log behind its store that covers everything any replica had committed in `c`. */
  lemma CompactedReadFresh<S(!new)>(m: StateMachine<S>, ids: set<ReplicaId>, voters: seq<ReplicaId>,
                                    thresholds: ReplicaId -> nat, steps: seq<Step>, i: nat, j: nat, l: ReplicaId,
                                    pr: PendingRead, c: Cluster<S>, d: Cluster<S>, e: Cluster<S>)
    returns (a: nat, full: Log)
    requires Reversible(m) && AllLocal(steps) && i <= j < |steps|
    requires var b := Begin(m, ids, voters, thresholds);
             c == Go(m, voters, b, steps[..i]) && d == Go(m, voters, b, steps[..j])
             && e == Go(m, voters, b, steps[..j + 1])
    requires steps[i] == SubmitRead(l, pr.reqId, pr.query) && Restart(l) !in steps[..i] && AskedFolded(c, l, pr)
    requires l in d.nodes && (j == i || pr in d.nodes[l].pending)
    requires l in e.nodes && pr !in e.nodes[l].pending && e.nodes[l].role == Leader
             && e.nodes[l].term == c.nodes[l].term
    ensures l in e.nodes && AnsweredFolded(m, d.nodes[l].ready, e.nodes[l], pr, full, a)
    ensures forall x :: x in c.nodes ==> c.nodes[x].commitIndex <= a
  {
    GoOnce(m, voters, Begin(m, ids, voters, thresholds), steps, j);
    var h, t, f, r := ReadStates(m, ids, voters, thresholds, steps, i, j, l, c, d);
    a, full := FoldedAnswer(m, voters, h, f, c, t, d, r, e, steps[j], l, pr);
  }
}
