/** Configuration entries inside a log: which one is in effect, the chain
    Simple(v), Joint(v,w), Simple(w), Joint(w,x), ... they must form, and the
    overlap of quorums taken under two logs that agree up to each other's last
    finished change. */
module ConfigChain {
  import opened RaftTypes
  import opened Membership

  type Log = seq<Entry>

  /** `a` and `b` hold the same first `k` entries. */
  ghost predicate Agree(a: Log, b: Log, k: nat) {
    k <= |a| && k <= |b| && forall i :: 0 <= i < k ==> a[i] == b[i]
  }

  predicate IsConfig(e: Entry) { e.payload.Config? }

  predicate IsSimple(e: Entry) { e.payload.Config? && e.payload.conf.Simple? }

  /** Position of the last `Config` entry, or -1. */
  function LastConfigPos(log: Log): (p: int)
    ensures -1 <= p < |log|
    ensures p >= 0 ==> IsConfig(log[p])
    ensures forall i :: p < i < |log| ==> !IsConfig(log[i])
  {
    if log == [] then -1
    else if IsConfig(log[|log| - 1]) then |log| - 1
    else LastConfigPos(log[..|log| - 1])
  }

  /** Position of the last settled (`Simple`) configuration, or -1. */
  function LastSimplePos(log: Log): (p: int)
    ensures -1 <= p < |log|
    ensures p >= 0 ==> IsSimple(log[p])
    ensures forall i :: p < i < |log| ==> !IsSimple(log[i])
  {
    if log == [] then -1
    else if IsSimple(log[|log| - 1]) then |log| - 1
    else LastSimplePos(log[..|log| - 1])
  }

  /** The configuration in effect: the last one in the log, committed or not. */
  function ConfigOf(base: ConfState, log: Log): (c: ConfState) {
    var p := LastConfigPos(log);
    if p < 0 then base else log[p].payload.conf
  }

  /** One legal change of configuration. */
  predicate NextConf(c: ConfState, d: ConfState) {
    match c
    case Simple(v) => d.Joint? && d.outgoing == v
    case Joint(_, w) => d == Simple(w)
  }

  ghost predicate Chain(base: ConfState, log: Log) {
    base.Simple? &&
    forall k :: 0 <= k < |log| && IsConfig(log[k]) ==> NextConf(ConfigOf(base, log[..k]), log[k].payload.conf)
  }

  /** Length of the prefix ending with the last `Joint` that was followed by its
      `Simple`; 0 when no change has been finished in this log. */
  ghost function FinishedLen(log: Log): (n: nat)
    ensures n <= |log|
  {
    var j := LastSimplePos(log);
    if j < 0 then 0 else LastConfigPos(log[..j]) + 1
  }

  /** Chains are closed under taking prefixes and under agreement. */
  lemma ChainPrefix(base: ConfState, a: Log, b: Log, k: nat)
    requires Chain(base, b) && Agree(a, b, k)
    ensures Chain(base, a[..k])
  {
    var p := a[..k];
    forall i | 0 <= i < |p| && IsConfig(p[i])
      ensures NextConf(ConfigOf(base, p[..i]), p[i].payload.conf)
    {
      assert p[..i] == b[..i];
      assert p[i] == b[i];
    }
  }

  /** Appending keeps the chain exactly when the new entry is a legal change. */
  lemma ChainAppend(base: ConfState, log: Log, e: Entry)
    requires Chain(base, log)
    requires IsConfig(e) ==> NextConf(ConfigOf(base, log), e.payload.conf)
    ensures Chain(base, log + [e])
  {
    var l := log + [e];
    forall i | 0 <= i < |l| && IsConfig(l[i])
      ensures NextConf(ConfigOf(base, l[..i]), l[i].payload.conf)
    {
      if i < |log| {
        assert l[..i] == log[..i];
      } else {
        assert l[..i] == log;
      }
    }
  }

  lemma ConfigAppend(base: ConfState, log: Log, e: Entry)
    ensures ConfigOf(base, log + [e]) == if IsConfig(e) then e.payload.conf else ConfigOf(base, log)
  {
    assert (log + [e])[..|log|] == log;
  }

  /** The settled voters every quorum under this log needs a majority of. */
  ghost function Anchor(base: ConfState, log: Log): seq<ReplicaId>
    requires base.Simple?
  {
    var j := LastSimplePos(log);
    if j < 0 then base.voters else log[j].payload.conf.voters
  }

  lemma AnchorOfConfig(base: ConfState, log: Log)
    requires Chain(base, log)
    ensures ConfigOf(base, log) == Simple(Anchor(base, log))
         || (ConfigOf(base, log).Joint? && ConfigOf(base, log).outgoing == Anchor(base, log))
  {
    var p, j := LastConfigPos(log), LastSimplePos(log);
    if p > j {
      // The last configuration is Joint; what it replaced is the last Simple.
      var q := LastConfigPos(log[..p]);
      assert NextConf(ConfigOf(base, log[..p]), log[p].payload.conf);
      assert q >= 0 ==> log[..p][q] == log[q] && IsSimple(log[q]);
      if j >= 0 {
        assert log[..p][j] == log[j];
      }
      assert q == j;
    }
  }

  /** A Joint that no Simple follows is the configuration in effect. */
  lemma {:induction false} OpenJoint(base: ConfState, log: Log, i: nat)
    requires Chain(base, log) && i < |log| && IsConfig(log[i]) && !IsSimple(log[i])
    requires forall k :: i < k < |log| ==> !IsSimple(log[k])
    ensures LastConfigPos(log) == i
    decreases |log|
  {
    if i < |log| - 1 {
      var l := log[..|log| - 1];
      ChainPrefix(base, log, log, |log| - 1);
      OpenJoint(base, l, i);
      // What follows a Joint is its Simple, so the last entry is no configuration.
      assert ConfigOf(base, l) == log[i].payload.conf;
    }
  }

  /** The Simple entry at the last settled position finishes the Joint before it. */
  lemma FinishedJoint(base: ConfState, log: Log)
    requires Chain(base, log) && LastSimplePos(log) >= 0
    ensures FinishedLen(log) >= 1
    ensures FinishedLen(log) - 1 < LastSimplePos(log)
    ensures IsConfig(log[FinishedLen(log) - 1]) && log[FinishedLen(log) - 1].payload.conf.Joint?
    ensures log[FinishedLen(log) - 1].payload.conf.incoming == Anchor(base, log)
  {
    var j := LastSimplePos(log);
    var i := LastConfigPos(log[..j]);
    assert NextConf(ConfigOf(base, log[..j]), log[j].payload.conf);
    assert i >= 0;
    assert log[..j][i] == log[i];
  }

  /** Quorum overlap. When each log contains the other's last finished change,
      a quorum of one configuration meets every quorum of the other. */
  lemma QuorumsMeet(base: ConfState, a: Log, b: Log, qa: set<ReplicaId>, qb: set<ReplicaId>)
    requires Chain(base, a) && Chain(base, b)
    requires Agree(a, b, FinishedLen(a)) && Agree(a, b, FinishedLen(b))
    requires IsQuorum(ConfigOf(base, a), qa) && IsQuorum(ConfigOf(base, b), qb)
    ensures exists x :: x in qa && x in qb
  {
    AnchorOfConfig(base, a);
    AnchorOfConfig(base, b);
    if FinishedLen(a) == FinishedLen(b) {
      SameAnchor(base, a, b);
      MajoritiesMeet(Anchor(base, a), qa, qb);
    } else if FinishedLen(a) < FinishedLen(b) {
      BehindByOne(base, a, b);
      MajoritiesMeet(Anchor(base, b), qa, qb);
    } else {
      BehindByOne(base, b, a);
      MajoritiesMeet(Anchor(base, a), qa, qb);
    }
  }

  lemma SameAnchor(base: ConfState, a: Log, b: Log)
    requires Chain(base, a) && Chain(base, b)
    requires FinishedLen(a) == FinishedLen(b) && Agree(a, b, FinishedLen(a))
    ensures Anchor(base, a) == Anchor(base, b)
  {
    if LastSimplePos(a) >= 0 { FinishedJoint(base, a); }
    if LastSimplePos(b) >= 0 { FinishedJoint(base, b); }
  }

  /** `a` holds `b`'s finished Joint but has not finished it: it is in effect in `a`. */
  lemma BehindByOne(base: ConfState, a: Log, b: Log)
    requires Chain(base, a) && Chain(base, b)
    requires FinishedLen(a) < FinishedLen(b) && Agree(a, b, FinishedLen(b))
    ensures ConfigOf(base, a).Joint? && ConfigOf(base, a).incoming == Anchor(base, b)
  {
    FinishedJoint(base, b);
    var i := FinishedLen(b) - 1;
    if LastSimplePos(a) > i { FinishedPast(a, i); }
    OpenJoint(base, a, i);
  }

  /** With a Simple after position i, the finished prefix reaches past a configuration at i. */
  lemma FinishedPast(log: Log, i: nat)
    requires i < LastSimplePos(log) && IsConfig(log[i])
    ensures FinishedLen(log) > i
  {
    assert log[..LastSimplePos(log)][i] == log[i];
  }
}
