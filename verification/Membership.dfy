/** Voter sets, quorums, and why quorums of neighbouring configurations meet. */
module Membership {
  import opened RaftTypes

  ghost function Elements(v: seq<ReplicaId>): (s: set<ReplicaId>) {
    set x | x in v
  }

  predicate StrictlyIncreasing(v: seq<nat>) {
    forall i, j :: 0 <= i < j < |v| ==> v[i] < v[j]
  }

  /** Insert into a strictly increasing sequence, dropping a duplicate. */
  function Insert(x: nat, v: seq<nat>): (r: seq<nat>)
    requires StrictlyIncreasing(v)
    ensures StrictlyIncreasing(r)
    ensures forall y :: y in r <==> y == x || y in v
  {
    if v == [] then [x]
    else if x < v[0] then [x] + v
    else if x == v[0] then v
    else
      var rest := Insert(x, v[1..]);
      assert forall k :: 0 <= k < |rest| ==> rest[k] > v[0] by {
        forall k | 0 <= k < |rest| ensures rest[k] > v[0] {
          assert rest[k] in rest;
        }
      }
      [v[0]] + rest
  }

  /** `sort_unstable` followed by `dedup`. */
  function Sorted(v: seq<nat>): (r: seq<nat>)
    ensures StrictlyIncreasing(r)
    ensures forall y :: y in r <==> y in v
  {
    if v == [] then [] else Insert(v[0], Sorted(v[1..]))
  }

  /** Everybody but `me`, in order. */
  function Without(v: seq<ReplicaId>, me: ReplicaId): (r: seq<ReplicaId>)
    ensures forall x :: x in r <==> x in v && x != me
  {
    if v == [] then [] else (if v[0] == me then [] else [v[0]]) + Without(v[1..], me)
  }

  function Voters(c: ConfState): (v: seq<ReplicaId>) {
    match c
    case Simple(v) => v
    case Joint(o, n) => Sorted(o + n)
  }

  /** How many positions of `v` hold a member of `acked`. */
  function CountIn(v: seq<ReplicaId>, acked: set<ReplicaId>): (n: nat)
  {
    if v == [] then 0 else (if v[0] in acked then 1 else 0) + CountIn(v[1..], acked)
  }

  predicate Majority(v: seq<ReplicaId>, acked: set<ReplicaId>) {
    CountIn(v, acked) > |v| / 2
  }

  predicate IsQuorum(c: ConfState, acked: set<ReplicaId>) {
    match c
    case Simple(v) => Majority(v, acked)
    case Joint(o, n) => Majority(o, acked) && Majority(n, acked)
  }

  lemma {:induction false} CountSplit(v: seq<ReplicaId>, a: set<ReplicaId>, b: set<ReplicaId>)
    requires a !! b
    ensures CountIn(v, a) + CountIn(v, b) <= |v|
  {
    if v != [] {
      CountSplit(v[1..], a, b);
    }
  }

  /** Two majorities of the same voter list share a voter. */
  lemma MajoritiesMeet(v: seq<ReplicaId>, a: set<ReplicaId>, b: set<ReplicaId>)
    requires Majority(v, a) && Majority(v, b)
    ensures exists x :: x in a && x in b
  {
    if a !! b {
      CountSplit(v, a, b);
    }
  }

  lemma {:induction false} WithoutIncreasing(v: seq<ReplicaId>, me: ReplicaId)
    requires StrictlyIncreasing(v)
    ensures StrictlyIncreasing(Without(v, me))
  {
    if v != [] {
      WithoutIncreasing(v[1..], me);
      var rest := Without(v[1..], me);
      forall k | 0 <= k < |rest| ensures v[0] < rest[k] { assert rest[k] in rest; }
    }
  }

  lemma {:induction false} ElementsCount(v: seq<ReplicaId>)
    requires StrictlyIncreasing(v)
    ensures |Elements(v)| == |v|
  {
    if v != [] {
      ElementsCount(v[1..]);
      assert Elements(v) == {v[0]} + Elements(v[1..]);
      assert v[0] !in Elements(v[1..]);
    }
  }
}
