/** Directed graphs as adjacency maps, and reachability in them. */
module Digraph {
  predicate Edge<T(==)>(g: map<T, set<T>>, a: T, b: T) {
    a in g && b in g[a]
  }

  ghost predicate Path<T(!new)>(g: map<T, set<T>>, p: seq<T>) {
    p != [] && forall k {:trigger p[k]} :: 0 <= k < |p| - 1 ==> Edge(g, p[k], p[k + 1])
  }

  ghost predicate PathFrom<T(!new)>(g: map<T, set<T>>, p: seq<T>, a: T, b: T) {
    Path(g, p) && p[0] == a && p[|p| - 1] == b
  }

  /** `b` can be reached from `a` in any number of steps, including none. */
  ghost predicate Reach<T(!new)>(g: map<T, set<T>>, a: T, b: T) {
    exists p :: PathFrom(g, p, a, b)
  }

  lemma ReachSelf<T(!new)>(g: map<T, set<T>>, a: T)
    ensures Reach(g, a, a)
  {
    assert PathFrom(g, [a], a, a);
  }

  lemma ReachEdge<T(!new)>(g: map<T, set<T>>, a: T, b: T)
    requires Edge(g, a, b)
    ensures Reach(g, a, b)
  {
    assert PathFrom(g, [a, b], a, b);
  }

  lemma ReachTrans<T(!new)>(g: map<T, set<T>>, a: T, b: T, c: T)
    requires Reach(g, a, b) && Reach(g, b, c)
    ensures Reach(g, a, c)
  {
    var p :| PathFrom(g, p, a, b);
    var q :| PathFrom(g, q, b, c);
    var r := p + q[1..];
    forall k | 0 <= k < |r| - 1 ensures Edge(g, r[k], r[k + 1]) {
      if k < |p| - 1 {
        assert Edge(g, p[k], p[k + 1]);
      } else {
        assert Edge(g, q[k - |p| + 1], q[k - |p| + 2]);
      }
    }
    assert PathFrom(g, r, a, c);
  }

  /** No edge of `g` leaves `s`. */
  ghost predicate Closed<T(!new)>(g: map<T, set<T>>, s: set<T>) {
    forall a, b {:trigger Edge(g, a, b)} :: a in s && Edge(g, a, b) ==> b in s
  }

  lemma {:induction false} PathStays<T(!new)>(g: map<T, set<T>>, s: set<T>, p: seq<T>, k: nat)
    requires Closed(g, s) && Path(g, p) && p[0] in s && k < |p|
    ensures p[k] in s
  {
    if k > 0 {
      PathStays(g, s, p, k - 1);
      assert Edge(g, p[k - 1], p[k]);
    }
  }

  lemma ReachStays<T(!new)>(g: map<T, set<T>>, s: set<T>, a: T, b: T)
    requires Closed(g, s) && a in s && Reach(g, a, b)
    ensures b in s
  {
    var p :| PathFrom(g, p, a, b);
    PathStays(g, s, p, |p| - 1);
  }

  /** On `s`, every edge of `g` is one of `h`. */
  ghost predicate Within<T(!new)>(g: map<T, set<T>>, h: map<T, set<T>>, s: set<T>) {
    forall a, b {:trigger Edge(g, a, b)} :: a in s && Edge(g, a, b) ==> Edge(h, a, b)
  }

  /** Reaching inside a closed set only depends on the edges there. */
  lemma ReachWithin<T(!new)>(g: map<T, set<T>>, h: map<T, set<T>>, s: set<T>, a: T, b: T)
    requires Closed(g, s) && Within(g, h, s) && a in s && Reach(g, a, b)
    ensures Reach(h, a, b)
  {
    var p :| PathFrom(g, p, a, b);
    forall k | 0 <= k < |p| - 1 ensures Edge(h, p[k], p[k + 1]) {
      PathStays(g, s, p, k);
      assert Edge(g, p[k], p[k + 1]);
    }
    assert PathFrom(h, p, a, b);
  }

  ghost predicate SameEdges<T(!new)>(g: map<T, set<T>>, h: map<T, set<T>>) {
    forall a, b {:trigger Edge(g, a, b)} {:trigger Edge(h, a, b)} :: Edge(g, a, b) <==> Edge(h, a, b)
  }

  lemma ReachSame<T(!new)>(g: map<T, set<T>>, h: map<T, set<T>>, a: T, b: T)
    requires SameEdges(g, h)
    ensures Reach(g, a, b) <==> Reach(h, a, b)
  {
    if Reach(g, a, b) {
      var p :| PathFrom(g, p, a, b);
      assert PathFrom(h, p, a, b);
    }
    if Reach(h, a, b) {
      var p :| PathFrom(h, p, a, b);
      assert PathFrom(g, p, a, b);
    }
  }

  /** The part of a graph between members of `s`. */
  function Restrict<T(==)>(g: map<T, set<T>>, s: set<T>): map<T, set<T>> {
    map a | a in s && a in g :: g[a] * s
  }

  /** If what leaves `s` never comes back, reaching between members of `s` is the same in its restriction. */
  lemma ReachRestrict<T(!new)>(g: map<T, set<T>>, s: set<T>, past: set<T>, a: T, b: T)
    requires Closed(g, past) && s !! past && Closed(g, s + past) && a in s && b in s
    ensures Reach(Restrict(g, s), a, b) <==> Reach(g, a, b)
  {
    var h := Restrict(g, s);
    if Reach(h, a, b) {
      assert Closed(h, s) && Within(h, g, s);
      ReachWithin(h, g, s, a, b);
    }
    if Reach(g, a, b) {
      var p :| PathFrom(g, p, a, b);
      forall k | 0 <= k < |p| ensures p[k] in s {
        PathStays(g, s + past, p, k);
        if p[k] in past {
          assert Reach(g, p[k], b) by { assert PathFrom(g, p[k..], p[k], b); }
          ReachStays(g, past, p[k], b);
        }
      }
      forall k | 0 <= k < |p| - 1 ensures Edge(h, p[k], p[k + 1]) {
        assert Edge(g, p[k], p[k + 1]);
      }
      assert PathFrom(h, p, a, b);
    }
  }
}
