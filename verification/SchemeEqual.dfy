/** `equal?` on heaps of pairs, vectors, strings, bytevectors and atoms, possibly cyclic
    through pairs: it terminates, and answers true exactly when the two graphs are
    bisimilar with matching leaves. A cycle through vectors alone it follows forever. */
module SchemeEqual {
  import opened Wrappers

  type Addr = nat

  datatype Value = Atom(a: int) | Str(s: Addr) | Bytes(v: Addr) | Cell(p: Addr) | Vector(w: Addr)

  datatype Pair = Pair(car: Value, cdr: Value)

  datatype Heap = Heap(strings: map<Addr, string>, bytes: map<Addr, seq<nat>>, pairs: map<Addr, Pair>,
                       vectors: map<Addr, seq<Value>>)

  /** `eqv?` on atoms: numbers by value and exactness, everything else by identity. */
  type AtomEqv = (int, int) -> bool

  predicate ValidRef(h: Heap, x: Value) {
    match x
    case Atom(_) => true
    case Str(s) => s in h.strings
    case Bytes(v) => v in h.bytes
    case Cell(p) => p in h.pairs
    case Vector(w) => w in h.vectors
  }

  /** No dangling references. */
  ghost predicate WellFormed(h: Heap) {
    && (forall p {:trigger h.pairs[p]} :: p in h.pairs ==> ValidRef(h, h.pairs[p].car) && ValidRef(h, h.pairs[p].cdr))
    && (forall w, k {:trigger h.vectors[w][k]} :: w in h.vectors && 0 <= k < |h.vectors[w]| ==>
          ValidRef(h, h.vectors[w][k]))
  }

  /** How deep vectors nest inside vectors without a pair in between. */
  ghost function Depth(rank: map<Addr, nat>, x: Value): nat {
    if x.Vector? && x.w in rank then rank[x.w] + 1 else 0
  }

  /** Vectors contain only shallower ones: no cycle runs through vectors alone. */
  ghost predicate Nested(h: Heap, rank: map<Addr, nat>) {
    && h.vectors.Keys <= rank.Keys
    && forall w, k {:trigger h.vectors[w][k]} :: w in h.vectors && 0 <= k < |h.vectors[w]| ==>
         Depth(rank, h.vectors[w][k]) <= rank[w]
  }

  // ---- the algorithm ----

  type Keys = set<(Addr, Addr)>

  ghost function AllKeys(h: Heap): Keys {
    set x, y | x in h.pairs && y in h.pairs :: (x, y)
  }

  predicate Eqv(eqv: AtomEqv, a: Value, b: Value) {
    if a.Atom? && b.Atom? then eqv(a.a, b.a) else a == b
  }

  lemma KeyAdded(h: Heap, visited: Keys, x: Addr, y: Addr)
    requires x in h.pairs && y in h.pairs && (x, y) !in visited
    ensures |AllKeys(h) - (visited + {(x, y)})| < |AllKeys(h) - visited|
  {
    assert AllKeys(h) - visited == (AllKeys(h) - (visited + {(x, y)})) + {(x, y)};
  }

  lemma {:induction false} FewerLeft(k: Keys, v: Keys, w: Keys)
    requires v <= w
    ensures |k - w| <= |k - v|
    decreases |k - w|
  {
    if k - w != {} {
      var x :| x in k - w;
      assert k - {x} - w == (k - w) - {x} && k - {x} - v == (k - v) - {x};
      FewerLeft(k - {x}, v, w);
    }
  }

  /** Compare, remembering visited pairs once the fuel has run out. */
  function EqualRec(h: Heap, ghost rank: map<Addr, nat>, eqv: AtomEqv, a: Value, b: Value, visited: Keys,
                    fuel: nat): (r: (bool, Keys))
    requires WellFormed(h) && Nested(h, rank) && ValidRef(h, a) && ValidRef(h, b)
    ensures visited <= r.1
    decreases fuel, |AllKeys(h) - visited|, 2 * Depth(rank, a) + 1
  {
    if Eqv(eqv, a, b) then (true, visited)
    else if a.Str? && b.Str? then (h.strings[a.s] == h.strings[b.s], visited)
    else if a.Bytes? && b.Bytes? then (h.bytes[a.v] == h.bytes[b.v], visited)
    else if a.Cell? && b.Cell? then
      if fuel == 0 then
        if (a.p, b.p) in visited then (true, visited)
        else
          KeyAdded(h, visited, a.p, b.p);
          EqualPairs(h, rank, eqv, h.pairs[a.p], h.pairs[b.p], visited + {(a.p, b.p)}, 0)
      else EqualPairs(h, rank, eqv, h.pairs[a.p], h.pairs[b.p], visited, fuel - 1)
    else if a.Vector? && b.Vector? then
      if |h.vectors[a.w]| != |h.vectors[b.w]| then (false, visited)
      else EqualAll(h, rank, eqv, h.vectors[a.w], h.vectors[b.w], Depth(rank, a), visited, if fuel == 0 then 0
                    else fuel - 1)
    else (false, visited)
  }

  /** Both components, the second only if the first agree. */
  function EqualPairs(h: Heap, ghost rank: map<Addr, nat>, eqv: AtomEqv, x: Pair, y: Pair, visited: Keys,
                      fuel: nat): (r: (bool, Keys))
    requires WellFormed(h) && Nested(h, rank)
    requires ValidRef(h, x.car) && ValidRef(h, x.cdr) && ValidRef(h, y.car) && ValidRef(h, y.cdr)
    ensures visited <= r.1
    decreases fuel, |AllKeys(h) - visited|, 2 * (Depth(rank, x.car) + Depth(rank, x.cdr)) + 2
  {
    var (ok, seen) := EqualRec(h, rank, eqv, x.car, y.car, visited, fuel);
    FewerLeft(AllKeys(h), visited, seen);
    if !ok then (false, seen) else EqualRec(h, rank, eqv, x.cdr, y.cdr, seen, fuel)
  }

  /** All elements in turn, up to the first that differ; each is shallower than `bound`. */
  function EqualAll(h: Heap, ghost rank: map<Addr, nat>, eqv: AtomEqv, xs: seq<Value>, ys: seq<Value>, ghost bound: nat,
                    visited: Keys, fuel: nat): (r: (bool, Keys))
    requires WellFormed(h) && Nested(h, rank) && |xs| == |ys|
    requires forall k {:trigger xs[k]} :: 0 <= k < |xs| ==> ValidRef(h, xs[k]) && Depth(rank, xs[k]) < bound
    requires forall k {:trigger ys[k]} :: 0 <= k < |ys| ==> ValidRef(h, ys[k])
    ensures visited <= r.1
    decreases fuel, |AllKeys(h) - visited|, 2 * bound, |xs|
  {
    if xs == [] then (true, visited)
    else
      var (ok, seen) := EqualRec(h, rank, eqv, xs[0], ys[0], visited, fuel);
      FewerLeft(AllKeys(h), visited, seen);
      if !ok then (false, seen) else EqualAll(h, rank, eqv, xs[1..], ys[1..], bound, seen, fuel)
  }

  function Equal(h: Heap, ghost rank: map<Addr, nat>, eqv: AtomEqv, a: Value, b: Value): bool
    requires WellFormed(h) && Nested(h, rank) && ValidRef(h, a) && ValidRef(h, b)
  {
    EqualRec(h, rank, eqv, a, b, {}, 64).0
  }

  // ---- bisimilarity ----

  type Relation = (Value, Value) -> bool

  /** `a` and `b` look alike, and their parts are related. */
  ghost predicate Related(h: Heap, eqv: AtomEqv, r: Relation, a: Value, b: Value)
    requires ValidRef(h, a) && ValidRef(h, b)
  {
    match (a, b)
    case (Atom(x), Atom(y)) => eqv(x, y)
    case (Str(x), Str(y)) => h.strings[x] == h.strings[y]
    case (Bytes(x), Bytes(y)) => h.bytes[x] == h.bytes[y]
    case (Cell(x), Cell(y)) => r(h.pairs[x].car, h.pairs[y].car) && r(h.pairs[x].cdr, h.pairs[y].cdr)
    case (Vector(x), Vector(y)) => && |h.vectors[x]| == |h.vectors[y]|
                                   && forall k :: 0 <= k < |h.vectors[x]| ==> r(h.vectors[x][k], h.vectors[y][k])
    case _ => false
  }

  ghost predicate Bisimulation(h: Heap, eqv: AtomEqv, r: Relation) {
    forall a, b {:trigger r(a, b)} :: r(a, b) ==> ValidRef(h, a) && ValidRef(h, b) && Related(h, eqv, r, a, b)
  }

  ghost predicate Bisimilar(h: Heap, eqv: AtomEqv, a: Value, b: Value) {
    exists r: Relation :: Bisimulation(h, eqv, r) && r(a, b)
  }

  /** Every atom is eqv to itself (so no NaN). */
  ghost predicate Reflexive(eqv: AtomEqv) {
    forall x {:trigger eqv(x, x)} :: eqv(x, x)
  }

  // ---- bisimilar values compare equal ----

  lemma RecComplete(h: Heap, rank: map<Addr, nat>, eqv: AtomEqv, r: Relation, a: Value, b: Value, visited: Keys,
                    fuel: nat)
    requires WellFormed(h) && Nested(h, rank) && Bisimulation(h, eqv, r) && r(a, b)
    ensures ValidRef(h, a) && ValidRef(h, b) && EqualRec(h, rank, eqv, a, b, visited, fuel).0
    decreases fuel, |AllKeys(h) - visited|, 2 * Depth(rank, a) + 1
  {
    assert ValidRef(h, a) && ValidRef(h, b) && Related(h, eqv, r, a, b);
    if !Eqv(eqv, a, b) {
      if a.Cell? && (fuel > 0 || (a.p, b.p) !in visited) {
        if fuel == 0 { KeyAdded(h, visited, a.p, b.p); }
        PairsComplete(h, rank, eqv, r, h.pairs[a.p], h.pairs[b.p],
                      if fuel == 0 then visited + {(a.p, b.p)} else visited, if fuel == 0 then 0 else fuel - 1);
      } else if a.Vector? {
        AllComplete(h, rank, eqv, r, h.vectors[a.w], h.vectors[b.w], Depth(rank, a), visited, if fuel == 0 then 0
                    else fuel - 1);
      }
    }
  }

  lemma PairsComplete(h: Heap, rank: map<Addr, nat>, eqv: AtomEqv, r: Relation, x: Pair, y: Pair, visited: Keys,
                      fuel: nat)
    requires WellFormed(h) && Nested(h, rank) && Bisimulation(h, eqv, r) && r(x.car, y.car) && r(x.cdr, y.cdr)
    ensures ValidRef(h, x.car) && ValidRef(h, x.cdr) && ValidRef(h, y.car) && ValidRef(h, y.cdr)
    ensures EqualPairs(h, rank, eqv, x, y, visited, fuel).0
    decreases fuel, |AllKeys(h) - visited|, 2 * (Depth(rank, x.car) + Depth(rank, x.cdr)) + 2
  {
    RecComplete(h, rank, eqv, r, x.car, y.car, visited, fuel);
    var seen := EqualRec(h, rank, eqv, x.car, y.car, visited, fuel).1;
    FewerLeft(AllKeys(h), visited, seen);
    RecComplete(h, rank, eqv, r, x.cdr, y.cdr, seen, fuel);
  }

  lemma AllComplete(h: Heap, rank: map<Addr, nat>, eqv: AtomEqv, r: Relation, xs: seq<Value>, ys: seq<Value>,
                    bound: nat, visited: Keys, fuel: nat)
    requires WellFormed(h) && Nested(h, rank) && Bisimulation(h, eqv, r) && |xs| == |ys|
    requires forall k {:trigger xs[k]} :: 0 <= k < |xs| ==> ValidRef(h, xs[k]) && Depth(rank, xs[k]) < bound
    requires forall k {:trigger ys[k]} :: 0 <= k < |ys| ==> ValidRef(h, ys[k])
    requires forall k {:trigger xs[k]} :: 0 <= k < |xs| ==> r(xs[k], ys[k])
    ensures EqualAll(h, rank, eqv, xs, ys, bound, visited, fuel).0
    decreases fuel, |AllKeys(h) - visited|, 2 * bound, |xs|
  {
    if xs != [] {
      assert xs[0] == xs[0] && r(xs[0], ys[0]);
      RecComplete(h, rank, eqv, r, xs[0], ys[0], visited, fuel);
      var seen := EqualRec(h, rank, eqv, xs[0], ys[0], visited, fuel).1;
      FewerLeft(AllKeys(h), visited, seen);
      assert forall k :: 0 <= k < |xs| - 1 ==> xs[1..][k] == xs[k + 1] && ys[1..][k] == ys[k + 1];
      AllComplete(h, rank, eqv, r, xs[1..], ys[1..], bound, seen, fuel);
    }
  }

  // ---- values that compare equal are bisimilar ----

  /** Alike down to depth `n`, taking the pairs in `w` for granted. */
  ghost predicate Close(h: Heap, eqv: AtomEqv, w: Keys, a: Value, b: Value, n: nat)
    decreases n, 0
  {
    && ValidRef(h, a) && ValidRef(h, b)
    && (|| Eqv(eqv, a, b)
        || (a.Str? && b.Str? && h.strings[a.s] == h.strings[b.s])
        || (a.Bytes? && b.Bytes? && h.bytes[a.v] == h.bytes[b.v])
        || (a.Cell? && b.Cell?
            && ((a.p, b.p) in w || (n > 0 && ClosePair(h, eqv, w, h.pairs[a.p], h.pairs[b.p], n - 1))))
        || (a.Vector? && b.Vector? && n > 0 && CloseAll(h, eqv, w, h.vectors[a.w], h.vectors[b.w], n - 1)))
  }

  ghost predicate ClosePair(h: Heap, eqv: AtomEqv, w: Keys, x: Pair, y: Pair, n: nat)
    decreases n, 1
  {
    Close(h, eqv, w, x.car, y.car, n) && Close(h, eqv, w, x.cdr, y.cdr, n)
  }

  ghost predicate CloseAll(h: Heap, eqv: AtomEqv, w: Keys, xs: seq<Value>, ys: seq<Value>, n: nat)
    decreases n, 1
  {
    |xs| == |ys| && forall k {:trigger xs[k]} :: 0 <= k < |xs| ==> Close(h, eqv, w, xs[k], ys[k], n)
  }

  lemma {:induction false} CloseMono(h: Heap, eqv: AtomEqv, w: Keys, v: Keys, a: Value, b: Value, n: nat, m: nat)
    requires Close(h, eqv, w, a, b, n) && w <= v && n <= m
    ensures Close(h, eqv, v, a, b, m)
    decreases n
  {
    if n > 0 && !Eqv(eqv, a, b) {
      if a.Cell? && b.Cell? && (a.p, b.p) !in w {
        CloseMono(h, eqv, w, v, h.pairs[a.p].car, h.pairs[b.p].car, n - 1, m - 1);
        CloseMono(h, eqv, w, v, h.pairs[a.p].cdr, h.pairs[b.p].cdr, n - 1, m - 1);
      } else if a.Vector? && b.Vector? {
        forall k | 0 <= k < |h.vectors[a.w]| ensures Close(h, eqv, v, h.vectors[a.w][k], h.vectors[b.w][k], m - 1) {
          CloseMono(h, eqv, w, v, h.vectors[a.w][k], h.vectors[b.w][k], n - 1, m - 1);
        }
      }
    }
  }

  /** The parts of the two pairs of a key are close. */
  ghost predicate KeyHeld(h: Heap, eqv: AtomEqv, w: Keys, x: Addr, y: Addr, n: nat) {
    x in h.pairs && y in h.pairs && ClosePair(h, eqv, w, h.pairs[x], h.pairs[y], n)
  }

  ghost predicate NewHeld(h: Heap, eqv: AtomEqv, before: Keys, w: Keys, n: nat) {
    forall x, y {:trigger (x, y) in w} :: (x, y) in w && (x, y) !in before ==> KeyHeld(h, eqv, w, x, y, n)
  }

  lemma NewHeldMono(h: Heap, eqv: AtomEqv, before: Keys, w: Keys, v: Keys, n: nat, m: nat)
    requires NewHeld(h, eqv, before, w, n) && w <= v && n <= m
    ensures forall x, y {:trigger (x, y) in w} :: (x, y) in w && (x, y) !in before ==> KeyHeld(h, eqv, v, x, y, m)
  {
    forall x, y | (x, y) in w && (x, y) !in before ensures KeyHeld(h, eqv, v, x, y, m) {
      CloseMono(h, eqv, w, v, h.pairs[x].car, h.pairs[y].car, n, m);
      CloseMono(h, eqv, w, v, h.pairs[x].cdr, h.pairs[y].cdr, n, m);
    }
  }

  function Max(a: nat, b: nat): nat {
    if a <= b then b else a
  }

  lemma RecSound(h: Heap, rank: map<Addr, nat>, eqv: AtomEqv, a: Value, b: Value, visited: Keys, fuel: nat)
    returns (n: nat)
    requires WellFormed(h) && Nested(h, rank) && ValidRef(h, a) && ValidRef(h, b)
             && EqualRec(h, rank, eqv, a, b, visited, fuel).0
    ensures var seen := EqualRec(h, rank, eqv, a, b, visited, fuel).1;
            Close(h, eqv, seen, a, b, n) && NewHeld(h, eqv, visited, seen, n)
    decreases fuel, |AllKeys(h) - visited|, 2 * Depth(rank, a) + 1
  {
    n := 0;
    if !Eqv(eqv, a, b) {
      if a.Cell? && (fuel > 0 || (a.p, b.p) !in visited) {
        n := CellSound(h, rank, eqv, a, b, visited, fuel);
      } else if a.Vector? {
        n := VectorSound(h, rank, eqv, a, b, visited, fuel);
      }
    }
  }

  lemma CellSound(h: Heap, rank: map<Addr, nat>, eqv: AtomEqv, a: Value, b: Value, visited: Keys, fuel: nat)
    returns (n: nat)
    requires WellFormed(h) && Nested(h, rank) && ValidRef(h, a) && ValidRef(h, b)
             && EqualRec(h, rank, eqv, a, b, visited, fuel).0
    requires !Eqv(eqv, a, b) && a.Cell? && (fuel > 0 || (a.p, b.p) !in visited)
    ensures var seen := EqualRec(h, rank, eqv, a, b, visited, fuel).1;
            Close(h, eqv, seen, a, b, n) && NewHeld(h, eqv, visited, seen, n)
    decreases fuel, |AllKeys(h) - visited|, 2 * Depth(rank, a) + 1, 0
  {
    var before, next := if fuel == 0 then visited + {(a.p, b.p)} else visited, if fuel == 0 then 0 else fuel - 1;
    if fuel == 0 { KeyAdded(h, visited, a.p, b.p); }
    CellCompared(h, rank, eqv, a, b, visited, fuel);
    var m := PairsSound(h, rank, eqv, h.pairs[a.p], h.pairs[b.p], before, next);
    n := m + 1;
    RecStep(h, eqv, EqualPairs(h, rank, eqv, h.pairs[a.p], h.pairs[b.p], before, next).1, visited, before, a, b, m);
  }

  lemma CellCompared(h: Heap, rank: map<Addr, nat>, eqv: AtomEqv, a: Value, b: Value, visited: Keys, fuel: nat)
    requires WellFormed(h) && Nested(h, rank) && ValidRef(h, a) && ValidRef(h, b)
             && EqualRec(h, rank, eqv, a, b, visited, fuel).0
    requires !Eqv(eqv, a, b) && a.Cell? && (fuel > 0 || (a.p, b.p) !in visited)
    ensures b.Cell?
    ensures EqualRec(h, rank, eqv, a, b, visited, fuel)
         == EqualPairs(h, rank, eqv, h.pairs[a.p], h.pairs[b.p], if fuel == 0 then visited + {(a.p, b.p)} else visited,
                       if fuel == 0 then 0 else fuel - 1)
  {
  }

  lemma VectorSound(h: Heap, rank: map<Addr, nat>, eqv: AtomEqv, a: Value, b: Value, visited: Keys, fuel: nat)
    returns (n: nat)
    requires WellFormed(h) && Nested(h, rank) && ValidRef(h, a) && ValidRef(h, b)
             && EqualRec(h, rank, eqv, a, b, visited, fuel).0
    requires !Eqv(eqv, a, b) && a.Vector?
    ensures var seen := EqualRec(h, rank, eqv, a, b, visited, fuel).1;
            Close(h, eqv, seen, a, b, n) && NewHeld(h, eqv, visited, seen, n)
    decreases fuel, |AllKeys(h) - visited|, 2 * Depth(rank, a) + 1, 0
  {
    var m := AllSound(h, rank, eqv, h.vectors[a.w], h.vectors[b.w], Depth(rank, a), visited, if fuel == 0 then 0
                      else fuel - 1);
    n := m + 1;
    var seen := EqualRec(h, rank, eqv, a, b, visited, fuel).1;
    NewHeldMono(h, eqv, visited, seen, seen, m, n);
  }

  /** Close components make a close pair, and its key is held. */
  lemma RecStep(h: Heap, eqv: AtomEqv, seen: Keys, visited: Keys, before: Keys, a: Value, b: Value, m: nat)
    requires ValidRef(h, a) && ValidRef(h, b) && a.Cell? && b.Cell?
             && ClosePair(h, eqv, seen, h.pairs[a.p], h.pairs[b.p], m)
    requires before <= visited + {(a.p, b.p)} && NewHeld(h, eqv, before, seen, m)
    ensures Close(h, eqv, seen, a, b, m + 1) && NewHeld(h, eqv, visited, seen, m + 1)
  {
    NewHeldMono(h, eqv, before, seen, seen, m, m + 1);
    CloseMono(h, eqv, seen, seen, h.pairs[a.p].car, h.pairs[b.p].car, m, m + 1);
    CloseMono(h, eqv, seen, seen, h.pairs[a.p].cdr, h.pairs[b.p].cdr, m, m + 1);
  }

  lemma PairsSound(h: Heap, rank: map<Addr, nat>, eqv: AtomEqv, x: Pair, y: Pair, visited: Keys, fuel: nat)
    returns (n: nat)
    requires WellFormed(h) && Nested(h, rank)
    requires ValidRef(h, x.car) && ValidRef(h, x.cdr) && ValidRef(h, y.car) && ValidRef(h, y.cdr)
    requires EqualPairs(h, rank, eqv, x, y, visited, fuel).0
    ensures var seen := EqualPairs(h, rank, eqv, x, y, visited, fuel).1;
            ClosePair(h, eqv, seen, x, y, n) && NewHeld(h, eqv, visited, seen, n)
    decreases fuel, |AllKeys(h) - visited|, 2 * (Depth(rank, x.car) + Depth(rank, x.cdr)) + 2
  {
    var mid := EqualRec(h, rank, eqv, x.car, y.car, visited, fuel).1;
    FewerLeft(AllKeys(h), visited, mid);
    var i := RecSound(h, rank, eqv, x.car, y.car, visited, fuel);
    var j := RecSound(h, rank, eqv, x.cdr, y.cdr, mid, fuel);
    var seen := EqualRec(h, rank, eqv, x.cdr, y.cdr, mid, fuel).1;
    n := Max(i, j);
    CloseMono(h, eqv, mid, seen, x.car, y.car, i, n);
    CloseMono(h, eqv, seen, seen, x.cdr, y.cdr, j, n);
    Joined(h, eqv, visited, mid, seen, i, j, n);
  }

  lemma Joined(h: Heap, eqv: AtomEqv, visited: Keys, mid: Keys, seen: Keys, i: nat, j: nat, n: nat)
    requires NewHeld(h, eqv, visited, mid, i) && NewHeld(h, eqv, mid, seen, j) && mid <= seen && i <= n && j <= n
    ensures NewHeld(h, eqv, visited, seen, n)
  {
    NewHeldMono(h, eqv, visited, mid, seen, i, n);
    NewHeldMono(h, eqv, mid, seen, seen, j, n);
  }

  lemma AllSound(h: Heap, rank: map<Addr, nat>, eqv: AtomEqv, xs: seq<Value>, ys: seq<Value>, bound: nat,
                 visited: Keys, fuel: nat)
    returns (n: nat)
    requires WellFormed(h) && Nested(h, rank) && |xs| == |ys|
    requires forall k {:trigger xs[k]} :: 0 <= k < |xs| ==> ValidRef(h, xs[k]) && Depth(rank, xs[k]) < bound
    requires forall k {:trigger ys[k]} :: 0 <= k < |ys| ==> ValidRef(h, ys[k])
    requires EqualAll(h, rank, eqv, xs, ys, bound, visited, fuel).0
    ensures var seen := EqualAll(h, rank, eqv, xs, ys, bound, visited, fuel).1;
            CloseAll(h, eqv, seen, xs, ys, n) && NewHeld(h, eqv, visited, seen, n)
    decreases fuel, |AllKeys(h) - visited|, 2 * bound, |xs|
  {
    n := 0;
    if xs != [] {
      var mid := EqualRec(h, rank, eqv, xs[0], ys[0], visited, fuel).1;
      FewerLeft(AllKeys(h), visited, mid);
      var i := RecSound(h, rank, eqv, xs[0], ys[0], visited, fuel);
      var j := AllSound(h, rank, eqv, xs[1..], ys[1..], bound, mid, fuel);
      var seen := EqualAll(h, rank, eqv, xs[1..], ys[1..], bound, mid, fuel).1;
      n := Max(i, j);
      CloseMono(h, eqv, mid, seen, xs[0], ys[0], i, n);
      forall k | 0 <= k < |xs| ensures Close(h, eqv, seen, xs[k], ys[k], n) {
        if k > 0 {
          assert xs[1..][k - 1] == xs[k] && ys[1..][k - 1] == ys[k];
          CloseMono(h, eqv, seen, seen, xs[k], ys[k], j, n);
        }
      }
      Joined(h, eqv, visited, mid, seen, i, j, n);
    }
  }

  ghost function Closure(h: Heap, eqv: AtomEqv, w: Keys): Relation {
    (a: Value, b: Value) => exists n: nat :: Close(h, eqv, w, a, b, n)
  }

  /** If every key taken for granted is held, closeness is a bisimulation. */
  lemma ClosureIsBisimulation(h: Heap, eqv: AtomEqv, w: Keys, n: nat)
    requires WellFormed(h) && Reflexive(eqv) && NewHeld(h, eqv, {}, w, n)
    ensures Bisimulation(h, eqv, Closure(h, eqv, w))
  {
    var r := Closure(h, eqv, w);
    forall a, b | r(a, b) ensures ValidRef(h, a) && ValidRef(h, b) && Related(h, eqv, r, a, b) {
      var m: nat :| Close(h, eqv, w, a, b, m);
      CloseRelated(h, eqv, w, n, a, b, m);
    }
  }

  lemma CloseRelated(h: Heap, eqv: AtomEqv, w: Keys, n: nat, a: Value, b: Value, m: nat)
    requires WellFormed(h) && Reflexive(eqv) && NewHeld(h, eqv, {}, w, n) && Close(h, eqv, w, a, b, m)
    ensures Related(h, eqv, Closure(h, eqv, w), a, b)
  {
    if a.Cell? && b.Cell? {
      var x, y := h.pairs[a.p], h.pairs[b.p];
      if a == b {
        assert Close(h, eqv, w, x.car, y.car, 0) && Close(h, eqv, w, x.cdr, y.cdr, 0);
      } else if (a.p, b.p) in w {
        assert KeyHeld(h, eqv, w, a.p, b.p, n);
      } else {
        assert ClosePair(h, eqv, w, x, y, m - 1);
      }
    } else if a.Vector? && b.Vector? {
      var xs, ys := h.vectors[a.w], h.vectors[b.w];
      forall k | 0 <= k < |xs| ensures |xs| == |ys| && Closure(h, eqv, w)(xs[k], ys[k]) {
        if a == b {
          assert Close(h, eqv, w, xs[k], ys[k], 0);
        } else {
          assert Close(h, eqv, w, xs[k], ys[k], m - 1);
        }
      }
    }
  }

  /** `equal?` answers true exactly on bisimilar values. */
  lemma EqualIsBisimilarity(h: Heap, rank: map<Addr, nat>, eqv: AtomEqv, a: Value, b: Value)
    requires WellFormed(h) && Nested(h, rank) && ValidRef(h, a) && ValidRef(h, b) && Reflexive(eqv)
    ensures Equal(h, rank, eqv, a, b) <==> Bisimilar(h, eqv, a, b)
  {
    if Equal(h, rank, eqv, a, b) {
      var n := RecSound(h, rank, eqv, a, b, {}, 64);
      var w := EqualRec(h, rank, eqv, a, b, {}, 64).1;
      ClosureIsBisimulation(h, eqv, w, n);
      assert Closure(h, eqv, w)(a, b);
    }
    if Bisimilar(h, eqv, a, b) {
      var r: Relation :| Bisimulation(h, eqv, r) && r(a, b);
      RecComplete(h, rank, eqv, r, a, b, {}, 64);
    }
  }

  // ---- cycles through vectors alone ----

  /** The comparison given up after `steps` nested calls; any heap. */
  function EqualWithin(h: Heap, eqv: AtomEqv, a: Value, b: Value, visited: Keys, fuel: nat, steps: nat)
    : Option<(bool, Keys)>
    requires WellFormed(h) && ValidRef(h, a) && ValidRef(h, b)
    decreases steps, 0
  {
    if steps == 0 then None
    else if Eqv(eqv, a, b) then Some((true, visited))
    else if a.Str? && b.Str? then Some((h.strings[a.s] == h.strings[b.s], visited))
    else if a.Bytes? && b.Bytes? then Some((h.bytes[a.v] == h.bytes[b.v], visited))
    else if a.Cell? && b.Cell? then
      if fuel == 0 then
        if (a.p, b.p) in visited then Some((true, visited))
        else PairsWithin(h, eqv, h.pairs[a.p], h.pairs[b.p], visited + {(a.p, b.p)}, 0, steps - 1)
      else PairsWithin(h, eqv, h.pairs[a.p], h.pairs[b.p], visited, fuel - 1, steps - 1)
    else if a.Vector? && b.Vector? then
      if |h.vectors[a.w]| != |h.vectors[b.w]| then Some((false, visited))
      else AllWithin(h, eqv, h.vectors[a.w], h.vectors[b.w], visited, if fuel == 0 then 0 else fuel - 1, steps - 1)
    else Some((false, visited))
  }

  function PairsWithin(h: Heap, eqv: AtomEqv, x: Pair, y: Pair, visited: Keys, fuel: nat, steps: nat)
    : Option<(bool, Keys)>
    requires WellFormed(h)
    requires ValidRef(h, x.car) && ValidRef(h, x.cdr) && ValidRef(h, y.car) && ValidRef(h, y.cdr)
    decreases steps, 1
  {
    match EqualWithin(h, eqv, x.car, y.car, visited, fuel, steps)
    case None => None
    case Some((ok, seen)) =>
      if !ok then Some((false, seen)) else EqualWithin(h, eqv, x.cdr, y.cdr, seen, fuel, steps)
  }

  function AllWithin(h: Heap, eqv: AtomEqv, xs: seq<Value>, ys: seq<Value>, visited: Keys, fuel: nat, steps: nat)
    : Option<(bool, Keys)>
    requires WellFormed(h) && |xs| == |ys|
    requires forall k {:trigger xs[k]} :: 0 <= k < |xs| ==> ValidRef(h, xs[k])
    requires forall k {:trigger ys[k]} :: 0 <= k < |ys| ==> ValidRef(h, ys[k])
    decreases steps, 1 + |xs|
  {
    if xs == [] then Some((true, visited))
    else
      match EqualWithin(h, eqv, xs[0], ys[0], visited, fuel, steps)
      case None => None
      case Some((ok, seen)) =>
        if !ok then Some((false, seen)) else AllWithin(h, eqv, xs[1..], ys[1..], seen, fuel, steps)
  }

  /** Vectors `x` and `y` are different, of one length, and begin with vectors in the same relation. */
  ghost predicate Trap(h: Heap, r: set<(Addr, Addr)>) {
    forall x, y {:trigger (x, y) in r} :: (x, y) in r ==>
      && x != y && x in h.vectors && y in h.vectors && |h.vectors[x]| == |h.vectors[y]| > 0
      && h.vectors[x][0].Vector? && h.vectors[y][0].Vector? && (h.vectors[x][0].w, h.vectors[y][0].w) in r
  }

  /** Down a chain of first elements that are always two different vectors the comparison never ends. */
  lemma {:induction false} TrapDiverges(h: Heap, eqv: AtomEqv, r: set<(Addr, Addr)>, x: Addr, y: Addr, visited: Keys,
                                        fuel: nat, steps: nat)
    requires WellFormed(h) && Trap(h, r) && (x, y) in r
    ensures x in h.vectors && y in h.vectors
    ensures EqualWithin(h, eqv, Vector(x), Vector(y), visited, fuel, steps) == None
    decreases steps
  {
    assert (x, y) in r;
    if steps > 0 {
      var a, b := h.vectors[x][0].w, h.vectors[y][0].w;
      TrapDiverges(h, eqv, r, a, b, visited, if fuel == 0 then 0 else fuel - 1, steps - 1);
    }
  }

  /** Two vectors that each hold only themselves are never told equal or different. */
  lemma SelfVectorsDiverge(eqv: AtomEqv, steps: nat)
    ensures var h := Heap(map[], map[], map[], map[0 := [Vector(0)], 1 := [Vector(1)]]);
            WellFormed(h) && EqualWithin(h, eqv, Vector(0), Vector(1), {}, 64, steps) == None
  {
    var h := Heap(map[], map[], map[], map[0 := [Vector(0)], 1 := [Vector(1)]]);
    TrapDiverges(h, eqv, {(0, 1)}, 0, 1, {}, 64, steps);
  }

  /** Where vectors nest, enough steps always give the answer of `EqualRec`. */
  lemma RecFinishes(h: Heap, rank: map<Addr, nat>, eqv: AtomEqv, a: Value, b: Value, visited: Keys, fuel: nat)
    returns (n: nat)
    requires WellFormed(h) && Nested(h, rank) && ValidRef(h, a) && ValidRef(h, b)
    ensures forall s: nat {:trigger EqualWithin(h, eqv, a, b, visited, fuel, s)} :: n <= s ==>
              EqualWithin(h, eqv, a, b, visited, fuel, s) == Some(EqualRec(h, rank, eqv, a, b, visited, fuel))
    decreases fuel, |AllKeys(h) - visited|, 2 * Depth(rank, a) + 1
  {
    n := 1;
    if !Eqv(eqv, a, b) {
      if a.Cell? && b.Cell? && (fuel > 0 || (a.p, b.p) !in visited) {
        if fuel == 0 { KeyAdded(h, visited, a.p, b.p); }
        var k := PairsFinish(h, rank, eqv, h.pairs[a.p], h.pairs[b.p],
                             if fuel == 0 then visited + {(a.p, b.p)} else visited, if fuel == 0 then 0 else fuel - 1);
        n := k + 1;
      } else if a.Vector? && b.Vector? && |h.vectors[a.w]| == |h.vectors[b.w]| {
        var k := AllFinish(h, rank, eqv, h.vectors[a.w], h.vectors[b.w], Depth(rank, a), visited,
                           if fuel == 0 then 0 else fuel - 1);
        n := k + 1;
      }
    }
  }

  lemma PairsFinish(h: Heap, rank: map<Addr, nat>, eqv: AtomEqv, x: Pair, y: Pair, visited: Keys, fuel: nat)
    returns (n: nat)
    requires WellFormed(h) && Nested(h, rank)
    requires ValidRef(h, x.car) && ValidRef(h, x.cdr) && ValidRef(h, y.car) && ValidRef(h, y.cdr)
    ensures forall s: nat {:trigger PairsWithin(h, eqv, x, y, visited, fuel, s)} :: n <= s ==>
              PairsWithin(h, eqv, x, y, visited, fuel, s) == Some(EqualPairs(h, rank, eqv, x, y, visited, fuel))
    decreases fuel, |AllKeys(h) - visited|, 2 * (Depth(rank, x.car) + Depth(rank, x.cdr)) + 2
  {
    var i := RecFinishes(h, rank, eqv, x.car, y.car, visited, fuel);
    var seen := EqualRec(h, rank, eqv, x.car, y.car, visited, fuel).1;
    FewerLeft(AllKeys(h), visited, seen);
    var j := RecFinishes(h, rank, eqv, x.cdr, y.cdr, seen, fuel);
    n := Max(i, j);
  }

  lemma AllFinish(h: Heap, rank: map<Addr, nat>, eqv: AtomEqv, xs: seq<Value>, ys: seq<Value>, bound: nat,
                  visited: Keys, fuel: nat)
    returns (n: nat)
    requires WellFormed(h) && Nested(h, rank) && |xs| == |ys|
    requires forall k {:trigger xs[k]} :: 0 <= k < |xs| ==> ValidRef(h, xs[k]) && Depth(rank, xs[k]) < bound
    requires forall k {:trigger ys[k]} :: 0 <= k < |ys| ==> ValidRef(h, ys[k])
    ensures forall s: nat {:trigger AllWithin(h, eqv, xs, ys, visited, fuel, s)} :: n <= s ==>
              AllWithin(h, eqv, xs, ys, visited, fuel, s) == Some(EqualAll(h, rank, eqv, xs, ys, bound, visited, fuel))
    decreases fuel, |AllKeys(h) - visited|, 2 * bound, |xs|
  {
    n := 0;
    if xs != [] {
      var i := RecFinishes(h, rank, eqv, xs[0], ys[0], visited, fuel);
      var seen := EqualRec(h, rank, eqv, xs[0], ys[0], visited, fuel).1;
      FewerLeft(AllKeys(h), visited, seen);
      var j := AllFinish(h, rank, eqv, xs[1..], ys[1..], bound, seen, fuel);
      n := Max(i, j);
      forall s: nat | n <= s
        ensures AllWithin(h, eqv, xs, ys, visited, fuel, s)
             == Some(EqualAll(h, rank, eqv, xs, ys, bound, visited, fuel))
      {
        FirstAndRest(h, rank, eqv, xs, ys, bound, visited, fuel, s);
      }
    }
  }

  lemma FirstAndRest(h: Heap, rank: map<Addr, nat>, eqv: AtomEqv, xs: seq<Value>, ys: seq<Value>, bound: nat,
                     visited: Keys, fuel: nat, s: nat)
    requires WellFormed(h) && Nested(h, rank) && |xs| == |ys| > 0
    requires forall k {:trigger xs[k]} :: 0 <= k < |xs| ==> ValidRef(h, xs[k]) && Depth(rank, xs[k]) < bound
    requires forall k {:trigger ys[k]} :: 0 <= k < |ys| ==> ValidRef(h, ys[k])
    requires var r := EqualRec(h, rank, eqv, xs[0], ys[0], visited, fuel);
             && EqualWithin(h, eqv, xs[0], ys[0], visited, fuel, s) == Some(r)
             && AllWithin(h, eqv, xs[1..], ys[1..], r.1, fuel, s)
                == Some(EqualAll(h, rank, eqv, xs[1..], ys[1..], bound, r.1, fuel))
    ensures AllWithin(h, eqv, xs, ys, visited, fuel, s)
         == Some(EqualAll(h, rank, eqv, xs, ys, bound, visited, fuel))
  {
  }
}
