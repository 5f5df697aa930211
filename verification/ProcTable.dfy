/** The reference-counted slot table for procedures: slots linked into a free list
    through the slots themselves. The table is proved against a reference that knows
    only which carriers exist and what each handle was given. */
module ProcTable {
  import opened Wrappers

  /** The largest 32-bit number: no slot, and the most a count can hold. */
  const NIL: nat := 0xFFFF_FFFF

  datatype Slot<P> = Slot(proc: Option<P>, refcount: nat, nextFree: nat)

  datatype Table<P> = Table(slots: seq<Slot<P>>, freeHead: nat)

  // ---- what each operation does to the slots ----

  ghost function EmptyTable<P>(): Table<P> {
    Table([], NIL)
  }

  predicate Live<P>(t: Table<P>, i: nat) {
    i < |t.slots| && t.slots[i].proc.Some? && t.slots[i].refcount > 0
  }

  /** A free slot, or room for one more index short of the end mark. */
  predicate Room<P>(t: Table<P>) {
    if t.freeHead == NIL then |t.slots| < NIL else t.freeHead < |t.slots|
  }

  function Alloc<P>(t: Table<P>, p: P): (Table<P>, nat)
    requires Room(t)
  {
    if t.freeHead != NIL then
      (Table(t.slots[t.freeHead := Slot(Some(p), 1, NIL)], t.slots[t.freeHead].nextFree), t.freeHead)
    else (Table(t.slots + [Slot(Some(p), 1, NIL)], NIL), |t.slots|)
  }

  function Incref<P>(t: Table<P>, i: nat): Table<P>
    requires Live(t, i)
  {
    t.(slots := t.slots[i := t.slots[i].(refcount := t.slots[i].refcount + 1)])
  }

  /** The table, and the procedure if the slot was freed. */
  function Decref<P>(t: Table<P>, i: nat): (Table<P>, Option<P>)
    requires Live(t, i)
  {
    var s := t.slots[i];
    if s.refcount == 1 then (Table(t.slots[i := Slot(None, 0, t.freeHead)], i), s.proc)
    else (t.(slots := t.slots[i := s.(refcount := s.refcount - 1)]), None)
  }

  // ---- the free list ----

  /** Following links from `head` visits exactly `free`, then ends. */
  ghost predicate Links<P>(slots: seq<Slot<P>>, head: nat, free: seq<nat>)
    decreases |free|
  {
    if free == [] then head == NIL
    else head == free[0] && head < |slots| && Links(slots, slots[head].nextFree, free[1..])
  }

  /** Changing a slot off the list leaves the list alone. */
  lemma {:induction false} LinksFrame<P>(slots: seq<Slot<P>>, after: seq<Slot<P>>, head: nat, free: seq<nat>)
    requires Links(slots, head, free) && |slots| <= |after|
    requires forall i :: i in free && i < |slots| ==> after[i] == slots[i]
    ensures Links(after, head, free)
    decreases |free|
  {
    if free != [] {
      assert free[0] in free;
      LinksFrame(slots, after, slots[head].nextFree, free[1..]);
    }
  }

  // ---- the reference ----

  /** The carriers alive, with how many copies of each handle, and what each handle stands for. */
  datatype World<P> = World(table: Table<P>, carriers: multiset<nat>, held: map<nat, P>)

  ghost predicate SlotOk<P>(s: Slot<P>, count: nat, held: Option<P>) {
    s.refcount == count && s.proc == held && (count == 0 <==> held.None?)
  }

  ghost function Given<P>(held: map<nat, P>, i: nat): Option<P> {
    if i in held then Some(held[i]) else None
  }

  /** Counts are carriers, contents are what was stored, and the free list visits each
      free slot once and nothing else. */
  ghost predicate Good<P>(w: World<P>, free: seq<nat>) {
    && |w.table.slots| <= NIL
    && (forall i {:trigger w.table.slots[i]} :: 0 <= i < |w.table.slots| ==>
          SlotOk(w.table.slots[i], w.carriers[i], Given(w.held, i)))
    && (forall i: nat {:trigger w.carriers[i]} :: i >= |w.table.slots| ==> w.carriers[i] == 0)
    && (forall i: nat {:trigger i in w.held} :: i in w.held ==> i < |w.table.slots|)
    && Links(w.table.slots, w.table.freeHead, free)
    && Distinct(free)
    && (forall i: nat {:trigger i in free} :: i in free <==> i < |w.table.slots| && w.carriers[i] == 0)
  }

  ghost function Start<P>(): World<P> {
    World(EmptyTable(), multiset{}, map[])
  }

  /** What a caller can do; taking is peeking and then giving the carrier up. */
  datatype Op<P> = New(p: P) | Copy(i: nat) | Drop(i: nat)

  /** Balanced use: only handles with a carrier are copied or dropped, within the 32-bit limits. */
  ghost predicate Allowed<P>(w: World<P>, op: Op<P>) {
    match op
    case New(_) => Room(w.table)
    case Copy(i) => 0 < w.carriers[i] < NIL
    case Drop(i) => 0 < w.carriers[i]
  }

  lemma CarrierIsLive<P>(w: World<P>, free: seq<nat>, i: nat)
    requires Good(w, free) && w.carriers[i] > 0
    ensures Live(w.table, i) && i in w.held && w.table.slots[i].proc == Some(w.held[i])
    ensures w.table.slots[i].refcount == w.carriers[i]
  {
    assert i < |w.table.slots|;
    assert SlotOk(w.table.slots[i], w.carriers[i], Given(w.held, i));
  }

  /** A step of the table beside a step of the reference. Using a slot that is not live is
      the source's failed assertion; that no allowed step does so is part of what is proved. */
  ghost function Step<P>(w: World<P>, op: Op<P>): World<P>
    requires Allowed(w, op)
  {
    if !op.New? && !Live(w.table, op.i) then w
    else
      match op
      case New(p) =>
        var (t, i) := Alloc(w.table, p);
        World(t, w.carriers[i := w.carriers[i] + 1], w.held[i := p])
      case Copy(i) => World(Incref(w.table, i), w.carriers[i := w.carriers[i] + 1], w.held)
      case Drop(i) =>
        World(Decref(w.table, i).0, w.carriers[i := w.carriers[i] - 1],
              if w.carriers[i] == 1 then w.held - {i} else w.held)
  }

  // ---- every step keeps the table good ----

  lemma AllocFreshHandle<P>(w: World<P>, free: seq<nat>, p: P)
    requires Good(w, free) && Room(w.table)
    ensures w.carriers[Alloc(w.table, p).1] == 0 && Alloc(w.table, p).1 !in w.held
  {
    if w.table.freeHead != NIL {
      assert free[0] in free;
      assert SlotOk(w.table.slots[free[0]], 0, Given(w.held, free[0]));
    }
  }

  lemma NewKeeps<P>(w: World<P>, free: seq<nat>, p: P) returns (rest: seq<nat>)
    requires Good(w, free) && Room(w.table)
    ensures Good(Step(w, New(p)), rest)
  {
    AllocFreshHandle(w, free, p);
    var (t, i) := Alloc(w.table, p);
    var v := Step(w, New(p));
    if w.table.freeHead == NIL {
      rest := free;
      assert free == [];
    } else {
      rest := free[1..];
      assert free == [i] + rest;
      assert forall k {:trigger k in rest} :: k in rest <==> k in free && k != i;
    }
    LinksFrame(w.table.slots, t.slots, t.freeHead, rest);
    assert forall k :: 0 <= k < |t.slots| ==> SlotOk(t.slots[k], v.carriers[k], Given(v.held, k));
  }

  lemma CopyKeeps<P>(w: World<P>, free: seq<nat>, i: nat)
    requires Good(w, free) && Allowed(w, Copy(i))
    ensures Good(Step(w, Copy(i)), free)
  {
    CarrierIsLive(w, free, i);
    var v := Step(w, Copy(i));
    LinksFrame(w.table.slots, v.table.slots, w.table.freeHead, free);
    assert forall k :: 0 <= k < |v.table.slots| ==> SlotOk(v.table.slots[k], v.carriers[k], Given(v.held, k));
  }

  lemma DropKeeps<P>(w: World<P>, free: seq<nat>, i: nat) returns (rest: seq<nat>)
    requires Good(w, free) && Allowed(w, Drop(i))
    ensures Good(Step(w, Drop(i)), rest)
  {
    CarrierIsLive(w, free, i);
    var v := Step(w, Drop(i));
    LinksFrame(w.table.slots, v.table.slots, w.table.freeHead, free);
    if w.carriers[i] == 1 {
      rest := [i] + free;
      assert rest[1..] == free && i !in free;
    } else {
      rest := free;
    }
    assert forall k :: 0 <= k < |v.table.slots| ==> SlotOk(v.table.slots[k], v.carriers[k], Given(v.held, k));
  }

  // ---- whole runs ----

  ghost predicate Balanced<P>(w: World<P>, ops: seq<Op<P>>)
    decreases |ops|
  {
    ops == [] || (Allowed(w, ops[0]) && Balanced(Step(w, ops[0]), ops[1..]))
  }

  ghost function Run<P>(w: World<P>, ops: seq<Op<P>>): World<P>
    requires Balanced(w, ops)
    decreases |ops|
  {
    if ops == [] then w else Run(Step(w, ops[0]), ops[1..])
  }

  lemma {:induction false} RunKeeps<P>(w: World<P>, free: seq<nat>, ops: seq<Op<P>>) returns (rest: seq<nat>)
    requires Good(w, free) && Balanced(w, ops)
    ensures Good(Run(w, ops), rest)
    decreases |ops|
  {
    if ops == [] {
      rest := free;
    } else {
      var mid;
      match ops[0] {
        case New(p) => mid := NewKeeps(w, free, p);
        case Copy(i) => CopyKeeps(w, free, i); mid := free;
        case Drop(i) => mid := DropKeeps(w, free, i);
      }
      rest := RunKeeps(Step(w, ops[0]), mid, ops[1..]);
    }
  }

  /** Through every balanced run from the empty table: the free list is finite, visits
      exactly the slots without a carrier, once each; every count is the number of
      carriers; and every live handle still holds what it was allocated for. */
  lemma TableFollowsCarriers<P>(ops: seq<Op<P>>) returns (free: seq<nat>)
    requires Balanced(Start<P>(), ops)
    ensures Good(Run(Start(), ops), free)
  {
    assert Good(Start<P>(), []);
    free := RunKeeps(Start(), [], ops);
  }

  /** After every balanced run, using a handle that has a carrier is safe, and gives what
      was stored; dropping it frees the slot exactly when it was the last carrier; a new
      handle is none of the handles in use. */
  lemma UseAfterRun<P>(ops: seq<Op<P>>, i: nat, p: P)
    requires Balanced(Start<P>(), ops)
    ensures var w := Run(Start(), ops);
            && (w.carriers[i] > 0 ==> Live(w.table, i) && i in w.held && w.table.slots[i].proc == Some(w.held[i]))
            && (w.carriers[i] > 0 ==> Decref(w.table, i).1 == if w.carriers[i] == 1 then Some(w.held[i]) else None)
            && (Room(w.table) ==> w.carriers[Alloc(w.table, p).1] == 0)
  {
    var w := Run(Start(), ops);
    var free := TableFollowsCarriers(ops);
    if w.carriers[i] > 0 { CarrierIsLive(w, free, i); }
    if Room(w.table) { AllocFreshHandle(w, free, p); }
  }

  // ---- how large the table gets ----

  ghost function Indices(n: nat): (r: set<nat>)
    ensures |r| == n && forall i :: i in r <==> 0 <= i < n
  {
    if n == 0 then {} else Indices(n - 1) + {n - 1}
  }

  lemma HeldFits<P>(w: World<P>, free: seq<nat>)
    requires Good(w, free)
    ensures |w.held| <= |w.table.slots| && (free == [] ==> |w.held| == |w.table.slots|)
  {
    var all := Indices(|w.table.slots|);
    assert |w.held| == |w.held.Keys|;
    Within(w.held.Keys, all);
    if free == [] {
      forall i | i in all ensures i in w.held.Keys {
        assert i !in free;
        assert SlotOk(w.table.slots[i], w.carriers[i], Given(w.held, i));
      }
      Within(all, w.held.Keys);
    }
  }

  lemma Within(a: set<nat>, b: set<nat>)
    requires a <= b
    ensures |a| <= |b|
  {
    assert b == a + (b - a);
  }

  function Larger(a: nat, b: nat): nat {
    if a < b then b else a
  }

  /** The most handles in use at any one time. */
  ghost function Peak<P>(w: World<P>, ops: seq<Op<P>>): nat
    requires Balanced(w, ops)
    decreases |ops|
  {
    if ops == [] then |w.held| else Larger(|w.held|, Peak(Step(w, ops[0]), ops[1..]))
  }

  lemma {:induction false} RunReachesPeak<P>(w: World<P>, free: seq<nat>, ops: seq<Op<P>>)
    requires Good(w, free) && Balanced(w, ops)
    ensures |Run(w, ops).table.slots| == Larger(|w.table.slots|, Peak(w, ops))
    decreases |ops|
  {
    HeldFits(w, free);
    if ops != [] {
      var v := Step(w, ops[0]);
      var mid := RunKeeps(w, free, ops[..1]);
      assert ops[..1][1..] == [] && Run(w, ops[..1]) == v;
      HeldFits(v, mid);
      if ops[0].New? { AllocFreshHandle(w, free, ops[0].p); }
      RunReachesPeak(v, mid, ops[1..]);
      assert Peak(v, ops[1..]) >= |v.held|;
    }
  }

  /** Slots are reused before any is added: a table is as large as the most handles ever in use at once, and grows
      only when every slot has a carrier. */
  lemma TableIsPeak<P>(ops: seq<Op<P>>, p: P)
    requires Balanced(Start<P>(), ops)
    ensures var w := Run(Start(), ops);
            && |w.table.slots| == Peak(Start(), ops)
            && (Room(w.table) ==>
                  (|Alloc(w.table, p).0.slots| > |w.table.slots| <==>
                   forall i: nat :: i < |w.table.slots| ==> w.carriers[i] > 0))
  {
    var w := Run(Start(), ops);
    assert Good(Start<P>(), []);
    RunReachesPeak(Start(), [], ops);
    var free := TableFollowsCarriers(ops);
    if free == [] {
      forall i: nat | i < |w.table.slots| ensures w.carriers[i] > 0 { assert i !in free; }
    } else {
      var i: nat := free[0];
      assert i in free;
      assert w.table.freeHead == i < |w.table.slots| && w.carriers[i] == 0;
    }
  }

  // ---- the table in place ----

  class SlotTable<P> {
    var slots: seq<Slot<P>>
    var freeHead: nat
    ghost var carriers: multiset<nat>
    ghost var held: map<nat, P>
    ghost var free: seq<nat>

    ghost function View(): World<P>
      reads this
    {
      World(Table(slots, freeHead), carriers, held)
    }

    ghost predicate Valid()
      reads this
    {
      Good(View(), free)
    }

    constructor ()
      ensures Valid() && View() == Start()
    {
      slots, freeHead := [], NIL;
      carriers, held, free := multiset{}, map[], [];
    }

    method Register(p: P) returns (idx: nat)
      requires Valid() && Room(View().table)
      modifies this
      ensures Valid() && View() == Step(old(View()), New(p))
      ensures old(carriers)[idx] == 0 && carriers == old(carriers)[idx := 1] && held == old(held)[idx := p]
    {
      AllocFreshHandle(View(), free, p);
      ghost var next := NewKeeps(View(), free, p);
      if freeHead != NIL {
        idx := freeHead;
        freeHead := slots[idx].nextFree;
        slots := slots[idx := Slot(Some(p), 1, NIL)];
      } else {
        idx := |slots|;
        slots := slots + [Slot(Some(p), 1, NIL)];
      }
      carriers, held, free := carriers[idx := carriers[idx] + 1], held[idx := p], next;
    }

    method Retain(idx: nat)
      requires Valid() && 0 < carriers[idx] < NIL
      modifies this
      ensures Valid() && View() == Step(old(View()), Copy(idx))
    {
      CarrierIsLive(View(), free, idx);
      CopyKeeps(View(), free, idx);
      slots := slots[idx := slots[idx].(refcount := slots[idx].refcount + 1)];
      carriers := carriers[idx := carriers[idx] + 1];
    }

    method Release(idx: nat) returns (freed: Option<P>)
      requires Valid() && 0 < carriers[idx]
      modifies this
      ensures Valid() && View() == Step(old(View()), Drop(idx))
      ensures freed == if old(carriers)[idx] == 1 then Some(old(held)[idx]) else None
    {
      CarrierIsLive(View(), free, idx);
      ghost var next := DropKeeps(View(), free, idx);
      var slot := slots[idx];
      if slot.refcount - 1 == 0 {
        freed := slot.proc;
        slots := slots[idx := Slot(None, 0, freeHead)];
        freeHead := idx;
        held := held - {idx};
      } else {
        freed := None;
        slots := slots[idx := slot.(refcount := slot.refcount - 1)];
      }
      carriers, free := carriers[idx := carriers[idx] - 1], next;
    }

    method Peek(idx: nat) returns (p: P)
      requires Valid() && 0 < carriers[idx]
      ensures idx in held && p == held[idx]
    {
      CarrierIsLive(View(), free, idx);
      p := slots[idx].proc.value;
    }

    /** Look, then give the carrier up. */
    method Take(idx: nat) returns (p: P)
      requires Valid() && 0 < carriers[idx]
      modifies this
      ensures Valid() && View() == Step(old(View()), Drop(idx))
      ensures idx in old(held) && p == old(held)[idx]
    {
      p := Peek(idx);
      var _ := Release(idx);
    }
  }
}
