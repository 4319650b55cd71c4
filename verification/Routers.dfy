/**
 * One router of stress.c as a value: its four rotating vectors, its send list, and the operations
 * its loop performs on them. `RouterThread` holds the same state in the program's own form.
 */
module Routers {
  import opened Distances

  datatype Vector = Vector(epoch: nat, dist: seq<nat>)

  /** Where the thread is in its loop: waiting in select, reading a neighbour's vector (next index
      `j`), answering a probe, at the check that ends an iteration, or gone. */
  datatype Pc = Selecting | Relaxing(src: nat, slot: nat, j: nat) | Replying | Deciding | Stopped

  /** What is sent for a probe: NULL, or a pointer to the current vector.
      The epoch is auxiliary: it records the vector's epoch at the moment of the answer. */
  datatype Answer = Busy | Converged(slot: nat, epoch: nat)

  /** `targets` is select_list[2..total_select_count]; the first `pending` of them are still to be
      served, so select_count is `pending + 2`. `log[i]` is auxiliary: the epochs sent to `i`. */
  datatype Router = Router(
    pool: seq<Vector>, prevPrev: nat, prev: nat, curr: nat, next: nat,
    changed: bool, targets: seq<nat>, pending: nat,
    pc: Pc, answer: Answer, log: seq<seq<nat>>)

  // ---------- shape ----------

  predicate Shaped(r: Router, n: nat) {
    && |r.pool| == 4 && (forall s :: 0 <= s < 4 ==> |r.pool[s].dist| == n)
    && r.prevPrev < 4 && r.prev < 4 && r.curr < 4 && r.next < 4
    && r.pending <= |r.targets| && (forall x :: 0 <= x < |r.targets| ==> r.targets[x] < n)
    && |r.log| == n
    && (r.pc.Relaxing? ==> r.pc.src < n && r.pc.slot < 4 && r.pc.j < n)
    && (r.answer.Converged? ==> r.answer.slot < 4)
  }

  function Epoch(r: Router): nat
    requires |r.pool| == 4 && r.curr < 4
  {
    r.pool[r.curr].epoch
  }

  function Now(r: Router): seq<nat>
    requires |r.pool| == 4 && r.curr < 4
  {
    r.pool[r.curr].dist
  }

  function Upcoming(r: Router): seq<nat>
    requires |r.pool| == 4 && r.next < 4
  {
    r.pool[r.next].dist
  }

  predicate PendingTo(r: Router, i: nat)
    requires r.pending <= |r.targets|
  {
    i in r.targets[..r.pending]
  }

  /** The last epoch this router has sent to a neighbour. */
  function LastSent(r: Router, i: nat): nat
    requires |r.pool| == 4 && r.curr < 4 && r.pending <= |r.targets|
  {
    if PendingTo(r, i) && Epoch(r) > 0 then Epoch(r) - 1 else Epoch(r)
  }

  // ---------- operations ----------

  /** The neighbours among the first `m` routers, in the order the program lists them. */
  function Neighbours(w: Matrix, n: nat, me: nat, m: nat): (s: seq<nat>)
    requires Square(w, n) && me < n && m <= n
    ensures forall x :: 0 <= x < |s| ==> s[x] < m
  {
    if m == 0 then []
    else if Linked(w, n, me, m - 1) then Neighbours(w, n, me, m - 1) + [m - 1]
    else Neighbours(w, n, me, m - 1)
  }

  function Initial(w: Matrix, n: nat, me: nat): (r: Router)
    requires Square(w, n) && me < n
    ensures Shaped(r, n)
  {
    var targets := Neighbours(w, n, me, n);
    Router([Vector(0, w[me]), Vector(1, w[me]), Vector(2, w[me]), Vector(3, w[me])], 0, 1, 2, 3,
           false, targets, |targets|, Selecting, Busy, seq(n, _ => []))
  }

  /** One turn of the relaxation loop, on a value read from the neighbour's vector. */
  function RelaxOne(r: Router, n: nat, link: nat, d: nat): (s: Router)
    requires Shaped(r, n) && r.pc.Relaxing?
    ensures Shaped(s, n)
  {
    var j := r.pc.j;
    var newDist := Add32(link, d);
    var moved := r.(pc := if j + 1 < n then Relaxing(r.pc.src, r.pc.slot, j + 1) else Deciding);
    if newDist < Upcoming(r)[j] then
      var dist: seq<nat> := Upcoming(r)[j := newDist];
      moved.(pool := r.pool[r.next := Vector(r.pool[r.next].epoch, dist)], changed := true)
    else moved
  }

  /** Where the relaxation loop stands before its turn `j`. */
  function At(src: nat, slot: nat, j: nat, n: nat): Pc {
    if j < n then Relaxing(src, slot, j) else Deciding
  }

  /** The rest of the relaxation loop, when the neighbour's vector is `v` throughout. */
  function RelaxFrom(r: Router, n: nat, link: nat, v: seq<nat>): (s: Router)
    requires Shaped(r, n) && |v| == n
    ensures Shaped(s, n)
    decreases if r.pc.Relaxing? then n - r.pc.j else 0
  {
    if r.pc.Relaxing? then RelaxFrom(RelaxOne(r, n, link, v[r.pc.j]), n, link, v) else r
  }

  /** After select has sent to entry `x`: the last pending entry takes its place. */
  function AfterSend(r: Router, n: nat, x: nat): (s: Router)
    requires Shaped(r, n) && x < r.pending
    ensures Shaped(s, n)
  {
    var last := r.pending - 1;
    var dst := r.targets[x];
    r.(pending := last,
       targets := r.targets[last := dst][x := r.targets[last]],
       log := r.log[dst := r.log[dst] + [Epoch(r)]],
       pc := Deciding)
  }

  function Rotate(r: Router, n: nat): (s: Router)
    requires Shaped(r, n)
    ensures Shaped(s, n)
  {
    r.(prevPrev := r.prev, prev := r.curr, curr := r.next, next := r.prevPrev,
       pool := r.pool[r.prevPrev := Vector(r.pool[r.next].epoch + 1, r.pool[r.next].dist)],
       pending := |r.targets|, changed := false)
  }

  /** The check at the end of every iteration. */
  function EndOfLoop(r: Router, n: nat): (s: Router)
    requires Shaped(r, n)
    ensures Shaped(s, n)
  {
    (if r.pending == 0 && r.changed then Rotate(r, n) else r).(pc := Selecting)
  }

  function TakeProbe(r: Router, n: nat): (s: Router)
    requires Shaped(r, n)
    ensures Shaped(s, n)
  {
    r.(pc := Replying, answer := if r.pending == 0 && !r.changed then Converged(r.curr, Epoch(r)) else Busy)
  }

  // ---------- invariant ----------

  /** The four slots hold four consecutive epochs, in the order of their roles; an epoch's slot
      is its remainder by four. */
  function Slot(e: int): (s: nat)
    ensures s < 4
  {
    e % 4
  }

  predicate Rotating(r: Router)
    requires |r.pool| == 4 && r.prevPrev < 4 && r.prev < 4 && r.curr < 4 && r.next < 4
  {
    var e := Epoch(r);
    && e >= 2
    && r.prevPrev == Slot(e - 2) && r.pool[r.prevPrev].epoch == e - 2
    && r.prev == Slot(e - 1) && r.pool[r.prev].epoch == e - 1
    && r.curr == Slot(e)
    && r.next == Slot(e + 1) && r.pool[r.next].epoch == e + 1
  }

  predicate Dominated(a: seq<nat>, b: seq<nat>) {
    |a| == |b| && forall j :: 0 <= j < |a| ==> a[j] <= b[j]
  }

  ghost predicate RealVector(w: Matrix, n: nat, me: nat, v: seq<nat>)
    requires Square(w, n) && me < n
  {
    |v| == n && forall j :: 0 <= j < n ==> v[j] <= w[me][j] && Real(w, n, me, j, v[j])
  }

  /** All four vectors are real and never grow from one epoch to the next; without news the
      upcoming vector is the current one. */
  ghost predicate Honest(w: Matrix, n: nat, me: nat, r: Router)
    requires Square(w, n) && me < n && Shaped(r, n)
  {
    && (forall s :: 0 <= s < 4 ==> RealVector(w, n, me, r.pool[s].dist))
    && Dominated(Upcoming(r), Now(r))
    && Dominated(Now(r), r.pool[r.prev].dist)
    && Dominated(r.pool[r.prev].dist, r.pool[r.prevPrev].dist)
    && (!r.changed ==> Upcoming(r) == Now(r))
  }

  predicate Distinct(s: seq<nat>) {
    forall x, y :: 0 <= x < y < |s| ==> s[x] != s[y]
  }

  /** The epochs 2, 3, ..., e. */
  function EpochsTo(e: nat): seq<nat> {
    if e < 2 then [] else EpochsTo(e - 1) + [e]
  }

  /** The send list is a permutation of the neighbours; each neighbour has been sent every epoch
      up to the last one exactly once and in order. */
  predicate Serving(w: Matrix, n: nat, me: nat, r: Router)
    requires Square(w, n) && Shaped(r, n)
  {
    && Distinct(r.targets)
    && (forall i :: 0 <= i < n ==> (i in r.targets <==> Linked(w, n, me, i)))
    && (forall i :: 0 <= i < n ==> r.log[i] == if Linked(w, n, me, i) then EpochsTo(LastSent(r, i)) else [])
  }

  predicate AtPc(w: Matrix, n: nat, me: nat, r: Router)
    requires Square(w, n) && Shaped(r, n)
  {
    && (r.pc.Selecting? || r.pc.Replying? || r.pc.Stopped? ==> !(r.pending == 0 && r.changed))
    && (r.pc.Relaxing? ==> Linked(w, n, r.pc.src, me))
  }

  ghost predicate RouterInv(w: Matrix, n: nat, me: nat, r: Router)
    requires Square(w, n)
  {
    me < n && Shaped(r, n) && Rotating(r) && Honest(w, n, me, r) && Serving(w, n, me, r) && AtPc(w, n, me, r)
  }

  // ---------- the invariant holds at the start ----------

  lemma {:induction false} NeighboursListed(w: Matrix, n: nat, me: nat, m: nat)
    requires Square(w, n) && me < n && m <= n
    ensures var s := Neighbours(w, n, me, m);
            Distinct(s) && forall i :: 0 <= i < m ==> (i in s <==> Linked(w, n, me, i))
  {
    if m > 0 {
      NeighboursListed(w, n, me, m - 1);
    }
  }

  lemma InitialInv(w: Matrix, n: nat, me: nat)
    requires Clamped(w, n) && me < n
    ensures RouterInv(w, n, me, Initial(w, n, me))
  {
    var r := Initial(w, n, me);
    NeighboursListed(w, n, me, n);
    assert r.targets[..r.pending] == r.targets;
    forall j | 0 <= j < n ensures Real(w, n, me, j, w[me][j]) {
      LinkIsReal(w, n, me, j);
    }
    assert EpochsTo(1) == [];
  }

  // ---------- relaxation ----------

  /** The sum never wraps, is the weight of a walk, and is stored only where it is smaller. */
  lemma RelaxOneInv(w: Matrix, n: nat, me: nat, r: Router, d: nat)
    requires Clamped(w, n) && SymmetricLinks(w, n) && RouterInv(w, n, me, r) && r.pc.Relaxing?
    requires d <= INF && Real(w, n, r.pc.src, r.pc.j, d)
    ensures w[me][r.pc.src] != INF && Add32(w[me][r.pc.src], d) == w[me][r.pc.src] + d
    ensures RouterInv(w, n, me, RelaxOne(r, n, w[me][r.pc.src], d))
  {
    var link := w[me][r.pc.src];
    var j := r.pc.j;
    NoWrap(link, d);
    var s := RelaxOne(r, n, link, d);
    if link + d < Upcoming(r)[j] {
      assert RealVector(w, n, me, r.pool[r.next].dist);
      PrependIsReal(w, n, me, r.pc.src, j, d);
      RelaxedHonest(w, n, me, r, d);
    }
    RelaxServing(w, n, me, r, link, d);
  }

  lemma RelaxServing(w: Matrix, n: nat, me: nat, r: Router, link: nat, d: nat)
    requires Square(w, n) && Shaped(r, n) && Rotating(r) && r.pc.Relaxing?
    ensures var s := RelaxOne(r, n, link, d);
            && s.targets == r.targets && s.pending == r.pending && s.log == r.log && s.curr == r.curr
            && s.pool[s.curr] == r.pool[r.curr] && Rotating(s)
            && (forall i :: LastSent(s, i) == LastSent(r, i))
  {
  }

  lemma RelaxedHonest(w: Matrix, n: nat, me: nat, r: Router, d: nat)
    requires Clamped(w, n) && RouterInv(w, n, me, r) && r.pc.Relaxing?
    requires d <= INF && w[me][r.pc.src] + d < Upcoming(r)[r.pc.j]
    requires Real(w, n, me, r.pc.j, w[me][r.pc.src] + d)
    ensures Honest(w, n, me, RelaxOne(r, n, w[me][r.pc.src], d))
  {
    var link := w[me][r.pc.src];
    NoWrap(link, d);
    var s := RelaxOne(r, n, link, d);
    assert RealVector(w, n, me, r.pool[r.next].dist);
    assert RealVector(w, n, me, s.pool[r.next].dist);
    forall t | 0 <= t < 4 ensures RealVector(w, n, me, s.pool[t].dist) {
      if t != r.next { assert s.pool[t] == r.pool[t]; }
    }
  }

  // ---------- sending ----------

  /** The swap keeps the list a permutation and takes exactly the served entry out of the pending part. */
  lemma SwapServes(r: Router, n: nat, x: nat, i: nat)
    requires Shaped(r, n) && x < r.pending && Distinct(r.targets)
    ensures var s := AfterSend(r, n, x);
            && Distinct(s.targets)
            && (i in s.targets <==> i in r.targets)
            && (PendingTo(s, i) <==> PendingTo(r, i) && i != r.targets[x])
            && PendingTo(r, r.targets[x])
            && multiset(s.targets) == multiset(r.targets)
  {
    var s := AfterSend(r, n, x);
    var last := r.pending - 1;
    assert r.targets[x] in r.targets[..r.pending] by {
      assert r.targets[..r.pending][x] == r.targets[x];
    }
    SwapMembers(r.targets, x, last, i);
    SwapPrefix(r.targets, x, last, i);
    SwapDistinct(r.targets, x, last);
    hide Shaped, Distinct;
  }

  lemma SwapDistinct(t: seq<nat>, x: nat, last: nat)
    requires x <= last < |t| && Distinct(t)
    ensures Distinct(t[last := t[x]][x := t[last]])
  {
  }

  lemma SwapMembers(t: seq<nat>, x: nat, last: nat, i: nat)
    requires x <= last < |t|
    ensures var u := t[last := t[x]][x := t[last]]; multiset(u) == multiset(t) && (i in u <==> i in t)
  {
    var u := t[last := t[x]][x := t[last]];
    assert multiset(u) == multiset(t);
    assert i in u <==> i in multiset(u);
    assert i in t <==> i in multiset(t);
  }

  lemma SwapPrefix(t: seq<nat>, x: nat, last: nat, i: nat)
    requires x <= last < |t| && Distinct(t)
    ensures var u := t[last := t[x]][x := t[last]]; i in u[..last] <==> i in t[..last + 1] && i != t[x]
  {
    var u := t[last := t[x]][x := t[last]];
    if i in u[..last] {
      var y :| 0 <= y < last && u[y] == i;
      var z := if y == x then last else y;
      assert t[z] == i && t[..last + 1][z] == i;
    }
    if i in t[..last + 1] && i != t[x] {
      var z :| 0 <= z < last + 1 && t[z] == i;
      var y := if z == last then x else z;
      assert u[..last][y] == i;
    }
  }

  lemma AfterSendServing(w: Matrix, n: nat, me: nat, r: Router, x: nat)
    requires Square(w, n) && RouterInv(w, n, me, r) && x < r.pending
    ensures Serving(w, n, me, AfterSend(r, n, x))
  {
    var s := AfterSend(r, n, x);
    SwapServes(r, n, x, r.targets[x]);
    forall i | 0 <= i < n
      ensures i in s.targets <==> Linked(w, n, me, i)
      ensures s.log[i] == if Linked(w, n, me, i) then EpochsTo(LastSent(s, i)) else []
    {
      SwapServes(r, n, x, i);
      hide Honest, AtPc;
      assert i in r.targets <==> Linked(w, n, me, i);
    }
  }

  /** What is said of the vectors depends on the pool, its roles and `changed` only. */
  lemma SameVectors(w: Matrix, n: nat, me: nat, r: Router, s: Router)
    requires Square(w, n) && me < n && Shaped(r, n) && Shaped(s, n) && Rotating(r) && Honest(w, n, me, r)
    requires s.pool == r.pool && s.prevPrev == r.prevPrev && s.prev == r.prev && s.curr == r.curr && s.next == r.next
    requires s.changed == r.changed
    ensures Rotating(s) && Honest(w, n, me, s)
  {
    hide RealVector, Dominated;
  }

  lemma AfterSendInv(w: Matrix, n: nat, me: nat, r: Router, x: nat)
    requires Square(w, n) && RouterInv(w, n, me, r) && x < r.pending
    ensures RouterInv(w, n, me, AfterSend(r, n, x)) && Linked(w, n, me, r.targets[x])
  {
    AfterSendServing(w, n, me, r, x);
    SameVectors(w, n, me, r, AfterSend(r, n, x));
    assert r.targets[x] in r.targets;
    hide Honest, Rotating;
  }

  // ---------- rotation ----------

  lemma RotateHonest(w: Matrix, n: nat, me: nat, r: Router)
    requires Square(w, n) && RouterInv(w, n, me, r)
    ensures Honest(w, n, me, Rotate(r, n))
  {
    var s := Rotate(r, n);
    RotateRoles(r, n);
    hide Rotating, Serving, AtPc, Dominated;
    forall t | 0 <= t < 4 ensures RealVector(w, n, me, s.pool[t].dist) {
      assert RealVector(w, n, me, r.pool[r.next].dist);
      assert t != r.prevPrev ==> s.pool[t] == r.pool[t];
      assert RealVector(w, n, me, r.pool[t].dist);
    }
    SelfDominated(Upcoming(r));
  }

  lemma SelfDominated(v: seq<nat>)
    ensures Dominated(v, v)
  {
  }

  lemma RotateServing(w: Matrix, n: nat, me: nat, r: Router)
    requires Square(w, n) && RouterInv(w, n, me, r) && r.pending == 0
    ensures Serving(w, n, me, Rotate(r, n))
    ensures forall i :: Linked(w, n, me, i) ==> PendingTo(Rotate(r, n), i)
    ensures forall i :: !PendingTo(r, i)
  {
    var s := Rotate(r, n);
    RotateRoles(r, n);
    hide Rotating, Honest, AtPc;
    assert r.targets[..0] == [];
    assert s.targets[..s.pending] == r.targets;
    forall i | 0 <= i < n && Linked(w, n, me, i) ensures LastSent(s, i) == LastSent(r, i) {
      assert i in r.targets;
    }
  }

  /** A rotation needs everybody served; it advances every role by one epoch and re-arms the whole list. */
  lemma RotateInv(w: Matrix, n: nat, me: nat, r: Router)
    requires Clamped(w, n) && RouterInv(w, n, me, r) && r.pending == 0
    ensures RouterInv(w, n, me, Rotate(r, n).(pc := Selecting))
    ensures Epoch(Rotate(r, n)) == Epoch(r) + 1 && Now(Rotate(r, n)) == Upcoming(r)
    ensures forall i :: Linked(w, n, me, i) ==> PendingTo(Rotate(r, n), i)
  {
    RotateRoles(r, n);
    RotateHonest(w, n, me, r);
    RotateServing(w, n, me, r);
    var s := Rotate(r, n);
    var t := s.(pc := Selecting);
    assert Honest(w, n, me, t);
    assert Serving(w, n, me, t) by {
      hide Rotating, Honest;
      assert forall i :: LastSent(t, i) == LastSent(s, i);
    }
  }

  lemma RotateRoles(r: Router, n: nat)
    requires Shaped(r, n) && Rotating(r)
    ensures var s := Rotate(r, n);
            && Rotating(s) && Epoch(s) == Epoch(r) + 1
            && r.prevPrev != r.next && r.prevPrev != r.curr && r.prevPrev != r.prev
            && Now(s) == Upcoming(r) && Upcoming(s) == Upcoming(r)
            && s.pool[s.prev] == r.pool[r.curr] && s.pool[s.prevPrev] == r.pool[r.prev]
  {
    FourApart(Epoch(r) - 2);
  }

  /** Four consecutive epochs live in four different slots. */
  lemma FourApart(e: nat)
    ensures Slot(e) != Slot(e + 1) && Slot(e) != Slot(e + 2) && Slot(e) != Slot(e + 3) && Slot(e) == Slot(e + 4)
    ensures Slot(e + 1) != Slot(e + 2) && Slot(e + 1) != Slot(e + 3) && Slot(e + 2) != Slot(e + 3)
  {
  }

  lemma SameRemainder(a: nat, b: nat)
    ensures Slot(b) == Slot(a) <==> (b - a) % 4 == 0
  {
  }

  /** Each slot holds the epochs of its own remainder, and only the last four are held. */
  lemma SlotEpoch(r: Router, slot: nat)
    requires |r.pool| == 4 && r.prevPrev < 4 && r.prev < 4 && r.curr < 4 && r.next < 4 && Rotating(r) && slot < 4
    ensures var e := r.pool[slot].epoch; Slot(e) == slot && Epoch(r) <= e + 2 && e <= Epoch(r) + 1
  {
    var e := Epoch(r);
    FourApart(e - 2);
    assert slot == r.prevPrev || slot == r.prev || slot == r.curr || slot == r.next;
  }

  lemma EndOfLoopInv(w: Matrix, n: nat, me: nat, r: Router)
    requires Clamped(w, n) && RouterInv(w, n, me, r)
    ensures RouterInv(w, n, me, EndOfLoop(r, n))
  {
    assert Shaped(r, n);
    var s := EndOfLoop(r, n);
    if r.pending == 0 && r.changed {
      RotateInv(w, n, me, r);
    } else {
      MoveInv(w, n, me, r, s);
    }
    hide RouterInv, Rotate;
  }

  /** A router that only moves between program points keeps its invariant if the new point allows it. */
  lemma MoveInv(w: Matrix, n: nat, me: nat, r: Router, s: Router)
    requires Square(w, n) && RouterInv(w, n, me, r) && Shaped(s, n) && AtPc(w, n, me, s)
    requires s == r.(pc := s.pc, answer := s.answer)
    ensures RouterInv(w, n, me, s)
  {
    SameVectors(w, n, me, r, s);
    hide Honest, Rotating;
  }
}
