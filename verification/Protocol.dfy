/** What the distance-vector protocol guarantees in every reachable state. */
module Protocol {
  import opened Distances
  import opened Routers
  import opened Network
  import opened NetworkInv
  import FloydWarshall

  // ---------- the rotating pool is free of races ----------

  /** Some other thread holds a pointer to this slot: in a channel, or in hand while reading it. */
  ghost predicate Observed(c: Config, s: Net, k: nat, slot: nat)
    requires Fits(c, s)
  {
    exists i :: 0 <= i < c.n && ObservedAt(c, s, k, slot, i)
  }

  predicate ObservedAt(c: Config, s: Net, k: nat, slot: nat, i: nat)
    requires Fits(c, s) && i < c.n
  {
    || (Flying(s.chan[i], k) && s.chan[i][0].slot == slot)
    || (Reading(s.routers[i], k) && s.routers[i].pc.slot == slot)
  }

  /** The slot of epoch c+1 is never observed, and the slot of epoch c-2 is not once epoch c has been
      sent to everybody: these are the two slots a router writes, while relaxing and while rotating. */
  lemma WrittenSlotsAreUnobserved(c: Config, s: Net, k: nat)
    requires NetInv(c, s) && k < c.n
    ensures !Observed(c, s, k, s.routers[k].next)
    ensures s.routers[k].pending == 0 ==> !Observed(c, s, k, s.routers[k].prevPrev)
  {
    var r := s.routers[k];
    assert RouterInv(c.w, c.n, k, r);
    forall i | 0 <= i < c.n
      ensures !ObservedAt(c, s, k, r.next, i)
      ensures r.pending == 0 ==> !ObservedAt(c, s, k, r.prevPrev, i)
    {
      UnobservedAt(c, k, r, i, s.routers[i], s.chan[i]);
    }
  }

  lemma UnobservedAt(c: Config, k: nat, r: Router, i: nat, ri: Router, q: seq<Msg>)
    requires Square(c.w, c.n) && k < c.n && i < c.n && Shaped(r, c.n) && Shaped(ri, c.n) && Rotating(r)
    requires PairInv(c, k, r, i, ri, q)
    ensures Flying(q, k) ==> q[0].slot != r.next && (r.pending == 0 ==> q[0].slot != r.prevPrev)
    ensures Reading(ri, k) ==> ri.pc.slot != r.next && (r.pending == 0 ==> ri.pc.slot != r.prevPrev)
  {
    FourApart(Epoch(r) - 2);
    assert r.targets[..0] == [];
  }

  /** Relaxing writes the upcoming slot only, rotating the oldest one only. */
  lemma RouterWrites(r: Router, n: nat, link: nat, d: nat, slot: nat)
    requires Shaped(r, n) && slot < 4
    ensures r.pc.Relaxing? && slot != r.next ==> RelaxOne(r, n, link, d).pool[slot] == r.pool[slot]
    ensures r.pending != 0 || slot != r.prevPrev ==> EndOfLoop(r, n).pool[slot] == r.pool[slot]
  {
  }

  lemma MainWritesNothing(c: Config, s: Net)
    requires Fits(c, s) && MainEnabled(c, s)
    ensures ApplyMain(c, s).routers == s.routers
  {
  }

  lemma TakeWritesNothing(c: Config, s: Net, i: nat, k: nat)
    requires Fits(c, s) && Enabled(c, s, Take(i)) && k < c.n
    ensures ApplyTake(c, s, i).routers[k].pool == s.routers[k].pool
  {
  }

  lemma SendWritesNothing(c: Config, s: Net, i: nat, x: nat, k: nat)
    requires Fits(c, s) && Enabled(c, s, Send(i, x)) && k < c.n
    ensures ApplySend(c, s, i, x).routers[k].pool == s.routers[k].pool
  {
  }

  lemma RelaxWrites(c: Config, s: Net, i: nat, k: nat, slot: nat)
    requires Fits(c, s) && Enabled(c, s, Relax(i)) && k < c.n && slot < 4 && slot != s.routers[k].next
    ensures ApplyRelax(c, s, i).routers[k].pool[slot] == s.routers[k].pool[slot]
  {
    var q := s.routers[i];
    RouterWrites(q, c.n, c.w[i][q.pc.src], s.routers[q.pc.src].pool[q.pc.slot].dist[q.pc.j], slot);
    hide RelaxOne;
  }

  lemma DecideWrites(c: Config, s: Net, i: nat, k: nat, slot: nat)
    requires Fits(c, s) && Enabled(c, s, Decide(i)) && k < c.n && slot < 4
    requires s.routers[k].pending != 0 || slot != s.routers[k].prevPrev
    ensures ApplyDecide(c, s, i).routers[k].pool[slot] == s.routers[k].pool[slot]
  {
    if i == k {
      RouterWrites(s.routers[k], c.n, 0, 0, slot);
    }
    hide EndOfLoop;
  }

  /** No step changes a vector that some other thread can observe. */
  lemma ObservedIsImmutable(c: Config, s: Net, a: Action, k: nat, slot: nat)
    requires NetInv(c, s) && Enabled(c, s, a) && k < c.n && slot < 4 && Observed(c, s, k, slot)
    ensures Apply(c, s, a).routers[k].pool[slot] == s.routers[k].pool[slot]
  {
    assert Fits(c, s);
    WrittenSlotsAreUnobserved(c, s, k);
    hide NetInv, Observed, Enabled, Apply, Fits;
    StepWrites(c, s, a, k, slot);
  }

  /** A step writes the upcoming slot of a router or, while rotating, its oldest one: no other. */
  lemma StepWrites(c: Config, s: Net, a: Action, k: nat, slot: nat)
    requires Fits(c, s) && Enabled(c, s, a) && k < c.n && slot < 4 && slot != s.routers[k].next
    requires s.routers[k].pending != 0 || slot != s.routers[k].prevPrev
    ensures Apply(c, s, a).routers[k].pool[slot] == s.routers[k].pool[slot]
  {
    hide ApplyTake, ApplySend, ApplyRelax, ApplyDecide, ApplyMain, MainFits;
    match a {
      case Take(i) => TakeWritesNothing(c, s, i, k);
      case Send(i, x) => SendWritesNothing(c, s, i, x, k);
      case Relax(i) => RelaxWrites(c, s, i, k, slot);
      case Decide(i) => DecideWrites(c, s, i, k, slot);
      case GiveAnswer(i) =>
      case Stop(i) =>
      case MainStep => MainWritesNothing(c, s);
    }
  }

  /** Slots and epochs: slot `e % 4` holds epoch `e`, and only the last four epochs are held. */
  lemma SlotHoldsEpoch(c: Config, s: Net, k: nat, slot: nat)
    requires NetInv(c, s) && k < c.n && slot < 4
    ensures var r := s.routers[k]; var e := r.pool[slot].epoch;
            e % 4 == slot && Epoch(r) <= e + 2 && e <= Epoch(r) + 1
  {
    assert RouterInv(c.w, c.n, k, s.routers[k]);
    hide Honest, Serving, NetInv;
    SlotEpoch(s.routers[k], slot);
  }

  // ---------- the run-time checks of the router never fire ----------

  /** The link to the sender of what was taken exists, and the 32-bit sum is the true sum. */
  lemma RelaxationIsSound(c: Config, s: Net, i: nat)
    requires NetInv(c, s) && Enabled(c, s, Relax(i))
    ensures var r := s.routers[i]; var d := s.routers[r.pc.src].pool[r.pc.slot].dist[r.pc.j];
            c.w[i][r.pc.src] != INF && Add32(c.w[i][r.pc.src], d) == c.w[i][r.pc.src] + d
  {
    var r := s.routers[i];
    ReadIsReal(c, s, i);
    assert RouterInv(c.w, c.n, i, r);
    RelaxOneInv(c.w, c.n, i, r, s.routers[r.pc.src].pool[r.pc.slot].dist[r.pc.j]);
  }

  /** Every entry of every vector lies between the shortest distance and INF, and no vector is worse
      than the one of the epoch before. */
  lemma DistancesAreReal(c: Config, s: Net, k: nat, slot: nat, j: nat, d: nat)
    requires NetInv(c, s) && k < c.n && slot < 4 && j < c.n && Shortest(c.w, c.n, k, j, d)
    ensures var r := s.routers[k];
            && d <= r.pool[slot].dist[j] <= INF && Real(c.w, c.n, k, j, r.pool[slot].dist[j])
            && r.pool[r.next].dist[j] <= r.pool[r.curr].dist[j] <= r.pool[r.prev].dist[j] <= r.pool[r.prevPrev].dist[j]
  {
    var r := s.routers[k];
    assert RouterInv(c.w, c.n, k, r);
    assert RealVector(c.w, c.n, k, r.pool[slot].dist);
    var e := r.pool[slot].dist[j];
    assert Real(c.w, c.n, k, j, e);
    if e < INF {
      var p: Walk :| Joins(p, c.n, k, j) && Weight(c.w, c.n, p) == e;
    }
  }

  /** When a router has nothing left to send, each neighbour has been sent every epoch exactly once. */
  lemma BroadcastIsComplete(c: Config, s: Net, k: nat, i: nat)
    requires NetInv(c, s) && k < c.n && i < c.n && s.routers[k].pending == 0
    ensures s.routers[k].log[i] == if Linked(c.w, c.n, k, i) then EpochsTo(Epoch(s.routers[k])) else []
    ensures i in s.routers[k].targets <==> Linked(c.w, c.n, k, i)
  {
    var r := s.routers[k];
    assert RouterInv(c.w, c.n, k, r);
    assert r.targets[..0] == [];
  }

  // ---------- quiescence ----------

  predicate Idle(r: Router) {
    r.pending == 0 && !r.changed && !r.pc.Relaxing?
  }

  /** No vector is waiting, being read, pending or unannounced anywhere. */
  predicate Quiescent(c: Config, s: Net)
    requires Fits(c, s)
  {
    && (forall k :: 0 <= k < c.n ==> Idle(s.routers[k]))
    && (forall i, k :: 0 <= i < c.n && 0 <= k < c.n ==> !Flying(s.chan[i], k))
  }

  function Table(c: Config, s: Net): (d: Matrix)
    requires Fits(c, s)
    ensures Square(d, c.n)
  {
    seq(c.n, k requires 0 <= k < c.n => Now(s.routers[k]))
  }

  lemma HeardWhenQuiescent(c: Config, s: Net, i: nat, k: nat, j: nat)
    requires NetInv(c, s) && Quiescent(c, s) && i < c.n && k < c.n && j < c.n
    ensures Now(s.routers[i])[j] <= c.w[i][k] + Now(s.routers[k])[j]
  {
    var ri, rk := s.routers[i], s.routers[k];
    assert RouterInv(c.w, c.n, i, ri) && RouterInv(c.w, c.n, k, rk);
    assert PairInv(c, k, rk, i, ri, s.chan[i]);
    assert rk.targets[..0] == [];
    assert RealVector(c.w, c.n, i, ri.pool[ri.curr].dist);
    if Linked(c.w, c.n, k, i) {
      assert Heard(c, i, ri, k, rk, c.n);
    }
  }

  lemma QuiescentIsSettled(c: Config, s: Net)
    requires NetInv(c, s) && Quiescent(c, s)
    ensures Settled(c.w, c.n, Table(c, s))
  {
    var d := Table(c, s);
    forall i, j | 0 <= i < c.n && 0 <= j < c.n ensures d[i][j] <= c.w[i][j] {
      assert RouterInv(c.w, c.n, i, s.routers[i]);
      assert RealVector(c.w, c.n, i, s.routers[i].pool[s.routers[i].curr].dist);
    }
    forall i, k, j | 0 <= i < c.n && 0 <= k < c.n && 0 <= j < c.n ensures d[i][j] <= c.w[i][k] + d[k][j] {
      HeardWhenQuiescent(c, s, i, k, j);
    }
  }

  /** A quiescent network has computed what the sequential solver computes. */
  lemma QuiescentIsSolved(c: Config, s: Net, i: nat, j: nat)
    requires NetInv(c, s) && Quiescent(c, s) && i < c.n && j < c.n
    ensures Shortest(c.w, c.n, i, j, Now(s.routers[i])[j])
    ensures Now(s.routers[i])[j] == FloydWarshall.Phases(c.w, c.n, c.n)[i][j]
  {
    QuiescentIsSettled(c, s);
    assert RouterInv(c.w, c.n, i, s.routers[i]);
    assert RealVector(c.w, c.n, i, s.routers[i].pool[s.routers[i].curr].dist);
    SettledIsShortest(c.w, c.n, Table(c, s), i, j);
    FloydWarshall.PhasesAreShortest(c.w, c.n, i, j);
    ShortestIsUnique(c.w, c.n, i, j, Now(s.routers[i])[j], FloydWarshall.Phases(c.w, c.n, c.n)[i][j]);
  }
}
