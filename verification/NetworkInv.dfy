/** What every reachable state of the network satisfies, and that every step keeps it. */
module NetworkInv {
  import opened Distances
  import opened Routers
  import opened Network

  // ---------- one ordered pair of routers ----------

  /** A vector of `k` is waiting in this channel. */
  predicate Flying(q: seq<Msg>, k: nat) {
    q != [] && q[0].Vec? && q[0].src == k
  }

  predicate Reading(r: Router, k: nat) {
    r.pc.Relaxing? && r.pc.src == k
  }

  /** How many destinations router `r` has already relaxed with what it last took from `k`. */
  function ReadSoFar(r: Router, n: nat, k: nat): nat {
    if Reading(r, k) then r.pc.j else n
  }

  /** Up to destination `m`, the receiver's upcoming vector accounts for the sender's current one. */
  predicate Heard(c: Config, i: nat, ri: Router, k: nat, rk: Router, m: nat)
    requires Square(c.w, c.n) && i < c.n && k < c.n && Shaped(ri, c.n) && Shaped(rk, c.n)
  {
    forall j :: 0 <= j < m && j < c.n ==> Upcoming(ri)[j] <= c.w[i][k] + Now(rk)[j]
  }

  /** Sender `k`, receiver `i`, and the receiver's channel `q`. A waiting vector is the last one sent;
      one being read is the last one taken; and unless news is pending or waiting, `i` has heard `k`. */
  predicate PairInv(c: Config, k: nat, rk: Router, i: nat, ri: Router, q: seq<Msg>)
    requires Square(c.w, c.n) && i < c.n && k < c.n && Shaped(ri, c.n) && Shaped(rk, c.n)
  {
    var top := LastSent(rk, i);
    && (Flying(q, k) ==> Linked(c.w, c.n, k, i) && q[0].slot == Slot(top))
    && (Reading(ri, k) ==> Linked(c.w, c.n, k, i) && ri.pc.slot == Slot(if Flying(q, k) then top + 3 else top))
    && (Linked(c.w, c.n, k, i) && !PendingTo(rk, i) && !Flying(q, k) ==>
          Heard(c, i, ri, k, rk, ReadSoFar(ri, c.n, k)))
  }

  ghost predicate NetInv(c: Config, s: Net) {
    && ValidConfig(c) && Fits(c, s)
    && (forall k :: 0 <= k < c.n ==> RouterInv(c.w, c.n, k, s.routers[k]))
    && (forall k, i :: 0 <= k < c.n && 0 <= i < c.n ==> PairInv(c, k, s.routers[k], i, s.routers[i], s.chan[i]))
  }

  // ---------- the initial state ----------

  lemma InitPair(c: Config, k: nat, i: nat)
    requires ValidConfig(c) && k < c.n && i < c.n
    ensures PairInv(c, k, Initial(c.w, c.n, k), i, Initial(c.w, c.n, i), [])
  {
    var rk := Initial(c.w, c.n, k);
    NeighboursListed(c.w, c.n, k, c.n);
    assert rk.targets[..rk.pending] == rk.targets;
  }

  lemma InitInv(c: Config)
    requires ValidConfig(c)
    ensures NetInv(c, Init(c))
  {
    forall k | 0 <= k < c.n ensures RouterInv(c.w, c.n, k, Init(c).routers[k]) {
      InitialInv(c.w, c.n, k);
    }
    forall k, i | 0 <= k < c.n && 0 <= i < c.n
      ensures PairInv(c, k, Init(c).routers[k], i, Init(c).routers[i], Init(c).chan[i])
    {
      InitPair(c, k, i);
    }
  }

  // ---------- what a step does to one pair ----------

  predicate SameSender(r: Router, s: Router) {
    r.pool == s.pool && r.curr == s.curr && r.targets == s.targets && r.pending == s.pending
  }

  predicate SameReceiver(r: Router, s: Router) {
    r.pool == s.pool && r.next == s.next && !r.pc.Relaxing? && !s.pc.Relaxing?
  }

  lemma PairSameSender(c: Config, k: nat, rk: Router, sk: Router, i: nat, ri: Router, q: seq<Msg>)
    requires Square(c.w, c.n) && i < c.n && k < c.n && Shaped(ri, c.n) && Shaped(rk, c.n) && Shaped(sk, c.n)
    requires SameSender(rk, sk) && PairInv(c, k, rk, i, ri, q)
    ensures PairInv(c, k, sk, i, ri, q)
  {
  }

  /** The receiver moves between program points without a vector in hand; its channel gains or loses no
      vector of `k`. */
  lemma PairSameReceiver(c: Config, k: nat, rk: Router, i: nat, ri: Router, si: Router, q: seq<Msg>, p: seq<Msg>)
    requires Square(c.w, c.n) && i < c.n && k < c.n && Shaped(ri, c.n) && Shaped(rk, c.n) && Shaped(si, c.n)
    requires SameReceiver(ri, si) && !Flying(q, k) && !Flying(p, k) && PairInv(c, k, rk, i, ri, q)
    ensures PairInv(c, k, rk, i, si, p)
  {
  }

  lemma PairMoves(c: Config, k: nat, rk: Router, i: nat, ri: Router, si: Router, q: seq<Msg>)
    requires Square(c.w, c.n) && i < c.n && k < c.n && Shaped(ri, c.n) && Shaped(rk, c.n) && Shaped(si, c.n)
    requires SameReceiver(ri, si) && PairInv(c, k, rk, i, ri, q)
    ensures PairInv(c, k, rk, i, si, q)
  {
  }

  lemma PairTake(c: Config, k: nat, rk: Router, i: nat, ri: Router, q: seq<Msg>)
    requires Square(c.w, c.n) && i < c.n && k < c.n && Shaped(ri, c.n) && Shaped(rk, c.n)
    requires |q| == 1 && q[0].Vec? && q[0].src < c.n && q[0].slot < 4 && ri.pc.Selecting?
    requires PairInv(c, k, rk, i, ri, q)
    ensures PairInv(c, k, rk, i, ri.(pc := Relaxing(q[0].src, q[0].slot, 0)), [])
  {
  }

  lemma PairSendMiss(c: Config, k: nat, rk: Router, sk: Router, i: nat, ri: Router, q: seq<Msg>)
    requires Square(c.w, c.n) && i < c.n && k < c.n && Shaped(ri, c.n) && Shaped(rk, c.n) && Shaped(sk, c.n)
    requires Epoch(sk) == Epoch(rk) && Now(sk) == Now(rk) && PendingTo(sk, i) == PendingTo(rk, i)
    requires PairInv(c, k, rk, i, ri, q)
    ensures PairInv(c, k, sk, i, ri, q)
  {
  }

  lemma PairSendHit(c: Config, k: nat, rk: Router, sk: Router, i: nat, ri: Router)
    requires Square(c.w, c.n) && i < c.n && k < c.n && Shaped(ri, c.n) && Shaped(rk, c.n) && Shaped(sk, c.n)
    requires Rotating(rk) && Epoch(sk) == Epoch(rk) && PendingTo(rk, i) && !PendingTo(sk, i)
    requires Linked(c.w, c.n, k, i) && PairInv(c, k, rk, i, ri, [])
    ensures PairInv(c, k, sk, i, ri, [Vec(k, rk.curr)])
  {
    hide Heard;
  }

  lemma PairSend(c: Config, k: nat, rk: Router, x: nat, i: nat, ri: Router, q: seq<Msg>)
    requires Square(c.w, c.n) && i < c.n && RouterInv(c.w, c.n, k, rk) && Shaped(ri, c.n)
    requires x < rk.pending && PairInv(c, k, rk, i, ri, q) && (rk.targets[x] == i ==> q == [])
    ensures PairInv(c, k, AfterSend(rk, c.n, x), i, ri, if rk.targets[x] == i then [Vec(k, rk.curr)] else q)
  {
    SwapServes(rk, c.n, x, i);
    AfterSendInv(c.w, c.n, k, rk, x);
    var sk := AfterSend(rk, c.n, x);
    assert Now(sk) == Now(rk) && Epoch(sk) == Epoch(rk);
    if rk.targets[x] == i {
      PairSendHit(c, k, rk, sk, i, ri);
    } else {
      PairSendMiss(c, k, rk, sk, i, ri, q);
    }
  }

  /** One turn of the loop lowers distances only, and covers the destination it looked at. */
  lemma RelaxCovers(r: Router, n: nat, link: nat, d: nat)
    requires Shaped(r, n) && r.pc.Relaxing?
    ensures var s := RelaxOne(r, n, link, d);
            && s.next == r.next && Dominated(Upcoming(s), Upcoming(r))
            && Upcoming(s)[r.pc.j] <= Add32(link, d)
            && (s.pc == Relaxing(r.pc.src, r.pc.slot, r.pc.j + 1) || (s.pc == Deciding && r.pc.j + 1 == n))
  {
  }

  /** Nothing newer is pending or waiting: the vector in hand is the sender's current one. */
  lemma InHandIsCurrent(c: Config, k: nat, rk: Router, i: nat, ri: Router, q: seq<Msg>)
    requires Square(c.w, c.n) && i < c.n && k < c.n && Shaped(ri, c.n) && Shaped(rk, c.n) && Rotating(rk)
    requires PairInv(c, k, rk, i, ri, q) && Reading(ri, k) && !PendingTo(rk, i) && !Flying(q, k)
    ensures ri.pc.slot == rk.curr
  {
  }

  /** The receiver's distances fell, and the one it looked at is covered if the vector in hand is current. */
  lemma PairAdvances(c: Config, k: nat, rk: Router, i: nat, ri: Router, si: Router, q: seq<Msg>)
    requires Square(c.w, c.n) && i < c.n && k < c.n && Shaped(ri, c.n) && Shaped(rk, c.n) && Shaped(si, c.n)
    requires PairInv(c, k, rk, i, ri, q) && ri.pc.Relaxing? && Dominated(Upcoming(si), Upcoming(ri))
    requires (si.pc == Relaxing(ri.pc.src, ri.pc.slot, ri.pc.j + 1) || (si.pc == Deciding && ri.pc.j + 1 == c.n))
    requires Reading(ri, k) && !PendingTo(rk, i) && !Flying(q, k) ==>
               Upcoming(si)[ri.pc.j] <= c.w[i][k] + Now(rk)[ri.pc.j]
    ensures PairInv(c, k, rk, i, si, q)
  {
    hide PendingTo;
  }

  lemma PairRelax(c: Config, k: nat, rk: Router, i: nat, ri: Router, q: seq<Msg>)
    requires ValidConfig(c) && RouterInv(c.w, c.n, i, ri) && RouterInv(c.w, c.n, k, rk)
    requires Reading(ri, k) && PairInv(c, k, rk, i, ri, q)
    requires rk.pool[ri.pc.slot].dist[ri.pc.j] <= INF && c.w[i][k] <= INF
    ensures PairInv(c, k, rk, i, RelaxOne(ri, c.n, c.w[i][k], rk.pool[ri.pc.slot].dist[ri.pc.j]), q)
  {
    var d := rk.pool[ri.pc.slot].dist[ri.pc.j];
    NoWrap(c.w[i][k], d);
    RelaxCovers(ri, c.n, c.w[i][k], d);
    if !PendingTo(rk, i) && !Flying(q, k) {
      InHandIsCurrent(c, k, rk, i, ri, q);
    }
    PairAdvances(c, k, rk, i, ri, RelaxOne(ri, c.n, c.w[i][k], d), q);
  }

  /** Every other pair: distances only fall. */
  lemma PairRelaxElse(c: Config, k: nat, rk: Router, i: nat, ri: Router, q: seq<Msg>, link: nat, d: nat)
    requires ValidConfig(c) && i < c.n && Shaped(ri, c.n) && Shaped(rk, c.n) && k < c.n
    requires ri.pc.Relaxing? && ri.pc.src != k && PairInv(c, k, rk, i, ri, q)
    ensures PairInv(c, k, rk, i, RelaxOne(ri, c.n, link, d), q)
  {
    RelaxCovers(ri, c.n, link, d);
    PairAdvances(c, k, rk, i, ri, RelaxOne(ri, c.n, link, d), q);
  }

  lemma PairSenderRelaxes(c: Config, k: nat, rk: Router, i: nat, ri: Router, q: seq<Msg>, link: nat, d: nat)
    requires ValidConfig(c) && i < c.n && RouterInv(c.w, c.n, k, rk) && Shaped(ri, c.n)
    requires rk.pc.Relaxing? && PairInv(c, k, rk, i, ri, q)
    ensures PairInv(c, k, RelaxOne(rk, c.n, link, d), i, ri, q)
  {
    hide Honest, Serving, Slot, RelaxOne;
    RelaxServing(c.w, c.n, k, rk, link, d);
  }

  lemma PairSenderDecides(c: Config, k: nat, rk: Router, i: nat, ri: Router, q: seq<Msg>)
    requires ValidConfig(c) && i < c.n && RouterInv(c.w, c.n, k, rk) && Shaped(ri, c.n)
    requires PairInv(c, k, rk, i, ri, q)
    ensures PairInv(c, k, EndOfLoop(rk, c.n), i, ri, q)
  {
    assert Shaped(rk, c.n);
    hide PairInv, RouterInv, Slot;
    if rk.pending == 0 && rk.changed {
      PairSenderRotates(c, k, rk, i, ri, q);
    } else {
      PairSameSender(c, k, rk, EndOfLoop(rk, c.n), i, ri, q);
    }
    hide Rotate;
  }

  lemma PairSenderRotates(c: Config, k: nat, rk: Router, i: nat, ri: Router, q: seq<Msg>)
    requires ValidConfig(c) && i < c.n && RouterInv(c.w, c.n, k, rk) && Shaped(ri, c.n)
    requires PairInv(c, k, rk, i, ri, q) && rk.pending == 0
    ensures PairInv(c, k, Rotate(rk, c.n).(pc := Selecting), i, ri, q)
  {
    RotateServing(c.w, c.n, k, rk);
    RotateRoles(rk, c.n);
    var sk := Rotate(rk, c.n).(pc := Selecting);
    assert PendingTo(sk, i) <==> PendingTo(Rotate(rk, c.n), i);
    assert Epoch(sk) == Epoch(rk) + 1 && !PendingTo(rk, i);
    hide Rotate, RouterInv, PendingTo, PairInv, Rotating, Slot;
    PairRearmed(c, k, rk, sk, i, ri, q);
  }

  /** The sender owes the receiver a new vector; the last one it has sent is still the same. */
  lemma PairRearmed(c: Config, k: nat, rk: Router, sk: Router, i: nat, ri: Router, q: seq<Msg>)
    requires Square(c.w, c.n) && i < c.n && k < c.n && Shaped(ri, c.n) && Shaped(rk, c.n) && Shaped(sk, c.n)
    requires Linked(c.w, c.n, k, i) ==> PendingTo(sk, i) && LastSent(sk, i) == LastSent(rk, i)
    requires PairInv(c, k, rk, i, ri, q)
    ensures PairInv(c, k, sk, i, ri, q)
  {
    hide LastSent, PendingTo, Heard, Slot;
  }

  lemma PairReceiverDecides(c: Config, k: nat, rk: Router, i: nat, ri: Router, q: seq<Msg>)
    requires ValidConfig(c) && k < c.n && RouterInv(c.w, c.n, i, ri) && Shaped(rk, c.n)
    requires ri.pc.Deciding? && PairInv(c, k, rk, i, ri, q)
    ensures PairInv(c, k, rk, i, EndOfLoop(ri, c.n), q)
  {
    RotateRoles(ri, c.n);
    hide Honest, Serving, Rotating;
  }

  // ---------- every step keeps the invariant ----------

  /** Enough to check one changed router and the channels: the rest of the state is not looked at. */
  lemma Reassemble(c: Config, s: Net, t: Net, i: nat)
    requires NetInv(c, s) && Fits(c, t) && i < c.n
    requires forall k :: 0 <= k < c.n && k != i ==> t.routers[k] == s.routers[k]
    requires RouterInv(c.w, c.n, i, t.routers[i])
    requires forall k, j :: 0 <= k < c.n && 0 <= j < c.n ==> PairInv(c, k, t.routers[k], j, t.routers[j], t.chan[j])
    ensures NetInv(c, t)
  {
    hide RouterInv, PairInv, Fits;
  }

  /** What the invariant says of one pair. */
  lemma PairFacts(c: Config, s: Net, k: nat, j: nat)
    requires NetInv(c, s) && k < c.n && j < c.n
    ensures ValidConfig(c) && Fits(c, s) && PairInv(c, k, s.routers[k], j, s.routers[j], s.chan[j])
    ensures RouterInv(c.w, c.n, k, s.routers[k]) && RouterInv(c.w, c.n, j, s.routers[j])
  {
    hide PairInv, RouterInv;
  }

  lemma TakeInv(c: Config, s: Net, i: nat)
    requires NetInv(c, s) && Enabled(c, s, Take(i))
    ensures NetInv(c, ApplyTake(c, s, i))
  {
    var t := ApplyTake(c, s, i);
    var r, q := s.routers[i], s.chan[i];
    assert q[1..] == [];
    if q[0].Vec? {
      assert PairInv(c, q[0].src, s.routers[q[0].src], i, r, q);
      assert Flying(q, q[0].src);
    }
    assert RouterInv(c.w, c.n, i, r);
    MoveInv(c.w, c.n, i, r, t.routers[i]);
    forall k, j | 0 <= k < c.n && 0 <= j < c.n
      ensures PairInv(c, k, t.routers[k], j, t.routers[j], t.chan[j])
    {
      TakePair(c, s, i, k, j);
    }
    Reassemble(c, s, t, i);
  }

  lemma TakePair(c: Config, s: Net, i: nat, k: nat, j: nat)
    requires NetInv(c, s) && Enabled(c, s, Take(i)) && k < c.n && j < c.n
    ensures var t := ApplyTake(c, s, i); PairInv(c, k, t.routers[k], j, t.routers[j], t.chan[j])
  {
    hide NetInv, PairInv, RouterInv;
    PairFacts(c, s, k, j);
    var t := ApplyTake(c, s, i);
    var rk, q := s.routers[k], s.chan[j];
    if j == i {
      assert q[1..] == [] && MsgFits(q[0], c.n);
      if q[0].Vec? {
        PairTake(c, k, rk, j, s.routers[j], q);
      } else {
        PairSameReceiver(c, k, rk, j, s.routers[j], t.routers[j], q, []);
      }
    }
    if k == i {
      PairSameSender(c, k, rk, t.routers[k], j, t.routers[j], t.chan[j]);
    }
  }

  lemma SendInv(c: Config, s: Net, i: nat, x: nat)
    requires NetInv(c, s) && Enabled(c, s, Send(i, x))
    ensures NetInv(c, ApplySend(c, s, i, x))
  {
    var t := ApplySend(c, s, i, x);
    assert RouterInv(c.w, c.n, i, s.routers[i]);
    AfterSendInv(c.w, c.n, i, s.routers[i], x);
    forall k, j | 0 <= k < c.n && 0 <= j < c.n
      ensures PairInv(c, k, t.routers[k], j, t.routers[j], t.chan[j])
    {
      SendPair(c, s, i, x, k, j);
    }
    Reassemble(c, s, t, i);
  }

  lemma SendPair(c: Config, s: Net, i: nat, x: nat, k: nat, j: nat)
    requires NetInv(c, s) && Enabled(c, s, Send(i, x)) && k < c.n && j < c.n
    ensures var t := ApplySend(c, s, i, x); PairInv(c, k, t.routers[k], j, t.routers[j], t.chan[j])
  {
    hide NetInv, PairInv, RouterInv;
    PairFacts(c, s, k, j);
    PairFacts(c, s, i, k);
    var t := ApplySend(c, s, i, x);
    var rk, rj, q := s.routers[k], s.routers[j], s.chan[j];
    var dst := s.routers[i].targets[x];
    if j == i {
      AfterSendInv(c.w, c.n, i, s.routers[i], x);
      assert dst != i;
      PairMoves(c, k, rk, j, rj, t.routers[j], q);
    }
    if k == i {
      PairSend(c, k, rk, x, j, t.routers[j], q);
      assert j == dst ==> s.chan[dst] == [] && t.chan[j] == [Vec(k, rk.curr)];
    } else if j == dst {
      assert s.chan[dst] == [];
      PairSameReceiver2(c, k, rk, j, t.routers[j], q, t.chan[j]);
    }
  }

  /** A channel that holds no vector of `k` before or after looks the same to the pair. */
  lemma PairSameReceiver2(c: Config, k: nat, rk: Router, i: nat, ri: Router, q: seq<Msg>, p: seq<Msg>)
    requires Square(c.w, c.n) && i < c.n && k < c.n && Shaped(ri, c.n) && Shaped(rk, c.n)
    requires !Flying(q, k) && !Flying(p, k) && PairInv(c, k, rk, i, ri, q)
    ensures PairInv(c, k, rk, i, ri, p)
  {
  }

  /** What a router reads through a pointer is a real distance from the sender, at most INF. */
  lemma ReadIsReal(c: Config, s: Net, i: nat)
    requires NetInv(c, s) && Enabled(c, s, Relax(i))
    ensures var r := s.routers[i]; var d := s.routers[r.pc.src].pool[r.pc.slot].dist[r.pc.j];
            d <= INF && Real(c.w, c.n, r.pc.src, r.pc.j, d)
  {
    var k := s.routers[i].pc.src;
    assert RouterInv(c.w, c.n, k, s.routers[k]);
    assert RealVector(c.w, c.n, k, s.routers[k].pool[s.routers[i].pc.slot].dist);
  }

  lemma RelaxInv(c: Config, s: Net, i: nat)
    requires NetInv(c, s) && Enabled(c, s, Relax(i))
    ensures NetInv(c, ApplyRelax(c, s, i))
  {
    hide NetInv, PairInv, RouterInv, Real, RelaxOne;
    PairFacts(c, s, i, i);
    var t := ApplyRelax(c, s, i);
    var r := s.routers[i];
    ReadIsReal(c, s, i);
    RelaxOneInv(c.w, c.n, i, r, s.routers[r.pc.src].pool[r.pc.slot].dist[r.pc.j]);
    forall k, j | 0 <= k < c.n && 0 <= j < c.n
      ensures PairInv(c, k, t.routers[k], j, t.routers[j], t.chan[j])
    {
      RelaxPair(c, s, i, k, j);
    }
    Reassemble(c, s, t, i);
  }

  lemma RelaxPair(c: Config, s: Net, i: nat, k: nat, j: nat)
    requires NetInv(c, s) && Enabled(c, s, Relax(i)) && k < c.n && j < c.n
    ensures var t := ApplyRelax(c, s, i); PairInv(c, k, t.routers[k], j, t.routers[j], t.chan[j])
  {
    var t := ApplyRelax(c, s, i);
    var r, rk, rj, q := s.routers[i], s.routers[k], s.routers[j], s.chan[j];
    var d := s.routers[r.pc.src].pool[r.pc.slot].dist[r.pc.j];
    assert PairInv(c, k, rk, j, rj, q) && RouterInv(c.w, c.n, k, rk) && RouterInv(c.w, c.n, j, rj);
    hide PairInv, RouterInv, Real, RelaxOne;
    ReadIsReal(c, s, i);
    if j == i {
      if r.pc.src == k {
        PairRelax(c, k, rk, j, rj, q);
      } else {
        PairRelaxElse(c, k, rk, j, rj, q, c.w[i][r.pc.src], d);
      }
    }
    if k == i {
      PairSenderRelaxes(c, k, rk, j, t.routers[j], q, c.w[i][r.pc.src], d);
    }
  }

  lemma DecideInv(c: Config, s: Net, i: nat)
    requires NetInv(c, s) && Enabled(c, s, Decide(i))
    ensures NetInv(c, ApplyDecide(c, s, i))
  {
    var t := ApplyDecide(c, s, i);
    assert RouterInv(c.w, c.n, i, s.routers[i]);
    hide PairInv, RouterInv, EndOfLoop;
    EndOfLoopInv(c.w, c.n, i, s.routers[i]);
    forall k, j | 0 <= k < c.n && 0 <= j < c.n
      ensures PairInv(c, k, t.routers[k], j, t.routers[j], t.chan[j])
    {
      var rk, rj, q := s.routers[k], s.routers[j], s.chan[j];
      assert PairInv(c, k, rk, j, rj, q) && RouterInv(c.w, c.n, k, rk) && RouterInv(c.w, c.n, j, rj);
      if j == i {
        PairReceiverDecides(c, k, rk, j, rj, q);
      }
      if k == i {
        PairSenderDecides(c, k, rk, j, t.routers[j], q);
      }
    }
    Reassemble(c, s, t, i);
  }

  /** Answering a probe and stopping move one router between program points. */
  lemma MovePairs(c: Config, s: Net, t: Net, i: nat)
    requires NetInv(c, s) && Fits(c, t) && i < c.n
    requires forall k :: 0 <= k < c.n && k != i ==> t.routers[k] == s.routers[k]
    requires t.routers[i] == s.routers[i].(pc := t.routers[i].pc)
    requires t.chan == s.chan && AtPc(c.w, c.n, i, t.routers[i])
    requires !s.routers[i].pc.Relaxing? && !t.routers[i].pc.Relaxing?
    ensures NetInv(c, t)
  {
    assert RouterInv(c.w, c.n, i, s.routers[i]);
    MoveInv(c.w, c.n, i, s.routers[i], t.routers[i]);
    hide PairInv, RouterInv;
    forall k, j | 0 <= k < c.n && 0 <= j < c.n
      ensures PairInv(c, k, t.routers[k], j, t.routers[j], t.chan[j])
    {
      var rk, rj, q := s.routers[k], s.routers[j], s.chan[j];
      assert PairInv(c, k, rk, j, rj, q);
      if j == i {
        PairMoves(c, k, rk, j, rj, t.routers[j], q);
      }
      if k == i {
        PairSameSender(c, k, rk, t.routers[k], j, t.routers[j], q);
      }
    }
    Reassemble(c, s, t, i);
  }

  lemma MainSends(c: Config, s: Net)
    requires Fits(c, s) && MainEnabled(c, s)
    ensures ApplyMain(c, s).routers == s.routers
    ensures ApplyMain(c, s).chan
         == match s.main.phase case Probing(i) => s.chan[i := s.chan[i] + [Probe]] case _ => s.chan
  {
    hide Absorb, Shaped, ChanFits;
  }

  /** A step of main leaves the routers alone and at most adds one probe to an empty channel. */
  lemma MainKeepsNet(c: Config, s: Net)
    requires NetInv(c, s) && MainEnabled(c, s)
    ensures NetInv(c, ApplyMain(c, s))
  {
    var t := ApplyMain(c, s);
    MainSends(c, s);
    hide PairInv, RouterInv, ApplyMain;
    forall k, j | 0 <= k < c.n && 0 <= j < c.n
      ensures PairInv(c, k, t.routers[k], j, t.routers[j], t.chan[j])
    {
      assert PairInv(c, k, s.routers[k], j, s.routers[j], s.chan[j]);
      if s.main.phase == Probing(j) {
        assert s.chan[j] == [];
        PairSameReceiver2(c, k, s.routers[k], j, s.routers[j], s.chan[j], t.chan[j]);
      }
    }
    assert RouterInv(c.w, c.n, 0, s.routers[0]);
    Reassemble(c, s, t, 0);
  }

  /** A step of a router changes no other router. */
  lemma OthersStay(c: Config, s: Net, a: Action, k: nat)
    requires Fits(c, s) && Enabled(c, s, a) && !a.MainStep? && k < c.n && k != a.i
    ensures var t := Apply(c, s, a); t.routers[k] == s.routers[k] && t.stage[k] == s.stage[k] && t.main == s.main
  {
    hide Shaped, RelaxOne, EndOfLoop, AfterSend, TakeProbe;
  }

  lemma StepInv(c: Config, s: Net, a: Action)
    requires NetInv(c, s) && Enabled(c, s, a)
    ensures NetInv(c, Apply(c, s, a))
  {
    match a {
      case Take(i) => TakeInv(c, s, i);
      case Send(i, x) => SendInv(c, s, i, x);
      case Relax(i) => RelaxInv(c, s, i);
      case Decide(i) => DecideInv(c, s, i);
      case GiveAnswer(i) => assert RouterInv(c.w, c.n, i, s.routers[i]); MovePairs(c, s, Apply(c, s, a), i);
      case Stop(i) => assert RouterInv(c.w, c.n, i, s.routers[i]); MovePairs(c, s, Apply(c, s, a), i);
      case MainStep => MainKeepsNet(c, s);
    }
  }

  /** The invariant holds in every state of every run. */
  lemma {:induction false} RunInv(c: Config, run: seq<Net>, acts: seq<Action>, x: nat)
    requires ValidConfig(c) && IsRun(c, run, acts) && x < |run|
    ensures NetInv(c, run[x])
  {
    if x == 0 {
      InitInv(c);
    } else {
      RunInv(c, run, acts, x - 1);
      StepInv(c, run[x - 1], acts[x - 1]);
    }
  }
}
