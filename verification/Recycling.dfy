/** How long a vector keeps what it held: the vectors main points to are written again when their router has
    rotated three times. */
module Recycling {
  import opened Distances
  import opened Routers
  import opened Network
  import opened NetworkInv
  import opened Budget

  /** The vector of epoch `e` is one of the last three a router has published. */
  predicate Published(r: Router, e: nat)
    requires |r.pool| == 4 && r.curr < 4
  {
    e <= Epoch(r) <= e + 2
  }

  lemma RelaxKeeps(r: Router, n: nat, link: nat, d: nat, e: nat)
    requires Shaped(r, n) && Rotating(r) && r.pc.Relaxing? && Published(r, e)
    ensures RelaxOne(r, n, link, d).pool[Slot(e)] == r.pool[Slot(e)]
  {
    FourApart(Epoch(r) - 2);
    hide Slot, Add32;
  }

  /** A rotation writes the oldest vector: the one of epoch `e` only if it is too old afterwards. */
  lemma DecideKeeps(r: Router, n: nat, e: nat)
    requires Shaped(r, n) && Rotating(r) && Published(r, e)
    requires Epoch(EndOfLoop(r, n)) <= e + 2
    ensures EndOfLoop(r, n).pool[Slot(e)] == r.pool[Slot(e)]
  {
    FourApart(Epoch(r) - 2);
    RotateRoles(r, n);
    hide Slot;
  }

  lemma StepKeeps(c: Config, s: Net, a: Action, k: nat, e: nat)
    requires NetInv(c, s) && Enabled(c, s, a) && k < c.n && Published(s.routers[k], e)
    requires Epoch(Apply(c, s, a).routers[k]) <= e + 2
    ensures Apply(c, s, a).routers[k].pool[Slot(e)] == s.routers[k].pool[Slot(e)]
  {
    var r := s.routers[k];
    assert RouterInv(c.w, c.n, k, r);
    assert Shaped(r, c.n) && Rotating(r) && Fits(c, s);
    hide NetInv, RouterInv, Rotating, Slot;
    if a.Relax? {
      if a.i == k {
        RelaxKeeps(r, c.n, c.w[a.i][r.pc.src], s.routers[r.pc.src].pool[r.pc.slot].dist[r.pc.j], e);
      }
      hide RelaxOne, Shaped;
    } else if a.Decide? {
      if a.i == k { DecideKeeps(r, c.n, e); }
      hide EndOfLoop, Shaped;
    } else {
      OthersSpendNothing(c, s, a, k);
      hide Apply, Shaped;
    }
  }

  lemma {:induction false} PathKeeps(c: Config, run: seq<Net>, acts: seq<Action>, x: nat, y: nat, k: nat, e: nat)
    requires IsPath(c, run, acts) && NetInv(c, run[0]) && x <= y < |run| && k < c.n
    requires Published(run[x].routers[k], e) && Epoch(run[y].routers[k]) <= e + 2
    ensures run[y].routers[k].pool[Slot(e)] == run[x].routers[k].pool[Slot(e)]
    decreases y
  {
    hide IsPath, NetInv, Slot, Epoch, Enabled, Apply, Fits;
    PathFits(c, run, acts, x, k);
    PathFits(c, run, acts, y, k);
    if x < y {
      PathFits(c, run, acts, y - 1, k);
      PathStep(c, run, acts, y);
      EpochsGrow(c, run, acts, x, y - 1, k);
      EpochsGrow(c, run, acts, y - 1, y, k);
      StepKeeps(c, run[y - 1], acts[y - 1], k, e);
      PathKeeps(c, run, acts, x, y - 1, k, e);
    }
  }

  lemma SlotHolds(r: Router, e: nat)
    requires |r.pool| == 4 && r.prevPrev < 4 && r.prev < 4 && r.curr < 4 && r.next < 4 && Rotating(r)
    ensures Published(r, e) ==> r.pool[Slot(e)].epoch == e
    ensures e + 2 < Epoch(r) ==> r.pool[Slot(e)].epoch != e
  {
    SlotEpoch(r, Slot(e));
  }

  /** A pointer to the vector of epoch `e`, in completed[], in main's hands or in a channel, still leads to the
      same epoch and the same distances exactly as long as the router has not gone beyond epoch e+2. */
  lemma KeptIsIntactIff(c: Config, run: seq<Net>, acts: seq<Action>, x: nat, y: nat, k: nat, e: nat)
    requires IsPath(c, run, acts) && NetInv(c, run[0]) && x <= y < |run| && k < c.n
    requires Published(run[x].routers[k], e)
    ensures run[y].routers[k].pool[Slot(e)] == run[x].routers[k].pool[Slot(e)] <==> Epoch(run[y].routers[k]) <= e + 2
  {
    PathSpends(c, run, acts, x, x, k);
    PathSpends(c, run, acts, x, y, k);
    if Epoch(run[y].routers[k]) <= e + 2 {
      PathKeeps(c, run, acts, x, y, k, e);
    }
    assert RouterInv(c.w, c.n, k, run[x].routers[k]) && RouterInv(c.w, c.n, k, run[y].routers[k]);
    SlotHolds(run[x].routers[k], e);
    SlotHolds(run[y].routers[k], e);
    hide NetInv, Slot, Rotating, IsPath, Honest, Serving;
  }
}
