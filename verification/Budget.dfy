/** How often a router can still rotate: each rotation needs an improvement of its distances, and these cannot
    fall below the shortest ones. A check_done that starts when every router has fewer than four left cannot be
    fooled. */
module Budget {
  import opened Distances
  import opened Routers
  import opened Network
  import opened NetworkInv
  import opened Protocol
  import opened Progress
  import opened DetectorInv
  import opened Detector
  import opened Verdict
  import FloydWarshall

  // ---------- what a router has spent and what it has left ----------

  /** Rotations made, one for unannounced news, and the distances still to be lowered. */
  function Spent(r: Router): nat
    requires |r.pool| == 4 && r.curr < 4 && r.next < 4
  {
    Epoch(r) + (if r.changed then 1 else 0) + Sum(Upcoming(r))
  }

  /** The most rotations a router whose solution is `best` can still make. */
  function Left(r: Router, best: seq<nat>): int
    requires |r.pool| == 4 && r.curr < 4 && r.next < 4
  {
    (if r.changed then 1 else 0) + Sum(Upcoming(r)) - Sum(best)
  }

  function Best(c: Config, k: nat): (d: seq<nat>)
    requires Square(c.w, c.n) && k < c.n
    ensures |d| == c.n
  {
    FloydWarshall.Phases(c.w, c.n, c.n)[k]
  }

  /** Epochs only grow, and a router never has more to spend than before. */
  predicate Thrifty(r: Router, s: Router)
    requires |r.pool| == 4 && r.curr < 4 && r.next < 4 && |s.pool| == 4 && s.curr < 4 && s.next < 4
  {
    Epoch(r) <= Epoch(s) && Spent(s) <= Spent(r)
  }

  lemma RelaxSpends(r: Router, n: nat, link: nat, d: nat)
    requires Shaped(r, n) && Rotating(r) && r.pc.Relaxing?
    ensures Thrifty(r, RelaxOne(r, n, link, d))
  {
    FourApart(Epoch(r) - 2);
    var j := r.pc.j;
    if Add32(link, d) < Upcoming(r)[j] {
      SumFalls(Upcoming(r), j, Add32(link, d));
    }
    hide Slot, Add32, Sum;
  }

  lemma DecideSpends(r: Router, n: nat)
    requires Shaped(r, n) && Rotating(r)
    ensures Thrifty(r, EndOfLoop(r, n))
  {
    RotateRoles(r, n);
    hide Slot, Sum;
  }

  lemma StepSpends(c: Config, s: Net, a: Action, k: nat)
    requires NetInv(c, s) && Enabled(c, s, a) && k < c.n
    ensures Fits(c, Apply(c, s, a)) && Thrifty(s.routers[k], Apply(c, s, a).routers[k])
  {
    var r := s.routers[k];
    assert RouterInv(c.w, c.n, k, r);
    assert Shaped(r, c.n) && Rotating(r) && Fits(c, s);
    SelfThrifty(r);
    hide NetInv, RouterInv, Rotating, Sum;
    if a.Relax? {
      if a.i == k {
        RelaxSpends(r, c.n, c.w[a.i][r.pc.src], s.routers[r.pc.src].pool[r.pc.slot].dist[r.pc.j]);
      }
      hide RelaxOne, Thrifty, Shaped;
    } else if a.Decide? {
      if a.i == k { DecideSpends(r, c.n); }
      hide EndOfLoop, Thrifty, Shaped;
    } else {
      OthersSpendNothing(c, s, a, k);
      hide Apply, Shaped;
    }
  }

  lemma SelfThrifty(r: Router)
    requires |r.pool| == 4 && r.curr < 4 && r.next < 4
    ensures Thrifty(r, r)
  {
  }

  /** Every other step leaves all vectors, their roles and `changed` alone. */
  lemma OthersSpendNothing(c: Config, s: Net, a: Action, k: nat)
    requires Fits(c, s) && Enabled(c, s, a) && !a.Relax? && !a.Decide? && k < c.n
    ensures var r, t := s.routers[k], Apply(c, s, a).routers[k];
            t.pool == r.pool && t.curr == r.curr && t.next == r.next && t.changed == r.changed
  {
    if a.MainStep? {
      MainSends(c, s);
      hide ApplyMain;
    }
    hide Shaped, MainFits, ChanFits;
  }

  lemma {:induction false} PathSpends(c: Config, run: seq<Net>, acts: seq<Action>, x: nat, y: nat, k: nat)
    requires IsPath(c, run, acts) && NetInv(c, run[0]) && x <= y < |run| && k < c.n
    ensures NetInv(c, run[y]) && Thrifty(run[x].routers[k], run[y].routers[k])
    decreases y
  {
    hide IsPath, NetInv, Spent, Epoch, Fits, Enabled, Apply;
    if y > 0 {
      PathStep(c, run, acts, y);
      PathFits(c, run, acts, x, k);
      PathFits(c, run, acts, y, k);
      PathFits(c, run, acts, y - 1, k);
      PathSpends(c, run, acts, if x < y then x else y - 1, y - 1, k);
      StepInv(c, run[y - 1], acts[y - 1]);
      StepSpends(c, run[y - 1], acts[y - 1], k);
      SpendsOn(run[x].routers[k], run[y - 1].routers[k], run[y].routers[k], x == y);
    } else {
      PathFits(c, run, acts, x, k);
      SelfThrifty(run[x].routers[k]);
    }
  }

  lemma EpochsGrow(c: Config, run: seq<Net>, acts: seq<Action>, x: nat, y: nat, k: nat)
    requires IsPath(c, run, acts) && NetInv(c, run[0]) && x <= y < |run| && k < c.n
    ensures NetInv(c, run[y]) && Epoch(run[x].routers[k]) <= Epoch(run[y].routers[k])
  {
    PathSpends(c, run, acts, x, y, k);
    hide NetInv, Spent, IsPath;
  }

  lemma SpendsOn(r: Router, s: Router, t: Router, same: bool)
    requires |r.pool| == 4 && r.curr < 4 && r.next < 4 && |s.pool| == 4 && s.curr < 4 && s.next < 4
    requires |t.pool| == 4 && t.curr < 4 && t.next < 4
    requires if same then r == t else Thrifty(r, s) && Thrifty(s, t)
    ensures Thrifty(r, t)
  {
  }

  lemma {:induction false} SumMono(a: seq<nat>, b: seq<nat>)
    requires |a| == |b| && forall j :: 0 <= j < |a| ==> a[j] <= b[j]
    ensures Sum(a) <= Sum(b)
  {
    if a != [] {
      SumMono(a[1..], b[1..]);
    }
  }

  /** Nobody has less than nothing left. */
  lemma NothingBelowBest(c: Config, s: Net, k: nat)
    requires NetInv(c, s) && k < c.n
    ensures Sum(Best(c, k)) <= Sum(Upcoming(s.routers[k]))
  {
    forall j | 0 <= j < c.n ensures Best(c, k)[j] <= Upcoming(s.routers[k])[j] {
      FloydWarshall.PhasesAreShortest(c.w, c.n, k, j);
      DistancesAreReal(c, s, k, s.routers[k].next, j, Best(c, k)[j]);
    }
    SumMono(Best(c, k), Upcoming(s.routers[k]));
  }

  /** However a run goes on, a router makes no more rotations than it has left. */
  lemma RotationsAreLeft(c: Config, run: seq<Net>, acts: seq<Action>, x: nat, y: nat, k: nat)
    requires IsPath(c, run, acts) && NetInv(c, run[0]) && x <= y < |run| && k < c.n
    ensures Epoch(run[y].routers[k]) - Epoch(run[x].routers[k]) <= Left(run[x].routers[k], Best(c, k))
  {
    PathSpends(c, run, acts, x, y, k);
    NothingBelowBest(c, run[y], k);
    hide NetInv, IsPath, Best, Sum;
  }

  // ---------- the answers of one check_done ----------

  /** Everything main holds from router `k` is of epoch `e` or later. */
  predicate NewerThan(round: nat, g: Stage, r: Router, f: Answer, e: nat)
    requires |r.pool| == 4 && r.curr < 4
  {
    && e <= Epoch(r)
    && (round == 1 && Replied(g) && r.answer.Converged? ==> e <= r.answer.epoch)
    && (round == 2 && f.Converged? ==> e <= f.epoch)
  }

  predicate AllNewer(c: Config, s: Net, e: seq<nat>)
    requires Fits(c, s) && |e| == c.n
  {
    forall k :: 0 <= k < c.n ==> NewerThan(s.main.round, s.stage[k], s.routers[k], s.main.first[k], e[k])
  }

  /** check_done returns false and is called again. */
  predicate Restarts(s: Net, a: Action) {
    a.MainStep? && s.main.phase.Judged? && !s.main.valid
  }

  lemma RouterStepKeepsNewer(c: Config, s: Net, a: Action, e: seq<nat>)
    requires MainInv(c, s) && Enabled(c, s, a) && !a.MainStep? && |e| == c.n && AllNewer(c, s, e)
    ensures AllNewer(c, Apply(c, s, a), e)
  {
    var t := Apply(c, s, a);
    forall k | 0 <= k < c.n
      ensures NewerThan(t.main.round, t.stage[k], t.routers[k], t.main.first[k], e[k])
    {
      assert NewerThan(s.main.round, s.stage[k], s.routers[k], s.main.first[k], e[k]);
      StepSpends(c, s, a, k);
      AnswerOnlyWhenTaken(c, s, a, k);
      hide MainInv, Apply, Spent, NewerThan;
      RouterNewer(s.main.round, s.stage[k], t.stage[k], s.routers[k], t.routers[k], s.main.first[k], e[k]);
    }
    hide MainInv, Apply, NewerThan;
  }

  /** A step of a router gives it a new answer only by taking a probe, and then the current one. */
  lemma AnswerOnlyWhenTaken(c: Config, s: Net, a: Action, k: nat)
    requires MainInv(c, s) && Enabled(c, s, a) && !a.MainStep? && k < c.n
    ensures var t := Apply(c, s, a); var r, q := s.routers[k], t.routers[k];
            && t.main == s.main
            && ((q.answer == r.answer && (Replied(t.stage[k]) ==> Replied(s.stage[k])))
                || (q.answer.Converged? ==> q.answer.epoch == Epoch(q)))
  {
    if a.GiveAnswer? {
      assert RouterMain(c, s, a.i);
    }
    assert Fits(c, s);
    hide MainInv, RouterMain;
    if a.i != k {
      OthersStay(c, s, a, k);
      hide Apply, Enabled, Shaped;
    } else if a.Relax? {
      hide RelaxOne, Shaped;
    } else if a.Take? {
      hide Shaped;
    } else {
      KeepsAnswer(c, s, a);
      hide Apply, Enabled, Shaped;
    }
  }

  lemma KeepsAnswer(c: Config, s: Net, a: Action)
    requires Fits(c, s) && Enabled(c, s, a) && (a.Send? || a.Decide? || a.GiveAnswer? || a.Stop?)
    ensures var t := Apply(c, s, a);
            && t.main == s.main && t.routers[a.i].answer == s.routers[a.i].answer
            && t.stage[a.i] == if a.GiveAnswer? then Answered else s.stage[a.i]
  {
    hide Shaped;
  }

  lemma RouterNewer(round: nat, g: Stage, h: Stage, r: Router, q: Router, f: Answer, e: nat)
    requires |r.pool| == 4 && r.curr < 4 && |q.pool| == 4 && q.curr < 4 && NewerThan(round, g, r, f, e)
    requires Epoch(r) <= Epoch(q)
    requires || (q.answer == r.answer && (Replied(h) ==> Replied(g)))
             || (q.answer.Converged? ==> q.answer.epoch == Epoch(q))
    ensures NewerThan(round, h, q, f, e)
  {
  }

  lemma MainKeepsNewer(c: Config, s: Net, e: seq<nat>)
    requires MainInv(c, s) && MainEnabled(c, s) && !Restarts(s, MainStep) && |e| == c.n && AllNewer(c, s, e)
    ensures AllNewer(c, ApplyMain(c, s), e)
  {
    hide MainInv, SameEpoch, Absorb;
    PhaseFacts(c, s);
    var t := ApplyMain(c, s);
    MainSends(c, s);
    if Collects(c, s) {
      CollectKeepsNewer(c, s, e);
    } else {
      forall k | 0 <= k < c.n
        ensures NewerThan(t.main.round, t.stage[k], t.routers[k], t.main.first[k], e[k])
      {
        assert NewerThan(s.main.round, s.stage[k], s.routers[k], s.main.first[k], e[k]);
      }
    }
  }

  /** The second round starts with the answers of the first. */
  lemma CollectKeepsNewer(c: Config, s: Net, e: seq<nat>)
    requires MainInv(c, s) && Collects(c, s) && |e| == c.n && AllNewer(c, s, e)
    ensures AllNewer(c, ApplyCollect(c, s), e)
  {
    var t, m := ApplyCollect(c, s), Absorb(c, s);
    hide MainInv, Absorb, Count, NewerThan;
    HeldReply(c, s);
    AbsorbAccepts(c, s);
    RoundsAreTwo(c, s);
    if s.main.phase.i + 1 == c.n { LastReply(c, s); }
    forall k | 0 <= k < c.n
      ensures NewerThan(t.main.round, t.stage[k], t.routers[k], t.main.first[k], e[k])
    {
      assert NewerThan(s.main.round, s.stage[k], s.routers[k], s.main.first[k], e[k]);
      if s.main.phase.i + 1 == c.n {
        TakenCounts(c, s);
        assert Taken(c, s)[k].Collected?;
      }
      CollectedNewer(s.main.round, t.main.round, s.stage[k], t.stage[k], s.routers[k], s.main.first[k],
                     t.main.first[k], e[k]);
    }
  }

  /** One router's part in this: its reply, or another one's, has been collected, or the second round begins. */
  lemma CollectedNewer(round: nat, later: nat, g: Stage, h: Stage, r: Router, f: Answer, b: Answer, e: nat)
    requires |r.pool| == 4 && r.curr < 4 && NewerThan(round, g, r, f, e) && (round == 1 || round == 2)
    requires later == round || (round == 1 && later == 2 && Replied(g) && b == r.answer && b.Converged?)
    requires later == round ==> (Replied(h) <==> Replied(g)) && (round == 2 ==> b == f)
    ensures NewerThan(later, h, r, b, e)
  {
  }

  lemma RoundsAreTwo(c: Config, s: Net)
    requires MainInv(c, s)
    ensures s.main.round == 1 || s.main.round == 2
  {
  }

  /** check_done is about to send its first probe. */
  predicate Starting(s: Net) {
    s.main.phase == Probing(0) && s.main.round == 1
  }

  function Epochs(c: Config, s: Net): (e: seq<nat>)
    requires Fits(c, s)
    ensures |e| == c.n
  {
    seq(c.n, k requires 0 <= k < c.n => Epoch(s.routers[k]))
  }

  lemma StartingIsNew(c: Config, s: Net)
    requires MainInv(c, s) && Starting(s)
    ensures AllNewer(c, s, Epochs(c, s))
  {
    forall k | 0 <= k < c.n
      ensures NewerThan(s.main.round, s.stage[k], s.routers[k], s.main.first[k], Epochs(c, s)[k])
    {
      assert RouterMain(c, s, k);
    }
    hide MainInv;
  }

  /** No restart from `x` up to `y`. */
  predicate SameCheck(run: seq<Net>, acts: seq<Action>, x: nat, y: nat)
    requires y <= |acts| < |run|
  {
    forall z :: x <= z < y ==> !Restarts(run[z], acts[z])
  }

  lemma {:induction false} CheckIsNewer(c: Config, run: seq<Net>, acts: seq<Action>, x: nat, y: nat)
    requires IsPath(c, run, acts) && MainInv(c, run[0]) && x <= y < |run|
    requires Starting(run[x]) && SameCheck(run, acts, x, y)
    ensures MainInv(c, run[y]) && AllNewer(c, run[y], Epochs(c, run[x]))
    decreases y
  {
    hide IsPath, MainInv, AllNewer, Fits, Enabled, Apply, Restarts;
    PathMain(c, run, acts, y);
    if x == y {
      StartingIsNew(c, run[x]);
    } else {
      PathStep(c, run, acts, y);
      PathFits(c, run, acts, x, 0);
      CheckIsNewer(c, run, acts, x, y - 1);
      StepKeepsNewer(c, run[y - 1], acts[y - 1], Epochs(c, run[x]));
    }
  }

  lemma StepKeepsNewer(c: Config, s: Net, a: Action, e: seq<nat>)
    requires MainInv(c, s) && Enabled(c, s, a) && !Restarts(s, a) && |e| == c.n && AllNewer(c, s, e)
    ensures AllNewer(c, Apply(c, s, a), e)
  {
    hide MainInv, AllNewer, ApplyMain, ApplyTake, ApplySend, ApplyRelax, ApplyDecide, ApplyAnswer, ApplyStop;
    if a.MainStep? { MainKeepsNewer(c, s, e); } else { RouterStepKeepsNewer(c, s, a, e); }
  }

  lemma {:induction false} PathMain(c: Config, run: seq<Net>, acts: seq<Action>, y: nat)
    requires IsPath(c, run, acts) && MainInv(c, run[0]) && y < |run|
    ensures MainInv(c, run[y])
  {
    hide IsPath, MainInv, Apply, Enabled, Fits;
    if y > 0 {
      PathStep(c, run, acts, y);
      PathMain(c, run, acts, y - 1);
      StepMain(c, run[y - 1], acts[y - 1]);
    }
  }

  // ---------- a check that cannot be fooled ----------

  /** Every router has fewer than `b` rotations left. */
  predicate LessLeft(c: Config, s: Net, b: nat)
    requires Fits(c, s)
  {
    forall k :: 0 <= k < c.n ==> Left(s.routers[k], Best(c, k)) < b
  }

  /** The second answer is not newer than the router is now. */
  lemma SecondIsPast(c: Config, s: Net, k: nat)
    requires JudgedTwice(c, s) && s.main.valid && k < c.n
    ensures s.main.first[k].Converged? && s.main.second[k].Converged?
    ensures s.main.second[k].epoch <= Epoch(s.routers[k])
  {
    VerdictCountsRotationsModuloFour(c, s);
    assert RouterMain(c, s, k);
    hide NetInv, SomeDoomed, AllCalm, Rotations;
  }

  lemma LittleLeftIsFewRotations(c: Config, run: seq<Net>, acts: seq<Action>, x: nat, y: nat)
    requires IsPath(c, run, acts) && MainInv(c, run[0]) && x <= y < |run|
    requires Starting(run[x]) && SameCheck(run, acts, x, y) && LessLeft(c, run[x], 4)
    requires JudgedTwice(c, run[y]) && run[y].main.valid
    ensures FewRotations(c, run[y])
  {
    CheckIsNewer(c, run, acts, x, y);
    assert NetInv(c, run[0]) && run[y].main.round == 2;
    hide MainInv, JudgedTwice, NetInv, IsPath, Left;
    forall k | 0 <= k < c.n
      ensures run[y].main.first[k].Converged? && run[y].main.second[k].Converged? && Rotations(run[y], k) < 4
    {
      SecondIsPast(c, run[y], k);
      RotationsAreLeft(c, run, acts, x, y, k);
      assert NewerThan(2, run[y].stage[k], run[y].routers[k], run[y].main.first[k], Epochs(c, run[x])[k]);
    }
  }

  /** If no router has four rotations left when a check_done starts, and that check_done finds that the network
      has converged, then it has: the network is at rest and the assertion holds. */
  lemma CheckIsRightIfLittleIsLeft(c: Config, run: seq<Net>, acts: seq<Action>, x: nat, y: nat)
    requires IsPath(c, run, acts) && DetectInv(c, run[0]) && x <= y < |run|
    requires Starting(run[x]) && SameCheck(run, acts, x, y) && LessLeft(c, run[x], 4)
    requires run[y].main.phase.Judged? && run[y].main.valid
    ensures Quiescent(c, run[y]) && AssertionHolds(c, run[y])
  {
    PathDetect(c, run, acts, y);
    assert JudgedTwice(c, run[y]) by {
      assert ValidInv(c, run[y]);
    }
    assert MainInv(c, run[0]);
    hide JudgedTwice, IsPath, MainInv, LessLeft;
    LittleLeftIsFewRotations(c, run, acts, x, y);
    TrueVerdictIsRight(c, run[y]);
  }

  lemma {:induction false} PathDetect(c: Config, run: seq<Net>, acts: seq<Action>, y: nat)
    requires IsPath(c, run, acts) && DetectInv(c, run[0]) && y < |run|
    ensures DetectInv(c, run[y])
  {
    hide IsPath, DetectInv, Apply, Enabled, Fits;
    if y > 0 {
      PathStep(c, run, acts, y);
      PathDetect(c, run, acts, y - 1);
      StepDetect(c, run[y - 1], acts[y - 1]);
    }
  }

  // ---------- a topology that cannot fool any check ----------

  /** The links themselves are nearly as good as the solution: less than `b` away from it in every row. */
  predicate Near(c: Config, b: nat)
    requires Square(c.w, c.n)
  {
    forall k :: 0 <= k < c.n ==> Sum(c.w[k]) < b + Sum(Best(c, k))
  }

  /** When a run starts, what is left is the difference between links and solution; later it is no more. */
  lemma NearLeavesLittle(c: Config, run: seq<Net>, acts: seq<Action>, x: nat, b: nat)
    requires ValidConfig(c) && IsRun(c, run, acts) && x < |run| && Near(c, b)
    ensures LessLeft(c, run[x], b)
  {
    InitInv(c);
    forall k | 0 <= k < c.n ensures Left(run[x].routers[k], Best(c, k)) < b {
      PathSpends(c, run, acts, 0, x, k);
      assert RouterInv(c.w, c.n, k, run[x].routers[k]);
      hide NetInv, IsPath, Best, Sum, Honest, Serving;
    }
  }

  /** Where the current check_done started. */
  lemma {:induction false} CheckStart(c: Config, run: seq<Net>, acts: seq<Action>, y: nat) returns (x: nat)
    requires ValidConfig(c) && IsRun(c, run, acts) && y < |run|
    ensures x <= y && Starting(run[x]) && SameCheck(run, acts, x, y)
  {
    if y == 0 {
      x := 0;
    } else if Restarts(run[y - 1], acts[y - 1]) {
      x := y;
    } else {
      x := CheckStart(c, run, acts, y - 1);
    }
  }

  /** On such a topology every true verdict of every run is right. */
  lemma NearTopologiesAreSafe(c: Config, run: seq<Net>, acts: seq<Action>, y: nat)
    requires ValidConfig(c) && Near(c, 4) && IsRun(c, run, acts) && y < |run|
    requires run[y].main.phase.Judged? && run[y].main.valid
    ensures Quiescent(c, run[y]) && AssertionHolds(c, run[y])
  {
    var x := CheckStart(c, run, acts, y);
    RunDetect(c, run, acts, 0);
    NearLeavesLittle(c, run, acts, x, 4);
    hide SameCheck, Starting, LessLeft, Near, DetectInv;
    CheckIsRightIfLittleIsLeft(c, run, acts, x, y);
  }
}
