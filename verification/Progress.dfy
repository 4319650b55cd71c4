/** Left to themselves, the routers come to rest: every run of their steps is finite. */
module Progress {
  import opened Distances
  import opened Routers
  import opened Network
  import opened NetworkInv
  import opened Protocol
  import FloydWarshall

  function Sum(v: seq<nat>): nat {
    if v == [] then 0 else v[0] + Sum(v[1..])
  }

  lemma {:induction false} SumFalls(v: seq<nat>, j: nat, d: nat)
    requires j < |v| && d < v[j]
    ensures Sum(v[j := d]) + v[j] == Sum(v) + d
  {
    if j == 0 {
      assert v[j := d][1..] == v[1..];
    } else {
      assert v[j := d][1..] == v[1..][j - 1 := d];
      SumFalls(v[1..], j - 1, d);
    }
  }

  /** How much work a program point still stands for. */
  function Work(r: Router, n: nat): nat {
    match r.pc
    case Relaxing(_, _, j) => if j < n then n - j + 1 else 1
    case Deciding => 1
    case _ => 0
  }

  function Times(a: nat, b: nat): nat {
    a * b
  }

  /** Improvements still possible count for a whole broadcast, a pending send for a whole reading. */
  function RouterLoad(r: Router, n: nat): nat
    requires Shaped(r, n)
  {
    var turn := n + 5;
    Times(Times(|r.targets|, turn), Sum(Upcoming(r)) + if r.changed then 1 else 0) + Times(r.pending, turn) + Work(r, n)
  }

  function ChanLoad(q: seq<Msg>, n: nat): nat {
    if q != [] && q[0].Vec? then n + 3 else 0
  }

  function Load(c: Config, s: Net, m: nat): nat
    requires Fits(c, s) && m <= c.n
  {
    if m == 0 then 0
    else Load(c, s, m - 1) + RouterLoad(s.routers[m - 1], c.n) + ChanLoad(s.chan[m - 1], c.n)
  }

  /** A step of a router, other than for a probe. */
  predicate IsDataStep(c: Config, s: Net, a: Action)
    requires Fits(c, s)
  {
    Enabled(c, s, a) &&
    match a
    case Take(i) => s.chan[i][0].Vec?
    case Send(_, _) => true
    case Relax(_) => true
    case Decide(_) => true
    case _ => false
  }

  lemma MulMono(k: nat, a: nat, b: nat)
    requires a <= b
    ensures k * a <= k * b
  {
  }

  lemma RelaxLightens(r: Router, n: nat, link: nat, d: nat)
    requires Shaped(r, n) && r.pc.Relaxing?
    ensures RouterLoad(RelaxOne(r, n, link, d), n) < RouterLoad(r, n)
  {
    var s := RelaxOne(r, n, link, d);
    var j := r.pc.j;
    assert Work(s, n) < Work(r, n);
    if Add32(link, d) < Upcoming(r)[j] {
      SumFalls(Upcoming(r), j, Add32(link, d));
      assert Sum(Upcoming(s)) < Sum(Upcoming(r));
      MulMono(|r.targets| * (n + 5), Sum(Upcoming(s)) + 1, Sum(Upcoming(r)) + if r.changed then 1 else 0);
    }
  }

  lemma SendLightens(r: Router, n: nat, x: nat)
    requires Shaped(r, n) && x < r.pending && r.pc.Selecting?
    ensures RouterLoad(AfterSend(r, n, x), n) + (n + 4) == RouterLoad(r, n)
  {
    var s := AfterSend(r, n, x);
    assert r.pending * (n + 5) == s.pending * (n + 5) + (n + 5);
    assert Upcoming(s) == Upcoming(r) && |s.targets| == |r.targets|;
  }

  lemma DecideLightens(r: Router, n: nat)
    requires Shaped(r, n) && Rotating(r) && r.pc.Deciding?
    ensures RouterLoad(EndOfLoop(r, n), n) < RouterLoad(r, n)
  {
    if r.pending == 0 && r.changed {
      var s := EndOfLoop(r, n);
      RotateRoles(r, n);
      var k, u := |r.targets| * (n + 5), Sum(Upcoming(r));
      assert Upcoming(s) == Upcoming(r) && s.pending == |r.targets|;
      assert k * (u + 1) == k * u + k;
      assert RouterLoad(s, n) == k * u + k;
    }
  }

  /** Only router `a` and channel `b` differ: so does the sum, by just those two terms. */
  lemma {:induction false} LoadDiffers(c: Config, s: Net, t: Net, a: nat, b: nat, m: nat)
    requires Fits(c, s) && Fits(c, t) && m <= c.n && a < c.n && b < c.n
    requires forall k :: 0 <= k < c.n && k != a ==> t.routers[k] == s.routers[k]
    requires forall k :: 0 <= k < c.n && k != b ==> t.chan[k] == s.chan[k]
    ensures Load(c, t, m) + (if a < m then RouterLoad(s.routers[a], c.n) else 0)
                          + (if b < m then ChanLoad(s.chan[b], c.n) else 0)
         == Load(c, s, m) + (if a < m then RouterLoad(t.routers[a], c.n) else 0)
                          + (if b < m then ChanLoad(t.chan[b], c.n) else 0)
  {
    hide RouterLoad, ChanLoad, Shaped, ChanFits, MainFits;
    if m > 0 {
      LoadDiffers(c, s, t, a, b, m - 1);
    }
  }

  /** Every step of a router that is not about a probe lowers the load. */
  lemma DataStepLightens(c: Config, s: Net, a: Action)
    requires NetInv(c, s) && IsDataStep(c, s, a)
    ensures Load(c, Apply(c, s, a), c.n) < Load(c, s, c.n)
  {
    hide NetInv, Load, ApplyTake, ApplySend, ApplyRelax, ApplyDecide, ApplyMain;
    match a {
      case Take(i) => TakeLightens(c, s, i);
      case Send(i, x) => SendStepLightens(c, s, i, x);
      case Relax(i) => RelaxStepLightens(c, s, i);
      case Decide(i) => DecideStepLightens(c, s, i);
    }
  }

  lemma RelaxStepLightens(c: Config, s: Net, i: nat)
    requires NetInv(c, s) && Enabled(c, s, Relax(i))
    ensures Load(c, ApplyRelax(c, s, i), c.n) < Load(c, s, c.n)
  {
    hide NetInv, RouterLoad, ChanLoad, RelaxOne, Load;
    PairFacts(c, s, i, i);
    var r := s.routers[i];
    RelaxLightens(r, c.n, c.w[i][r.pc.src], s.routers[r.pc.src].pool[r.pc.slot].dist[r.pc.j]);
    LoadDiffers(c, s, ApplyRelax(c, s, i), i, i, c.n);
  }

  lemma DecideStepLightens(c: Config, s: Net, i: nat)
    requires NetInv(c, s) && Enabled(c, s, Decide(i))
    ensures Load(c, ApplyDecide(c, s, i), c.n) < Load(c, s, c.n)
  {
    hide NetInv, RouterLoad, ChanLoad, EndOfLoop, Load;
    PairFacts(c, s, i, i);
    DecideLightens(s.routers[i], c.n);
    LoadDiffers(c, s, ApplyDecide(c, s, i), i, i, c.n);
  }

  lemma TakeLightens(c: Config, s: Net, i: nat)
    requires NetInv(c, s) && Enabled(c, s, Take(i)) && s.chan[i][0].Vec?
    ensures Load(c, ApplyTake(c, s, i), c.n) < Load(c, s, c.n)
  {
    hide NetInv, Load;
    PairFacts(c, s, i, i);
    var t := ApplyTake(c, s, i);
    var r := s.routers[i];
    assert s.chan[i][1..] == [];
    assert Upcoming(t.routers[i]) == Upcoming(r);
    assert RouterLoad(t.routers[i], c.n) == RouterLoad(r, c.n) + c.n + 1;
    hide RouterLoad;
    LoadDiffers(c, s, t, i, i, c.n);
  }

  lemma SendStepLightens(c: Config, s: Net, i: nat, x: nat)
    requires NetInv(c, s) && Enabled(c, s, Send(i, x))
    ensures Load(c, ApplySend(c, s, i, x), c.n) < Load(c, s, c.n)
  {
    hide NetInv, Load, RouterLoad, AfterSend;
    PairFacts(c, s, i, i);
    var t := ApplySend(c, s, i, x);
    var dst := s.routers[i].targets[x];
    assert s.chan[dst] == [];
    SendLightens(s.routers[i], c.n, x);
    LoadDiffers(c, s, t, i, dst, c.n);
  }

  /** However the routers are interleaved, they take no more steps of their own than the load allows. */
  lemma {:induction false} DataRunsAreFinite(c: Config, run: seq<Net>, acts: seq<Action>)
    requires IsPath(c, run, acts) && NetInv(c, run[0])
    requires forall x :: 0 <= x < |acts| ==> IsDataStep(c, run[x], acts[x])
    ensures |acts| <= Load(c, run[0], c.n)
  {
    hide NetInv, Load, Apply, Enabled, Fits, IsDataStep;
    if acts != [] {
      PathStep(c, run, acts, 1);
      TailIsPath(c, run, acts);
      hide IsPath;
      StepInv(c, run[0], acts[0]);
      DataStepLightens(c, run[0], acts[0]);
      DataRunsAreFinite(c, run[1..], acts[1..]);
    }
  }

  lemma TailIsPath(c: Config, run: seq<Net>, acts: seq<Action>)
    requires IsPath(c, run, acts) && acts != []
    ensures IsPath(c, run[1..], acts[1..])
  {
    forall x | 0 <= x < |acts| - 1
      ensures Enabled(c, run[1..][x], acts[1..][x]) && run[1..][x + 1] == Apply(c, run[1..][x], acts[1..][x])
    {
      assert Enabled(c, run[x + 1], acts[x + 1]);
    }
  }

  // ---------- where the routers' own steps end ----------

  /** No probe is on its way or being answered, and no router has stopped. */
  predicate Undisturbed(c: Config, s: Net)
    requires Fits(c, s)
  {
    forall k :: 0 <= k < c.n ==>
      !s.routers[k].pc.Replying? && !s.routers[k].pc.Stopped? && (s.chan[k] == [] || s.chan[k][0].Vec?)
  }

  lemma DataStepsDisturbNobody(c: Config, s: Net, a: Action)
    requires Fits(c, s) && c.cap == 1 && IsDataStep(c, s, a) && Undisturbed(c, s)
    ensures Undisturbed(c, Apply(c, s, a))
  {
    match a {
      case Take(i) => assert s.chan[i][1..] == [];
      case Send(i, x) => assert s.chan[s.routers[i].targets[x]] == [];
      case Relax(i) => RelaxKeepsGoing(s.routers[i], c.n, c.w[i][s.routers[i].pc.src]);
      case Decide(i) =>
    }
    hide Shaped, RelaxOne, MainFits, ChanFits;
  }

  lemma RelaxKeepsGoing(r: Router, n: nat, link: nat)
    requires Shaped(r, n) && r.pc.Relaxing?
    ensures forall d :: var p := RelaxOne(r, n, link, d).pc; p.Relaxing? || p.Deciding?
  {
  }

  /** Routers that cannot take another step of their own have nothing left to do. */
  lemma NoDataStepIsQuiescent(c: Config, s: Net)
    requires NetInv(c, s) && c.cap == 1 && Undisturbed(c, s)
    requires forall a: Action :: !IsDataStep(c, s, a)
    ensures Quiescent(c, s)
  {
    forall k | 0 <= k < c.n ensures s.routers[k].pc.Selecting? && s.chan[k] == [] {
      assert !IsDataStep(c, s, Relax(k)) && !IsDataStep(c, s, Decide(k)) && !IsDataStep(c, s, Take(k));
    }
    forall k | 0 <= k < c.n ensures Idle(s.routers[k]) {
      var r := s.routers[k];
      assert RouterInv(c.w, c.n, k, r) && !IsDataStep(c, s, Send(k, 0));
      hide Rotating, Honest, Serving;
    }
  }

  lemma {:induction false} UndisturbedStays(c: Config, run: seq<Net>, acts: seq<Action>, x: nat)
    requires IsPath(c, run, acts) && NetInv(c, run[0]) && c.cap == 1 && Undisturbed(c, run[0]) && x < |run|
    requires forall y :: 0 <= y < |acts| ==> IsDataStep(c, run[y], acts[y])
    ensures NetInv(c, run[x]) && Undisturbed(c, run[x])
  {
    hide NetInv, Apply, Enabled, Undisturbed;
    if x > 0 {
      PathStep(c, run, acts, x);
      UndisturbedStays(c, run, acts, x - 1);
      StepInv(c, run[x - 1], acts[x - 1]);
      DataStepsDisturbNobody(c, run[x - 1], acts[x - 1]);
    }
  }

  /** Left to themselves the routers finish, in whatever order they move, and then hold the solution. */
  lemma DataRunsConverge(c: Config, run: seq<Net>, acts: seq<Action>, src: nat, dst: nat)
    requires IsPath(c, run, acts) && NetInv(c, run[0]) && c.cap == 1 && Undisturbed(c, run[0]) && src < c.n && dst < c.n
    requires forall x :: 0 <= x < |acts| ==> IsDataStep(c, run[x], acts[x])
    requires forall a: Action :: !IsDataStep(c, run[|acts|], a)
    ensures |acts| <= Load(c, run[0], c.n)
    ensures Now(run[|acts|].routers[src])[dst] == FloydWarshall.Phases(c.w, c.n, c.n)[src][dst]
  {
    hide NetInv, Apply, Enabled, Undisturbed, Load, IsDataStep, Quiescent, FloydWarshall.Phases;
    DataRunsAreFinite(c, run, acts);
    UndisturbedStays(c, run, acts, |acts|);
    NoDataStepIsQuiescent(c, run[|acts|]);
    QuiescentIsSolved(c, run[|acts|], src, dst);
  }

  // ---------- with main probing ----------

  /** How many of the first `x` actions are the routers' own steps, and how many give an answer to a probe. */
  function DataSteps(c: Config, run: seq<Net>, acts: seq<Action>, x: nat): nat
    requires IsPath(c, run, acts) && x <= |acts|
  {
    if x == 0 then 0
    else DataSteps(c, run, acts, x - 1) + if IsDataStep(c, run[x - 1], acts[x - 1]) then 1 else 0
  }

  function Answers(acts: seq<Action>, x: nat): nat
    requires x <= |acts|
  {
    if x == 0 then 0 else Answers(acts, x - 1) + if acts[x - 1].GiveAnswer? then 1 else 0
  }

  lemma ProbeTakesNoLoad(c: Config, s: Net, i: nat)
    requires Fits(c, s) && c.cap <= 1 && Enabled(c, s, Take(i)) && s.chan[i][0].Probe?
    ensures Load(c, ApplyTake(c, s, i), c.n) == Load(c, s, c.n)
  {
    var t := ApplyTake(c, s, i);
    assert s.chan[i][1..] == [];
    assert RouterLoad(t.routers[i], c.n) == RouterLoad(s.routers[i], c.n);
    LoadDiffers(c, s, t, i, i, c.n);
    hide RouterLoad;
  }

  lemma {:induction false} SameRoutersSameLoad(c: Config, s: Net, t: Net, m: nat)
    requires Fits(c, s) && Fits(c, t) && m <= c.n && t.routers == s.routers
    requires forall k :: 0 <= k < c.n ==> ChanLoad(t.chan[k], c.n) == ChanLoad(s.chan[k], c.n)
    ensures Load(c, t, m) == Load(c, s, m)
  {
    if m > 0 {
      SameRoutersSameLoad(c, s, t, m - 1);
    }
    hide RouterLoad, ChanLoad;
  }

  /** The end of the router's iteration is still to come. */
  lemma AnswerAddsOne(c: Config, s: Net, i: nat)
    requires Fits(c, s) && Enabled(c, s, GiveAnswer(i))
    ensures Load(c, ApplyAnswer(c, s, i), c.n) == Load(c, s, c.n) + 1
  {
    var t := ApplyAnswer(c, s, i);
    assert RouterLoad(t.routers[i], c.n) == RouterLoad(s.routers[i], c.n) + 1;
    LoadDiffers(c, s, t, i, i, c.n);
    hide RouterLoad, ChanLoad, Load;
  }

  lemma StopAddsNothing(c: Config, s: Net, i: nat)
    requires Fits(c, s) && Enabled(c, s, Stop(i))
    ensures Load(c, ApplyStop(c, s, i), c.n) == Load(c, s, c.n)
  {
    var t := ApplyStop(c, s, i);
    assert RouterLoad(t.routers[i], c.n) == RouterLoad(s.routers[i], c.n);
    LoadDiffers(c, s, t, i, i, c.n);
    hide RouterLoad, ChanLoad, Load;
  }

  lemma MainAddsNothing(c: Config, s: Net)
    requires Fits(c, s) && c.cap <= 1 && MainEnabled(c, s)
    ensures Load(c, ApplyMain(c, s), c.n) == Load(c, s, c.n)
  {
    MainSends(c, s);
    hide ApplyMain, Load;
    SameRoutersSameLoad(c, s, ApplyMain(c, s), c.n);
  }

  /** A step for a probe adds nothing, except that giving an answer adds one. */
  lemma ProbingAddsOneAnAnswer(c: Config, s: Net, a: Action)
    requires NetInv(c, s) && Enabled(c, s, a) && !IsDataStep(c, s, a)
    ensures Load(c, Apply(c, s, a), c.n) == Load(c, s, c.n) + if a.GiveAnswer? then 1 else 0
  {
    assert Fits(c, s) && c.cap <= 1;
    hide NetInv, Fits, Load, ApplyTake, ApplyAnswer, ApplyStop, ApplyMain;
    match a {
      case Take(i) => ProbeTakesNoLoad(c, s, i);
      case GiveAnswer(i) => AnswerAddsOne(c, s, i);
      case Stop(i) => StopAddsNothing(c, s, i);
      case MainStep => MainAddsNothing(c, s);
    }
  }

  /** While main probes as it likes: the routers' own steps are no more than the load at the start and one for
      every probe answered. */
  lemma {:induction false} DataStepsAreBounded(c: Config, run: seq<Net>, acts: seq<Action>, x: nat)
    requires IsPath(c, run, acts) && NetInv(c, run[0]) && x <= |acts|
    ensures NetInv(c, run[x])
    ensures DataSteps(c, run, acts, x) + Load(c, run[x], c.n) <= Load(c, run[0], c.n) + Answers(acts, x)
  {
    hide NetInv, Load, Apply, Enabled, Fits;
    if x > 0 {
      PathStep(c, run, acts, x);
      var s, a := run[x - 1], acts[x - 1];
      DataStepsAreBounded(c, run, acts, x - 1);
      StepInv(c, s, a);
      if IsDataStep(c, s, a) {
        DataStepLightens(c, s, a);
      } else {
        ProbingAddsOneAnAnswer(c, s, a);
      }
      hide IsDataStep;
    }
  }
}
