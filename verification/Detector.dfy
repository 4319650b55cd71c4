/** The second round of check_done: in every reachable state either the whole network is calm, or some
    router's second answer differs, or is bound to differ, from its first. */
module Detector {
  import opened Distances
  import opened Routers
  import opened Network
  import opened NetworkInv
  import opened DetectorInv

  // ---------- the second round: either all is calm or some answer will give it away ----------

  /** This router's second answer is, or is bound to be, different from its first. */
  predicate Doomed(g: Stage, r: Router, f: Answer)
    requires |r.pool| == 4 && r.curr < 4
  {
    f.Converged? &&
    if Replied(g) then !(r.answer.Converged? && r.answer.epoch == f.epoch)
    else Epoch(r) != f.epoch || r.changed
  }

  /** Still in the epoch of its first answer with nothing to announce; and if it has answered again,
      nothing more can reach it. */
  predicate Calm(g: Stage, q: seq<Msg>, r: Router, f: Answer)
    requires |r.pool| == 4 && r.curr < 4
  {
    && f == Converged(r.curr, Epoch(r)) && !r.changed && r.pending == 0
    && (Replied(g) ==> (q == [] || q[0].Probe?) && !r.pc.Relaxing? && r.answer == f)
  }

  predicate SomeDoomed(c: Config, s: Net)
    requires Fits(c, s)
  {
    exists k :: 0 <= k < c.n && Doomed(s.stage[k], s.routers[k], s.main.first[k])
  }

  predicate AllCalm(c: Config, s: Net)
    requires Fits(c, s)
  {
    forall k :: 0 <= k < c.n ==> Calm(s.stage[k], s.chan[k], s.routers[k], s.main.first[k])
  }

  ghost predicate DetectInv(c: Config, s: Net) {
    MainInv(c, s) && (s.main.round == 2 ==> SomeDoomed(c, s) || AllCalm(c, s))
  }

  // ---------- a doomed router stays doomed ----------

  /** A router that does not take a probe cannot take its doom back: epochs only grow, and news
      is forgotten only by starting an epoch. */
  lemma DoomStays(g: Stage, h: Stage, r: Router, t: Router, f: Answer)
    requires |r.pool| == 4 && r.curr < 4 && |t.pool| == 4 && t.curr < 4
    requires Doomed(g, r, f) && FromPast(r, f) && t.answer == r.answer && (Replied(g) <==> Replied(h))
    requires Epoch(t) > Epoch(r) || (Epoch(t) == Epoch(r) && (r.changed ==> t.changed))
    ensures Doomed(h, t, f)
  {
  }

  lemma DoomTakesProbe(w: Matrix, n: nat, me: nat, g: Stage, r: Router, f: Answer)
    requires Square(w, n) && RouterInv(w, n, me, r) && r.pc.Selecting? && Doomed(g, r, f) && !Replied(g)
    ensures Doomed(Answering, TakeProbe(r, n), f)
  {
  }

  lemma TakeKeepsDoom(c: Config, s: Net, i: nat, k: nat)
    requires MainInv(c, s) && Enabled(c, s, Take(i)) && k < c.n && s.main.round == 2
    requires Doomed(s.stage[k], s.routers[k], s.main.first[k])
    ensures var t := ApplyTake(c, s, i); Doomed(t.stage[k], t.routers[k], t.main.first[k])
  {
    hide MainInv, Rotating, Honest, Serving;
    Facts(c, s, k);
    var t := ApplyTake(c, s, i);
    assert s.chan[i] == [s.chan[i][0]];
    if i == k && s.chan[i][0].Probe? {
      DoomTakesProbe(c.w, c.n, k, s.stage[k], s.routers[k], s.main.first[k]);
    } else {
      DoomStays(s.stage[k], t.stage[k], s.routers[k], t.routers[k], s.main.first[k]);
    }
  }

  /** Sending, answering and stopping change neither epoch nor news. */
  lemma MoveKeepsDoom(c: Config, s: Net, a: Action, k: nat)
    requires MainInv(c, s) && Enabled(c, s, a) && k < c.n && s.main.round == 2
    requires a.Send? || a.GiveAnswer? || a.Stop?
    requires Doomed(s.stage[k], s.routers[k], s.main.first[k])
    ensures var t := Apply(c, s, a); Doomed(t.stage[k], t.routers[k], t.main.first[k])
  {
    hide MainInv;
    Facts(c, s, k);
    var t := Apply(c, s, a);
    if a.i != k {
      OthersStay(c, s, a, k);
      hide Apply, Enabled;
    } else {
      hide Honest, Serving;
      DoomStays(s.stage[k], t.stage[k], s.routers[k], t.routers[k], s.main.first[k]);
    }
  }

  /** What a step does to one router, as far as doom is concerned. */
  lemma RouterStepKeepsDoom(c: Config, s: Net, a: Action, k: nat)
    requires MainInv(c, s) && Enabled(c, s, a) && !a.MainStep? && k < c.n && s.main.round == 2
    requires Doomed(s.stage[k], s.routers[k], s.main.first[k])
    ensures var t := Apply(c, s, a); Doomed(t.stage[k], t.routers[k], t.main.first[k])
  {
    match a {
      case Take(i) => TakeKeepsDoom(c, s, i, k);
      case Relax(i) => RelaxKeepsDoom(c, s, i, k);
      case Decide(i) => DecideKeepsDoom(c, s, i, k);
      case Send(_, _) => MoveKeepsDoom(c, s, a, k);
      case GiveAnswer(_) => MoveKeepsDoom(c, s, a, k);
      case Stop(_) => MoveKeepsDoom(c, s, a, k);
    }
  }

  lemma RelaxKeepsDoom(c: Config, s: Net, i: nat, k: nat)
    requires MainInv(c, s) && Enabled(c, s, Relax(i)) && k < c.n && s.main.round == 2
    requires Doomed(s.stage[k], s.routers[k], s.main.first[k])
    ensures var t := ApplyRelax(c, s, i); Doomed(t.stage[k], t.routers[k], t.main.first[k])
  {
    hide MainInv, Rotating, Honest, Serving;
    Facts(c, s, k);
    var t := ApplyRelax(c, s, i);
    if i != k {
      OthersStay(c, s, Relax(i), k);
      hide ApplyRelax;
    } else {
      var r := s.routers[i];
      RelaxServing(c.w, c.n, i, r, c.w[i][r.pc.src], s.routers[r.pc.src].pool[r.pc.slot].dist[r.pc.j]);
      DoomStays(s.stage[k], t.stage[k], s.routers[k], t.routers[k], s.main.first[k]);
    }
  }

  lemma DecideKeepsDoom(c: Config, s: Net, i: nat, k: nat)
    requires MainInv(c, s) && Enabled(c, s, Decide(i)) && k < c.n && s.main.round == 2
    requires Doomed(s.stage[k], s.routers[k], s.main.first[k])
    ensures var t := ApplyDecide(c, s, i); Doomed(t.stage[k], t.routers[k], t.main.first[k])
  {
    hide MainInv, Rotating, Honest, Serving;
    Facts(c, s, k);
    Facts(c, s, i);
    var t := ApplyDecide(c, s, i);
    RotateRoles(s.routers[i], c.n);
    DoomStays(s.stage[k], t.stage[k], s.routers[k], t.routers[k], s.main.first[k]);
  }

  /** main's steps within the second round. */
  lemma MainStepKeepsDoom(c: Config, s: Net, k: nat)
    requires MainInv(c, s) && MainEnabled(c, s) && k < c.n && s.main.round == 2 && ApplyMain(c, s).main.round == 2
    requires Doomed(s.stage[k], s.routers[k], s.main.first[k])
    ensures var t := ApplyMain(c, s); Doomed(t.stage[k], t.routers[k], t.main.first[k])
  {
    MainSends(c, s);
    MainKeepsReplied(c, s, k);
    hide MainInv, ApplyMain, Replied;
  }

  // ---------- calm is kept, or somebody becomes doomed ----------

  lemma CalmTake(c: Config, s: Net, i: nat)
    requires MainInv(c, s) && Enabled(c, s, Take(i)) && s.main.round == 2 && AllCalm(c, s)
    ensures AllCalm(c, ApplyTake(c, s, i))
  {
    hide MainInv, RouterInv;
    Facts(c, s, i);
    var t := ApplyTake(c, s, i);
    assert Calm(s.stage[i], s.chan[i], s.routers[i], s.main.first[i]);
    assert s.chan[i][1..] == [];
    forall k | 0 <= k < c.n ensures Calm(t.stage[k], t.chan[k], t.routers[k], t.main.first[k]) {
      assert Calm(s.stage[k], s.chan[k], s.routers[k], s.main.first[k]);
    }
  }

  lemma CalmNeverSends(c: Config, s: Net, i: nat, x: nat)
    requires Fits(c, s) && i < c.n && AllCalm(c, s)
    ensures !Enabled(c, s, Send(i, x))
  {
    assert Calm(s.stage[i], s.chan[i], s.routers[i], s.main.first[i]);
  }

  lemma CalmRelax(c: Config, s: Net, i: nat)
    requires MainInv(c, s) && Enabled(c, s, Relax(i)) && s.main.round == 2 && AllCalm(c, s)
    ensures SomeDoomed(c, ApplyRelax(c, s, i)) || AllCalm(c, ApplyRelax(c, s, i))
  {
    hide MainInv, RouterMain, Rotating, Honest, Serving;
    Facts(c, s, i);
    var t := ApplyRelax(c, s, i);
    var r := s.routers[i];
    assert Calm(s.stage[i], s.chan[i], r, s.main.first[i]);
    RelaxServing(c.w, c.n, i, r, c.w[i][r.pc.src], s.routers[r.pc.src].pool[r.pc.slot].dist[r.pc.j]);
    if t.routers[i].changed {
      assert Doomed(t.stage[i], t.routers[i], t.main.first[i]);
    } else {
      forall k | 0 <= k < c.n ensures Calm(t.stage[k], t.chan[k], t.routers[k], t.main.first[k]) {
        assert Calm(s.stage[k], s.chan[k], s.routers[k], s.main.first[k]);
      }
    }
  }

  lemma CalmDecide(c: Config, s: Net, i: nat)
    requires Fits(c, s) && Enabled(c, s, Decide(i)) && AllCalm(c, s)
    ensures AllCalm(c, ApplyDecide(c, s, i))
    ensures ApplyDecide(c, s, i).routers[i] == s.routers[i].(pc := Selecting)
  {
    var t := ApplyDecide(c, s, i);
    assert Calm(s.stage[i], s.chan[i], s.routers[i], s.main.first[i]);
    forall k | 0 <= k < c.n ensures Calm(t.stage[k], t.chan[k], t.routers[k], t.main.first[k]) {
      assert Calm(s.stage[k], s.chan[k], s.routers[k], s.main.first[k]);
    }
  }

  lemma CalmAnswer(c: Config, s: Net, i: nat)
    requires MainInv(c, s) && Enabled(c, s, GiveAnswer(i)) && s.main.round == 2 && AllCalm(c, s)
    ensures AllCalm(c, ApplyAnswer(c, s, i))
  {
    hide MainInv, RouterInv;
    Facts(c, s, i);
    var t := ApplyAnswer(c, s, i);
    forall k | 0 <= k < c.n ensures Calm(t.stage[k], t.chan[k], t.routers[k], t.main.first[k]) {
      assert Calm(s.stage[k], s.chan[k], s.routers[k], s.main.first[k]);
    }
  }

  lemma CalmStop(c: Config, s: Net, i: nat)
    requires Fits(c, s) && Enabled(c, s, Stop(i)) && AllCalm(c, s)
    ensures AllCalm(c, ApplyStop(c, s, i))
  {
    var t := ApplyStop(c, s, i);
    forall k | 0 <= k < c.n ensures Calm(t.stage[k], t.chan[k], t.routers[k], t.main.first[k]) {
      assert Calm(s.stage[k], s.chan[k], s.routers[k], s.main.first[k]);
    }
  }

  lemma CalmMain(c: Config, s: Net)
    requires MainInv(c, s) && MainEnabled(c, s) && s.main.round == 2 && ApplyMain(c, s).main.round == 2
    requires AllCalm(c, s)
    ensures AllCalm(c, ApplyMain(c, s))
  {
    var t := ApplyMain(c, s);
    MainSends(c, s);
    forall k | 0 <= k < c.n ensures Calm(t.stage[k], t.chan[k], t.routers[k], t.main.first[k]) {
      assert Calm(s.stage[k], s.chan[k], s.routers[k], s.main.first[k]);
      MainKeepsReplied(c, s, k);
      hide MainInv, ApplyMain, Replied;
      assert s.main.phase == Probing(k) ==> s.chan[k] == [] && t.chan[k] == [Probe];
    }
  }

  lemma MainKeepsReplied(c: Config, s: Net, k: nat)
    requires MainInv(c, s) && MainEnabled(c, s) && s.main.round == 2 && ApplyMain(c, s).main.round == 2 && k < c.n
    ensures ApplyMain(c, s).main.first[k] == s.main.first[k]
    ensures Replied(ApplyMain(c, s).stage[k]) <==> Replied(s.stage[k])
  {
    hide MainInv, SameEpoch, Shaped, ChanFits;
    PhaseFacts(c, s);
    if s.main.held != [] {
      HeldReply(c, s);
    }
  }

  lemma PhaseFacts(c: Config, s: Net)
    requires MainInv(c, s)
    ensures Fits(c, s) && (s.main.phase.Probing? ==> s.stage[s.main.phase.i].Unprobed?)
    ensures s.main.held != [] ==> s.main.phase.Collecting?
  {
    hide PairInv, RouterInv, RouterMain, ValidInv;
  }

  lemma RouterStepCalm(c: Config, s: Net, a: Action)
    requires MainInv(c, s) && Enabled(c, s, a) && !a.MainStep? && s.main.round == 2 && AllCalm(c, s)
    ensures var t := Apply(c, s, a); SomeDoomed(c, t) || AllCalm(c, t)
  {
    match a {
      case Take(i) => CalmTake(c, s, i);
      case Send(i, x) => CalmNeverSends(c, s, i, x);
      case Relax(i) => CalmRelax(c, s, i);
      case Decide(i) => CalmDecide(c, s, i);
      case GiveAnswer(i) => CalmAnswer(c, s, i);
      case Stop(i) => CalmStop(c, s, i);
    }
  }

  /** The second round starts with everybody calm, or somebody already gone on. */
  lemma RoundTwoStarts(c: Config, s: Net)
    requires MainInv(c, s) && s.main.round == 2 && s.main.phase == Probing(0)
    ensures SomeDoomed(c, s) || AllCalm(c, s)
  {
    if !SomeDoomed(c, s) {
      forall k | 0 <= k < c.n ensures Calm(s.stage[k], s.chan[k], s.routers[k], s.main.first[k]) {
        assert RouterMain(c, s, k) && RouterInv(c.w, c.n, k, s.routers[k]);
        assert !Doomed(s.stage[k], s.routers[k], s.main.first[k]);
        hide NetInv, ValidInv;
      }
    }
  }

  lemma RoundSwitches(c: Config, s: Net)
    requires Fits(c, s) && MainEnabled(c, s) && s.main.round != 2 && ApplyMain(c, s).main.round == 2
    ensures ApplyMain(c, s).main.phase == Probing(0)
  {
  }

  lemma RouterStepDetect(c: Config, s: Net, a: Action)
    requires DetectInv(c, s) && Enabled(c, s, a) && !a.MainStep? && s.main.round == 2
    ensures SomeDoomed(c, Apply(c, s, a)) || AllCalm(c, Apply(c, s, a))
  {
    var t := Apply(c, s, a);
    if SomeDoomed(c, s) {
      var k :| 0 <= k < c.n && Doomed(s.stage[k], s.routers[k], s.main.first[k]);
      RouterStepKeepsDoom(c, s, a, k);
    } else {
      RouterStepCalm(c, s, a);
    }
  }

  lemma MainStepDetect(c: Config, s: Net)
    requires DetectInv(c, s) && MainEnabled(c, s) && ApplyMain(c, s).main.round == 2
    ensures SomeDoomed(c, ApplyMain(c, s)) || AllCalm(c, ApplyMain(c, s))
  {
    var t := ApplyMain(c, s);
    StepMain(c, s, MainStep);
    hide MainInv;
    if s.main.round != 2 {
      RoundSwitches(c, s);
      RoundTwoStarts(c, t);
    } else if SomeDoomed(c, s) {
      var k :| 0 <= k < c.n && Doomed(s.stage[k], s.routers[k], s.main.first[k]);
      MainStepKeepsDoom(c, s, k);
    } else {
      CalmMain(c, s);
    }
  }

  lemma RouterStepKeepsRound(c: Config, s: Net, a: Action)
    requires Fits(c, s) && Enabled(c, s, a) && !a.MainStep?
    ensures Apply(c, s, a).main == s.main && Apply(c, s, a).closed == s.closed
  {
  }

  lemma StepDetect(c: Config, s: Net, a: Action)
    requires DetectInv(c, s) && Enabled(c, s, a)
    ensures DetectInv(c, Apply(c, s, a))
  {
    StepMain(c, s, a);
    var t := Apply(c, s, a);
    if t.main.round == 2 {
      if a.MainStep? {
        MainStepDetect(c, s);
      } else {
        RouterStepKeepsRound(c, s, a);
        RouterStepDetect(c, s, a);
      }
    }
    hide MainInv, SomeDoomed, AllCalm, Apply;
  }

  lemma {:induction false} RunDetect(c: Config, run: seq<Net>, acts: seq<Action>, x: nat)
    requires ValidConfig(c) && IsRun(c, run, acts) && x < |run|
    ensures DetectInv(c, run[x])
  {
    if x == 0 {
      InitMain(c);
    } else {
      RunDetect(c, run, acts, x - 1);
      StepDetect(c, run[x - 1], acts[x - 1]);
    }
  }
}
