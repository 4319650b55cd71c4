/** Detection is complete: a network at rest is recognised. */
module Completeness {
  import opened Routers
  import opened Network
  import opened NetworkInv
  import opened DetectorInv
  import opened Protocol

  /** This router's answers, as far as it has given them, are its current vector. */
  predicate AnsweredRested(round: nat, g: Stage, r: Router, f: Answer)
    requires |r.pool| == 4 && r.curr < 4
  {
    && (Replied(g) ==> r.answer == Converged(r.curr, Epoch(r)))
    && (round == 2 ==> f == Converged(r.curr, Epoch(r)))
  }

  /** Nothing is going on, and everything main has been told or has read says so. */
  ghost predicate Resting(c: Config, s: Net)
    requires Fits(c, s)
  {
    && Quiescent(c, s) && !s.main.torn
    && (s.main.operand.Read? ==>
          s.main.held != [] && s.main.operand.epoch == Epoch(s.routers[s.main.held[0].src]))
    && (forall k :: 0 <= k < c.n ==> AnsweredRested(s.main.round, s.stage[k], s.routers[k], s.main.first[k]))
  }

  ghost predicate Rested(c: Config, s: Net) {
    MainInv(c, s) && Resting(c, s) && s.main.valid
  }

  lemma FreshCheckIsRested(c: Config, s: Net)
    requires MainInv(c, s) && Quiescent(c, s) && s.main.phase == Probing(0) && s.main.round == 1
    ensures Rested(c, s)
  {
    hide NetInv, Quiescent, RouterMain;
  }

  // ---------- the routers' steps ----------

  lemma RestedTake(c: Config, s: Net, i: nat)
    requires Rested(c, s) && Enabled(c, s, Take(i))
    ensures Resting(c, ApplyTake(c, s, i))
  {
    hide MainInv, Shaped, AnsweredRested;
    AtMostOne(c, s, i);
    var t := ApplyTake(c, s, i);
    QuietTake(c, s, i);
    AllPools(c, s);
    AllPools(c, t);
    forall k | 0 <= k < c.n ensures AnsweredRested(t.main.round, t.stage[k], t.routers[k], t.main.first[k]) {
      AllShaped(c, s, k);
      assert AnsweredRested(s.main.round, s.stage[k], s.routers[k], s.main.first[k]);
      if k == i { IdleAnswers(s.main.round, s.stage[k], s.routers[k], c.n, s.main.first[k]); }
    }
    hide Quiescent, TakeProbe;
  }

  lemma AtMostOne(c: Config, s: Net, i: nat)
    requires MainInv(c, s) && i < c.n
    ensures |s.chan[i]| <= 1 && Fits(c, s)
  {
  }

  /** Only probes are left in the channels; who takes one stays idle. */
  lemma QuietTake(c: Config, s: Net, i: nat)
    requires Fits(c, s) && Quiescent(c, s) && Enabled(c, s, Take(i)) && |s.chan[i]| <= 1
    ensures s.chan[i][0].Probe? && Idle(s.routers[i])
    ensures var t := ApplyTake(c, s, i); Quiescent(c, t) && Epoch(t.routers[i]) == Epoch(s.routers[i])
  {
    assert !Flying(s.chan[i], if s.chan[i][0].Vec? then s.chan[i][0].src else 0);
    assert s.chan[i][1..] == [] && Idle(s.routers[i]);
    hide Shaped;
  }

  lemma IdleAnswers(round: nat, g: Stage, r: Router, n: nat, f: Answer)
    requires Shaped(r, n) && Idle(r) && AnsweredRested(round, g, r, f)
    ensures AnsweredRested(round, Answering, TakeProbe(r, n), f)
  {
  }

  lemma RestedMove(c: Config, s: Net, a: Action)
    requires Rested(c, s) && Enabled(c, s, a) && !a.Take? && !a.MainStep?
    ensures a.Decide? || a.GiveAnswer? || a.Stop?
    ensures Resting(c, Apply(c, s, a))
  {
    hide MainInv, Apply, Enabled, Quiescent, AnsweredRested, Idle, Shaped;
    AnsweringIsReplied(c, s, a);
    IdleMoves(c, s, a);
    var t := Apply(c, s, a);
    MovedQuiescent(c, s, t, a.i);
    AllPools(c, s);
    AllPools(c, t);
    forall k | 0 <= k < c.n ensures AnsweredRested(t.main.round, t.stage[k], t.routers[k], t.main.first[k]) {
      AllShaped(c, s, k);
      AllShaped(c, t, k);
      StillAnswered(s.main.round, s.stage[k], t.stage[k], s.routers[k], t.routers[k], c.n, s.main.first[k]);
    }
  }

  lemma AnsweringIsReplied(c: Config, s: Net, a: Action)
    requires MainInv(c, s) && Enabled(c, s, a)
    ensures Fits(c, s) && (a.GiveAnswer? ==> a.i < |s.stage| && Replied(s.stage[a.i]))
  {
    if a.GiveAnswer? { assert RouterMain(c, s, a.i); }
    hide NetInv, PhaseInv, ValidInv;
  }

  /** An idle router only moves between program points. */
  lemma IdleMoves(c: Config, s: Net, a: Action)
    requires Fits(c, s) && Enabled(c, s, a) && !a.Take? && !a.MainStep? && Quiescent(c, s)
    ensures (a.Decide? || a.GiveAnswer? || a.Stop?) && a.i < c.n
    ensures var t := Apply(c, s, a);
            && Fits(c, t) && |t.routers| == |s.routers| == c.n && |t.stage| == |s.stage| == c.n
            && t.chan == s.chan && t.main == s.main
            && t.routers == s.routers[a.i := s.routers[a.i].(pc := t.routers[a.i].pc)] && !t.routers[a.i].pc.Relaxing?
            && t.stage == if a.GiveAnswer? then s.stage[a.i := Answered] else s.stage
  {
    assert Idle(s.routers[a.i]);
    hide Shaped, MainFits, ChanFits, Flying;
  }

  lemma AllPools(c: Config, s: Net)
    requires Fits(c, s)
    ensures forall k :: 0 <= k < c.n ==> |s.routers[k].pool| == 4 && s.routers[k].curr < 4
  {
  }

  lemma AllShaped(c: Config, s: Net, k: nat)
    requires Fits(c, s) && k < c.n
    ensures k < |s.routers| && Shaped(s.routers[k], c.n)
  {
  }

  lemma StillAnswered(round: nat, g: Stage, h: Stage, r: Router, q: Router, n: nat, f: Answer)
    requires Shaped(r, n) && Shaped(q, n) && q == r.(pc := q.pc) && (Replied(h) ==> Replied(g))
    requires AnsweredRested(round, g, r, f)
    ensures AnsweredRested(round, h, q, f)
  {
  }

  lemma MovedQuiescent(c: Config, s: Net, t: Net, i: nat)
    requires Fits(c, s) && Fits(c, t) && i < c.n && t.chan == s.chan && Quiescent(c, s)
    requires t.routers == s.routers[i := s.routers[i].(pc := t.routers[i].pc)] && !t.routers[i].pc.Relaxing?
    ensures Quiescent(c, t)
  {
    assert forall k :: 0 <= k < c.n && Idle(s.routers[k]) ==> Idle(t.routers[k]);
    hide Idle, Flying, Shaped;
  }

  // ---------- main's steps ----------

  lemma RestedMain(c: Config, s: Net)
    requires Rested(c, s) && MainEnabled(c, s)
    ensures Resting(c, ApplyMain(c, s))
  {
    match s.main.phase {
      case Probing(i) => RestedProbe(c, s);
      case Collecting(i) =>
        if s.main.held == [] {
          hide MainInv;
        } else if Compares(c, s) && s.main.operand.Unread? {
          RestedRead(c, s);
        } else {
          RestedCollect(c, s);
        }
      case Judged => hide MainInv;
    }
  }

  lemma RestedProbe(c: Config, s: Net)
    requires Rested(c, s) && MainEnabled(c, s) && s.main.phase.Probing?
    ensures Resting(c, ApplyProbe(c, s))
  {
    var t := ApplyProbe(c, s);
    var i := s.main.phase.i;
    assert s.chan[i] == [];
    hide MainInv;
    forall k | 0 <= k < c.n ensures AnsweredRested(t.main.round, t.stage[k], t.routers[k], t.main.first[k]) {
      assert AnsweredRested(s.main.round, s.stage[k], s.routers[k], s.main.first[k]);
    }
  }

  /** The first answer points to the current vector, whose epoch main reads. */
  lemma RestedRead(c: Config, s: Net)
    requires Rested(c, s) && Compares(c, s)
    ensures Resting(c, ApplyRead(c, s))
  {
    var k := s.main.held[0].src;
    assert AnsweredRested(s.main.round, s.stage[k], s.routers[k], s.main.first[k]);
    hide MainInv, Quiescent;
  }

  /** Both operands are the epoch of the current vector: the comparison is neither torn nor unequal. */
  lemma RestedComparison(c: Config, s: Net)
    requires Rested(c, s) && Collects(c, s)
    ensures !Absorb(c, s).torn
  {
    var k := s.main.held[0].src;
    HeldReply(c, s);
    assert AnsweredRested(s.main.round, s.stage[k], s.routers[k], s.main.first[k]);
    hide MainInv, Quiescent, FromPast;
  }

  lemma RestedCollect(c: Config, s: Net)
    requires Rested(c, s) && Collects(c, s)
    ensures Resting(c, ApplyCollect(c, s))
  {
    var t := ApplyCollect(c, s);
    hide MainInv, Absorb, Count, Quiescent;
    HeldReply(c, s);
    AbsorbAccepts(c, s);
    RestedComparison(c, s);
    assert t.routers == s.routers && t.chan == s.chan;
    SameQuiescent(c, s, t);
    forall k | 0 <= k < c.n ensures AnsweredRested(t.main.round, t.stage[k], t.routers[k], t.main.first[k]) {
      assert AnsweredRested(s.main.round, s.stage[k], s.routers[k], s.main.first[k]);
      if t.main.round == 2 && s.main.round == 1 {
        LastReply(c, s);
        TakenCounts(c, s);
        assert Taken(c, s)[k].Collected?;
      }
    }
  }

  lemma SameQuiescent(c: Config, s: Net, t: Net)
    requires Fits(c, s) && Fits(c, t) && t.routers == s.routers && t.chan == s.chan && Quiescent(c, s)
    ensures Quiescent(c, t)
  {
  }

  lemma RestedStep(c: Config, s: Net, a: Action)
    requires Rested(c, s) && Enabled(c, s, a)
    ensures Rested(c, Apply(c, s, a))
  {
    StepMain(c, s, a);
    if a.Take? { RestedTake(c, s, a.i); } else if a.MainStep? { RestedMain(c, s); } else { RestedMove(c, s, a); }
    RestingIsValid(c, Apply(c, s, a));
    hide MainInv, Resting, Apply;
  }

  lemma RestingIsValid(c: Config, t: Net)
    requires MainInv(c, t) && Resting(c, t)
    ensures t.main.valid
  {
    forall k | 0 <= k < c.n && t.stage[k].Collected?
      ensures Accepted(t.main.round, t.routers[k], t.main.first[k])
    {
      assert AnsweredRested(t.main.round, t.stage[k], t.routers[k], t.main.first[k]);
    }
    hide NetInv, Quiescent, RouterMain;
  }

  /** A check_done that starts when the network is at rest can only return true. */
  lemma {:induction false} RestIsDetected(c: Config, run: seq<Net>, acts: seq<Action>, x: nat)
    requires IsPath(c, run, acts) && x < |run|
    requires MainInv(c, run[0]) && Quiescent(c, run[0]) && run[0].main.phase == Probing(0) && run[0].main.round == 1
    ensures Rested(c, run[x])
    ensures run[x].main.phase.Judged? ==> run[x].main.valid && run[x].main.round == 2
  {
    if x == 0 {
      FreshCheckIsRested(c, run[0]);
    } else {
      RestIsDetected(c, run, acts, x - 1);
      RestedStep(c, run[x - 1], acts[x - 1]);
    }
  }
}
