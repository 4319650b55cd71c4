/** The theorems about check_done. */
module Verdict {
  import opened Distances
  import opened Routers
  import opened Network
  import opened NetworkInv
  import opened DetectorInv
  import opened Detector
  import opened Protocol
  import FloydWarshall

  // ---------- what a positive verdict means ----------

  /** The number of rotations router `k` made between its two answers. */
  function Rotations(s: Net, k: nat): int
    requires k < |s.main.first| && k < |s.main.second|
    requires s.main.first[k].Converged? && s.main.second[k].Converged?
  {
    s.main.second[k].epoch - s.main.first[k].epoch
  }

  /** check_done has just returned after its second round. */
  ghost predicate JudgedTwice(c: Config, s: Net) {
    DetectInv(c, s) && s.main.phase.Judged? && s.main.round == 2
  }

  /** The verdict of the second round is true exactly when every second answer was a pointer, every router
      rotated a multiple of four times in between, and no rotation rewrote an epoch between the two reads
      of a comparison. */
  lemma VerdictCountsRotationsModuloFour(c: Config, s: Net)
    requires JudgedTwice(c, s)
    ensures forall k :: 0 <= k < c.n ==> s.main.first[k].Converged?
    ensures s.main.valid <==> !s.main.torn && forall k :: 0 <= k < c.n ==>
                                s.main.second[k].Converged? && Rotations(s, k) >= 0 && Rotations(s, k) % 4 == 0
  {
    ValidIsAccepted(c, s);
    hide JudgedTwice, Accepted, Rotations;
    forall k | 0 <= k < c.n
      ensures s.main.first[k].Converged?
      ensures Accepted(2, s.routers[k], s.main.first[k]) <==>
                (s.main.second[k].Converged? && Rotations(s, k) >= 0 && Rotations(s, k) % 4 == 0)
    {
      AnswersStored(c, s, k);
      CountsRotations(s, k, s.routers[k]);
    }
  }

  lemma ValidIsAccepted(c: Config, s: Net)
    requires JudgedTwice(c, s)
    ensures Fits(c, s)
    ensures s.main.valid <==> !s.main.torn && forall k :: 0 <= k < c.n ==> Accepted(2, s.routers[k], s.main.first[k])
  {
    assert Fits(c, s);
    hide NetInv, Accepted, SomeDoomed, AllCalm;
    forall k | 0 <= k < c.n ensures s.stage[k].Collected? {
      assert RouterMain(c, s, k);
    }
    assert ValidInv(c, s);
    hide RouterMain;
  }

  lemma AnswersStored(c: Config, s: Net, k: nat)
    requires JudgedTwice(c, s) && k < c.n
    ensures Fits(c, s) && s.main.first[k].Converged? && s.main.second[k] == s.routers[k].answer
    ensures s.main.second[k].Converged? ==> s.main.first[k].epoch <= s.main.second[k].epoch
  {
    assert RouterMain(c, s, k);
    hide NetInv, SomeDoomed, AllCalm;
  }

  lemma CountsRotations(s: Net, k: nat, r: Router)
    requires k < |s.main.first| && k < |s.main.second| && s.main.second[k] == r.answer && s.main.first[k].Converged?
    requires s.main.second[k].Converged? ==> s.main.first[k].epoch <= s.main.second[k].epoch
    ensures Accepted(2, r, s.main.first[k]) <==>
              (s.main.second[k].Converged? && Rotations(s, k) >= 0 && Rotations(s, k) % 4 == 0)
  {
    if s.main.second[k].Converged? {
      SameRemainder(s.main.first[k].epoch, s.main.second[k].epoch);
    }
  }

  /** No router rotated between its two answers. */
  ghost predicate Unrotated(c: Config, s: Net)
    requires Fits(c, s)
  {
    forall k :: 0 <= k < c.n ==>
      s.main.first[k].Converged? && s.main.second[k].Converged? && s.main.first[k].epoch == s.main.second[k].epoch
  }

  lemma OneMessage(q: seq<Msg>)
    requires |q| <= 1
    ensures q == [] || q == [Probe] || q[0].Vec?
  {
  }

  /** The epochs agree by value exactly when the whole network is calm, and has been since the first
      answers: then nothing is in any channel, nothing is pending, nobody is reading. */
  lemma UnrotatedIsCalm(c: Config, s: Net)
    requires JudgedTwice(c, s)
    ensures Unrotated(c, s) <==> AllCalm(c, s)
    ensures Unrotated(c, s) ==> Quiescent(c, s) && forall k :: 0 <= k < c.n ==> s.chan[k] == []
  {
    if Unrotated(c, s) {
      forall k | 0 <= k < c.n
        ensures s.stage[k].Collected? && !Doomed(s.stage[k], s.routers[k], s.main.first[k])
      {
        assert RouterMain(c, s, k);
      }
      assert AllCalm(c, s);
    }
    if AllCalm(c, s) {
      forall k | 0 <= k < c.n ensures s.chan[k] == [] && Idle(s.routers[k]) && s.main.second[k] == s.main.first[k] {
        CalmAtTheEnd(c, s, k);
      }
    }
    hide MainInv, RouterMain, Calm;
  }

  lemma CalmAtTheEnd(c: Config, s: Net, k: nat)
    requires JudgedTwice(c, s) && AllCalm(c, s) && k < c.n
    ensures s.chan[k] == [] && Idle(s.routers[k]) && s.main.second[k] == s.main.first[k] && s.main.first[k].Converged?
  {
    assert Calm(s.stage[k], s.chan[k], s.routers[k], s.main.first[k]);
    assert RouterMain(c, s, k);
    OneMessage(s.chan[k]);
  }

  // ---------- the assertion at the end of check_done ----------

  /** The distances behind the pointer kept in completed[k]. */
  function Kept(c: Config, s: Net, k: nat): (v: seq<nat>)
    requires Fits(c, s) && k < c.n && s.main.first[k].Converged?
    ensures |v| == c.n
  {
    s.routers[k].pool[s.main.first[k].slot].dist
  }

  predicate AllKept(c: Config, s: Net)
    requires Fits(c, s)
  {
    forall k :: 0 <= k < c.n ==> s.main.first[k].Converged?
  }

  function KeptTable(c: Config, s: Net): (d: Matrix)
    requires Fits(c, s) && AllKept(c, s)
    ensures Square(d, c.n)
  {
    seq(c.n, k requires 0 <= k < c.n => Kept(c, s, k))
  }

  /** What check_done asserts before it returns true. */
  predicate AssertionHolds(c: Config, s: Net)
    requires Fits(c, s)
  {
    AllKept(c, s) && forall src, dst :: 0 <= src < c.n && 0 <= dst < c.n ==>
                       Kept(c, s, src)[dst] == FloydWarshall.Phases(c.w, c.n, c.n)[src][dst]
  }

  /** Whenever main holds a pointer for every router, whatever these have come to point to: the assertion
      holds exactly when no link can improve any of the vectors held. */
  lemma AssertionHoldsIffSettled(c: Config, s: Net)
    requires MainInv(c, s) && AllKept(c, s)
    ensures AssertionHolds(c, s) <==> Settled(c.w, c.n, KeptTable(c, s))
  {
    var d, e := KeptTable(c, s), FloydWarshall.Phases(c.w, c.n, c.n);
    hide MainInv, FloydWarshall.Phases, Kept;
    assert forall i :: 0 <= i < c.n ==> d[i] == Kept(c, s, i);
    if Settled(c.w, c.n, d) {
      forall i, j | 0 <= i < c.n && 0 <= j < c.n ensures d[i][j] == e[i][j] {
        KeptIsReal(c, s, i, j);
        SettledIsShortest(c.w, c.n, d, i, j);
        ClampedConfig(c, s);
        FloydWarshall.PhasesAreShortest(c.w, c.n, i, j);
        ShortestIsUnique(c.w, c.n, i, j, d[i][j], e[i][j]);
      }
    }
    if AssertionHolds(c, s) {
      forall i | 0 <= i < c.n ensures d[i] == e[i] {
        assert forall j :: 0 <= j < c.n ==> d[i][j] == e[i][j];
      }
      ClampedConfig(c, s);
      FloydWarshall.PhasesAreSettled(c.w, c.n);
      assert d == e;
    }
  }

  lemma ClampedConfig(c: Config, s: Net)
    requires MainInv(c, s)
    ensures Clamped(c.w, c.n)
  {
  }

  lemma KeptIsReal(c: Config, s: Net, k: nat, j: nat)
    requires MainInv(c, s) && k < c.n && j < c.n && s.main.first[k].Converged?
    ensures Real(c.w, c.n, k, j, Kept(c, s, k)[j])
  {
    assert RouterInv(c.w, c.n, k, s.routers[k]);
    assert RealVector(c.w, c.n, k, s.routers[k].pool[s.main.first[k].slot].dist);
    hide Real;
  }

  // ---------- when the verdict can be trusted ----------

  /** Sound detection, epochs by value: the assertion holds. */
  lemma UnrotatedIsSolved(c: Config, s: Net)
    requires JudgedTwice(c, s) && Unrotated(c, s)
    ensures AssertionHolds(c, s)
  {
    UnrotatedIsCalm(c, s);
    forall src, dst | 0 <= src < c.n && 0 <= dst < c.n
      ensures s.main.first[src].Converged?
      ensures Kept(c, s, src)[dst] == FloydWarshall.Phases(c.w, c.n, c.n)[src][dst]
    {
      assert Calm(s.stage[src], s.chan[src], s.routers[src], s.main.first[src]);
      QuiescentIsSolved(c, s, src, dst);
    }
    hide MainInv, Quiescent, FloydWarshall.Phases;
  }

  /** No router made four or more rotations between its two answers. */
  ghost predicate FewRotations(c: Config, s: Net)
    requires Fits(c, s)
  {
    forall k :: 0 <= k < c.n ==>
      s.main.first[k].Converged? && s.main.second[k].Converged? && Rotations(s, k) < 4
  }

  /** A true verdict reached through pointers is the one that epochs by value would have given exactly when
      no router made four or more rotations; and then the network is at rest and the assertion holds. */
  lemma TrueVerdictIsRight(c: Config, s: Net)
    requires JudgedTwice(c, s) && s.main.valid
    ensures FewRotations(c, s) <==> Unrotated(c, s)
    ensures FewRotations(c, s) ==> AllCalm(c, s) && Quiescent(c, s) && AssertionHolds(c, s)
  {
    FewRotationsAreNone(c, s);
    UnrotatedIsCalm(c, s);
    if Unrotated(c, s) {
      UnrotatedIsSolved(c, s);
    }
    hide JudgedTwice, Unrotated, Quiescent, AllCalm, FewRotations, AssertionHolds;
  }

  /** The same for every run, whenever check_done is about to return true; and in any case the assertion holds
      exactly when no link can improve what main holds. */
  lemma EveryTrueVerdictIsRight(c: Config, run: seq<Net>, acts: seq<Action>, x: nat)
    requires ValidConfig(c) && IsRun(c, run, acts) && x < |run| && run[x].main.phase.Judged? && run[x].main.valid
    ensures JudgedTwice(c, run[x]) && AllKept(c, run[x])
    ensures FewRotations(c, run[x]) ==> Quiescent(c, run[x]) && AssertionHolds(c, run[x])
    ensures AssertionHolds(c, run[x]) <==> Settled(c.w, c.n, KeptTable(c, run[x]))
  {
    hide DetectInv, Quiescent, AllCalm, IsRun, AssertionHolds, Settled;
    RunDetect(c, run, acts, x);
    ValidEndsRoundTwo(c, run[x]);
    TrueVerdictIsRight(c, run[x]);
    VerdictCountsRotationsModuloFour(c, run[x]);
    AssertionHoldsIffSettled(c, run[x]);
  }

  lemma ValidEndsRoundTwo(c: Config, s: Net)
    requires DetectInv(c, s) && s.main.phase.Judged? && s.main.valid
    ensures JudgedTwice(c, s) && MainInv(c, s)
  {
    assert ValidInv(c, s);
  }

  lemma FewRotationsAreNone(c: Config, s: Net)
    requires JudgedTwice(c, s) && s.main.valid
    ensures Fits(c, s) && (FewRotations(c, s) <==> Unrotated(c, s))
  {
    assert Fits(c, s);
    hide JudgedTwice;
    VerdictCountsRotationsModuloFour(c, s);
    forall k | 0 <= k < c.n
      ensures s.main.first[k].Converged? && s.main.second[k].Converged?
      ensures Rotations(s, k) < 4 <==> s.main.first[k].epoch == s.main.second[k].epoch
    {
      LessThanFour(Rotations(s, k));
    }
  }

  lemma LessThanFour(x: nat)
    requires x % 4 == 0
    ensures x < 4 <==> x == 0
  {
  }

  /** Before the second round compares, every entry of completed[] has been set. */
  lemma CompletedIsSetBeforeUse(c: Config, s: Net, k: nat)
    requires MainInv(c, s) && s.main.round == 2 && k < c.n
    ensures s.main.first[k].Converged?
  {
    assert RouterMain(c, s, k);
  }

  /** Each round takes exactly one reply from every router: when it ends, all have been collected, and
      until then a reply main is not done with is the only one of a router not yet collected. */
  lemma OneReplyEach(c: Config, s: Net, x: nat)
    requires MainInv(c, s)
    ensures s.main.phase.Collecting? ==> Count(s.stage) == s.main.phase.i < c.n
    ensures s.main.phase.Judged? ==> Count(s.stage) == c.n
    ensures x < |Replies(s)| ==> Replies(s)[x].src < c.n && s.stage[Replies(s)[x].src].Answered?
    ensures OneEach(Replies(s))
  {
    hide RouterInv, PairInv, OneEach, Count, RouterMain;
    CountBounds(s.stage);
    if x < |Replies(s)| {
      ReplyIsAnswered(c, s, x);
    }
  }

  lemma ReplyIsAnswered(c: Config, s: Net, x: nat)
    requires MainInv(c, s) && x < |Replies(s)|
    ensures Fits(c, s) && Replies(s)[x].src < c.n && s.stage[Replies(s)[x].src].Answered?
  {
    hide PhaseInv, ValidInv, OneEach, RouterInv, PairInv;
    var k := Replies(s)[x].src;
    assert RouterMain(c, s, k);
  }

  // ---------- after a right verdict nothing happens any more ----------

  /** The network after a right verdict, while main closes done_channel and the routers stop. */
  ghost predicate Finished(c: Config, s: Net) {
    && MainInv(c, s) && s.main.round == 2 && s.main.valid && AllCalm(c, s)
    && (s.main.phase.Judged? || s.main.phase.Closed?)
  }

  /** From then on no step changes any vector, and a router that stops has no unannounced news. */
  lemma FinishedForGood(c: Config, s: Net, a: Action, k: nat)
    requires Finished(c, s) && Enabled(c, s, a) && k < c.n
    ensures Finished(c, Apply(c, s, a))
    ensures Apply(c, s, a).routers[k].pool == s.routers[k].pool && Now(Apply(c, s, a).routers[k]) == Now(s.routers[k])
    ensures a.Stop? ==> !s.routers[a.i].changed
  {
    hide MainInv, AllCalm;
    FinishedFits(c, s, k);
    FinishedSteps(c, s, a);
    StepMain(c, s, a);
    match a {
      case Decide(i) => CalmDecide(c, s, i); hide EndOfLoop, Shaped;
      case Stop(i) => CalmStop(c, s, i); FinishedFits(c, s, i); hide Shaped;
      case MainStep => CalmMain(c, s); hide Shaped;
    }
  }

  lemma FinishedFits(c: Config, s: Net, k: nat)
    requires Finished(c, s) && k < c.n
    ensures Fits(c, s) && Calm(s.stage[k], s.chan[k], s.routers[k], s.main.first[k])
  {
  }

  lemma FinishedSteps(c: Config, s: Net, a: Action)
    requires Finished(c, s) && Enabled(c, s, a)
    ensures a.Decide? || a.Stop? || a.MainStep?
    ensures a.MainStep? ==> s.main.phase.Judged?
  {
    if !a.MainStep? {
      var i := a.i;
      assert RouterMain(c, s, i) && Calm(s.stage[i], s.chan[i], s.routers[i], s.main.first[i]);
      OneMessage(s.chan[i]);
    }
  }
}
