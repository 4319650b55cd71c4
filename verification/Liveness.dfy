/** The probed network never gets stuck, and what its channel capacities have to do with it. */
module Liveness {
  import opened Distances
  import opened Routers
  import opened Network
  import opened NetworkInv
  import opened DetectorInv

  // ---------- routers stop only after done_channel is closed ----------

  predicate NoneStopped(c: Config, s: Net)
    requires Fits(c, s)
  {
    s.closed || forall k :: 0 <= k < c.n ==> !s.routers[k].pc.Stopped?
  }

  lemma StepStops(c: Config, s: Net, a: Action)
    requires Fits(c, s) && Enabled(c, s, a) && NoneStopped(c, s)
    ensures NoneStopped(c, Apply(c, s, a))
  {
    match a {
      case Take(i) =>
      case Send(i, x) =>
      case Relax(i) => hide Distances.Add32;
      case Decide(i) =>
      case GiveAnswer(i) =>
      case Stop(i) =>
      case MainStep =>
    }
  }

  lemma {:induction false} RunStops(c: Config, run: seq<Net>, acts: seq<Action>, x: nat)
    requires ValidConfig(c) && IsRun(c, run, acts) && x < |run|
    ensures NoneStopped(c, run[x])
  {
    if x > 0 {
      RunStops(c, run, acts, x - 1);
      StepStops(c, run[x - 1], acts[x - 1]);
    }
  }

  // ---------- no deadlock ----------

  /** A router that owes a reply, or has mail, can move. */
  lemma RouterMoves(c: Config, s: Net, k: nat) returns (a: Action)
    requires MainInv(c, s) && k < c.n && !s.routers[k].pc.Stopped?
    requires s.routers[k].pc.Replying? ==> s.completed == [] && c.replyCap == 1
    requires s.routers[k].pc.Selecting? ==> s.chan[k] != []
    ensures Enabled(c, s, a)
  {
    match s.routers[k].pc {
      case Selecting => a := Take(k);
      case Relaxing(_, _, _) => a := Relax(k);
      case Deciding => a := Decide(k);
      case Replying => a := GiveAnswer(k);
    }
  }

  /** main waits for a reply: some router has not been collected, and its probe is on its way. */
  lemma {:induction false} Uncollected(g: seq<Stage>) returns (k: nat)
    requires Count(g) < |g|
    ensures k < |g| && !g[k].Collected?
  {
    CountBounds(g);
    k :| k < |g| && !g[k].Collected?;
  }

  /** With both capacities 1, until done_channel is closed some thread can always move. main blocks on a
      full channel only while its router is free to read it, and on an empty completed_channel only
      while some router holds a probe. */
  lemma NoDeadlock(c: Config, s: Net) returns (a: Action)
    requires MainInv(c, s) && NoneStopped(c, s) && !s.closed && c.cap == 1 && c.replyCap == 1
    ensures Enabled(c, s, a)
  {
    match s.main.phase {
      case Judged => a := MainStep;
      case Probing(i) =>
        if s.chan[i] == [] {
          a := MainStep;
        } else {
          assert RouterMain(c, s, i);
          a := RouterMoves(c, s, i);
        }
      case Collecting(i) =>
        if s.main.held != [] || s.completed != [] {
          a := MainStep;
        } else {
          var k := Uncollected(s.stage);
          assert RouterMain(c, s, k);
          a := RouterMoves(c, s, k);
        }
    }
  }

  /** After the close every router that is still there can move, so all of them can stop. */
  lemma EverybodyCanStop(c: Config, s: Net, k: nat) returns (a: Action)
    requires MainInv(c, s) && s.closed && k < c.n && !s.routers[k].pc.Stopped?
    ensures Enabled(c, s, a)
  {
    assert RouterMain(c, s, k);
    match s.routers[k].pc {
      case Selecting => a := Stop(k);
      case Relaxing(_, _, _) => a := Relax(k);
      case Deciding => a := Decide(k);
    }
  }

  // ---------- unbuffered channels ----------

  /** Capacity 0 for the routers' channels: nothing at all can happen, not even the first probe. */
  lemma UnbufferedIsStuck(c: Config, a: Action)
    requires ValidConfig(c) && c.cap == 0
    ensures !Enabled(c, Init(c), a)
  {
  }

  predicate StillWaiting(s: Net) {
    s.main.round == 1 && s.main.held == [] && (s.main.phase.Probing? || s.main.phase == Collecting(0))
  }

  /** Capacity 0 for either kind of channel: no run ever reaches a verdict. */
  lemma {:induction false} UnbufferedNeverJudges(c: Config, run: seq<Net>, acts: seq<Action>, x: nat)
    requires ValidConfig(c) && IsRun(c, run, acts) && x < |run| && (c.cap == 0 || c.replyCap == 0)
    ensures StillWaiting(run[x])
    ensures c.cap == 0 ==> run[x] == Init(c)
  {
    if x > 0 {
      UnbufferedNeverJudges(c, run, acts, x - 1);
      if c.cap == 0 {
        UnbufferedIsStuck(c, acts[x - 1]);
      } else {
        WaitingStep(c, run[x - 1], acts[x - 1]);
      }
    }
  }

  lemma WaitingStep(c: Config, s: Net, a: Action)
    requires Fits(c, s) && Enabled(c, s, a) && c.replyCap == 0 && StillWaiting(s)
    ensures StillWaiting(Apply(c, s, a))
  {
  }
}
