/** What happens to the ring once main has set `done`: every message comes back, the workers are stopped, and
    all of it takes a bounded number of steps. */
module RingDrain {
  import opened Ring
  import opened RingInv
  import opened RingTheorems

  // ---------- how far the messages are from main ----------

  /** The steps from where a worker is until the message in its hand is back with main. */
  function HandWay(w: Worker): nat {
    match w.pc
    case Loading(_) => 3
    case Sending(_, toMain) => if toMain then 2 else 5
    case _ => 0
  }

  function HandsWay(ws: seq<Worker>): nat {
    if ws == [] then 0 else HandWay(ws[0]) + HandsWay(ws[1..])
  }

  /** The steps until all messages are back: one from main's channel, four from a channel of the ring. */
  function WayBack(s: State): nat {
    |s.mainCh| + 4 * |Flat(s.ring)| + HandsWay(s.workers)
  }

  lemma {:induction false} HandsWayUpdate(ws: seq<Worker>, i: nat, w: Worker)
    requires i < |ws|
    ensures HandsWay(ws[i := w]) + HandWay(ws[i]) == HandsWay(ws) + HandWay(w)
  {
    var us := ws[i := w];
    if i == 0 {
      assert us[1..] == ws[1..];
    } else {
      assert us[1..] == ws[1..][i - 1 := w];
      HandsWayUpdate(ws[1..], i - 1, w);
    }
  }

  lemma {:induction false} FlatLength(qs: seq<seq<nat>>, i: nat, q: seq<nat>)
    requires i < |qs|
    ensures |Flat(qs[i := q])| + |qs[i]| == |Flat(qs)| + |q|
  {
    var rs := qs[i := q];
    if i == 0 {
      assert rs[1..] == qs[1..];
    } else {
      assert rs[1..] == qs[1..][i - 1 := q];
      FlatLength(qs[1..], i - 1, q);
    }
  }

  lemma {:induction false} HandsWayBounded(ws: seq<Worker>)
    ensures HandsWay(ws) <= 5 * |Hands(ws)|
  {
    if ws != [] { HandsWayBounded(ws[1..]); }
  }

  /** Each message is in one place, at most five steps away. */
  lemma WayBackBounded(c: Config, s: State)
    requires Inv(c, s) && s.main.Draining?
    ensures WayBack(s) <= 5 * (c.num - s.main.count)
  {
    var q := s.returned + (s.mainCh + (Flat(s.ring) + Hands(s.workers)));
    forall m: nat ensures Count(q, m) <= if 1 <= m <= c.num then 1 else 0 {
      CountConcat(s.returned, s.mainCh + (Flat(s.ring) + Hands(s.workers)), m);
      CountConcat(s.mainCh, Flat(s.ring) + Hands(s.workers), m);
      CountConcat(Flat(s.ring), Hands(s.workers), m);
      if m >= 1 {
        assert Copies(s, m) == if m <= Inserted(c, s) then 1 else 0;
      }
    }
    OnceFits(q, c.num);
    HandsWayBounded(s.workers);
    hide Count, Flat, Hands, Once, HandsWay;
  }

  // ---------- every step brings a message nearer ----------

  lemma InvFits(c: Config, s: State)
    requires Inv(c, s)
    ensures c.n > 0 && Fits(c, s)
  {
  }

  lemma ReceiveNears(c: Config, s: State, i: nat)
    requires Inv(c, s) && s.main.Draining? && Enabled(c, s, Receive(i))
    ensures WayBack(ApplyReceive(c, s, i)) == WayBack(s) - 1
  {
    var q := s.ring[i];
    FlatUpdate(s.ring, i, [], 0);
    NoNulls(q);
    hide Conserved, Once, EarlyInv, Flat, Hands, HandsWay;
    assert !s.workers[i].start;
    FlatLength(s.ring, i, q[1..]);
    HandsWayUpdate(s.workers, i, Received(s.workers[i], q[0]));
  }

  lemma LoadNears(c: Config, s: State, i: nat)
    requires Inv(c, s) && s.main.Draining? && Enabled(c, s, Load(i))
    ensures WayBack(ApplyLoad(c, s, i)) == WayBack(s) - 1
  {
    hide Conserved, Once, EarlyInv, Flat, Hands, HandsWay, Count;
    assert Fits(c, s) by { InvFits(c, s); }
    HandsWayUpdate(s.workers, i, ApplyLoad(c, s, i).workers[i]);
  }

  lemma SendNears(c: Config, s: State, i: nat)
    requires Inv(c, s) && s.main.Draining? && Enabled(c, s, Send(i))
    ensures WayBack(ApplySend(c, s, i)) == WayBack(s) - 1
  {
    hide Conserved, Once, EarlyInv, Flat, Hands, HandsWay, Count;
    assert Fits(c, s) by { InvFits(c, s); }
    var w, j := s.workers[i], Next(c, i);
    HandsWayUpdate(s.workers, i, w.(pc := Receiving));
    FlatLength(s.ring, j, s.ring[j] + [w.pc.x]);
  }

  lemma DrainNears(c: Config, s: State, a: Action)
    requires Inv(c, s) && s.main.Draining? && Enabled(c, s, a)
    ensures WayBack(Apply(c, s, a)) == WayBack(s) - 1
  {
    match a {
      case Receive(i) => ReceiveNears(c, s, i);
      case Load(i) => LoadNears(c, s, i);
      case Send(i) => SendNears(c, s, i);
      case MainStep =>
    }
    hide Inv, Flat, HandsWay;
  }

  /** The drain ends: as long as it lasts each step, of whatever thread, brings one message a step nearer, and
      there are at most five steps for each message. */
  lemma {:induction false} DrainIsBounded(c: Config, run: seq<State>, acts: seq<Action>)
    requires c.n > 0 && IsPath(c, run, acts) && Inv(c, run[0]) && forall x :: 0 <= x < |run| ==> run[x].main.Draining?
    ensures |acts| + WayBack(run[|acts|]) == WayBack(run[0]) <= 5 * c.num
  {
    WayBackBounded(c, run[0]);
    if acts != [] {
      DrainNears(c, run[0], acts[0]);
      StepInv(c, run[0], acts[0]);
      hide Inv, Enabled, Apply, Fits, WayBack;
      DrainIsBounded(c, run[1..], acts[1..]);
    }
  }

  // ---------- the rest of the run ----------

  function Present(ws: seq<Worker>): nat {
    if ws == [] then 0 else (if ws[0].pc.Exited? then 0 else 1) + Present(ws[1..])
  }

  lemma {:induction false} PresentUpdate(ws: seq<Worker>, i: nat, w: Worker)
    requires i < |ws|
    ensures Present(ws[i := w]) + (if ws[i].pc.Exited? then 0 else 1) == Present(ws) + if w.pc.Exited? then 0 else 1
  {
    var us := ws[i := w];
    if i == 0 {
      assert us[1..] == ws[1..];
    } else {
      assert us[1..] == ws[1..][i - 1 := w];
      PresentUpdate(ws[1..], i - 1, w);
    }
  }

  lemma {:induction false} PresentBounds(ws: seq<Worker>)
    ensures Present(ws) <= |ws| && (Present(ws) == 0 ==> forall k :: 0 <= k < |ws| ==> ws[k].pc.Exited?)
  {
    if ws != [] {
      PresentBounds(ws[1..]);
      assert forall k :: 1 <= k < |ws| ==> ws[k] == ws[1..][k - 1];
    }
  }

  /** The steps left once `done` is set: the messages' ways back, a stop message for each worker, its exit. */
  function StepsLeft(c: Config, s: State): int {
    match s.main
    case Draining(_) => WayBack(s) + c.n + Present(s.workers)
    case Stopping(i) => c.n - i + Present(s.workers)
    case _ => Present(s.workers)
  }

  lemma DrainStep(c: Config, s: State, a: Action)
    requires Inv(c, s) && s.main.Draining? && Enabled(c, s, a)
    ensures StepsLeft(c, Apply(c, s, a)) <= StepsLeft(c, s) - 1
  {
    DrainNears(c, s, a);
    if !a.MainStep? {
      StayPresent(c, s, a);
    }
    hide Inv, WayBack, Present, Enabled;
  }

  lemma StayPresent(c: Config, s: State, a: Action)
    requires Inv(c, s) && s.main.Draining? && Enabled(c, s, a) && !a.MainStep?
    ensures Apply(c, s, a).main == s.main && Present(Apply(c, s, a).workers) == Present(s.workers)
  {
    StepInv(c, s, a);
    var t := Apply(c, s, a);
    PresentUpdate(s.workers, a.i, t.workers[a.i]);
    assert CirculatingPc(s.workers[a.i].pc, true) && CirculatingPc(t.workers[a.i].pc, true);
    hide Conserved, Once, EarlyInv, Flat, Hands, Count, Present;
  }

  lemma StopStep(c: Config, s: State, a: Action)
    requires Inv(c, s) && !Running(s) && Enabled(c, s, a)
    ensures StepsLeft(c, Apply(c, s, a)) == StepsLeft(c, s) - 1
  {
    hide EarlyInv, Present;
    assert c.n > 0 && Fits(c, s) by { InvFits(c, s); }
    if !a.MainStep? {
      assert StopInv(a.i < Told(c, s), s.workers[a.i], s.ring[a.i]);
      PresentUpdate(s.workers, a.i, Apply(c, s, a).workers[a.i]);
    }
  }

  lemma LateStaysLate(c: Config, s: State, a: Action)
    requires c.n > 0 && Fits(c, s) && Enabled(c, s, a) && !BeforeDone(s)
    ensures !BeforeDone(Apply(c, s, a))
  {
  }

  lemma {:induction false} StepsRunOut(c: Config, run: seq<State>, acts: seq<Action>)
    requires c.n > 0 && IsPath(c, run, acts) && Inv(c, run[0]) && !BeforeDone(run[0])
    ensures |acts| <= StepsLeft(c, run[0]) && Inv(c, run[|acts|]) && !BeforeDone(run[|acts|])
  {
    if acts == [] {
    } else {
      if run[0].main.Draining? { DrainStep(c, run[0], acts[0]); } else { StopStep(c, run[0], acts[0]); }
      StepInv(c, run[0], acts[0]);
      LateStaysLate(c, run[0], acts[0]);
      hide Inv, Enabled, Apply, Fits, StepsLeft, BeforeDone;
      StepsRunOut(c, run[1..], acts[1..]);
    }
  }

  lemma StepsLeftBounded(c: Config, s: State)
    requires Inv(c, s) && !BeforeDone(s)
    ensures StepsLeft(c, s) <= 5 * c.num + 2 * c.n
  {
    PresentBounds(s.workers);
    if s.main.Draining? { WayBackBounded(c, s); }
    hide EarlyInv, DoneInv, WayBack, Present;
    assert Fits(c, s) by { InvFits(c, s); }
  }

  /** Nobody can take a step. */
  ghost predicate Finished(c: Config, s: State)
    requires Fits(c, s)
  {
    forall a: Action :: !Enabled(c, s, a)
  }

  /** main has all messages, once each, and every worker is gone. */
  ghost predicate Complete(c: Config, s: State) {
    && s.main.Joining? && (forall k :: 0 <= k < |s.workers| ==> s.workers[k].pc.Exited?)
    && forall m: nat :: Count(s.returned, m) == if 1 <= m <= c.num then 1 else 0
  }

  lemma FinishedIsComplete(c: Config, s: State)
    requires Inv(c, s) && !BeforeDone(s) && c.b >= 1 && c.num < c.n * (c.b + 1) && Finished(c, s)
    ensures Complete(c, s)
  {
    if s.main.Draining? {
      FinishedIsStuck(c, s);
      RingNeverStuck(c, s);
    } else {
      if s.main.Stopping? { StopGoesOn(c, s); }
      forall k | 0 <= k < c.n ensures s.workers[k].pc.Exited? {
        if !s.workers[k].pc.Exited? {
          var a := StopProceeds(c, s, k);
        }
      }
      StopIsOver(c, s);
    }
  }

  lemma FinishedIsStuck(c: Config, s: State)
    requires Fits(c, s) && Finished(c, s)
    ensures Stuck(c, s)
  {
    assert !Enabled(c, s, MainStep);
  }

  lemma StopGoesOn(c: Config, s: State)
    requires Inv(c, s) && s.main.Stopping? && c.b >= 1
    ensures Enabled(c, s, MainStep)
  {
    assert StopInv(false, s.workers[s.main.i], s.ring[s.main.i]);
  }

  lemma StopIsOver(c: Config, s: State)
    requires Inv(c, s) && s.main.Joining? && forall k :: 0 <= k < c.n ==> s.workers[k].pc.Exited?
    ensures Complete(c, s)
  {
    forall m: nat ensures Count(s.returned, m) == if 1 <= m <= c.num then 1 else 0 {
      if 1 <= m <= c.num && Count(s.returned, m) == 0 {
        OnceMissing(s.returned, c.num, m);
      }
    }
  }

  /** The workload ends. From a timely `done` on, no run takes more than five steps for each message and two for
      each worker; and with fewer than n*(b+1) messages every run that cannot go on has gone all the way: main
      has each message exactly once and every worker is gone, so the joins return. */
  lemma EveryRunEnds(c: Config, run: seq<State>, acts: seq<Action>)
    requires c.n > 0 && IsPath(c, run, acts) && Inv(c, run[0]) && !BeforeDone(run[0])
    ensures |acts| <= 5 * c.num + 2 * c.n
    ensures c.b >= 1 && c.num < c.n * (c.b + 1) && Finished(c, run[|acts|]) ==> Complete(c, run[|acts|])
  {
    StepsRunOut(c, run, acts);
    StepsLeftBounded(c, run[0]);
    if c.b >= 1 && c.num < c.n * (c.b + 1) && Finished(c, run[|acts|]) {
      FinishedIsComplete(c, run[|acts|]);
    }
    hide Inv, Finished, Complete, StepsLeft;
  }

  /** So for every timely run: once `done` is set at most 5*num + 2*n steps are left, and if it cannot go on
      then it is complete. */
  lemma TimelyRunEnds(c: Config, run: seq<State>, acts: seq<Action>, x: nat)
    requires c.n > 0 && IsPath(c, run, acts) && Timely(c, run, acts) && run[0] == Init(c)
    requires x < |run| && !BeforeDone(run[x])
    ensures |acts| - x <= 5 * c.num + 2 * c.n
    ensures c.b >= 1 && c.num < c.n * (c.b + 1) && Finished(c, run[|acts|]) ==> Complete(c, run[|acts|])
  {
    RunInv(c, run, acts, x);
    hide Inv, Enabled, Apply, Fits, Complete, Finished, BeforeDone;
    EveryRunEnds(c, run[x..], acts[x..]);
  }

  // ---------- the way round the ring ----------

  /** How many messages worker j has taken from its own channel in acts[x..y]. */
  function Taken(run: seq<State>, acts: seq<Action>, j: nat, x: nat, y: nat): nat
    requires x <= y <= |acts| <= |run|
  {
    if x == y then 0
    else
      var s := run[y - 1];
      Taken(run, acts, j, x, y - 1) +
      if acts[y - 1] == Receive(j) && j < |s.workers| && !s.workers[j].start then 1 else 0
  }

  lemma PathLength(c: Config, run: seq<State>, acts: seq<Action>)
    requires c.n > 0 && IsPath(c, run, acts)
    ensures |run| == |acts| + 1
  {
  }

  lemma PathStep(c: Config, run: seq<State>, acts: seq<Action>, y: nat)
    requires c.n > 0 && IsPath(c, run, acts) && y < |acts|
    ensures |run| == |acts| + 1 && Fits(c, run[y]) && Enabled(c, run[y], acts[y])
    ensures run[y + 1] == Apply(c, run[y], acts[y])
  {
    hide Fits, Enabled, Apply;
  }

  lemma {:induction false} Waits(c: Config, run: seq<State>, acts: seq<Action>, i: nat, x: nat, y: nat)
    requires c.n > 0 && IsPath(c, run, acts) && x < y < |run| && i < c.n && acts[x] == Send(i)
    requires i < |run[x].workers| && run[x].workers[i].pc.Sending? && !run[x].workers[i].pc.toMain
    requires |run[x].ring| == |run[y].ring| == c.n
    ensures var j, m := (i + 1) % c.n, run[x].workers[i].pc.x;
            var ahead := |run[x].ring[j]| - Taken(run, acts, j, x, y);
            ahead >= 0 ==> ahead < |run[y].ring[j]| && run[y].ring[j][ahead] == m
  {
    hide IsPath, Fits, Enabled, Apply, Received;
    PathLength(c, run, acts);
    PathStep(c, run, acts, y - 1);
    if y > x + 1 {
      ChannelStep(c, run[y - 1], acts[y - 1], (i + 1) % c.n);
      Waits(c, run, acts, i, x, y - 1);
    } else {
      PassedOn(c, run[x], i);
    }
  }

  /** A message that worker i passes on waits in the channel of worker (i + 1) % n until those that were there
      before it have been taken; the next thing this worker then takes from its channel is that message. */
  lemma PassedOnInOrder(c: Config, run: seq<State>, acts: seq<Action>, i: nat, x: nat, y: nat)
    requires c.n > 0 && IsPath(c, run, acts) && x < y < |acts| && i < c.n && acts[x] == Send(i)
    requires run[x].workers[i].pc.Sending? && !run[x].workers[i].pc.toMain
    ensures var j, m := (i + 1) % c.n, run[x].workers[i].pc.x;
            var ahead := |run[x].ring[j]| - Taken(run, acts, j, x, y);
            && (ahead >= 0 ==> ahead < |run[y].ring[j]| && run[y].ring[j][ahead] == m)
            && (ahead == 0 && acts[y] == Receive(j) && !run[y].workers[j].start ==>
                  run[y + 1].workers[j] == Received(run[y].workers[j], m))
  {
    PathStep(c, run, acts, x);
    PathStep(c, run, acts, y);
    Waits(c, run, acts, i, x, y);
    ChannelStep(c, run[y], acts[y], (i + 1) % c.n);
    hide IsPath, Enabled, Apply, Received;
  }

  lemma PassedOn(c: Config, s: State, i: nat)
    requires c.n > 0 && Fits(c, s) && Enabled(c, s, Send(i)) && !s.workers[i].pc.toMain
    ensures Apply(c, s, Send(i)).ring[(i + 1) % c.n] == s.ring[(i + 1) % c.n] + [s.workers[i].pc.x]
  {
    NextIsSuccessor(c, i);
  }

  lemma NextIsSuccessor(c: Config, i: nat)
    requires i < c.n
    ensures Next(c, i) == (i + 1) % c.n
  {
  }

  /** A step takes the first message from a channel of the ring, or adds one behind the others, or leaves it. */
  lemma ChannelStep(c: Config, s: State, a: Action, j: nat)
    requires c.n > 0 && Fits(c, s) && Enabled(c, s, a) && j < c.n
    ensures |s.ring| == c.n && |s.workers| == c.n && |Apply(c, s, a).ring| == c.n && |Apply(c, s, a).workers| == c.n
    ensures var t := Apply(c, s, a);
            if a == Receive(j) && !s.workers[j].start
            then s.ring[j] != [] && t.ring[j] == s.ring[j][1..]
                 && t.workers[j] == Received(s.workers[j], s.ring[j][0])
            else s.ring[j] <= t.ring[j]
  {
  }

  /** main's channel likewise, whoever takes from it: main itself, or a worker in its start period. */
  lemma MainChannelStep(c: Config, s: State, a: Action)
    requires c.n > 0 && Fits(c, s) && Enabled(c, s, a)
    ensures var t := Apply(c, s, a);
            if a.MainStep? && s.main.Draining?
            then s.mainCh != [] && t.mainCh == s.mainCh[1..] && t.returned == s.returned + [s.mainCh[0]]
            else if a.Receive? && s.workers[a.i].start
            then s.mainCh != [] && t.mainCh == s.mainCh[1..] && t.returned == s.returned
                 && t.workers[a.i] == Received(s.workers[a.i], s.mainCh[0])
            else s.mainCh <= t.mainCh && t.returned == s.returned
  {
  }
}
