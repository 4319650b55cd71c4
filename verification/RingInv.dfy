/** What the ring workload keeps in each of main's phases. */
module RingInv {
  import opened Ring

  // ---------- counting ----------

  function Without(q: seq<nat>, x: nat): seq<nat> {
    if q == [] then [] else if q[0] == x then Without(q[1..], x) else [q[0]] + Without(q[1..], x)
  }

  lemma {:induction false} WithoutCounts(q: seq<nat>, x: nat, m: nat)
    ensures Count(Without(q, x), m) == (if m == x then 0 else Count(q, m))
    ensures |Without(q, x)| + Count(q, x) == |q|
  {
    if q != [] {
      WithoutCounts(q[1..], x, m);
      assert q[0] != x ==> Without(q, x)[1..] == Without(q[1..], x);
    }
  }

  /** A list of messages from 1 to `num`, none twice. */
  ghost predicate Once(q: seq<nat>, num: nat) {
    forall m: nat :: Count(q, m) <= if 1 <= m <= num then 1 else 0
  }

  lemma {:induction false} OnceFits(q: seq<nat>, num: nat)
    requires Once(q, num)
    ensures |q| <= num
    decreases num
  {
    if num == 0 {
      if q != [] { assert Count(q, q[0]) >= 1; }
    } else {
      var r := Without(q, num);
      forall m: nat ensures Count(r, m) <= if 1 <= m <= num - 1 then 1 else 0 {
        WithoutCounts(q, num, m);
      }
      OnceFits(r, num - 1);
      WithoutCounts(q, num, 0);
    }
  }

  /** A list with a message missing is shorter. */
  lemma {:induction false} OnceMissing(q: seq<nat>, num: nat, x: nat)
    requires Once(q, num) && 1 <= x <= num && Count(q, x) == 0
    ensures |q| < num
    decreases num
  {
    var r := Without(q, num);
    forall m: nat ensures Count(r, m) <= if 1 <= m <= num - 1 then 1 else 0 {
      WithoutCounts(q, num, m);
    }
    WithoutCounts(q, num, x);
    if x == num {
      OnceFits(r, num - 1);
    } else {
      OnceMissing(r, num - 1, x);
    }
  }

  lemma NothingCounted(q: seq<nat>)
    requires forall m: nat :: Count(q, m) == 0
    ensures q == []
  {
    if q != [] { assert Count(q, q[0]) >= 1; }
  }

  function StartCount(ws: seq<Worker>): nat {
    if ws == [] then 0 else (if ws[0].start then 1 else 0) + StartCount(ws[1..])
  }

  lemma {:induction false} StartCountUpdate(ws: seq<Worker>, i: nat, w: Worker)
    requires i < |ws|
    ensures StartCount(ws[i := w]) + (if ws[i].start then 1 else 0) == StartCount(ws) + if w.start then 1 else 0
  {
    var us := ws[i := w];
    if i == 0 {
      assert us[1..] == ws[1..];
    } else {
      assert us[1..] == ws[1..][i - 1 := w];
      StartCountUpdate(ws[1..], i - 1, w);
    }
  }

  lemma {:induction false} StartCountBounds(ws: seq<Worker>)
    ensures StartCount(ws) <= |ws|
    ensures StartCount(ws) == 0 <==> forall k :: 0 <= k < |ws| ==> !ws[k].start
    ensures StartCount(ws) == |ws| <==> forall k :: 0 <= k < |ws| ==> ws[k].start
  {
    if ws != [] {
      StartCountBounds(ws[1..]);
      assert forall k :: 0 <= k < |ws| - 1 ==> ws[1..][k] == ws[k + 1];
      assert forall k :: 1 <= k < |ws| ==> ws[k] == ws[1..][k - 1];
    }
  }

  // ---------- before `done` ----------

  predicate BeforeDone(s: State) {
    s.main.Inserting? || s.main.Starting? || s.main.Sleeping?
  }

  function NullsToSend(c: Config, s: State): nat {
    match s.main
    case Inserting(_) => c.n
    case Starting(i) => if i < c.n then c.n - i else 0
    case _ => 0
  }

  predicate NullsLast(q: seq<nat>) {
    forall x, y :: 0 <= x < y < |q| && q[x] == 0 ==> q[y] == 0
  }

  predicate AllNull(q: seq<nat>) {
    forall x :: 0 <= x < |q| ==> q[x] == 0
  }

  /** main's channel carries messages first and NULLs last; each worker still in its start period is owed
      one NULL, sent or not; and once some worker has had its NULL, only NULLs are left there. */
  predicate StartInv(c: Config, s: State) {
    && !s.done && s.returned == []
    && NullsLast(s.mainCh)
    && StartCount(s.workers) == Count(s.mainCh, 0) + NullsToSend(c, s)
    && (AllNull(s.mainCh) || forall k :: 0 <= k < |s.workers| ==> s.workers[k].start)
    && Count(Flat(s.ring), 0) == 0
    && (forall k :: 0 <= k < |s.workers| ==> CirculatingPc(s.workers[k].pc, false))
  }

  /** Not gone, and sending to main only if that is possible already. */
  predicate CirculatingPc(p: WorkerPc, done: bool) {
    !p.Exited? && (p.Sending? && p.toMain ==> done)
  }

  ghost predicate EarlyInv(c: Config, s: State) {
    && c.n > 0 && Fits(c, s) && Conserved(c, s) && Count(Hands(s.workers), 0) == 0
    && (BeforeDone(s) ==> StartInv(c, s))
  }

  lemma InitEarly(c: Config)
    requires c.n > 0
    ensures EarlyInv(c, Init(c))
  {
    InitConserves(c);
    AllEmpty(Init(c).ring);
    NoneInHand(Init(c).workers);
    StartCountBounds(Init(c).workers);
    CountOne(0, 0);
    hide Conserved, Flat, Hands, StartCount, Count;
  }

  lemma HandsStayPositive(c: Config, s: State, a: Action)
    requires Fits(c, s) && c.n > 0 && Enabled(c, s, a) && Count(Hands(s.workers), 0) == 0
    ensures Count(Hands(Apply(c, s, a).workers), 0) == 0
  {
    hide Hands;
    match a {
      case Receive(i) =>
        var w := s.workers[i];
        var x := if w.start then s.mainCh[0] else s.ring[i][0];
        HandsTake(s.workers, i, Received(w, x));
      case Load(i) =>
        HandsTake(s.workers, i, s.workers[i].(pc := Sending(s.workers[i].pc.x, s.done)));
      case Send(i) =>
        HandsTake(s.workers, i, s.workers[i].(pc := Receiving));
      case MainStep =>
    }
    hide Fits, Count;
  }

  /** A worker comes to hold at most a message, or what it held. */
  lemma HandsTake(ws: seq<Worker>, i: nat, w: Worker)
    requires i < |ws| && Count(Hands(ws), 0) == 0
    requires InHand(w) == InHand(ws[i]) || InHand(w) == [] || (w.pc.Loading? && w.pc.x != 0)
    ensures Count(Hands(ws[i := w]), 0) == 0
  {
    HandsUpdate(ws, i, w, 0);
    if w.pc.Loading? { CountOne(w.pc.x, 0); }
    hide Hands;
  }

  lemma InHandPositive(ws: seq<Worker>, i: nat)
    requires i < |ws| && Count(Hands(ws), 0) == 0
    ensures Count(InHand(ws[i]), 0) == 0
  {
    HandsUpdate(ws, i, Worker(true, Receiving), 0);
  }

  lemma EarlyReceive(c: Config, s: State, i: nat)
    requires EarlyInv(c, s) && Enabled(c, s, Receive(i)) && BeforeDone(s)
    ensures StartInv(c, ApplyReceive(c, s, i))
  {
    var w := s.workers[i];
    if w.start {
      EarlyReceiveMain(c, s, i);
    } else {
      hide Conserved, StartCount, AllNull, NullsLast, Hands;
      StartCountUpdate(s.workers, i, Received(w, s.ring[i][0]));
      FlatUpdate(s.ring, i, s.ring[i][1..], 0);
      hide Flat;
    }
  }

  lemma EarlyReceiveMain(c: Config, s: State, i: nat)
    requires EarlyInv(c, s) && Enabled(c, s, Receive(i)) && BeforeDone(s) && s.workers[i].start
    ensures StartInv(c, ApplyReceive(c, s, i))
  {
    var w, q := s.workers[i], s.mainCh;
    StartCountUpdate(s.workers, i, Received(w, q[0]));
    NullsBehind(q);
    hide Conserved, Flat, StartCount, AllNull, NullsLast, Count, Hands;
  }

  lemma NullsBehind(q: seq<nat>)
    requires q != [] && NullsLast(q)
    ensures NullsLast(q[1..]) && (AllNull(q) ==> q[0] == 0) && (q[0] == 0 ==> AllNull(q[1..]))
    ensures Count(q, 0) == Count(q[1..], 0) + if q[0] == 0 then 1 else 0
  {
  }

  lemma EarlyLoad(c: Config, s: State, i: nat)
    requires EarlyInv(c, s) && BeforeDone(s) && Enabled(c, s, Load(i))
    ensures StartInv(c, ApplyLoad(c, s, i))
  {
    hide Conserved, Flat, StartCount, Hands, Count, NullsLast, AllNull;
    StartCountUpdate(s.workers, i, s.workers[i].(pc := Sending(s.workers[i].pc.x, s.done)));
  }

  lemma EarlySend(c: Config, s: State, i: nat)
    requires EarlyInv(c, s) && BeforeDone(s) && Enabled(c, s, Send(i))
    ensures StartInv(c, ApplySend(c, s, i))
  {
    hide Conserved, Flat, StartCount, Hands, Count, NullsLast, AllNull;
    assert CirculatingPc(s.workers[i].pc, false);
    StartCountUpdate(s.workers, i, s.workers[i].(pc := Receiving));
    SendNoNull(c, s, i);
  }

  lemma EarlyMain(c: Config, s: State)
    requires EarlyInv(c, s) && BeforeDone(s) && MainEnabled(c, s) && BeforeDone(ApplyMain(c, s))
    ensures StartInv(c, ApplyMain(c, s))
  {
    StartCountBounds(s.workers);
    match s.main {
      case Inserting(m) =>
        CountOne(m, 0);
        CountConcat(s.mainCh, [m], 0);
        NoNulls(s.mainCh);
      case Starting(i) =>
        CountOne(0, 0);
        CountConcat(s.mainCh, [0], 0);
    }
    hide Conserved, Flat, StartCount, Hands;
  }

  lemma {:induction false} NoNulls(q: seq<nat>)
    ensures Count(q, 0) == 0 <==> forall x :: 0 <= x < |q| ==> q[x] != 0
  {
    if q != [] {
      NoNulls(q[1..]);
      assert forall x :: 0 <= x < |q| - 1 ==> q[1..][x] == q[x + 1];
      assert forall x :: 1 <= x < |q| ==> q[x] == q[1..][x - 1];
    }
  }

  lemma StepEarly(c: Config, s: State, a: Action)
    requires EarlyInv(c, s) && Enabled(c, s, a)
    ensures EarlyInv(c, Apply(c, s, a))
  {
    StepConserves(c, s, a);
    HandsStayPositive(c, s, a);
    if BeforeDone(Apply(c, s, a)) {
      match a {
        case Receive(i) => EarlyReceive(c, s, i);
        case Load(i) => EarlyLoad(c, s, i);
        case Send(i) => EarlySend(c, s, i);
        case MainStep => EarlyMain(c, s);
      }
    }
    hide Conserved, StartInv, Hands, Count, Apply;
  }

  /** Holds in every run, whether or not the sleep is long enough. */
  lemma {:induction false} RunEarly(c: Config, run: seq<State>, acts: seq<Action>, x: nat)
    requires c.n > 0 && IsPath(c, run, acts) && run[0] == Init(c) && x < |run|
    ensures EarlyInv(c, run[x])
  {
    if x == 0 {
      InitEarly(c);
    } else {
      RunEarly(c, run, acts, x - 1);
      StepEarly(c, run[x - 1], acts[x - 1]);
    }
  }

  // ---------- after `done` ----------

  /** Stopping: a worker is waiting on its empty channel, has its stop message there, or is gone. */
  predicate StopInv(told: bool, w: Worker, q: seq<nat>) {
    || (w.pc.Receiving? && q == if told then [0] else [])
    || (told && w.pc.Exited? && q == [])
  }

  function Told(c: Config, s: State): nat {
    match s.main
    case Stopping(i) => i
    case _ => c.n
  }

  ghost predicate DoneInv(c: Config, s: State)
    requires Fits(c, s)
  {
    && s.done && Started(s) && Once(s.returned, c.num)
    && (s.main.Draining? ==>
          && |s.returned| == s.main.count && Count(s.mainCh, 0) == 0 && Count(Flat(s.ring), 0) == 0
          && forall k :: 0 <= k < c.n ==> CirculatingPc(s.workers[k].pc, true))
    && (s.main.Stopping? || s.main.Joining? ==>
          && |s.returned| == c.num && s.mainCh == []
          && forall k :: 0 <= k < c.n ==> StopInv(k < Told(c, s), s.workers[k], s.ring[k]))
  }

  ghost predicate Inv(c: Config, s: State) {
    EarlyInv(c, s) && (!BeforeDone(s) ==> DoneInv(c, s))
  }

  /** Whatever is not with main already is nowhere, once main has everything. */
  lemma AllReturnedMeansEmpty(c: Config, s: State)
    requires Fits(c, s) && Conserved(c, s) && Inserted(c, s) == c.num
    requires Once(s.returned, c.num) && |s.returned| == c.num
    requires Count(s.mainCh, 0) == 0 && Count(Flat(s.ring), 0) == 0 && Count(Hands(s.workers), 0) == 0
    ensures s.mainCh == [] && Flat(s.ring) == [] && Hands(s.workers) == []
  {
    forall m: nat
      ensures Count(s.mainCh, m) == 0 && Count(Flat(s.ring), m) == 0 && Count(Hands(s.workers), m) == 0
    {
      if m >= 1 {
        assert Copies(s, m) == if m <= c.num then 1 else 0;
        if m <= c.num && Count(s.returned, m) == 0 {
          OnceMissing(s.returned, c.num, m);
        }
      }
    }
    NothingCounted(s.mainCh);
    NothingCounted(Flat(s.ring));
    NothingCounted(Hands(s.workers));
  }

  lemma {:induction false} FlatEmpty(qs: seq<seq<nat>>, k: nat)
    requires Flat(qs) == [] && k < |qs|
    ensures qs[k] == []
  {
    if k > 0 { FlatEmpty(qs[1..], k - 1); }
  }

  lemma {:induction false} HandsEmpty(ws: seq<Worker>, k: nat)
    requires Hands(ws) == [] && k < |ws|
    ensures InHand(ws[k]) == []
  {
    if k > 0 { HandsEmpty(ws[1..], k - 1); }
  }

  /** All channels are empty and nobody holds anything when the stop messages begin. */
  lemma StopsOnEmpty(c: Config, s: State)
    requires Fits(c, s) && c.n > 0 && s.main == Stopping(0) && Conserved(c, s) && s.done && Started(s)
    requires Once(s.returned, c.num) && |s.returned| == c.num
    requires Count(s.mainCh, 0) == 0 && Count(Flat(s.ring), 0) == 0 && Count(Hands(s.workers), 0) == 0
    requires forall k :: 0 <= k < c.n ==> CirculatingPc(s.workers[k].pc, true)
    ensures DoneInv(c, s)
  {
    AllReturnedMeansEmpty(c, s);
    forall k | 0 <= k < c.n ensures StopInv(false, s.workers[k], s.ring[k]) {
      FlatEmpty(s.ring, k);
      HandsEmpty(s.workers, k);
    }
    hide Conserved, Once, Flat, Hands, Count;
  }

  // ---------- the steps after `done` ----------

  lemma WakeUpInv(c: Config, s: State)
    requires Inv(c, s) && s.main.Sleeping? && Started(s)
    ensures Inv(c, ApplyMain(c, s))
  {
    var t := ApplyMain(c, s);
    StepEarly(c, s, MainStep);
    StartCountBounds(s.workers);
    hide Conserved, Flat, Hands, StartCount, Count;
    if c.num == 0 {
      StopsOnEmpty(c, t);
    }
  }

  /** The message main takes is one of 1..num, and one it has not had before. */
  lemma DrainedIsNew(c: Config, s: State)
    requires Inv(c, s) && s.main.Draining? && s.mainCh != []
    ensures 1 <= s.mainCh[0] <= c.num && Count(s.returned, s.mainCh[0]) == 0
    ensures Once(s.returned + [s.mainCh[0]], c.num)
  {
    var x := s.mainCh[0];
    NoNulls(s.mainCh);
    assert Count(s.mainCh, x) >= 1;
    assert Copies(s, x) == if x <= c.num then 1 else 0;
    forall m: nat ensures Count(s.returned + [x], m) <= if 1 <= m <= c.num then 1 else 0 {
      CountConcat(s.returned, [x], m);
      CountOne(x, m);
    }
  }

  lemma DrainInv(c: Config, s: State)
    requires Inv(c, s) && s.main.Draining? && s.mainCh != []
    ensures Inv(c, ApplyMain(c, s))
  {
    var t := ApplyMain(c, s);
    StepEarly(c, s, MainStep);
    DrainedIsNew(c, s);
    NoNulls(s.mainCh);
    if s.main.count + 1 == c.num {
      StopsOnEmpty(c, t);
    }
    hide Conserved, Flat, Hands, Once;
  }

  lemma StoppingInv(c: Config, s: State)
    requires Inv(c, s) && s.main.Stopping? && MainEnabled(c, s)
    ensures Inv(c, ApplyMain(c, s))
  {
    StepEarly(c, s, MainStep);
    assert StopInv(false, s.workers[s.main.i], s.ring[s.main.i]);
    hide Conserved, Flat, Hands, Once;
  }

  lemma LateReceive(c: Config, s: State, i: nat)
    requires Inv(c, s) && !BeforeDone(s) && Enabled(c, s, Receive(i))
    ensures Inv(c, ApplyReceive(c, s, i))
  {
    hide EarlyInv, Flat, Once;
    assert Fits(c, s) by { EarlyFits(c, s); }
    StepEarly(c, s, Receive(i));
    FlatUpdate(s.ring, i, s.ring[i][1..], 0);
    if !s.main.Draining? {
      assert StopInv(i < Told(c, s), s.workers[i], s.ring[i]);
    }
  }

  lemma EarlyFits(c: Config, s: State)
    requires EarlyInv(c, s)
    ensures Fits(c, s)
  {
  }

  /** After the drain nobody has anything to pass on. */
  lemma NothingToPass(c: Config, s: State, i: nat)
    requires Inv(c, s) && !BeforeDone(s) && i < c.n && (s.workers[i].pc.Loading? || s.workers[i].pc.Sending?)
    ensures s.main.Draining?
  {
  }

  lemma LateLoad(c: Config, s: State, i: nat)
    requires Inv(c, s) && !BeforeDone(s) && Enabled(c, s, Load(i))
    ensures Inv(c, ApplyLoad(c, s, i))
  {
    StepEarly(c, s, Load(i));
    NothingToPass(c, s, i);
    hide Conserved, Flat, Hands, Once, Count;
  }

  lemma LateSend(c: Config, s: State, i: nat)
    requires Inv(c, s) && !BeforeDone(s) && Enabled(c, s, Send(i))
    ensures Inv(c, ApplySend(c, s, i))
  {
    StepEarly(c, s, Send(i));
    NothingToPass(c, s, i);
    SendNoNull(c, s, i);
    LateSendDone(c, s, i);
    hide EarlyInv, DoneInv;
  }

  lemma LateSendDone(c: Config, s: State, i: nat)
    requires Fits(c, s) && DoneInv(c, s) && s.main.Draining? && Enabled(c, s, Send(i))
    requires Count(ApplySend(c, s, i).mainCh, 0) == 0 && Count(Flat(ApplySend(c, s, i).ring), 0) == 0
    ensures DoneInv(c, ApplySend(c, s, i))
  {
    hide Flat, Once, Count;
  }

  /** What a worker passes on is a message, so no NULL appears anywhere. */
  lemma SendNoNull(c: Config, s: State, i: nat)
    requires Fits(c, s) && Enabled(c, s, Send(i)) && Count(Hands(s.workers), 0) == 0 && Count(Flat(s.ring), 0) == 0
    ensures Count(ApplySend(c, s, i).mainCh, 0) == Count(s.mainCh, 0) && Count(Flat(ApplySend(c, s, i).ring), 0) == 0
  {
    var x := s.workers[i].pc.x;
    InHandPositive(s.workers, i);
    CountOne(x, 0);
    CountConcat(s.mainCh, [x], 0);
    CountConcat(s.ring[Next(c, i)], [x], 0);
    FlatUpdate(s.ring, Next(c, i), s.ring[Next(c, i)] + [x], 0);
    hide Flat, Hands, Fits;
  }

  lemma StepInv(c: Config, s: State, a: Action)
    requires Inv(c, s) && Enabled(c, s, a)
    requires a.MainStep? && s.main.Sleeping? ==> Started(s)
    ensures Inv(c, Apply(c, s, a))
  {
    if BeforeDone(s) && !(a.MainStep? && s.main.Sleeping?) {
      StepEarly(c, s, a);
      assert BeforeDone(Apply(c, s, a));
    } else {
      match a {
        case Receive(i) => LateReceive(c, s, i);
        case Load(i) => LateLoad(c, s, i);
        case Send(i) => LateSend(c, s, i);
        case MainStep =>
          if s.main.Sleeping? { WakeUpInv(c, s); }
          else if s.main.Draining? { DrainInv(c, s); }
          else { StoppingInv(c, s); }
      }
    }
    hide EarlyInv, DoneInv;
  }

  lemma {:induction false} RunInv(c: Config, run: seq<State>, acts: seq<Action>, x: nat)
    requires c.n > 0 && IsPath(c, run, acts) && Timely(c, run, acts) && run[0] == Init(c) && x < |run|
    ensures Inv(c, run[x])
  {
    if x == 0 {
      InitEarly(c);
    } else {
      RunInv(c, run, acts, x - 1);
      StepInv(c, run[x - 1], acts[x - 1]);
    }
  }
}
