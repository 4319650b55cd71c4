/** The ring workload neither deadlocks nor loses or repeats a message; and exactly when that is so. */
module RingTheorems {
  import opened Ring
  import opened RingInv

  // ---------- how many messages fit ----------

  /** What the ring can hold: the channels full and a message in every hand. */
  function Places(n: nat, b: nat): nat {
    n * (b + 1)
  }

  function Scaled(places: real, load: real): real {
    places * load
  }

  /** The number of messages the program puts in for a load. */
  function NumMessages(n: nat, b: nat, load: real): int {
    Scaled(Places(n, b) as real, load).Floor
  }

  /** A load below one is exactly what keeps the messages fewer than the ring and its workers can hold. */
  lemma LoadBelowOne(n: nat, b: nat, load: real)
    requires n > 0 && load >= 0.0
    ensures NumMessages(n, b, load) >= 0
    ensures NumMessages(n, b, load) < Places(n, b) <==> load < 1.0
  {
    assert Places(n, b) >= 1;
    hide Places, Scaled;
    ScaledBelow(Places(n, b) as real, load);
  }

  lemma ScaledBelow(places: real, load: real)
    requires places >= 1.0 && load >= 0.0
    ensures Scaled(places, load) >= 0.0
    ensures Scaled(places, load) < places <==> load < 1.0
  {
    if load < 1.0 {
      assert places * (1.0 - load) > 0.0;
    } else {
      assert places * (load - 1.0) >= 0.0;
    }
  }

  // ---------- no deadlock ----------

  predicate Blocked(c: Config, s: State, i: nat)
    requires Fits(c, s)
  {
    !Enabled(c, s, Receive(i)) && !Enabled(c, s, Load(i)) && !Enabled(c, s, Send(i))
  }

  /** No worker can move, and main is asleep or cannot move either. */
  predicate Stuck(c: Config, s: State)
    requires Fits(c, s)
  {
    (s.main.Sleeping? || !MainEnabled(c, s)) && forall i :: 0 <= i < c.n ==> Blocked(c, s, i)
  }

  predicate Running(s: State) {
    BeforeDone(s) || s.main.Draining?
  }

  /** main's channel is not empty while some worker still waits for its NULL. */
  lemma StartersAreFed(c: Config, s: State, i: nat)
    requires Inv(c, s) && Running(s) && Stuck(c, s) && c.b >= 1 && i < c.n && s.workers[i].start
    ensures s.mainCh != []
  {
    StartCountBounds(s.workers);
  }

  lemma StuckWorker(c: Config, s: State, i: nat)
    requires Inv(c, s) && Running(s) && Stuck(c, s) && c.b >= 1 && i < c.n
    ensures var w := s.workers[i];
            || (w.pc.Receiving? && !w.start && s.ring[i] == [])
            || (w.pc.Sending? && !w.pc.toMain && |s.ring[Next(c, i)]| == c.b)
  {
    assert Blocked(c, s, i);
    if s.workers[i].start {
      StartersAreFed(c, s, i);
    }
    hide Conserved, Once, Flat, Hands, Count, StartCount;
  }

  /** A worker that cannot pass its message on is followed by another one that cannot. */
  lemma StuckSpreads(c: Config, s: State, i: nat)
    requires Inv(c, s) && Running(s) && Stuck(c, s) && c.b >= 1 && i < c.n && s.workers[i].pc.Sending?
    ensures s.workers[Next(c, i)].pc.Sending?
  {
    StuckWorker(c, s, i);
    StuckWorker(c, s, Next(c, i));
    hide Inv, Stuck;
  }

  lemma {:induction false} StuckSpreadsUp(c: Config, s: State, i: nat, j: nat)
    requires Inv(c, s) && Running(s) && Stuck(c, s) && c.b >= 1 && i <= j < c.n && s.workers[i].pc.Sending?
    ensures s.workers[j].pc.Sending?
  {
    if i < j {
      StuckSpreadsUp(c, s, i, j - 1);
      StuckSpreads(c, s, j - 1);
    }
  }

  /** So it goes all the way round. */
  lemma StuckSpreadsRound(c: Config, s: State, i: nat, j: nat)
    requires Inv(c, s) && Running(s) && Stuck(c, s) && c.b >= 1 && i < c.n && j < c.n && s.workers[i].pc.Sending?
    ensures s.workers[j].pc.Sending? && |s.ring[j]| == c.b
  {
    assert Fits(c, s);
    hide Inv, Stuck, Running;
    StuckSpreadsUp(c, s, i, c.n - 1);
    StuckSpreads(c, s, c.n - 1);
    StuckSpreadsUp(c, s, 0, j);
    var h := if j == 0 then c.n - 1 else j - 1;
    StuckSpreadsUp(c, s, 0, h);
    StuckWorker(c, s, h);
  }

  lemma {:induction false} FullRing(qs: seq<seq<nat>>, ws: seq<Worker>, b: nat)
    requires |qs| == |ws| && forall k :: 0 <= k < |qs| ==> |qs[k]| == b && ws[k].pc.Sending?
    ensures |Flat(qs)| + |Hands(ws)| == |qs| * (b + 1)
  {
    if qs != [] {
      FullRing(qs[1..], ws[1..], b);
      assert |qs| * (b + 1) == |qs[1..]| * (b + 1) + (b + 1);
    }
  }

  /** The ring and the workers never hold more than the messages put in. */
  lemma HeldFits(c: Config, s: State)
    requires Fits(c, s) && Conserved(c, s) && Count(Flat(s.ring), 0) == 0 && Count(Hands(s.workers), 0) == 0
    ensures |Flat(s.ring)| + |Hands(s.workers)| <= c.num
  {
    var q := Flat(s.ring) + Hands(s.workers);
    forall m: nat ensures Count(q, m) <= if 1 <= m <= c.num then 1 else 0 {
      CountConcat(Flat(s.ring), Hands(s.workers), m);
      if m >= 1 {
        assert Copies(s, m) == if m <= Inserted(c, s) then 1 else 0;
      }
    }
    OnceFits(q, c.num);
  }

  lemma {:induction false} Covers(q: seq<nat>, num: nat)
    requires forall m: nat :: 1 <= m <= num ==> Count(q, m) >= 1
    ensures |q| >= num
    decreases num
  {
    if num > 0 {
      var r := Without(q, num);
      forall m: nat | 1 <= m <= num - 1 ensures Count(r, m) >= 1 {
        WithoutCounts(q, num, m);
      }
      WithoutCounts(q, num, num);
      Covers(r, num - 1);
    }
  }

  /** With nobody sending, everybody waits on an empty channel and no message is with the workers. */
  lemma NobodySends(c: Config, s: State)
    requires Inv(c, s) && Running(s) && Stuck(c, s) && c.b >= 1
    requires forall i :: 0 <= i < c.n ==> !s.workers[i].pc.Sending?
    ensures Flat(s.ring) == [] && Hands(s.workers) == [] && Started(s)
  {
    forall i | 0 <= i < c.n
      ensures InHand(s.workers[i]) == [] && !s.workers[i].start && s.ring[i] == []
    {
      StuckWorker(c, s, i);
    }
    AllEmpty(s.ring);
    NoneInHand(s.workers);
  }

  /** main's channel has no message left when the start period is over, and none when main cannot drain. */
  lemma MainIsEmpty(c: Config, s: State)
    requires Inv(c, s) && (s.main.Sleeping? || (s.main.Draining? && !MainEnabled(c, s))) && Started(s)
    ensures s.mainCh == []
  {
    StartCountBounds(s.workers);
    NoNulls(s.mainCh);
    if s.main.Sleeping? {
      assert !s.workers[0].start;
    }
  }

  /** A message that is neither in the ring nor with a worker nor in main's channel has been returned. */
  lemma RestIsReturned(c: Config, s: State)
    requires Inv(c, s) && Inserted(c, s) == c.num && Flat(s.ring) == [] && Hands(s.workers) == [] && s.mainCh == []
    ensures |s.returned| >= c.num
  {
    forall m: nat | 1 <= m <= c.num ensures Count(s.returned, m) >= 1 {
      assert Copies(s, m) == 1;
    }
    Covers(s.returned, c.num);
  }

  lemma SomebodySends(c: Config, s: State)
    requires Inv(c, s) && Running(s) && Stuck(c, s) && c.b >= 1 && (s.main.Sleeping? ==> c.num > 0)
    ensures exists i :: 0 <= i < c.n && s.workers[i].pc.Sending?
  {
    if forall i :: 0 <= i < c.n ==> !s.workers[i].pc.Sending? {
      NobodySends(c, s);
      StartCountBounds(s.workers);
      if s.main.Sleeping? || s.main.Draining? {
        MainIsEmpty(c, s);
        RestIsReturned(c, s);
      }
    }
  }

  /** Fewer messages than places in the ring and with the workers: until main has everything back, some
      thread can always move, and while main sleeps some worker can. */
  lemma RingNeverStuck(c: Config, s: State)
    requires Inv(c, s) && Running(s) && c.b >= 1 && c.num < c.n * (c.b + 1) && (s.main.Sleeping? ==> c.num > 0)
    ensures !Stuck(c, s)
  {
    if Stuck(c, s) {
      SomebodySends(c, s);
      var i :| 0 <= i < c.n && s.workers[i].pc.Sending?;
      forall j | 0 <= j < c.n ensures s.workers[j].pc.Sending? && |s.ring[j]| == c.b {
        StuckSpreadsRound(c, s, i, j);
      }
      FullRing(s.ring, s.workers, c.b);
      HeldFits(c, s);
    }
  }

  /** While the workers are being stopped, somebody can move until all of them are gone. */
  lemma StopProceeds(c: Config, s: State, i: nat) returns (a: Action)
    requires Inv(c, s) && !Running(s) && c.b >= 1 && i < c.n && !s.workers[i].pc.Exited?
    ensures Enabled(c, s, a)
  {
    assert StopInv(i < Told(c, s), s.workers[i], s.ring[i]);
    if s.main.Stopping? {
      assert StopInv(false, s.workers[s.main.i], s.ring[s.main.i]);
      a := MainStep;
    } else {
      a := Receive(i);
    }
  }

  // ---------- exactly-once delivery ----------

  /** main's checks on what it takes back never fail. */
  lemma DrainChecksHold(c: Config, run: seq<State>, acts: seq<Action>, x: nat)
    requires c.n > 0 && IsPath(c, run, acts) && Timely(c, run, acts) && run[0] == Init(c) && x < |run|
    requires run[x].main.Draining? && run[x].mainCh != []
    ensures 1 <= run[x].mainCh[0] <= c.num && Count(run[x].returned, run[x].mainCh[0]) == 0
  {
    RunInv(c, run, acts, x);
    DrainedIsNew(c, run[x]);
  }

  /** When the stop messages begin, main has every message exactly once and all channels are empty. */
  lemma EverythingReturns(c: Config, s: State, m: nat, k: nat)
    requires Inv(c, s) && s.main == Stopping(0) && k < c.n
    ensures Count(s.returned, m) == if 1 <= m <= c.num then 1 else 0
    ensures s.mainCh == [] && s.ring[k] == [] && s.workers[k].pc.Receiving?
  {
    assert StopInv(false, s.workers[k], s.ring[k]);
    if 1 <= m <= c.num && Count(s.returned, m) == 0 {
      OnceMissing(s.returned, c.num, m);
    }
  }

  /** main's loop over msg_check, on what it takes from its channel: it gets through exactly when every
      value is one of 1..num and none comes twice. */
  method CheckMarks(received: seq<nat>, num: nat) returns (ok: bool)
    ensures ok <==> Once(received, num)
  {
    var msgCheck := new bool[num + 1](_ => false);
    for x := 0 to |received|
      invariant Once(received[..x], num)
      invariant forall m :: 0 <= m <= num ==> (msgCheck[m] <==> Count(received[..x], m) > 0)
    {
      var data := received[x];
      PrefixCounts(received, x);
      assert 1 <= data <= num ==> (msgCheck[data] <==> Count(received[..x], data) > 0);
      if !(1 <= data <= num) || msgCheck[data] {
        return false;
      }
      msgCheck[data] := true;
      OnceExtends(received, x, num);
    }
    assert received[..|received|] == received;
    return true;
  }

  /** How one more value changes the counts, and that a bad value stays bad. */
  lemma PrefixCounts(q: seq<nat>, x: nat)
    requires x < |q|
    ensures forall m: nat :: Count(q[..x + 1], m) == Count(q[..x], m) + if q[x] == m then 1 else 0
    ensures Count(q, q[x]) > Count(q[..x], q[x])
  {
    forall m: nat ensures Count(q[..x + 1], m) == Count(q[..x], m) + if q[x] == m then 1 else 0 {
      assert q[..x + 1] == q[..x] + [q[x]];
      CountConcat(q[..x], [q[x]], m);
      CountOne(q[x], m);
    }
    assert q == q[..x + 1] + q[x + 1..];
    CountConcat(q[..x + 1], q[x + 1..], q[x]);
  }

  lemma OnceExtends(q: seq<nat>, x: nat, num: nat)
    requires x < |q| && Once(q[..x], num) && 1 <= q[x] <= num && Count(q[..x], q[x]) == 0
    ensures Once(q[..x + 1], num)
  {
    PrefixCounts(q, x);
    var p := q[..x + 1];
    forall m: nat ensures Count(p, m) <= if 1 <= m <= num then 1 else 0 {
      assert Count(q[..x], m) <= if 1 <= m <= num then 1 else 0;
    }
  }

  // ---------- runs that go wrong ----------

  ghost predicate Leads(c: Config, s: State, t: State)
    requires c.n > 0
  {
    exists run: seq<State>, acts: seq<Action> :: IsPath(c, run, acts) && run[0] == s && run[|run| - 1] == t
  }

  lemma Stay(c: Config, s: State)
    requires c.n > 0 && Fits(c, s)
    ensures Leads(c, s, s)
  {
    assert IsPath(c, [s], []);
  }

  lemma Go(c: Config, s: State, t: State, a: Action)
    requires c.n > 0 && Leads(c, s, t) && Fits(c, t) && Enabled(c, t, a)
    ensures Leads(c, s, Apply(c, t, a))
  {
    var run: seq<State>, acts: seq<Action> :| IsPath(c, run, acts) && run[0] == s && run[|run| - 1] == t;
    assert IsPath(c, run + [Apply(c, t, a)], acts + [a]);
  }

  /** main is about to take a NULL where it expects a message: its first check fails. */
  predicate TakesNull(s: State) {
    s.main.Draining? && s.mainCh != [] && s.mainCh[0] == 0
  }

  lemma {:induction false} DrainsToNull(c: Config, s: State, t: State, k: nat) returns (u: State)
    requires c.n > 0 && Leads(c, s, t) && Fits(c, t) && t.main.Draining? && k < |t.mainCh| && t.mainCh[k] == 0
    requires t.main.count + k < c.num
    ensures Leads(c, s, u) && TakesNull(u)
    decreases k
  {
    if t.mainCh[0] == 0 {
      u := t;
    } else {
      Go(c, s, t, MainStep);
      u := DrainsToNull(c, s, ApplyMain(c, t), k - 1);
    }
  }

  lemma NullIsThere(c: Config, s: State) returns (k: nat)
    requires EarlyInv(c, s) && s.main.Sleeping? && !Started(s)
    ensures k < |s.mainCh| && s.mainCh[k] == 0 && forall x :: 0 <= x < k ==> s.mainCh[x] != 0
  {
    StartCountBounds(s.workers);
    NoNulls(s.mainCh);
    hide Conserved, Flat, Hands, StartCount;
    k :| 0 <= k < |s.mainCh| && s.mainCh[k] == 0;
    hide EarlyInv, Started;
    while k > 0 && s.mainCh[k - 1] == 0
      invariant k < |s.mainCh| && s.mainCh[k] == 0
    {
      k := k - 1;
    }
  }

  /** The messages before the NULLs are distinct, so there are at most `num`; and if a worker holds one,
      fewer. */
  lemma WaitingMessages(c: Config, s: State, k: nat, i: nat)
    requires EarlyInv(c, s) && s.main.Sleeping? && k <= |s.mainCh| && i < c.n
    requires forall x :: 0 <= x < k ==> s.mainCh[x] != 0
    ensures k <= c.num && (InHand(s.workers[i]) != [] ==> k < c.num)
  {
    var q := s.mainCh[..k];
    assert s.mainCh == q + s.mainCh[k..];
    forall m: nat ensures Count(q, m) <= if 1 <= m <= c.num then 1 else 0 {
      CountConcat(q, s.mainCh[k..], m);
      if m == 0 {
        NoNulls(q);
      } else {
        assert Copies(s, m) == if m <= c.num then 1 else 0;
      }
    }
    OnceFits(q, c.num);
    if InHand(s.workers[i]) != [] {
      var x := InHand(s.workers[i])[0];
      InHandPositive(s.workers, i);
      CountOne(x, x);
      CountOne(x, 0);
      HandsUpdate(s.workers, i, Worker(true, Receiving), x);
      CountConcat(q, s.mainCh[k..], x);
      assert Copies(s, x) == if x <= c.num then 1 else 0;
      OnceMissing(q, c.num, x);
    }
  }

  /** If `done` is set before the start period is over, some run makes main take a NULL for a message. */
  lemma EarlyDoneFails(c: Config, s: State) returns (u: State)
    requires EarlyInv(c, s) && s.main.Sleeping? && !Started(s) && c.num > 0
    ensures Leads(c, s, u) && TakesNull(u)
  {
    Stay(c, s);
    var k := NullIsThere(c, s);
    var i :| 0 <= i < c.n && s.workers[i].start;
    WaitingMessages(c, s, k, i);
    assert CirculatingPc(s.workers[i].pc, false);
    hide Conserved, StartInv, Leads, Hands, Count;
    if k < c.num {
      Go(c, s, s, MainStep);
      u := DrainsToNull(c, s, ApplyMain(c, s), k);
    } else {
      assert s.workers[i].pc.Receiving?;
      Go(c, s, s, Receive(i));
      var t := ApplyReceive(c, s, i);
      Go(c, s, t, MainStep);
      u := DrainsToNull(c, s, ApplyMain(c, t), k - 1);
    }
  }

  /** From an over start period, no run that goes on makes main take a NULL for a message. */
  lemma {:induction false} LateDoneIsSafe(c: Config, run: seq<State>, acts: seq<Action>, x: nat)
    requires c.n > 0 && IsPath(c, run, acts) && x < |run|
    requires Inv(c, run[0]) && run[0].main.Sleeping? && Started(run[0])
    ensures Inv(c, run[x]) && Started(run[x]) && !TakesNull(run[x])
  {
    if x > 0 {
      LateDoneIsSafe(c, run, acts, x - 1);
      StartedStays(c, run[x - 1], acts[x - 1]);
      StepInv(c, run[x - 1], acts[x - 1]);
    }
    if run[x].main.Draining? && run[x].mainCh != [] {
      DrainedIsNew(c, run[x]);
    }
  }

  lemma StartedStays(c: Config, s: State, a: Action)
    requires c.n > 0 && Fits(c, s) && Enabled(c, s, a) && Started(s)
    ensures Started(Apply(c, s, a))
  {
  }

  /** So the checks are safe from a sleeping state exactly when the start period is over (or there is
      nothing to drain). */
  lemma ChecksAreSafeIffStarted(c: Config, s: State)
    requires Inv(c, s) && s.main.Sleeping? && c.num > 0
    ensures Started(s) <==> !exists u :: Leads(c, s, u) && TakesNull(u)
  {
    if Started(s) {
      forall u | Leads(c, s, u) ensures !TakesNull(u) {
        var run: seq<State>, acts: seq<Action> :| IsPath(c, run, acts) && run[0] == s && run[|run| - 1] == u;
        LateDoneIsSafe(c, run, acts, |run| - 1);
      }
    } else {
      var u := EarlyDoneFails(c, s);
    }
  }
}
