/** The bound on the number of messages is the exact one: with n*(b+1) or more, every worker can end up
    blocked for ever. */
module RingJam {
  import opened Ring
  import opened RingInv
  import opened RingTheorems

  /** Every worker holds a message for a full neighbour. */
  predicate Jammed(c: Config, s: State)
    requires Fits(c, s)
  {
    forall k :: 0 <= k < c.n ==>
      s.workers[k].pc.Sending? && !s.workers[k].pc.toMain && |s.ring[Next(c, k)]| == c.b
  }

  /** A jam never dissolves: no worker can move, and main cannot help. */
  lemma JamIsForever(c: Config, s: State, a: Action)
    requires c.n > 0 && Fits(c, s) && Jammed(c, s) && Enabled(c, s, a)
    ensures a.MainStep? && Jammed(c, Apply(c, s, a)) && Apply(c, s, a).workers == s.workers
  {
    if a.MainStep? && s.main.Stopping? {
      var i := s.main.i;
      var k := if i == 0 then c.n - 1 else i - 1;
      assert |s.ring[Next(c, k)]| == c.b;
    }
  }

  /** What main does next when `m` is the next message. */
  function InsertFrom(c: Config, m: nat): MainPc {
    if m <= c.num then Inserting(m) else Starting(0)
  }

  /** The first `i` workers are jammed, worker `i` has passed on `j` messages, the others wait. */
  predicate Filling(c: Config, s: State, i: nat, j: nat)
    requires Fits(c, s)
  {
    && i <= c.n && j <= c.b && (i == c.n ==> j == 0)
    && s.mainCh == [] && !s.done
    && (forall k :: 0 <= k < i ==>
          s.workers[k].pc.Sending? && !s.workers[k].pc.toMain && |s.ring[Next(c, k)]| == c.b)
    && (forall k :: i <= k < c.n ==>
          s.workers[k] == Worker(true, Receiving) && |s.ring[Next(c, k)]| == if k == i then j else 0)
  }

  /** One message goes from main into the hand of worker `i`, which finds `done` not set. */
  lemma TakeOne(c: Config, s: State, t: State, i: nat, m: nat) returns (u: State)
    requires c.n > 0 && c.b >= 1 && Leads(c, s, t) && Fits(c, t) && i < c.n
    requires 1 <= m <= c.num && t.main == InsertFrom(c, m)
    requires t.mainCh == [] && !t.done && t.workers[i] == Worker(true, Receiving)
    ensures Leads(c, s, u) && Fits(c, u)
    ensures u == t.(workers := t.workers[i := Worker(true, Sending(m, false))], main := InsertFrom(c, m + 1))
  {
    Go(c, s, t, MainStep);
    var t1 := ApplyMain(c, t);
    assert t1.mainCh == [m];
    Go(c, s, t1, Receive(i));
    var t2 := ApplyReceive(c, t1, i);
    assert t2.mainCh == [];
    Go(c, s, t2, Load(i));
    u := ApplyLoad(c, t2, i);
  }

  lemma NextDiffers(c: Config, i: nat, k: nat)
    requires i < c.n && k < c.n && i != k
    ensures Next(c, i) != Next(c, k)
  {
  }

  /** Worker `i` passes messages on until its neighbour is full, and is left holding one more. */
  lemma {:induction false} JamOne(c: Config, s: State, t: State, i: nat, j: nat, m: nat) returns (u: State)
    requires c.n > 0 && c.b >= 1 && Leads(c, s, t) && Fits(c, t) && i < c.n && Filling(c, t, i, j)
    requires 1 <= m && m + (c.b - j) <= c.num && t.main == InsertFrom(c, m)
    ensures Leads(c, s, u) && Fits(c, u) && Filling(c, u, i + 1, 0) && u.main == InsertFrom(c, m + (c.b - j) + 1)
    decreases c.b - j
  {
    var t1 := TakeOne(c, s, t, i, m);
    if j == c.b {
      u := t1;
    } else {
      Go(c, s, t1, Send(i));
      var t2 := ApplySend(c, t1, i);
      forall k | 0 <= k < c.n && k != i ensures t2.ring[Next(c, k)] == t.ring[Next(c, k)] {
        NextDiffers(c, i, k);
      }
      assert t2.workers[i] == Worker(true, Receiving);
      u := JamOne(c, s, t2, i, j + 1, m + 1);
    }
  }

  lemma {:induction false} JamUpTo(c: Config, i: nat) returns (u: State)
    requires c.n > 0 && c.b >= 1 && c.num >= c.n * (c.b + 1) && i <= c.n
    ensures Leads(c, Init(c), u) && Fits(c, u) && Filling(c, u, i, 0) && u.main == InsertFrom(c, i * (c.b + 1) + 1)
  {
    if i == 0 {
      u := Init(c);
      Stay(c, u);
    } else {
      var t := JamUpTo(c, i - 1);
      var m := (i - 1) * (c.b + 1) + 1;
      RoomGrows(c.n, c.b, i);
      hide Filling, Leads, Fits, InsertFrom;
      u := JamOne(c, Init(c), t, i - 1, 0, m);
    }
  }

  lemma RoomGrows(n: nat, b: nat, i: nat)
    requires 1 <= i <= n
    ensures i * (b + 1) <= n * (b + 1) && i * (b + 1) == (i - 1) * (b + 1) + 1 + b
  {
  }

  /** Too many messages: some run jams all the workers before main sets `done`. */
  lemma TooManyMessagesJam(c: Config) returns (u: State)
    requires c.n > 0 && c.b >= 1 && c.num >= c.n * (c.b + 1)
    ensures Leads(c, Init(c), u) && Fits(c, u) && BeforeDone(u) && Jammed(c, u)
  {
    u := JamUpTo(c, c.n);
  }

  /** The exact bound: no run jams the workers before `done` if and only if the messages are fewer than
      n*(b+1). */
  lemma JamsIffTooMany(c: Config)
    requires c.n > 0 && c.b >= 1
    ensures c.num < c.n * (c.b + 1) <==>
              !exists u :: Leads(c, Init(c), u) && Fits(c, u) && BeforeDone(u) && Jammed(c, u)
  {
    if c.num < c.n * (c.b + 1) {
      forall u | Leads(c, Init(c), u) && Fits(c, u) && BeforeDone(u) ensures !Jammed(c, u) {
        var run: seq<State>, acts: seq<Action> :| IsPath(c, run, acts) && run[0] == Init(c) && run[|run| - 1] == u;
        RunEarly(c, run, acts, |run| - 1);
        FewMessagesNeverJam(c, u);
      }
    } else {
      var u := TooManyMessagesJam(c);
    }
  }

  /** A jam needs n*(b+1) messages: b in each channel and one in each hand. */
  lemma FewMessagesNeverJam(c: Config, u: State)
    requires EarlyInv(c, u) && BeforeDone(u) && c.num < c.n * (c.b + 1)
    ensures !Jammed(c, u)
  {
    if Jammed(c, u) {
      forall j | 0 <= j < c.n ensures |u.ring[j]| == c.b {
        var k := if j == 0 then c.n - 1 else j - 1;
        assert |u.ring[Next(c, k)]| == c.b;
      }
      FullRing(u.ring, u.workers, c.b);
      HeldFits(c, u);
    }
  }
}
