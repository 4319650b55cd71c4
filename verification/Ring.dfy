/** stress_send_recv.c: workers pass messages round a ring of bounded channels while main feeds, drains and
    stops them over its own channel. */
module Ring {

  /** Threads, channel capacity, and the number of messages main puts in. */
  datatype Config = Config(n: nat, b: nat, num: nat)

  /** Where a worker is in its loop: about to receive, about to load `done`, about to send. */
  datatype WorkerPc = Receiving | Loading(x: nat) | Sending(x: nat, toMain: bool) | Exited

  datatype Worker = Worker(start: bool, pc: WorkerPc)

  /** main's loops in order; NULL is message 0. */
  datatype MainPc = Inserting(msg: nat) | Starting(i: nat) | Sleeping | Draining(count: nat) | Stopping(i: nat)
                  | Joining

  /** `returned` holds what main has taken back: the marks of msg_check, in order. */
  datatype State = State(workers: seq<Worker>, ring: seq<seq<nat>>, mainCh: seq<nat>, done: bool, main: MainPc,
                         returned: seq<nat>)

  datatype Action = Receive(i: nat) | Load(i: nat) | Send(i: nat) | MainStep

  function Next(c: Config, i: nat): (j: nat)
    requires i < c.n
    ensures j < c.n
  {
    if i + 1 >= c.n then 0 else i + 1
  }

  predicate Fits(c: Config, s: State) {
    && |s.workers| == c.n && |s.ring| == c.n && |s.mainCh| <= c.b
    && (forall k :: 0 <= k < c.n ==> |s.ring[k]| <= c.b)
    && (s.main.Starting? || s.main.Stopping? ==> s.main.i < c.n)
    && (s.main.Inserting? ==> 1 <= s.main.msg <= c.num)
    && (s.main.Draining? ==> s.main.count < c.num)
  }

  function Init(c: Config): (s: State)
    requires c.n > 0
    ensures Fits(c, s)
  {
    State(seq(c.n, _ => Worker(true, Receiving)), seq(c.n, _ => []), [], false,
          if c.num > 0 then Inserting(1) else Starting(0), [])
  }

  // ---------- steps ----------

  predicate Enabled(c: Config, s: State, a: Action)
    requires Fits(c, s)
  {
    match a
    case Receive(i) =>
      && i < c.n && s.workers[i].pc.Receiving?
      && (if s.workers[i].start then s.mainCh else s.ring[i]) != []
    case Load(i) => i < c.n && s.workers[i].pc.Loading?
    case Send(i) =>
      && i < c.n && s.workers[i].pc.Sending?
      && (if s.workers[i].pc.toMain then |s.mainCh| < c.b else |s.ring[Next(c, i)]| < c.b)
    case MainStep => MainEnabled(c, s)
  }

  predicate MainEnabled(c: Config, s: State)
    requires Fits(c, s)
  {
    match s.main
    case Inserting(_) => |s.mainCh| < c.b
    case Starting(_) => |s.mainCh| < c.b
    case Sleeping => true
    case Draining(_) => s.mainCh != []
    case Stopping(i) => |s.ring[i]| < c.b
    case Joining => false
  }

  /** What a received message does to a worker: NULL ends the start period, or else the loop. */
  function Received(w: Worker, x: nat): Worker {
    if x != 0 then w.(pc := Loading(x))
    else if w.start then w.(start := false)
    else w.(pc := Exited)
  }

  function ApplyReceive(c: Config, s: State, i: nat): (t: State)
    requires Fits(c, s) && Enabled(c, s, Receive(i))
    ensures Fits(c, t)
  {
    var w := s.workers[i];
    if w.start then s.(mainCh := s.mainCh[1..], workers := s.workers[i := Received(w, s.mainCh[0])])
    else s.(ring := s.ring[i := s.ring[i][1..]], workers := s.workers[i := Received(w, s.ring[i][0])])
  }

  function ApplyLoad(c: Config, s: State, i: nat): (t: State)
    requires Fits(c, s) && Enabled(c, s, Load(i))
    ensures Fits(c, t)
  {
    var w := s.workers[i];
    s.(workers := s.workers[i := w.(pc := Sending(w.pc.x, s.done))])
  }

  function ApplySend(c: Config, s: State, i: nat): (t: State)
    requires Fits(c, s) && Enabled(c, s, Send(i))
    ensures Fits(c, t)
  {
    var w := s.workers[i];
    var u := s.(workers := s.workers[i := w.(pc := Receiving)]);
    if w.pc.toMain then u.(mainCh := s.mainCh + [w.pc.x])
    else u.(ring := s.ring[Next(c, i) := s.ring[Next(c, i)] + [w.pc.x]])
  }

  function ApplyMain(c: Config, s: State): (t: State)
    requires Fits(c, s) && MainEnabled(c, s) && c.n > 0
    ensures Fits(c, t)
  {
    match s.main
    case Inserting(m) =>
      s.(mainCh := s.mainCh + [m], main := if m < c.num then Inserting(m + 1) else Starting(0))
    case Starting(i) =>
      s.(mainCh := s.mainCh + [0], main := if i + 1 < c.n then Starting(i + 1) else Sleeping)
    case Sleeping =>
      s.(done := true, main := if c.num > 0 then Draining(0) else Stopping(0))
    case Draining(k) =>
      s.(mainCh := s.mainCh[1..], returned := s.returned + [s.mainCh[0]],
         main := if k + 1 < c.num then Draining(k + 1) else Stopping(0))
    case Stopping(i) =>
      s.(ring := s.ring[i := s.ring[i] + [0]], main := if i + 1 < c.n then Stopping(i + 1) else Joining)
  }

  function Apply(c: Config, s: State, a: Action): (t: State)
    requires Fits(c, s) && Enabled(c, s, a) && c.n > 0
    ensures Fits(c, t)
  {
    match a
    case Receive(i) => ApplyReceive(c, s, i)
    case Load(i) => ApplyLoad(c, s, i)
    case Send(i) => ApplySend(c, s, i)
    case MainStep => ApplyMain(c, s)
  }

  predicate IsPath(c: Config, run: seq<State>, acts: seq<Action>)
    requires c.n > 0
  {
    && |run| == |acts| + 1
    && (forall x :: 0 <= x < |run| ==> Fits(c, run[x]))
    && (forall x :: 0 <= x < |acts| ==> Enabled(c, run[x], acts[x]) && run[x + 1] == Apply(c, run[x], acts[x]))
  }

  /** The start period is over for every worker: no NULL of the start phase is left. */
  predicate Started(s: State) {
    forall k :: 0 <= k < |s.workers| ==> !s.workers[k].start
  }

  /** The run's sleep is long enough: `done` is set only when the start period is over. */
  predicate Timely(c: Config, run: seq<State>, acts: seq<Action>)
    requires c.n > 0 && IsPath(c, run, acts)
  {
    forall x :: 0 <= x < |acts| && acts[x].MainStep? && run[x].main.Sleeping? ==> Started(run[x])
  }

  // ---------- where the messages are ----------

  function Count(q: seq<nat>, m: nat): nat {
    if q == [] then 0 else (if q[0] == m then 1 else 0) + Count(q[1..], m)
  }

  function Flat(qs: seq<seq<nat>>): seq<nat> {
    if qs == [] then [] else qs[0] + Flat(qs[1..])
  }

  function InHand(w: Worker): seq<nat> {
    match w.pc
    case Loading(x) => [x]
    case Sending(x, _) => [x]
    case _ => []
  }

  function Hands(ws: seq<Worker>): seq<nat> {
    if ws == [] then [] else InHand(ws[0]) + Hands(ws[1..])
  }

  /** The copies of message `m`: in main's channel, in the ring, with a worker, or returned. */
  function Copies(s: State, m: nat): nat {
    Count(s.mainCh, m) + Count(Flat(s.ring), m) + Count(Hands(s.workers), m) + Count(s.returned, m)
  }

  /** How many of the messages main has put in so far. */
  function Inserted(c: Config, s: State): nat {
    if s.main.Inserting? && s.main.msg > 0 then s.main.msg - 1 else c.num
  }

  /** Every message put in is in exactly one place, and nothing else is anywhere but NULL. */
  ghost predicate Conserved(c: Config, s: State) {
    forall m: nat :: m >= 1 ==> Copies(s, m) == if m <= Inserted(c, s) then 1 else 0
  }

  lemma {:induction false} CountConcat(a: seq<nat>, b: seq<nat>, m: nat)
    ensures Count(a + b, m) == Count(a, m) + Count(b, m)
  {
    if a == [] {
      assert a + b == b;
    } else {
      assert (a + b)[1..] == a[1..] + b;
      CountConcat(a[1..], b, m);
    }
  }

  lemma {:induction false} FlatUpdate(qs: seq<seq<nat>>, i: nat, q: seq<nat>, m: nat)
    requires i < |qs|
    ensures Count(Flat(qs[i := q]), m) + Count(qs[i], m) == Count(Flat(qs), m) + Count(q, m)
  {
    var rs := qs[i := q];
    CountConcat(qs[0], Flat(qs[1..]), m);
    CountConcat(rs[0], Flat(rs[1..]), m);
    if i == 0 {
      assert rs[1..] == qs[1..];
    } else {
      assert rs[1..] == qs[1..][i - 1 := q];
      FlatUpdate(qs[1..], i - 1, q, m);
    }
  }

  lemma {:induction false} HandsUpdate(ws: seq<Worker>, i: nat, w: Worker, m: nat)
    requires i < |ws|
    ensures Count(Hands(ws[i := w]), m) + Count(InHand(ws[i]), m) == Count(Hands(ws), m) + Count(InHand(w), m)
  {
    var us := ws[i := w];
    CountConcat(InHand(ws[0]), Hands(ws[1..]), m);
    CountConcat(InHand(us[0]), Hands(us[1..]), m);
    if i == 0 {
      assert us[1..] == ws[1..];
    } else {
      assert us[1..] == ws[1..][i - 1 := w];
      HandsUpdate(ws[1..], i - 1, w, m);
    }
  }

  lemma CountOne(x: nat, m: nat)
    ensures Count([x], m) == (if x == m then 1 else 0) && Count([], m) == 0
  {
    assert [x][1..] == [];
  }

  /** The worker takes nothing away and adds nothing: what it receives it holds, unless it is NULL. */
  lemma ReceiveConserves(c: Config, s: State, i: nat, m: nat)
    requires Fits(c, s) && Enabled(c, s, Receive(i)) && m >= 1
    ensures Copies(ApplyReceive(c, s, i), m) == Copies(s, m)
  {
    var w := s.workers[i];
    var q := if w.start then s.mainCh else s.ring[i];
    CountOne(q[0], m);
    HandsUpdate(s.workers, i, Received(w, q[0]), m);
    if !w.start {
      FlatUpdate(s.ring, i, q[1..], m);
    }
    hide Fits, Flat, Hands;
  }

  lemma LoadConserves(c: Config, s: State, i: nat, m: nat)
    requires Fits(c, s) && Enabled(c, s, Load(i))
    ensures Copies(ApplyLoad(c, s, i), m) == Copies(s, m)
  {
    HandsUpdate(s.workers, i, s.workers[i].(pc := Sending(s.workers[i].pc.x, s.done)), m);
    hide Fits, Flat, Hands;
  }

  lemma SendConserves(c: Config, s: State, i: nat, m: nat)
    requires Fits(c, s) && Enabled(c, s, Send(i))
    ensures Copies(ApplySend(c, s, i), m) == Copies(s, m)
  {
    var w := s.workers[i];
    var j := Next(c, i);
    CountOne(w.pc.x, m);
    HandsUpdate(s.workers, i, w.(pc := Receiving), m);
    CountConcat(s.mainCh, [w.pc.x], m);
    CountConcat(s.ring[j], [w.pc.x], m);
    FlatUpdate(s.ring, j, s.ring[j] + [w.pc.x], m);
    hide Fits, Flat, Hands, Count;
  }

  lemma MainConserves(c: Config, s: State, m: nat)
    requires Fits(c, s) && MainEnabled(c, s) && c.n > 0 && m >= 1
    ensures Copies(ApplyMain(c, s), m) == Copies(s, m) + if s.main.Inserting? && s.main.msg == m then 1 else 0
  {
    match s.main {
      case Inserting(x) =>
        CountOne(x, m);
        CountConcat(s.mainCh, [x], m);
      case Starting(i) =>
        CountOne(0, m);
        CountConcat(s.mainCh, [0], m);
      case Sleeping =>
      case Draining(k) =>
        CountOne(s.mainCh[0], m);
        CountConcat(s.returned, [s.mainCh[0]], m);
      case Stopping(i) =>
        CountOne(0, m);
        CountConcat(s.ring[i], [0], m);
        FlatUpdate(s.ring, i, s.ring[i] + [0], m);
    }
    hide Fits, Flat, Hands;
  }

  lemma StepConserves(c: Config, s: State, a: Action)
    requires Fits(c, s) && Enabled(c, s, a) && c.n > 0 && Conserved(c, s)
    ensures Conserved(c, Apply(c, s, a))
  {
    forall m: nat | m >= 1
      ensures Copies(Apply(c, s, a), m) == if m <= Inserted(c, Apply(c, s, a)) then 1 else 0
    {
      match a {
        case Receive(i) => ReceiveConserves(c, s, i, m);
        case Load(i) => LoadConserves(c, s, i, m);
        case Send(i) => SendConserves(c, s, i, m);
        case MainStep => MainConserves(c, s, m);
      }
      hide Copies;
    }
  }

  lemma {:induction false} AllEmpty(qs: seq<seq<nat>>)
    requires forall k :: 0 <= k < |qs| ==> qs[k] == []
    ensures Flat(qs) == []
  {
    if qs != [] {
      AllEmpty(qs[1..]);
    }
  }

  lemma {:induction false} NoneInHand(ws: seq<Worker>)
    requires forall k :: 0 <= k < |ws| ==> InHand(ws[k]) == []
    ensures Hands(ws) == []
  {
    if ws != [] {
      NoneInHand(ws[1..]);
    }
  }

  lemma InitConserves(c: Config)
    requires c.n > 0
    ensures Conserved(c, Init(c))
  {
    AllEmpty(Init(c).ring);
    NoneInHand(Init(c).workers);
  }

  /** In every run, timely or not, every message is always in exactly one place. */
  lemma {:induction false} RunConserves(c: Config, run: seq<State>, acts: seq<Action>, x: nat)
    requires c.n > 0 && IsPath(c, run, acts) && run[0] == Init(c) && x < |run|
    ensures Conserved(c, run[x])
  {
    if x == 0 {
      InitConserves(c);
    } else {
      RunConserves(c, run, acts, x - 1);
      StepConserves(c, run[x - 1], acts[x - 1]);
    }
  }
}
