/** What the monitor guarantees in every reachable state. */
module MonitorTheorems {
  import opened Monitor

  // ---------- linearizability ----------

  lemma {:induction false} LogGrows(run: seq<State>, acts: seq<Action>, b: nat, x: nat)
    requires IsPath(run, acts) && b <= x < |run|
    ensures run[b].log <= run[x].log && run[x].capacity == run[b].capacity && |run[x].pc| == |run[b].pc|
  {
    if b < x {
      LogGrows(run, acts, b, x - 1);
      LogStep(run[x - 1], acts[x - 1]);
      SizesStay(run[x - 1], acts[x - 1]);
      hide Enabled, Apply, Fits;
    }
  }

  lemma SizesStay(s: State, a: Action)
    requires Fits(s) && Enabled(s, a)
    ensures Apply(s, a).capacity == s.capacity && |Apply(s, a).pc| == |s.pc|
  {
    hide SomeoneWaits;
  }

  /** The call that a thread is in, or has last returned from. */
  function CallOf(p: Pc): Option<Call> {
    match p
    case Idle => None
    case WakingReceivers => Some(CloseCall)
    case WakingSenders => Some(CloseCall)
    case _ => Some(p.call)
  }

  /** Between `b` and `x` thread t is in the call it began with the action that follows state `b`. */
  predicate SameCall(acts: seq<Action>, b: nat, x: nat, t: nat, call: Call) {
    b < x <= |acts| && acts[b] == Begin(t, call) && forall z :: b < z < x ==> !(acts[z].Begin? && acts[z].t == t)
  }

  lemma CallStays(s: State, a: Action, t: nat)
    requires Inv(s) && Enabled(s, a) && t < |s.pc| && !(a.Begin? && a.t == t)
    ensures CallOf(Apply(s, a).pc[t]) == CallOf(s.pc[t]) && Apply(s, a).begun[t] == s.begun[t]
  {
    hide LockInv, HistoryInv, CloseInv, WakeInv, SomeoneWaits, Own, Mine;
    assert CallInvAt(s, t);
    if a.t != t {
      hide Apply, Enabled, CallInv;
      OthersStep(s, a, t);
    }
  }

  lemma PathLength(run: seq<State>, acts: seq<Action>)
    requires IsPath(run, acts)
    ensures |run| == |acts| + 1
  {
  }

  lemma PathStep(run: seq<State>, acts: seq<Action>, y: nat)
    requires IsPath(run, acts) && y < |acts|
    ensures |run| == |acts| + 1 && Fits(run[y]) && Enabled(run[y], acts[y]) && run[y + 1] == Apply(run[y], acts[y])
  {
    hide Fits, Enabled, Apply;
  }

  lemma {:induction false} CallLasts(run: seq<State>, acts: seq<Action>, b: nat, x: nat, t: nat, call: Call)
    requires IsPath(run, acts) && Inv(run[0]) && x < |run| && SameCall(acts, b, x, t, call)
    ensures t < |run[x].pc| && CallOf(run[x].pc[t]) == Some(call) && run[x].begun[t] == |run[b].log|
  {
    hide Inv, Fits, IsPath, Apply, Enabled;
    PathStep(run, acts, x - 1);
    if x > b + 1 {
      CallLasts(run, acts, b, x - 1, t, call);
      PathInv(run, acts, x - 1);
      CallStays(run[x - 1], acts[x - 1], t);
      SizesStay(run[x - 1], acts[x - 1]);
    } else {
      CallBegins(run[b], t, call);
    }
  }

  lemma CallBegins(s: State, t: nat, call: Call)
    requires Fits(s) && Enabled(s, Begin(t, call))
    ensures var r := Apply(s, Begin(t, call)); t < |r.pc| && CallOf(r.pc[t]) == Some(call) && r.begun[t] == |s.log|
  {
  }

  lemma {:induction false} PathInv(run: seq<State>, acts: seq<Action>, x: nat)
    requires IsPath(run, acts) && Inv(run[0]) && x < |run|
    ensures Inv(run[x])
  {
    if x > 0 {
      PathInv(run, acts, x - 1);
      StepInv(run[x - 1], acts[x - 1]);
      hide Inv, Enabled, Apply, Fits;
    }
  }

  /** Linearizability. The log is an order of the calls in which each one, performed alone, has the result and
      the value that it returns with and leaves the channel as the next one finds it. Each call that has
      returned is in it exactly once, at a place between its beginning and its return. */
  lemma Linearizable(threads: nat, capacity: nat, run: seq<State>, acts: seq<Action>, b: nat, x: nat, t: nat,
                     call: Call)
    requires IsPath(run, acts) && run[0] == Init(threads, capacity) && x < |run|
    requires SameCall(acts, b, x, t, call) && t < |run[x].pc| && run[x].pc[t].Returned?
    ensures run[x].pc[t].call == call && run[b].log <= run[x].log
    ensures Own(run[x].log[|run[b].log|..], t) == [Event(t, call, run[x].pc[t].result, run[x].got[t])]
    ensures After(run[x].log, capacity) == Some(Queue(run[x].open, run[x].buf))
  {
    InitInv(threads, capacity);
    PathInv(run, acts, x);
    LogGrows(run, acts, b, x);
    LogGrows(run, acts, 0, x);
    CallLasts(run, acts, b, x, t, call);
    assert CallInvAt(run[x], t);
    hide LockInv, CloseInv, WakeInv, Own, After, Apply, Enabled;
  }

  lemma StepOfPath(run: seq<State>, acts: seq<Action>, z: nat)
    requires IsPath(run, acts) && z < |acts|
    ensures |run| == |acts| + 1 && run[z].log <= run[z + 1].log
    ensures run[z + 1].log == run[z].log
         || (acts[z].Step? && |run[z + 1].log| == |run[z].log| + 1 && acts[z].t == run[z + 1].log[|run[z].log|].thread)
  {
    LogStep(run[z], acts[z]);
    hide Apply, Enabled, Fits;
  }

  lemma {:induction false} EntryStep(run: seq<State>, acts: seq<Action>, b: nat, x: nat, k: nat) returns (z: nat)
    requires IsPath(run, acts) && b <= x < |run| && |run[b].log| <= k < |run[x].log|
    ensures b <= z < x && run[z].log == run[x].log[..k] && run[z + 1].log == run[x].log[..k + 1]
    ensures acts[z].Step? && acts[z].t == run[x].log[k].thread
  {
    z := x - 1;
    StepOfPath(run, acts, z);
    if k < |run[z].log| {
      ghost var long := run[z].log;
      z := EntryStep(run, acts, b, z, k);
      assert long[..k] == run[x].log[..k] && long[..k + 1] == run[x].log[..k + 1];
    }
    hide IsPath;
  }

  /** The moment at which entry `k` of the log took effect, by a step of its own thread, and that the channel was
      then what the calls before it make of it. */
  lemma Moment(run: seq<State>, acts: seq<Action>, b: nat, x: nat, k: nat) returns (z: nat)
    requires IsPath(run, acts) && Inv(run[0]) && b <= x < |run| && |run[b].log| <= k < |run[x].log|
    ensures b <= z < x && run[z].log == run[x].log[..k] && run[z + 1].log == run[x].log[..k + 1]
    ensures acts[z].Step? && acts[z].t == run[x].log[k].thread
    ensures After(run[x].log[..k], run[0].capacity) == Some(Queue(run[z].open, run[z].buf))
  {
    z := EntryStep(run, acts, b, x, k);
    LogGrows(run, acts, 0, z);
    PathInv(run, acts, z);
    hide IsPath, LockInv, CloseInv, WakeInv, CallInvAt, After;
  }

  /** Every entry of a log that can be performed was performed on what the entries before it left. */
  lemma {:induction false} EntryIsPerformed(log: seq<Event>, capacity: nat, k: nat)
    requires After(log, capacity).Some? && k < |log|
    ensures After(log[..k], capacity).Some? && After(log[..k + 1], capacity).Some?
    ensures Perform(After(log[..k], capacity).value, capacity, log[k].call)
         == Some(Outcome(After(log[..k + 1], capacity).value, log[k].result, log[k].value))
  {
    var p := log[..|log| - 1];
    if k == |log| - 1 {
      assert log[..k + 1] == log;
    } else {
      EntryIsPerformed(p, capacity, k);
      assert p[..k] == log[..k] && p[..k + 1] == log[..k + 1];
    }
  }

  lemma {:induction false} OwnEntry(log: seq<Event>, t: nat, e: Event) returns (k: nat)
    requires Own(log, t) == [e]
    ensures k < |log| && log[k] == e && forall j :: 0 <= j < |log| && log[j].thread == t ==> j == k
  {
    var p := log[..|log| - 1];
    if log[|log| - 1].thread == t {
      k := |log| - 1;
      assert Own(log, t)[|Own(p, t)|] == log[k];
      NotOwn(p, t);
    } else {
      k := OwnEntry(p, t, e);
    }
  }

  lemma {:induction false} NotOwn(log: seq<Event>, t: nat)
    requires Own(log, t) == []
    ensures forall j :: 0 <= j < |log| ==> log[j].thread != t
  {
    if log != [] { NotOwn(log[..|log| - 1], t); }
  }

  lemma OwnSuffix(log: seq<Event>, b: nat, t: nat, e: Event) returns (k: nat)
    requires b <= |log| && Own(log[b..], t) == [e]
    ensures b <= k < |log| && log[k] == e && forall j :: b <= j < |log| && log[j].thread == t ==> j == k
  {
    hide Own;
    var i := OwnEntry(log[b..], t, e);
    k := b + i;
    assert forall j :: b <= j < |log| ==> log[j] == log[b..][j - b];
  }

  lemma InvAt(s: State, t: nat)
    requires Inv(s) && t < |s.pc|
    ensures Fits(s) && CallInvAt(s, t) && CloseInvAt(s, t)
  {
    hide LockInv, HistoryInv, WakeInv, Own;
  }

  /** The entry of a returned call in the log. */
  lemma ReturnedEntry(s: State, t: nat) returns (k: nat)
    requires Inv(s) && t < |s.pc| && s.pc[t].Returned?
    ensures s.begun[t] <= k < |s.log| && s.log[k] == Event(t, s.pc[t].call, s.pc[t].result, s.got[t])
    ensures forall j :: s.begun[t] <= j < |s.log| && s.log[j].thread == t ==> j == k
  {
    hide Inv, Own;
    InvAt(s, t);
    k := OwnSuffix(s.log, s.begun[t], t, Event(t, s.pc[t].call, s.pc[t].result, s.got[t]));
  }

  /** What a returned call did: its entry in the log, one only, and the channel it found. Its result and the
      value it was given are those of the call performed alone on that channel. */
  lemma ResultTellsEffect(s: State, t: nat) returns (k: nat, q: Queue)
    requires Inv(s) && t < |s.pc| && s.pc[t].Returned?
    ensures var call := s.pc[t].call; var result := s.pc[t].result;
            && s.begun[t] <= k < |s.log| && s.log[k] == Event(t, call, result, s.got[t])
            && (forall j :: s.begun[t] <= j < |s.log| && s.log[j].thread == t ==> j == k)
            && After(s.log[..k], s.capacity) == Some(q)
            && (result.ClosedError? <==> !q.open)
            && (call.SendCall? ==> (result.Success? <==> q.open && |q.items| < s.capacity))
            && (call.ReceiveCall? ==> (result.Success? <==> q.open && q.items != []))
            && (result.FullOrEmpty? ==> !call.CloseCall? && !call.blocking)
            && s.got[t] == (if call.ReceiveCall? && result.Success? then Some(q.items[0]) else None)
  {
    k := ReturnedEntry(s, t);
    hide LockInv, CloseInv, WakeInv, CallInvAt, After;
    EntryIsPerformed(s.log, s.capacity, k);
    q := After(s.log[..k], s.capacity).value;
  }

  // ---------- first in, first out ----------

  /** The values put in, in order. */
  function Sent(log: seq<Event>): seq<Data> {
    if log == [] then []
    else
      var e := log[|log| - 1];
      Sent(log[..|log| - 1]) + if e.call.SendCall? && e.result.Success? then [e.call.x] else []
  }

  /** The values handed out, in order. */
  function Received(log: seq<Event>): seq<Data> {
    if log == [] then []
    else
      var e := log[|log| - 1];
      Received(log[..|log| - 1]) +
      if e.call.ReceiveCall? && e.result.Success? && e.value.Some? then [e.value.value] else []
  }

  lemma {:induction false} SentAndReceived(log: seq<Event>, capacity: nat)
    requires After(log, capacity).Some?
    ensures Sent(log) == Received(log) + After(log, capacity).value.items
  {
    if log != [] {
      var p, e := log[..|log| - 1], log[|log| - 1];
      SentAndReceived(p, capacity);
      var q := After(p, capacity).value;
      if e.call.ReceiveCall? && e.result.Success? {
        assert Received(p) + q.items == Received(p) + [q.items[0]] + q.items[1..];
      }
    }
  }

  lemma {:induction false} HistoriesGrow(log: seq<Event>, k: nat)
    requires k <= |log|
    ensures Sent(log[..k]) <= Sent(log) && Received(log[..k]) <= Received(log)
  {
    if k == |log| {
      assert log[..k] == log;
    } else {
      var p := log[..|log| - 1];
      HistoriesGrow(p, k);
      assert p[..k] == log[..k];
    }
  }

  /** Whatever the interleaving, across full and empty channels and across a close, the values handed out
      are the values put in, in the same order, up to what the buffer still holds. */
  lemma ReceivedIsSentInOrder(threads: nat, capacity: nat, run: seq<State>, acts: seq<Action>, x: nat)
    requires IsPath(run, acts) && run[0] == Init(threads, capacity) && x < |run|
    ensures Sent(run[x].log) == Received(run[x].log) + run[x].buf && Received(run[x].log) <= Sent(run[x].log)
    ensures |Sent(run[x].log)| <= |Received(run[x].log)| + run[x].capacity
  {
    RunInv(threads, capacity, run, acts, x);
    SentAndReceived(run[x].log, run[x].capacity);
  }

  predicate HasReceived(s: State, t: nat) {
    t < |s.pc| && s.pc[t].Returned? && s.pc[t].call.ReceiveCall? && s.pc[t].result.Success?
  }

  /** A receive that has returned holds the oldest value that was sent and not yet received when it took
      effect. */
  lemma EachReceiveHoldsItsOwn(s: State, t: nat) returns (k: nat)
    requires Inv(s) && HasReceived(s, t)
    ensures s.begun[t] <= k < |s.log| && s.log[k].thread == t
    ensures var i := |Received(s.log[..k])|;
            && |Received(s.log[..k + 1])| == i + 1
            && i < |Received(s.log)| <= |Sent(s.log)| && i < |Sent(s.log[..k])|
            && s.got[t] == Some(Received(s.log)[i]) && Received(s.log)[i] == Sent(s.log)[i] == Sent(s.log[..k])[i]
  {
    var q;
    k, q := ResultTellsEffect(s, t);
    var log := s.log;
    assert log[..k + 1][..k] == log[..k];
    EntryIsPerformed(log, s.capacity, k);
    SentAndReceived(log[..k], s.capacity);
    SentAndReceived(log, s.capacity);
    HistoriesGrow(log, k);
    HistoriesGrow(log, k + 1);
    assert Received(log[..k + 1]) == Received(log[..k]) + [q.items[0]];
    hide LockInv, CloseInv, WakeInv, CallInvAt, After, Sent, Received;
  }

  lemma {:induction false} BegunLater(run: seq<State>, acts: seq<Action>, z: nat, y: nat, t: nat)
    requires IsPath(run, acts) && Inv(run[0]) && z < y < |run| && acts[z].Begin? && acts[z].t == t
    ensures t < |run[y].pc| && run[y].begun[t] >= |run[z].log|
  {
    hide Inv, Fits, IsPath, Apply, Enabled;
    PathLength(run, acts);
    PathStep(run, acts, y - 1);
    LogGrows(run, acts, z, y - 1);
    if acts[y - 1].Begin? && acts[y - 1].t == t {
      CallBegins(run[y - 1], t, acts[y - 1].call);
    } else {
      BegunLater(run, acts, z, y - 1, t);
      PathInv(run, acts, y - 1);
      CallStays(run[y - 1], acts[y - 1], t);
      SizesStay(run[y - 1], acts[y - 1]);
    }
  }

  lemma PlacesDiffer(log: seq<Event>, k: nat, l: nat)
    requires k < l <= |log| && |Received(log[..k + 1])| == |Received(log[..k])| + 1
    ensures |Received(log[..k])| < |Received(log[..l])|
  {
    HistoriesGrow(log[..l], k + 1);
    assert log[..l][..k + 1] == log[..k + 1];
  }

  /** Nothing is handed out twice: two different calls of channel_receive, of different threads or of one
      thread at different times, hold values at different places of the order in which values were sent. */
  lemma DifferentReceives(threads: nat, capacity: nat, run: seq<State>, acts: seq<Action>, x: nat, y: nat,
                          t: nat, u: nat) returns (i: nat, j: nat)
    requires IsPath(run, acts) && run[0] == Init(threads, capacity) && x <= y < |run|
    requires HasReceived(run[x], t) && HasReceived(run[y], u)
    requires t != u || exists z :: x <= z < y && acts[z].Begin? && acts[z].t == t
    ensures i != j && i < |Sent(run[y].log)| && j < |Sent(run[y].log)|
    ensures run[x].got[t] == Some(Sent(run[y].log)[i]) && run[y].got[u] == Some(Sent(run[y].log)[j])
  {
    InitInv(threads, capacity);
    PathInv(run, acts, x);
    PathInv(run, acts, y);
    LogGrows(run, acts, x, y);
    var k := EachReceiveHoldsItsOwn(run[x], t);
    var l := EachReceiveHoldsItsOwn(run[y], u);
    var log := run[y].log;
    hide Inv, Sent, Received, Fits, Apply, Enabled;
    i, j := |Received(log[..k])|, |Received(log[..l])|;
    assert run[x].log == log[..|run[x].log|];
    assert run[x].log[..k] == log[..k] && run[x].log[..k + 1] == log[..k + 1];
    HistoriesGrow(log, |run[x].log|);
    if t == u {
      var z :| x <= z < y && acts[z].Begin? && acts[z].t == t;
      LogGrows(run, acts, x, z);
      BegunLater(run, acts, z, y, t);
    }
    if k < l { PlacesDiffer(log, k, l); } else { PlacesDiffer(log, l, k); }
  }

  // ---------- no lost wake-ups ----------

  function WokenSenders(pcs: seq<Pc>): nat {
    if pcs == [] then 0 else (if pcs[0].Woken? && pcs[0].call.SendCall? then 1 else 0) + WokenSenders(pcs[1..])
  }

  function WokenReceivers(pcs: seq<Pc>): nat {
    if pcs == [] then 0 else (if pcs[0].Woken? && pcs[0].call.ReceiveCall? then 1 else 0) + WokenReceivers(pcs[1..])
  }

  lemma {:induction false} TokensAreWoken(pcs: seq<Pc>)
    requires forall t :: 0 <= t < |pcs| ==> !Holds(pcs[t])
    ensures SendTokens(pcs) == WokenSenders(pcs) && ReceiveTokens(pcs) == WokenReceivers(pcs)
  {
    if pcs != [] {
      TokensAreWoken(pcs[1..]);
    }
  }

  /** Whenever the mutex is free: if senders sleep, every free slot has a woken sender on its way to it,
      and if receivers sleep, every item has a woken receiver on its way to it. */
  lemma NoLostWakeUp(s: State)
    requires Inv(s) && s.open && s.owner.None?
    ensures AnySender(s.pc) ==> s.capacity - |s.buf| <= WokenSenders(s.pc)
    ensures AnyReceiver(s.pc) ==> |s.buf| <= WokenReceivers(s.pc)
  {
    TokensAreWoken(s.pc);
  }

  /** No thread can go on by itself: each is between calls or asleep. */
  predicate AtRest(s: State) {
    forall t :: 0 <= t < |s.pc| ==> s.pc[t].Idle? || s.pc[t].Returned? || s.pc[t].Asleep?
  }

  /** The mutex never blocks everybody: unless all are at rest, some thread can take a step. */
  lemma SomebodyMoves(s: State) returns (a: Action)
    requires Inv(s) && !AtRest(s)
    ensures Enabled(s, a) && (a.Step? || a.Signal?)
  {
    if s.owner.Some? {
      var t := s.owner.value;
      assert Holds(s.pc[t]);
      if s.pc[t].Signalling? && SomeoneWaits(s, s.pc[t].call) {
        var u :| 0 <= u < |s.pc| && WaitsFor(s.pc[u], s.pc[t].call);
        a := Signal(t, u);
      } else {
        a := Step(t);
      }
    } else {
      var t :| 0 <= t < |s.pc| && !(s.pc[t].Idle? || s.pc[t].Returned? || s.pc[t].Asleep?);
      a := Step(t);
    }
  }

  /** Threads that are all at rest sleep for a reason: senders because the open buffer is full, receivers
      because it is empty. With room for at least one value, not both. */
  lemma SleepIsJustified(s: State)
    requires Inv(s) && AtRest(s)
    ensures AnySender(s.pc) ==> s.open && |s.buf| == s.capacity
    ensures AnyReceiver(s.pc) ==> s.open && s.buf == []
    ensures s.capacity >= 1 ==> !(AnySender(s.pc) && AnyReceiver(s.pc))
  {
    TokensNone(s.pc);
    if AnySender(s.pc) || AnyReceiver(s.pc) {
      var t :| 0 <= t < |s.pc| && s.pc[t].Asleep?;
      assert CallInvAt(s, t);
    }
  }

  ghost predicate Leads(s: State, r: State) {
    exists run: seq<State>, acts: seq<Action> :: IsPath(run, acts) && run[0] == s && run[|run| - 1] == r
  }

  lemma Stay(s: State)
    requires Fits(s)
    ensures Leads(s, s)
  {
    assert IsPath([s], []);
  }

  lemma Go(s: State, r: State, a: Action)
    requires Leads(s, r) && Fits(r) && Enabled(r, a) && Fits(Apply(r, a))
    ensures Leads(s, Apply(r, a))
  {
    var run: seq<State>, acts: seq<Action> :| IsPath(run, acts) && run[0] == s && run[|run| - 1] == r;
    assert IsPath(run + [Apply(r, a)], acts + [a]);
  }

  /** Thread t has begun a call and gone to sleep in it. */
  function Slept(s: State, t: nat, call: Call): State
    requires Fits(s) && t < |s.pc|
  {
    s.(pc := s.pc[t := Asleep(call)], got := s.got[t := None], begun := s.begun[t := |s.log|])
  }

  /** A thread that finds its condition unmet on an unbuffered channel takes three steps to sleep. */
  lemma FallsAsleep(s: State, r: State, t: nat, call: Call)
    requires Leads(s, r) && Fits(r) && t < |r.pc| && r.pc[t].Idle? && r.owner.None? && r.open
    requires r.buf == [] && r.capacity == 0 && !call.CloseCall? && call.blocking
    ensures Leads(s, Slept(r, t, call))
  {
    var r1 := Apply(r, Begin(t, call));
    Go(s, r, Begin(t, call));
    var r2 := Apply(r1, Step(t));
    Go(s, r1, Step(t));
    var r3 := Apply(r2, Step(t));
    Go(s, r2, Step(t));
    Go(s, r3, Step(t));
    assert Apply(r3, Step(t)) == Slept(r, t, call);
  }

  /** With capacity 0 a sender and a receiver can end up asleep together, each waiting for the other. */
  lemma UnbufferedPairSleeps(x: Data) returns (s: State)
    ensures Leads(Init(2, 0), s) && AtRest(s) && s.open && AnySender(s.pc) && AnyReceiver(s.pc)
  {
    var s0 := Init(2, 0);
    Stay(s0);
    FallsAsleep(s0, s0, 0, SendCall(x, true));
    s := Slept(s0, 0, SendCall(x, true));
    FallsAsleep(s0, s, 1, ReceiveCall(true));
    s := Slept(s, 1, ReceiveCall(true));
    assert AsleepSender(s.pc[0]) && AsleepReceiver(s.pc[1]);
  }

  // ---------- close ----------

  /** How many steps of its own a thread still needs after the close. */
  function Remaining(p: Pc): nat {
    match p
    case Asleep(_) => 4
    case WakingReceivers => 3
    case Locking(_) => 3
    case Woken(_) => 3
    case WakingSenders => 2
    case Checking(_) => 2
    case Rechecking(_) => 2
    case Unlocking(_, _) => 1
    case _ => 0
  }

  predicate BeforeOperation(p: Pc) {
    p.Locking? || p.Checking? || p.Asleep? || p.Woken? || p.Rechecking?
  }

  /** After a close the buffer never changes again, whatever takes effect ends in CLOSED_ERROR, and nobody
      falls asleep any more. */
  lemma ClosedForGood(s: State, a: Action)
    requires Inv(s) && !s.open && Enabled(s, a)
    ensures var r := Apply(s, a);
            && !r.open && r.buf == s.buf
            && (r.log == s.log || (|r.log| == |s.log| + 1 && r.log[|s.log|].result.ClosedError?))
            && forall t :: 0 <= t < |s.pc| && r.pc[t].Asleep? ==> s.pc[t] == r.pc[t]
  {
    if a.Step? {
      assert CloseInvAt(s, a.t);
    }
  }

  lemma NoSignalAfterClose(s: State, t: nat)
    requires Inv(s) && !s.open && t < |s.pc|
    ensures !s.pc[t].Signalling? && !s.pc[t].Trying?
  {
    assert CloseInvAt(s, t);
  }

  /** Everybody gets away: a step of its own brings a thread nearer to returning, no step of another
      thread takes it back, and a call that had not yet done its operation returns CLOSED_ERROR. */
  lemma ClosedReleases(s: State, a: Action, t: nat)
    requires Inv(s) && !s.open && Enabled(s, a) && t < |s.pc|
    ensures var r := Apply(s, a);
            && (a.Step? && a.t == t ==> Remaining(r.pc[t]) < Remaining(s.pc[t]))
            && (!(a.Begin? && a.t == t) ==> Remaining(r.pc[t]) <= Remaining(s.pc[t]))
            && (BeforeOperation(s.pc[t]) && !(a.Begin? && a.t == t) ==>
                  BeforeOperation(r.pc[t]) || r.pc[t] == Unlocking(s.pc[t].call, ClosedError))
  {
    assert CloseInvAt(s, t);
    if a.Signal? { NoSignalAfterClose(s, a.t); }
    hide HistoryInv, WakeInv, CallInv;
  }

  /** Once the closing call has finished, nobody is asleep. */
  lemma NobodySleepsAfterClose(s: State, t: nat)
    requires Inv(s) && !s.open && t < |s.pc| && s.owner.None?
    ensures !s.pc[t].Asleep?
  {
    assert CloseInvAt(s, t);
    assert CallInvAt(s, t);
  }

  /** A thread that has closed the channel and not yet returned. */
  predicate ClosingNow(p: Pc) {
    p.WakingReceivers? || p.WakingSenders? || p == Unlocking(CloseCall, Success)
  }

  function Closing(pcs: seq<Pc>): nat {
    if pcs == [] then 0 else (if ClosingNow(pcs[0]) then 1 else 0) + Closing(pcs[1..])
  }

  lemma {:induction false} ClosingUpdate(pcs: seq<Pc>, t: nat, p: Pc)
    requires t < |pcs|
    ensures Closing(pcs[t := p]) + (if ClosingNow(pcs[t]) then 1 else 0)
         == Closing(pcs) + if ClosingNow(p) then 1 else 0
  {
    if t == 0 {
      assert pcs[t := p][1..] == pcs[1..];
    } else {
      assert pcs[t := p][1..] == pcs[1..][t - 1 := p];
      ClosingUpdate(pcs[1..], t - 1, p);
    }
  }

  lemma {:induction false} ClosingSame(pcs: seq<Pc>, next: seq<Pc>)
    requires |pcs| == |next| && forall u :: 0 <= u < |pcs| ==> (ClosingNow(next[u]) <==> ClosingNow(pcs[u]))
    ensures Closing(next) == Closing(pcs)
  {
    if pcs != [] { ClosingSame(pcs[1..], next[1..]); }
  }

  /** A call of channel_close returns SUCCESS with this step. */
  predicate ReturnsFromClose(s: State, a: Action) {
    a.Step? && a.t < |s.pc| && s.pc[a.t] == Unlocking(CloseCall, Success)
  }

  /** How many calls of channel_close have returned SUCCESS in a run. */
  function SuccessfulCloses(run: seq<State>, acts: seq<Action>, x: nat): nat
    requires x <= |acts| <= |run|
  {
    if x == 0 then 0
    else SuccessfulCloses(run, acts, x - 1) + if ReturnsFromClose(run[x - 1], acts[x - 1]) then 1 else 0
  }

  lemma ClosingStep(s: State, a: Action)
    requires Inv(s) && Enabled(s, a)
    ensures Closing(Apply(s, a).pc) + (if ReturnsFromClose(s, a) then 1 else 0) + (if s.open then 0 else 1)
         == Closing(s.pc) + if Apply(s, a).open then 0 else 1
  {
    var r := Apply(s, a);
    hide Inv, Own, SomeoneWaits, SomeoneBroadcasts, Closing;
    InvAt(s, a.t);
    if a.Step? && (s.pc[a.t].WakingReceivers? || s.pc[a.t].WakingSenders?) {
      ClosingSame(s.pc, r.pc);
    } else if a.Signal? {
      var w := s.pc[a.woken := Wake(s.pc[a.woken])];
      ClosingUpdate(s.pc, a.woken, Wake(s.pc[a.woken]));
      ClosingUpdate(w, a.t, r.pc[a.t]);
    } else {
      ClosingOne(s, a);
      ClosingUpdate(s.pc, a.t, r.pc[a.t]);
    }
  }

  /** A step that wakes nobody. */
  lemma ClosingOne(s: State, a: Action)
    requires Inv(s) && Enabled(s, a) && !a.Signal?
    requires !(a.Step? && (s.pc[a.t].WakingReceivers? || s.pc[a.t].WakingSenders?))
    ensures var r, p := Apply(s, a), Apply(s, a).pc[a.t];
            && r.pc == s.pc[a.t := p]
            && (ClosingNow(p) <==> (ClosingNow(s.pc[a.t]) && !ReturnsFromClose(s, a)) || (s.open && !r.open))
            && (!r.open && s.open ==> !ClosingNow(s.pc[a.t])) && (!s.open ==> !r.open)
            && (ReturnsFromClose(s, a) ==> ClosingNow(s.pc[a.t]))
  {
    hide Inv, Own, SomeoneWaits, SomeoneBroadcasts;
    InvAt(s, a.t);
  }

  lemma {:induction false} NobodyCloses(pcs: seq<Pc>)
    requires forall u :: 0 <= u < |pcs| ==> !ClosingNow(pcs[u])
    ensures Closing(pcs) == 0
  {
    if pcs != [] { NobodyCloses(pcs[1..]); }
  }

  /** In every run the calls of channel_close that have returned SUCCESS, and those that are about to, are
      together one if the channel is closed and none if it is open. */
  lemma {:induction false} OneCloseSucceeds(threads: nat, capacity: nat, run: seq<State>, acts: seq<Action>, x: nat)
    requires IsPath(run, acts) && run[0] == Init(threads, capacity) && x < |run|
    ensures SuccessfulCloses(run, acts, x) + Closing(run[x].pc) == if run[x].open then 0 else 1
  {
    if x == 0 {
      NobodyCloses(run[0].pc);
    } else {
      OneCloseSucceeds(threads, capacity, run, acts, x - 1);
      RunInv(threads, capacity, run, acts, x - 1);
      ClosingStep(run[x - 1], acts[x - 1]);
      hide Inv, Enabled, Apply, Fits, Closing;
    }
  }

  /** Once all calls have returned, a channel that is closed was closed by exactly one successful call. */
  lemma OneCloseHasSucceeded(threads: nat, capacity: nat, run: seq<State>, acts: seq<Action>, x: nat)
    requires IsPath(run, acts) && run[0] == Init(threads, capacity) && x < |run| && Deserted(run[x])
    ensures SuccessfulCloses(run, acts, x) == if run[x].open then 0 else 1
  {
    OneCloseSucceeds(threads, capacity, run, acts, x);
    NobodyCloses(run[x].pc);
  }

  // ---------- destroy ----------

  function StepsLeft(pcs: seq<Pc>): nat {
    if pcs == [] then 0 else Remaining(pcs[0]) + StepsLeft(pcs[1..])
  }

  lemma {:induction false} StepsLeftFalls(pcs: seq<Pc>, next: seq<Pc>, t: nat)
    requires |pcs| == |next| && forall u :: 0 <= u < |pcs| ==> Remaining(next[u]) <= Remaining(pcs[u])
    requires t < |pcs| ==> Remaining(next[t]) < Remaining(pcs[t])
    ensures if t < |pcs| then StepsLeft(next) < StepsLeft(pcs) else StepsLeft(next) <= StepsLeft(pcs)
  {
    if pcs != [] {
      StepsLeftFalls(pcs[1..], next[1..], if t > 0 then t - 1 else |pcs|);
    }
  }

  lemma ClosedStepsRunOut(s: State, a: Action)
    requires Inv(s) && !s.open && Enabled(s, a) && !a.Begin?
    ensures StepsLeft(Apply(s, a).pc) < StepsLeft(s.pc)
  {
    var r := Apply(s, a);
    if a.Signal? { NoSignalAfterClose(s, a.t); }
    forall t | 0 <= t < |s.pc| ensures Remaining(r.pc[t]) <= Remaining(s.pc[t]) {
      ClosedReleases(s, a, t);
    }
    ClosedReleases(s, a, a.t);
    hide Inv;
    StepsLeftFalls(s.pc, r.pc, a.t);
  }

  /** Nobody is inside the channel: the mutex is free, nobody sleeps, every call has returned. */
  predicate Deserted(s: State) {
    s.owner.None? && forall t :: 0 <= t < |s.pc| ==> s.pc[t].Idle? || s.pc[t].Returned?
  }

  lemma StuckIsDeserted(s: State)
    requires Inv(s) && !s.open && forall a: Action :: Enabled(s, a) ==> a.Begin?
    ensures Deserted(s)
  {
    if !AtRest(s) {
      var a := SomebodyMoves(s);
      assert false;
    }
    assert s.owner.None?;
    forall t | 0 <= t < |s.pc| ensures !s.pc[t].Asleep? {
      NobodySleepsAfterClose(s, t);
    }
  }

  /** What channel_destroy leaves to its caller: close the channel, begin no more calls, and wait. The threads
      take a bounded number of steps, and when none is left nobody is inside the channel. */
  lemma {:induction false} ClosedThenDeserted(run: seq<State>, acts: seq<Action>)
    requires IsPath(run, acts) && Inv(run[0]) && !run[0].open && forall x :: 0 <= x < |acts| ==> !acts[x].Begin?
    ensures |acts| <= StepsLeft(run[0].pc) && !run[|acts|].open
    ensures (forall a: Action :: Enabled(run[|acts|], a) ==> a.Begin?) ==> Deserted(run[|acts|])
  {
    if acts == [] {
      if forall a: Action :: Enabled(run[0], a) ==> a.Begin? {
        StuckIsDeserted(run[0]);
      }
    } else {
      ClosedStepsRunOut(run[0], acts[0]);
      StepInv(run[0], acts[0]);
      ClosedForGood(run[0], acts[0]);
      hide Inv, Enabled, Apply;
      assert IsPath(run[1..], acts[1..]);
      ClosedThenDeserted(run[1..], acts[1..]);
    }
  }
}
