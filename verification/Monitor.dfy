/**
 * channel.c as a monitor: any number of threads, one mutex, and two condition variables. Senders sleep on
 * `read` and receivers on `write`. A wait releases the mutex and sleeps in one step, a signal wakes one
 * sleeper if there is one, a broadcast wakes all, and a sleeper may also wake for no reason.
 */
module Monitor {
  import opened Buffers

  type Data = nat

  datatype Option<T> = None | Some(value: T)

  datatype Call = SendCall(x: Data, blocking: bool) | ReceiveCall(blocking: bool) | CloseCall

  /** CHANNEL_FULL and CHANNEL_EMPTY share a value in the program. */
  datatype Result = Success | FullOrEmpty | ClosedError

  datatype Pc =
    | Idle
    | Locking(call: Call)                     // about to take the mutex
    | Checking(call: Call)                    // about to look at `closed`
    | Trying(call: Call)                      // about to add to or remove from the buffer
    | Asleep(call: Call)                      // in pthread_cond_wait
    | Woken(call: Call)                       // about to take the mutex back
    | Rechecking(call: Call)                  // about to look at `closed` again
    | Signalling(call: Call)                  // buffer operation done, about to signal
    | WakingReceivers | WakingSenders         // closed, about to broadcast
    | Unlocking(call: Call, result: Result)
    | Returned(call: Call, result: Result)

  /** A call that has taken effect: whose it was, its result, and what it was given. */
  datatype Event = Event(thread: nat, call: Call, result: Result, value: Option<Data>)

  /** `got[t]` is what thread t's current call has stored for its caller. Auxiliary: `log` lists the calls in
      the order in which they took effect, `begun[t]` is how many had done so when thread t's call began. */
  datatype State = State(
    pc: seq<Pc>, owner: Option<nat>, open: bool, buf: seq<Data>, capacity: nat, got: seq<Option<Data>>,
    log: seq<Event>, begun: seq<nat>)

  datatype Action = Begin(t: nat, call: Call) | Step(t: nat) | Signal(t: nat, woken: nat) | Spurious(t: nat)

  function Init(threads: nat, capacity: nat): State {
    State(seq(threads, _ => Idle), None, true, [], capacity, seq(threads, _ => None), [], seq(threads, _ => 0))
  }

  predicate Fits(s: State) {
    |s.got| == |s.pc| && |s.begun| == |s.pc|
  }

  // ---------- the channel without threads ----------

  datatype Queue = Queue(open: bool, items: seq<Data>)

  datatype Outcome = Outcome(queue: Queue, result: Result, value: Option<Data>)

  /** What channel.h promises of one call that nobody interferes with; None if the call has to wait. */
  function Perform(q: Queue, capacity: nat, call: Call): Option<Outcome> {
    if !q.open then Some(Outcome(q, ClosedError, None))
    else
      match call
      case SendCall(x, blocking) =>
        if |q.items| < capacity then Some(Outcome(Queue(true, q.items + [x]), Success, None))
        else if blocking then None else Some(Outcome(q, FullOrEmpty, None))
      case ReceiveCall(blocking) =>
        if |q.items| > 0 then Some(Outcome(Queue(true, q.items[1..]), Success, Some(q.items[0])))
        else if blocking then None else Some(Outcome(q, FullOrEmpty, None))
      case CloseCall => Some(Outcome(Queue(false, q.items), Success, None))
  }

  /** The channel after these calls, one at a time; None if one of them cannot end as it is listed. */
  function After(log: seq<Event>, capacity: nat): Option<Queue> {
    if log == [] then Some(Queue(true, []))
    else
      var e := log[|log| - 1];
      match After(log[..|log| - 1], capacity)
      case None => None
      case Some(q) =>
        match Perform(q, capacity, e.call)
        case None => None
        case Some(o) => if o.result == e.result && o.value == e.value then Some(o.queue) else None
  }

  /** The calls of thread t among these. */
  function Own(log: seq<Event>, t: nat): seq<Event> {
    if log == [] then []
    else Own(log[..|log| - 1], t) + if log[|log| - 1].thread == t then [log[|log| - 1]] else []
  }

  // ---------- who is where ----------

  predicate Holds(p: Pc) {
    p.Checking? || p.Trying? || p.Rechecking? || p.Signalling? || p.WakingReceivers? || p.WakingSenders? || p.Unlocking?
  }

  predicate AsleepSender(p: Pc) {
    p.Asleep? && p.call.SendCall?
  }

  predicate AsleepReceiver(p: Pc) {
    p.Asleep? && p.call.ReceiveCall?
  }

  /** Who sleeps on the condition that this call signals. */
  predicate WaitsFor(p: Pc, call: Call) {
    (call.SendCall? && AsleepReceiver(p)) || (call.ReceiveCall? && AsleepSender(p))
  }

  predicate SomeoneWaits(s: State, call: Call) {
    exists u :: 0 <= u < |s.pc| && WaitsFor(s.pc[u], call)
  }

  function Wake(p: Pc): Pc {
    if p.Asleep? then Woken(p.call) else p
  }

  // ---------- steps ----------

  predicate Enabled(s: State, a: Action) {
    match a
    case Begin(t, call) => t < |s.pc| && (s.pc[t].Idle? || s.pc[t].Returned?)
    case Step(t) => t < |s.pc| && CanStep(s, s.pc[t])
    case Signal(t, u) => t < |s.pc| && s.pc[t].Signalling? && u < |s.pc| && WaitsFor(s.pc[u], s.pc[t].call)
    case Spurious(t) => t < |s.pc| && s.pc[t].Asleep?
  }

  /** A signalling thread steps on its own only when nobody waits for its signal. */
  predicate CanStep(s: State, p: Pc) {
    match p
    case Locking(_) => s.owner.None?
    case Woken(_) => s.owner.None?
    case Signalling(call) => !SomeoneWaits(s, call)
    case Idle => false
    case Asleep(_) => false
    case Returned(_, _) => false
    case _ => true
  }

  /** The call of thread t takes effect. */
  function Settle(s: State, t: nat, p: Pc, call: Call, result: Result): State
    requires Fits(s) && t < |s.pc|
  {
    s.(pc := s.pc[t := p], log := s.log + [Event(t, call, result, s.got[t])])
  }

  /** The look at `closed`. */
  function Check(s: State, t: nat, call: Call): State
    requires Fits(s) && t < |s.pc|
  {
    if s.open then s.(pc := s.pc[t := Trying(call)])
    else Settle(s, t, Unlocking(call, ClosedError), call, ClosedError)
  }

  /** The buffer operation of a send or receive; a blocking call that fails goes to sleep. */
  function TryOperation(s: State, t: nat): State
    requires Fits(s) && t < |s.pc| && s.pc[t].Trying?
  {
    var call := s.pc[t].call;
    match call
    case SendCall(x, blocking) =>
      if |s.buf| < s.capacity then
        Settle(s.(buf := Offer(s.buf, s.capacity, x)), t, Signalling(call), call, Success)
      else if blocking then s.(pc := s.pc[t := Asleep(call)], owner := None)
      else Settle(s, t, Unlocking(call, FullOrEmpty), call, FullOrEmpty)
    case ReceiveCall(blocking) =>
      if s.buf != [] then
        Settle(s.(buf := Poll(s.buf), got := s.got[t := Some(s.buf[0])]), t, Signalling(call), call, Success)
      else if blocking then s.(pc := s.pc[t := Asleep(call)], owner := None)
      else Settle(s, t, Unlocking(call, FullOrEmpty), call, FullOrEmpty)
    case CloseCall => Settle(s.(open := false), t, WakingReceivers, CloseCall, Success)
  }

  function WakeAll(pcs: seq<Pc>, senders: bool): (r: seq<Pc>)
    ensures |r| == |pcs|
  {
    seq(|pcs|, u requires 0 <= u < |pcs| =>
      if (if senders then AsleepSender(pcs[u]) else AsleepReceiver(pcs[u])) then Wake(pcs[u]) else pcs[u])
  }

  function StepThread(s: State, t: nat): State
    requires Fits(s) && t < |s.pc| && CanStep(s, s.pc[t])
  {
    match s.pc[t]
    case Locking(call) => s.(pc := s.pc[t := Checking(call)], owner := Some(t))
    case Checking(call) => Check(s, t, call)
    case Trying(call) => TryOperation(s, t)
    case Woken(call) => s.(pc := s.pc[t := Rechecking(call)], owner := Some(t))
    case Rechecking(call) => Check(s, t, call)
    case Signalling(call) => s.(pc := s.pc[t := Unlocking(call, Success)])
    case WakingReceivers => s.(pc := WakeAll(s.pc, false)[t := WakingSenders])
    case WakingSenders => s.(pc := WakeAll(s.pc, true)[t := Unlocking(CloseCall, Success)])
    case Unlocking(call, result) => s.(pc := s.pc[t := Returned(call, result)], owner := None)
  }

  function Apply(s: State, a: Action): State
    requires Fits(s) && Enabled(s, a)
  {
    match a
    case Begin(t, call) =>
      s.(pc := s.pc[t := Locking(call)], got := s.got[t := None], begun := s.begun[t := |s.log|])
    case Step(t) => StepThread(s, t)
    case Signal(t, u) => s.(pc := s.pc[u := Wake(s.pc[u])][t := Unlocking(s.pc[t].call, Success)])
    case Spurious(t) => s.(pc := s.pc[t := Wake(s.pc[t])])
  }

  predicate IsPath(run: seq<State>, acts: seq<Action>) {
    && |run| == |acts| + 1
    && (forall x :: 0 <= x < |run| ==> Fits(run[x]))
    && (forall x :: 0 <= x < |acts| ==> Enabled(run[x], acts[x]) && run[x + 1] == Apply(run[x], acts[x]))
  }

  // ---------- invariant ----------

  predicate LockInv(s: State) {
    && (s.owner.Some? ==> s.owner.value < |s.pc|)
    && forall t :: 0 <= t < |s.pc| ==> (Holds(s.pc[t]) <==> s.owner == Some(t))
  }

  /** The channel is what the calls in the log make of it when performed one at a time. */
  predicate HistoryInv(s: State) {
    |s.buf| <= s.capacity && After(s.log, s.capacity) == Some(Queue(s.open, s.buf))
  }

  /** The buffer is only touched while open; once closed, whoever still sleeps is about to be woken. */
  predicate CloseInv(s: State) {
    forall t :: 0 <= t < |s.pc| ==>
      && (s.pc[t].Trying? || s.pc[t].Signalling? ==> s.open)
      && (s.pc[t].WakingReceivers? || s.pc[t].WakingSenders? ==> !s.open)
      && (!s.open && AsleepSender(s.pc[t]) ==> SomeoneBroadcasts(s, true))
      && (!s.open && AsleepReceiver(s.pc[t]) ==> SomeoneBroadcasts(s, false))
  }

  predicate SomeoneBroadcasts(s: State, senders: bool) {
    s.owner.Some? && s.owner.value < |s.pc| &&
    (s.pc[s.owner.value].WakingReceivers? || (senders && s.pc[s.owner.value].WakingSenders?))
  }

  datatype End = End(call: Call, result: Result)

  /** How the call of a thread at this point will end, if that is settled. */
  function Ends(p: Pc): Option<End> {
    match p
    case Signalling(call) => Some(End(call, Success))
    case WakingReceivers => Some(End(CloseCall, Success))
    case WakingSenders => Some(End(CloseCall, Success))
    case Unlocking(call, result) => Some(End(call, result))
    case Returned(call, result) => Some(End(call, result))
    case _ => None
  }

  /** The log of thread t since its call began: once the end is settled, that call with this end and with
      the value it was given, and nothing else; before that, nothing. */
  predicate CallInv(p: Pc, got: Option<Data>, mine: seq<Event>, t: nat) {
    && mine == (match Ends(p) case Some(end) => [Event(t, end.call, end.result, got)] case None => [])
    && (Ends(p).None? ==> got.None?)
    && (p.Asleep? || p.Woken? || p.Rechecking? ==> !p.call.CloseCall? && p.call.blocking)
    && (p.Signalling? ==> !p.call.CloseCall?)
  }

  /** What thread t has in the log since its call began. */
  function Mine(s: State, t: nat): seq<Event>
    requires Fits(s) && t < |s.pc| && s.begun[t] <= |s.log|
  {
    Own(s.log[s.begun[t]..], t)
  }

  predicate CallInvAt(s: State, t: nat)
    requires Fits(s) && t < |s.pc|
  {
    s.begun[t] <= |s.log| && CallInv(s.pc[t], s.got[t], Mine(s, t), t)
  }

  // ---------- wake-up tokens ----------

  /** A thread that will look at the free slots before it sleeps again, or wake a sender that will. */
  predicate SendToken(p: Pc) {
    || ((p.Woken? || p.Rechecking? || p.Trying?) && p.call.SendCall?)
    || (p.Signalling? && p.call.ReceiveCall?)
  }

  predicate ReceiveToken(p: Pc) {
    || ((p.Woken? || p.Rechecking? || p.Trying?) && p.call.ReceiveCall?)
    || (p.Signalling? && p.call.SendCall?)
  }

  function SendTokens(pcs: seq<Pc>): nat {
    if pcs == [] then 0 else (if SendToken(pcs[0]) then 1 else 0) + SendTokens(pcs[1..])
  }

  function ReceiveTokens(pcs: seq<Pc>): nat {
    if pcs == [] then 0 else (if ReceiveToken(pcs[0]) then 1 else 0) + ReceiveTokens(pcs[1..])
  }

  predicate AnySender(pcs: seq<Pc>) {
    exists t :: 0 <= t < |pcs| && AsleepSender(pcs[t])
  }

  predicate AnyReceiver(pcs: seq<Pc>) {
    exists t :: 0 <= t < |pcs| && AsleepReceiver(pcs[t])
  }

  predicate SendersCovered(pcs: seq<Pc>, slots: int) {
    AnySender(pcs) ==> slots <= SendTokens(pcs)
  }

  predicate ReceiversCovered(pcs: seq<Pc>, items: int) {
    AnyReceiver(pcs) ==> items <= ReceiveTokens(pcs)
  }

  /** No wake-up is lost: free slots facing sleeping senders are covered by tokens, and so are items
      facing sleeping receivers. */
  predicate WakeInv(s: State) {
    s.open ==> SendersCovered(s.pc, s.capacity - |s.buf|) && ReceiversCovered(s.pc, |s.buf|)
  }

  predicate Inv(s: State) {
    && Fits(s) && LockInv(s) && HistoryInv(s) && CloseInv(s) && WakeInv(s)
    && (forall t :: 0 <= t < |s.pc| ==> CallInvAt(s, t))
  }

  lemma {:induction false} TokensUpdate(pcs: seq<Pc>, t: nat, p: Pc)
    requires t < |pcs|
    ensures SendTokens(pcs[t := p]) + (if SendToken(pcs[t]) then 1 else 0)
         == SendTokens(pcs) + if SendToken(p) then 1 else 0
    ensures ReceiveTokens(pcs[t := p]) + (if ReceiveToken(pcs[t]) then 1 else 0)
         == ReceiveTokens(pcs) + if ReceiveToken(p) then 1 else 0
  {
    if t == 0 {
      assert pcs[t := p][1..] == pcs[1..];
    } else {
      assert pcs[t := p][1..] == pcs[1..][t - 1 := p];
      TokensUpdate(pcs[1..], t - 1, p);
    }
  }

  lemma {:induction false} TokensNone(pcs: seq<Pc>)
    ensures SendTokens(pcs) > 0 ==> exists t :: 0 <= t < |pcs| && SendToken(pcs[t])
    ensures ReceiveTokens(pcs) > 0 ==> exists t :: 0 <= t < |pcs| && ReceiveToken(pcs[t])
  {
    if pcs != [] {
      TokensNone(pcs[1..]);
      assert forall t :: 0 <= t < |pcs| - 1 ==> pcs[1..][t] == pcs[t + 1];
      if SendToken(pcs[0]) || ReceiveToken(pcs[0]) { assert 0 < |pcs|; }
    }
  }

  lemma InitInv(threads: nat, capacity: nat)
    ensures Inv(Init(threads, capacity))
  {
  }

  // ---------- every step keeps the invariant ----------

  lemma LockStep(s: State, a: Action)
    requires Fits(s) && LockInv(s) && Enabled(s, a)
    ensures Fits(Apply(s, a)) && LockInv(Apply(s, a))
  {
    hide SomeoneWaits, WaitsFor, Offer, Poll;
  }

  /** One more call in the log, if it ends as it does alone. */
  lemma AfterOne(log: seq<Event>, capacity: nat, e: Event, q: Queue, o: Outcome)
    requires After(log, capacity) == Some(q) && Perform(q, capacity, e.call) == Some(o)
    requires o.result == e.result && o.value == e.value
    ensures After(log + [e], capacity) == Some(o.queue)
  {
    assert (log + [e])[..|log|] == log;
  }

  lemma OwnOne(log: seq<Event>, e: Event, t: nat)
    ensures Own(log + [e], t) == Own(log, t) + if e.thread == t then [e] else []
  {
    assert (log + [e])[..|log|] == log;
  }

  lemma HistoryStep(s: State, a: Action)
    requires Fits(s) && HistoryInv(s) && CloseInv(s) && Enabled(s, a)
    requires a.Step? ==> CallInvAt(s, a.t)
    ensures HistoryInv(Apply(s, a))
  {
    hide After, Mine, SomeoneWaits;
    if a.Step? {
      StepHistory(s, a.t);
    }
  }

  /** Whatever takes effect takes effect as it would alone. */
  lemma StepHistory(s: State, t: nat)
    requires Fits(s) && HistoryInv(s) && CloseInv(s) && t < |s.pc| && CanStep(s, s.pc[t]) && CallInvAt(s, t)
    ensures HistoryInv(StepThread(s, t))
  {
    hide After, Mine, SomeoneWaits;
    var r, q := StepThread(s, t), Queue(s.open, s.buf);
    assert CloseInvAt(s, t);
    if r.log != s.log {
      var call := s.pc[t].call;
      var o := Perform(q, s.capacity, call).value;
      AfterOne(s.log, s.capacity, r.log[|s.log|], q, o);
    }
  }

  lemma CloseStep(s: State, a: Action)
    requires Fits(s) && LockInv(s) && CloseInv(s) && Enabled(s, a)
    ensures CloseInv(Apply(s, a))
  {
    var r := Apply(s, a);
    if a.Step? && (s.pc[a.t].WakingReceivers? || s.pc[a.t].WakingSenders?) {
      assert s.owner == Some(a.t);
    } else {
      forall t | 0 <= t < |r.pc| ensures CloseInvAt(r, t) {
        CloseStepAt(s, a, t);
      }
    }
  }

  predicate CloseInvAt(s: State, t: nat)
    requires t < |s.pc|
  {
    && (s.pc[t].Trying? || s.pc[t].Signalling? ==> s.open)
    && (s.pc[t].WakingReceivers? || s.pc[t].WakingSenders? ==> !s.open)
    && (!s.open && AsleepSender(s.pc[t]) ==> SomeoneBroadcasts(s, true))
    && (!s.open && AsleepReceiver(s.pc[t]) ==> SomeoneBroadcasts(s, false))
  }

  lemma CloseStepAt(s: State, a: Action, t: nat)
    requires Fits(s) && LockInv(s) && CloseInv(s) && Enabled(s, a) && t < |s.pc|
    requires !(a.Step? && (s.pc[a.t].WakingReceivers? || s.pc[a.t].WakingSenders?))
    ensures CloseInvAt(Apply(s, a), t)
  {
    assert CloseInvAt(s, t);
  }

  lemma OwnGrows(log: seq<Event>, b: nat, e: Event, t: nat)
    requires b <= |log|
    ensures Own((log + [e])[b..], t) == Own(log[b..], t) + if e.thread == t then [e] else []
  {
    assert (log + [e])[b..] == log[b..] + [e];
    OwnOne(log[b..], e, t);
  }

  /** The log of a thread whose call takes effect. */
  lemma SettleCall(s: State, t: nat, p: Pc, call: Call, result: Result)
    requires Fits(s) && t < |s.pc| && s.begun[t] <= |s.log| && Mine(s, t) == []
    requires Ends(p) == Some(End(call, result)) && (p.Signalling? ==> !p.call.CloseCall?)
    ensures CallInvAt(Settle(s, t, p, call, result), t)
  {
    OwnGrows(s.log, s.begun[t], Event(t, call, result, s.got[t]), t);
    hide Own;
  }

  lemma OperationCall(s: State, t: nat)
    requires Fits(s) && t < |s.pc| && s.pc[t].Trying? && CallInvAt(s, t)
    ensures CallInvAt(TryOperation(s, t), t)
  {
    var r, call := TryOperation(s, t), s.pc[t].call;
    if r.log != s.log {
      var end := Ends(r.pc[t]).value;
      SettleCall(s.(buf := r.buf, got := r.got, open := r.open), t, r.pc[t], call, end.result);
    }
    hide Own, Offer, Poll;
  }

  /** A thread's own step. */
  lemma StepCall(s: State, t: nat)
    requires Fits(s) && t < |s.pc| && CanStep(s, s.pc[t]) && CallInvAt(s, t)
    ensures CallInvAt(StepThread(s, t), t)
  {
    if s.pc[t].Trying? {
      OperationCall(s, t);
    } else if (s.pc[t].Checking? || s.pc[t].Rechecking?) && !s.open {
      SettleCall(s, t, Unlocking(s.pc[t].call, ClosedError), s.pc[t].call, ClosedError);
    } else {
      assert Mine(StepThread(s, t), t) == Mine(s, t);
    }
    hide SomeoneWaits, Own, TryOperation;
  }

  /** What a step adds to the log is the stepping thread's. */
  lemma LogStep(s: State, a: Action)
    requires Fits(s) && Enabled(s, a)
    ensures var r := Apply(s, a);
            r.log == s.log || (a.Step? && |r.log| == |s.log| + 1 && r.log == s.log + [r.log[|s.log|]]
                               && r.log[|s.log|].thread == a.t)
  {
    hide SomeoneWaits, Offer, Poll;
  }

  lemma OthersStep(s: State, a: Action, t: nat)
    requires Fits(s) && Enabled(s, a) && t < |s.pc| && a.t != t && CallInvAt(s, t)
    ensures var r := Apply(s, a); r.got[t] == s.got[t] && r.begun[t] == s.begun[t]
                                  && (r.pc[t] == s.pc[t] || r.pc[t] == Wake(s.pc[t]))
  {
    hide SomeoneWaits, Offer, Poll, CallInv, Own;
  }

  /** Another thread's step, or one that does not go on with the call. */
  lemma OthersCall(s: State, a: Action, t: nat)
    requires Fits(s) && Enabled(s, a) && t < |s.pc| && CallInvAt(s, t) && !(a.Step? && a.t == t)
    ensures CallInvAt(Apply(s, a), t)
  {
    var r := Apply(s, a);
    LogStep(s, a);
    if r.log != s.log {
      OwnGrows(s.log, s.begun[t], r.log[|s.log|], t);
    }
    if a.t != t {
      OthersStep(s, a, t);
      hide Apply, Enabled, Own;
    } else if a.Begin? {
      assert r.log[|r.log|..] == [];
    } else {
      assert Mine(r, t) == Mine(s, t);
      hide Own, SomeoneWaits;
    }
  }

  // ---------- no wake-up is lost ----------

  /** One thread moves: the cover holds again if there is nothing to cover, if nobody sleeps, or if the
      thread has not used up more cover than it takes away need. */
  lemma SendersMove(pcs: seq<Pc>, t: nat, p: Pc, slots: int, slots': int)
    requires t < |pcs| && SendersCovered(pcs, slots)
    requires || slots' <= 0
             || !AnySender(pcs[t := p])
             || ((AsleepSender(p) ==> AnySender(pcs))
                 && slots' - (if SendToken(p) then 1 else 0) <= slots - (if SendToken(pcs[t]) then 1 else 0))
    ensures SendersCovered(pcs[t := p], slots')
  {
    TokensUpdate(pcs, t, p);
    if AnySender(pcs[t := p]) {
      var u :| 0 <= u < |pcs| && AsleepSender(pcs[t := p][u]);
      assert u != t ==> AsleepSender(pcs[u]);
    }
  }

  lemma ReceiversMove(pcs: seq<Pc>, t: nat, p: Pc, items: int, items': int)
    requires t < |pcs| && ReceiversCovered(pcs, items)
    requires || items' <= 0
             || !AnyReceiver(pcs[t := p])
             || ((AsleepReceiver(p) ==> AnyReceiver(pcs))
                 && items' - (if ReceiveToken(p) then 1 else 0) <= items - (if ReceiveToken(pcs[t]) then 1 else 0))
    ensures ReceiversCovered(pcs[t := p], items')
  {
    TokensUpdate(pcs, t, p);
    if AnyReceiver(pcs[t := p]) {
      var u :| 0 <= u < |pcs| && AsleepReceiver(pcs[t := p][u]);
      assert u != t ==> AsleepReceiver(pcs[u]);
    }
  }

  lemma OperationWake(s: State, t: nat)
    requires Fits(s) && HistoryInv(s) && WakeInv(s) && s.open && t < |s.pc| && s.pc[t].Trying?
    ensures WakeInv(TryOperation(s, t))
  {
    var r := TryOperation(s, t);
    if r.open {
      assert r.pc == s.pc[t := r.pc[t]];
      SendersMove(s.pc, t, r.pc[t], s.capacity - |s.buf|, r.capacity - |r.buf|);
      ReceiversMove(s.pc, t, r.pc[t], |s.buf|, |r.buf|);
    }
    hide SendersCovered, ReceiversCovered;
  }

  lemma StepWake(s: State, t: nat)
    requires Inv(s) && t < |s.pc| && CanStep(s, s.pc[t])
    ensures WakeInv(StepThread(s, t))
  {
    var r := StepThread(s, t);
    if s.pc[t].Trying? {
      OperationWake(s, t);
    } else if r.open {
      assert !s.pc[t].WakingReceivers? && !s.pc[t].WakingSenders?;
      assert r.pc == s.pc[t := r.pc[t]];
      SignalUnheard(s, t, r.pc[t]);
      SendersMove(s.pc, t, r.pc[t], s.capacity - |s.buf|, s.capacity - |s.buf|);
      ReceiversMove(s.pc, t, r.pc[t], |s.buf|, |s.buf|);
    }
    hide SendersCovered, ReceiversCovered, LockInv, HistoryInv, SomeoneWaits, AnySender, AnyReceiver, TryOperation;
  }

  /** A signal that nobody waits for leaves nobody asleep on its condition. */
  lemma SignalUnheard(s: State, t: nat, p: Pc)
    requires t < |s.pc| && CanStep(s, s.pc[t]) && !p.Asleep?
    ensures s.pc[t].Signalling? && s.pc[t].call.ReceiveCall? ==> !AnySender(s.pc[t := p])
    ensures s.pc[t].Signalling? && s.pc[t].call.SendCall? ==> !AnyReceiver(s.pc[t := p])
  {
    if s.pc[t].Signalling? {
      forall u | 0 <= u < |s.pc| && u != t ensures !WaitsFor(s.pc[u], s.pc[t].call) {
      }
    }
  }

  lemma SignalWake(s: State, t: nat, u: nat)
    requires Inv(s) && Enabled(s, Signal(t, u))
    ensures WakeInv(Apply(s, Signal(t, u)))
  {
    var free, items := s.capacity - |s.buf|, |s.buf|;
    var w, p := Wake(s.pc[u]), Unlocking(s.pc[t].call, Success);
    assert s.open && CallInvAt(s, t);
    var both := s.pc[t].call;
    SendersMove(s.pc, u, w, free, if both.ReceiveCall? then free + 1 else free);
    ReceiversMove(s.pc, u, w, items, if both.SendCall? then items + 1 else items);
    SendersMove(s.pc[u := w], t, p, if both.ReceiveCall? then free + 1 else free, free);
    ReceiversMove(s.pc[u := w], t, p, if both.SendCall? then items + 1 else items, items);
    hide SendersCovered, ReceiversCovered, LockInv, HistoryInv, SomeoneWaits, AnySender, AnyReceiver;
  }

  lemma OtherWake(s: State, a: Action)
    requires Inv(s) && Enabled(s, a) && (a.Begin? || a.Spurious?)
    ensures WakeInv(Apply(s, a))
  {
    var r := Apply(s, a);
    if s.open {
      SendersMove(s.pc, a.t, r.pc[a.t], s.capacity - |s.buf|, s.capacity - |s.buf|);
      ReceiversMove(s.pc, a.t, r.pc[a.t], |s.buf|, |s.buf|);
    }
    hide SendersCovered, ReceiversCovered, LockInv, HistoryInv, SomeoneWaits, AnySender, AnyReceiver;
  }

  lemma StepInv(s: State, a: Action)
    requires Inv(s) && Enabled(s, a)
    ensures Inv(Apply(s, a))
  {
    LockStep(s, a);
    HistoryStep(s, a);
    CloseStep(s, a);
    var r := Apply(s, a);
    forall t | 0 <= t < |r.pc| ensures CallInvAt(r, t) {
      if a.Step? && a.t == t { StepCall(s, t); } else { OthersCall(s, a, t); }
    }
    match a {
      case Step(t) => StepWake(s, t);
      case Signal(t, u) => SignalWake(s, t, u);
      case _ => OtherWake(s, a);
    }
    hide LockInv, HistoryInv, CloseInv, WakeInv, CallInvAt, Apply;
  }

  /** The invariant holds in every state of every run of any number of threads. */
  lemma {:induction false} RunInv(threads: nat, capacity: nat, run: seq<State>, acts: seq<Action>, x: nat)
    requires IsPath(run, acts) && run[0] == Init(threads, capacity) && x < |run|
    ensures Inv(run[x])
  {
    if x > 0 {
      RunInv(threads, capacity, run, acts, x - 1);
      StepInv(run[x - 1], acts[x - 1]);
    } else {
      InitInv(threads, capacity);
    }
  }
}
