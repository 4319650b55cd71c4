/** channel.c between a lock and the next unlock or wait: what each critical section does to the channel.
    `Monitor` interleaves these sections; here they are run on the real buffer. */
module Channels {
  import opened Buffers
  import M = Monitor

  datatype ChannelStatus = CHANNEL_EMPTY | CHANNEL_FULL | SUCCESS | CLOSED_ERROR | DESTROY_ERROR

  /** How a critical section ends: with a result, or in pthread_cond_wait. */
  datatype Section = Return(status: ChannelStatus) | Wait

  /** The end of the critical section of a call on a channel in this state. */
  function SectionEnd(open: bool, queue: seq<M.Data>, capacity: nat, call: M.Call): Section {
    if !open then Return(CLOSED_ERROR)
    else
      match call
      case SendCall(_, blocking) =>
        if |queue| < capacity then Return(SUCCESS) else if blocking then Wait else Return(CHANNEL_FULL)
      case ReceiveCall(blocking) =>
        if queue != [] then Return(SUCCESS) else if blocking then Wait else Return(CHANNEL_EMPTY)
      case CloseCall => Return(SUCCESS)
  }

  /** What it leaves in the channel. */
  function SectionQueue(open: bool, queue: seq<M.Data>, capacity: nat, call: M.Call): seq<M.Data> {
    if open && call.SendCall? then Offer(queue, capacity, call.x)
    else if open && call.ReceiveCall? then Poll(queue)
    else queue
  }

  class Channel {
    const buffer: Buffer<M.Data>
    /** 1 while the channel is open, 0 once it is closed. */
    var closed: nat

    ghost predicate Valid()
      reads this, buffer
    {
      closed <= 1 && buffer.Valid()
    }

    ghost function Queue(): seq<M.Data>
      requires Valid()
      reads this, buffer, buffer.data
    {
      buffer.Contents()
    }

    constructor (size: nat)
      requires size * CELL_BYTES < SIZE_T
      ensures Valid() && closed == 1 && Queue() == [] && buffer.capacity == size && fresh(buffer) && fresh(buffer.data)
    {
      buffer := new Buffer(size);
      closed := 1;
    }

    /** channel_send from taking the mutex, at the call or after a wake-up, to leaving it. */
    method SendSection(x: M.Data) returns (end: Section)
      requires Valid()
      modifies buffer`size, buffer.data
      ensures Valid()
      ensures end == SectionEnd(closed == 1, old(Queue()), buffer.capacity, M.SendCall(x, true))
      ensures Queue() == SectionQueue(closed == 1, old(Queue()), buffer.capacity, M.SendCall(x, true))
    {
      if closed == 0 {
        return Return(CLOSED_ERROR);
      }
      var status := buffer.Add(x);
      return if status.BufferError? then Wait else Return(SUCCESS);
    }

    /** channel_receive, likewise. */
    method ReceiveSection() returns (end: Section, x: M.Data)
      requires Valid()
      modifies buffer
      ensures Valid()
      ensures end == SectionEnd(closed == 1, old(Queue()), buffer.capacity, M.ReceiveCall(true))
      ensures Queue() == SectionQueue(closed == 1, old(Queue()), buffer.capacity, M.ReceiveCall(true))
      ensures end == Return(SUCCESS) ==> x == old(Queue())[0]
    {
      if closed == 0 {
        return Return(CLOSED_ERROR), 0;
      }
      var status;
      status, x := buffer.Remove();
      end := if status.BufferError? then Wait else Return(SUCCESS);
    }

    method NonBlockingSend(x: M.Data) returns (status: ChannelStatus)
      requires Valid()
      modifies buffer`size, buffer.data
      ensures Valid()
      ensures Return(status) == SectionEnd(closed == 1, old(Queue()), buffer.capacity, M.SendCall(x, false))
      ensures Queue() == SectionQueue(closed == 1, old(Queue()), buffer.capacity, M.SendCall(x, false))
    {
      if closed == 0 {
        return CLOSED_ERROR;
      }
      var n := buffer.CurrentSize();
      if n >= buffer.capacity {
        return CHANNEL_FULL;
      }
      var _ := buffer.Add(x);
      return SUCCESS;
    }

    method NonBlockingReceive() returns (status: ChannelStatus, x: M.Data)
      requires Valid()
      modifies buffer
      ensures Valid()
      ensures Return(status) == SectionEnd(closed == 1, old(Queue()), buffer.capacity, M.ReceiveCall(false))
      ensures Queue() == SectionQueue(closed == 1, old(Queue()), buffer.capacity, M.ReceiveCall(false))
      ensures status.SUCCESS? ==> x == old(Queue())[0]
    {
      x := 0;
      if closed == 0 {
        return CLOSED_ERROR, x;
      }
      var n := buffer.CurrentSize();
      if n == 0 {
        return CHANNEL_EMPTY, x;
      }
      var removed;
      removed, x := buffer.Remove();
      return SUCCESS, x;
    }

    method Close() returns (status: ChannelStatus)
      requires Valid()
      modifies `closed
      ensures Valid() && closed == 0 && Queue() == old(Queue())
      ensures Return(status) == SectionEnd(old(closed) == 1, Queue(), buffer.capacity, M.CloseCall)
    {
      if closed == 0 {
        return CLOSED_ERROR;
      }
      closed := 0;
      return SUCCESS;
    }

    /** Only a closed channel may be destroyed. */
    method Destroy() returns (status: ChannelStatus)
      requires Valid()
      ensures status == if closed == 1 then DESTROY_ERROR else SUCCESS
    {
      return if closed == 1 then DESTROY_ERROR else SUCCESS;
    }
  }

  // ---------- the sections are the monitor's steps ----------

  /** The status a program sees for a result of the monitor. */
  function Status(call: M.Call, result: M.Result): ChannelStatus {
    match result
    case Success => SUCCESS
    case ClosedError => CLOSED_ERROR
    case FullOrEmpty => if call.SendCall? then CHANNEL_FULL else CHANNEL_EMPTY
  }

  /** A thread that holds the mutex in `Checking` or `Rechecking` runs its section, of whatever call, in one or
      two steps of the monitor: with the same end, the same queue, the mutex given up exactly when it waits, and
      for a receive the same value. */
  lemma SectionIsSteps(s: M.State, t: nat) returns (r: M.State)
    requires M.Inv(s) && t < |s.pc| && (s.pc[t].Checking? || s.pc[t].Rechecking?)
    ensures var call := s.pc[t].call; var end := SectionEnd(s.open, s.buf, s.capacity, call);
            && r == (if s.open then M.StepThread(M.StepThread(s, t), t) else M.StepThread(s, t))
            && (end.Wait? <==> r.pc[t] == M.Asleep(call)) && (end.Wait? <==> r.owner.None?)
            && (end.Return? ==> M.Ends(r.pc[t]).Some? && M.Ends(r.pc[t]).value.call == call
                                && end.status == Status(call, M.Ends(r.pc[t]).value.result))
            && r.buf == SectionQueue(s.open, s.buf, s.capacity, call) && r.open == (s.open && !call.CloseCall?)
            && (end == Return(SUCCESS) && call.ReceiveCall? ==> r.got[t] == M.Some(s.buf[0]))
  {
    var u := M.StepThread(s, t);
    assert s.owner == M.Some(t);
    r := if s.open then M.StepThread(u, t) else u;
  }

  /** And what is settled in a section is what the call returns. */
  lemma SettledStays(s: M.State, a: M.Action, t: nat)
    requires M.Inv(s) && M.Enabled(s, a) && t < |s.pc| && M.Ends(s.pc[t]).Some? && !(a.Begin? && a.t == t)
    ensures M.Ends(M.Apply(s, a).pc[t]) == M.Ends(s.pc[t]) && M.Apply(s, a).got[t] == s.got[t]
  {
    hide M.LockInv, M.HistoryInv, M.CloseInv, M.WakeInv, M.SomeoneWaits, M.CallInvAt;
  }
}
