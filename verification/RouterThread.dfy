/** The router of stress.c in the program's own form: four vectors shared by pointer, a send list that
    shrinks by swapping, and loops that relax, rotate and re-arm. Each method does to this object what
    the function of the same purpose in `Routers` does to the value. */
module RouterThreads {
  import opened Distances
  import opened Routers

  class DistanceVector {
    const src: nat
    var epoch: nat
    const dist: array<nat>

    constructor (src: nat, epoch: nat, row: seq<nat>)
      ensures this.src == src && Snapshot() == Vector(epoch, row) && fresh(dist) && dist.Length == |row|
    {
      this.src := src;
      this.epoch := epoch;
      this.dist := new nat[|row|](i requires 0 <= i < |row| => row[i]);
    }

    ghost function Snapshot(): Vector
      reads this, dist
    {
      Vector(epoch, dist[..])
    }
  }

  datatype Direction = SEND | RECV

  /** An entry of select_list; channel numbers stand for the channels. */
  datatype SelectEntry = SelectEntry(channel: nat, dir: Direction, data: DistanceVector?)

  class RouterThread {
    const index: nat
    const n: nat
    const selectList: array<SelectEntry>
    var selectCount: nat
    var changed: bool
    var prevPrev: DistanceVector
    var prev: DistanceVector
    var curr: DistanceVector
    var next: DistanceVector

    /** The four vectors in the order of their allocation, and which of them plays which role. */
    ghost const pool: seq<DistanceVector>
    ghost var roles: seq<nat>

    ghost predicate Valid()
      reads this, selectList, pool
    {
      && ValidVectors()
      && 2 <= selectCount <= selectList.Length
      && selectList[0] == SelectEntry(n, RECV, null)
      && selectList[1].channel == index && selectList[1].dir == RECV
      && (forall x :: 2 <= x < selectList.Length ==>
            selectList[x].channel < n && selectList[x].dir == SEND && selectList[x].data == curr)
    }

    /** Four different vectors, all of this router, each in one role. */
    ghost predicate ValidVectors()
      reads this, pool
    {
      && |pool| == 4 && pool[0] != pool[1] && pool[0] != pool[2] && pool[0] != pool[3]
      && pool[1] != pool[2] && pool[1] != pool[3] && pool[2] != pool[3]
      && pool[0].dist != pool[1].dist && pool[0].dist != pool[2].dist && pool[0].dist != pool[3].dist
      && pool[1].dist != pool[2].dist && pool[1].dist != pool[3].dist && pool[2].dist != pool[3].dist
      && (forall s :: 0 <= s < 4 ==> pool[s].dist.Length == n)
      && pool[0].src == index && pool[1].src == index && pool[2].src == index && pool[3].src == index
      && |roles| == 4 && (forall x :: 0 <= x < 4 ==> roles[x] < 4)
      && prevPrev == pool[roles[0]] && prev == pool[roles[1]] && curr == pool[roles[2]] && next == pool[roles[3]]
    }

    ghost function Targets(): (t: seq<nat>)
      reads selectList
      requires selectList.Length >= 2
      ensures |t| == selectList.Length - 2
    {
      seq(selectList.Length - 2, x requires 0 <= x < selectList.Length - 2 reads selectList =>
        selectList[x + 2].channel)
    }

    ghost function Vectors(): (v: seq<Vector>)
      requires |pool| == 4
      reads pool, pool[0].dist, pool[1].dist, pool[2].dist, pool[3].dist
      ensures |v| == 4
    {
      [pool[0].Snapshot(), pool[1].Snapshot(), pool[2].Snapshot(), pool[3].Snapshot()]
    }

    /** The value this object stands for, at a program point the object does not record. */
    ghost function Value(pc: Pc, answer: Answer, log: seq<seq<nat>>): Router
      requires Valid()
      reads this, selectList, pool, if |pool| == 4 then {pool[0].dist, pool[1].dist, pool[2].dist, pool[3].dist} else {}
    {
      Router(Vectors(), roles[0], roles[1], roles[2], roles[3], changed, Targets(), selectCount - 2, pc, answer, log)
    }

    // ---------- start ----------

    /** Allocates the four vectors from the router's row of links and lists its neighbours. */
    constructor (index: nat, n: nat, ghost w: Matrix, row: seq<nat>)
      requires Square(w, n) && index < n && row == w[index]
      ensures Valid() && this.n == n && this.index == index && fresh(selectList)
      ensures fresh(prevPrev) && fresh(prev) && fresh(curr) && fresh(next)
      ensures Value(Selecting, Busy, seq(n, _ => [])) == Initial(w, n, index)
    {
      hide Neighbours, Shaped;
      var v0 := new DistanceVector(index, 0, row);
      var v1 := new DistanceVector(index, 1, row);
      var v2 := new DistanceVector(index, 2, row);
      var v3 := new DistanceVector(index, 3, row);
      var list := BuildSelectList(index, n, w, row, v2);
      this.index, this.n := index, n;
      prevPrev, prev, curr, next := v0, v1, v2, v3;
      pool, roles := [v0, v1, v2, v3], [0, 1, 2, 3];
      changed := false;
      selectList, selectCount := list, list.Length;
      new;
      hide DistanceVector.Snapshot;
      assert ValidVectors();
      assert Vectors() == [Vector(0, row), Vector(1, row), Vector(2, row), Vector(3, row)];
      assert Targets() == Neighbours(w, n, index, n);
    }

    static method CountNeighbours(index: nat, n: nat, ghost w: Matrix, row: seq<nat>) returns (total: nat)
      requires Square(w, n) && index < n && row == w[index]
      ensures total == 2 + |Neighbours(w, n, index, n)|
    {
      total := 2;
      for i := 0 to n
        invariant total == 2 + |Neighbours(w, n, index, i)|
      {
        if i != index && row[i] != INF {
          total := total + 1;
        }
      }
    }

    static method BuildSelectList(index: nat, n: nat, ghost w: Matrix, row: seq<nat>, data: DistanceVector)
      returns (list: array<SelectEntry>)
      requires Square(w, n) && index < n && row == w[index]
      ensures fresh(list) && list.Length == 2 + |Neighbours(w, n, index, n)|
      ensures list[0] == SelectEntry(n, RECV, null) && list[1] == SelectEntry(index, RECV, null)
      ensures forall x :: 2 <= x < list.Length ==> list[x] == SelectEntry(Neighbours(w, n, index, n)[x - 2], SEND, data)
    {
      var total := CountNeighbours(index, n, w, row);
      list := new SelectEntry[total](_ => SelectEntry(n, RECV, null));
      list[1] := SelectEntry(index, RECV, null);
      var count := 2;
      for i := 0 to n
        invariant count == 2 + |Neighbours(w, n, index, i)| <= total
        invariant list[0] == SelectEntry(n, RECV, null) && list[1] == SelectEntry(index, RECV, null)
        invariant forall x :: 2 <= x < count ==> list[x] == SelectEntry(Neighbours(w, n, index, i)[x - 2], SEND, data)
      {
        NeighboursGrow(w, n, index, i + 1, n);
        if i != index && row[i] != INF {
          list[count] := SelectEntry(i, SEND, data);
          count := count + 1;
        }
      }
    }

    static lemma {:induction false} NeighboursGrow(w: Matrix, n: nat, me: nat, m: nat, k: nat)
      requires Square(w, n) && me < n && m <= k <= n
      ensures |Neighbours(w, n, me, m)| <= |Neighbours(w, n, me, k)|
    {
      if m < k {
        NeighboursGrow(w, n, me, m, k - 1);
      }
    }

    // ---------- a vector has arrived ----------

    /** Relaxes every destination through the neighbour whose vector was received. */
    method Relax(neighbor: DistanceVector, row: seq<nat>, ghost slot: nat, ghost answer: Answer,
                 ghost log: seq<seq<nat>>)
      requires Valid() && n > 0 && neighbor.dist.Length == n && slot < 4 && neighbor.src < n == |row|
      requires forall s :: 0 <= s < 4 ==> pool[s].dist != neighbor.dist
      requires Shaped(Value(Relaxing(neighbor.src, slot, 0), answer, log), n)
      modifies `changed, next.dist
      ensures Valid()
      ensures Value(Deciding, answer, log)
           == RelaxFrom(old(Value(Relaxing(neighbor.src, slot, 0), answer, log)), n, row[neighbor.src],
                        old(neighbor.dist[..]))
    {
      var link := row[neighbor.src];
      ghost var start := Value(Relaxing(neighbor.src, slot, 0), answer, log);
      ghost var v := neighbor.dist[..];
      ghost var r := start;
      for j := 0 to n
        invariant Valid() && neighbor.dist[..] == v
        invariant r == Value(At(neighbor.src, slot, j, n), answer, log) && Shaped(r, n)
        invariant RelaxFrom(r, n, link, v) == RelaxFrom(start, n, link, v)
      {
        RelaxAt(neighbor, link, slot, j, answer, log);
        ghost var q := r;
        r := RelaxOne(q, n, link, v[j]);
        assert RelaxFrom(q, n, link, v) == RelaxFrom(r, n, link, v);
        hide RelaxFrom, RelaxOne, Valid, Shaped;
      }
    }

    /** One destination. */
    method RelaxAt(neighbor: DistanceVector, link: nat, ghost slot: nat, j: nat, ghost answer: Answer,
                   ghost log: seq<seq<nat>>)
      requires Valid() && j < n && neighbor.dist.Length == n && slot < 4 && neighbor.src < n
      requires forall s :: 0 <= s < 4 ==> pool[s].dist != neighbor.dist
      requires Shaped(Value(Relaxing(neighbor.src, slot, j), answer, log), n)
      modifies `changed, next.dist
      ensures Valid() && neighbor.dist[..] == old(neighbor.dist[..])
      ensures Value(At(neighbor.src, slot, j + 1, n), answer, log)
           == RelaxOne(old(Value(Relaxing(neighbor.src, slot, j), answer, log)), n, link, neighbor.dist[j])
    {
      ghost var before := Vectors();
      var newDist := Add32(link, neighbor.dist[j]);
      if newDist < next.dist[j] {
        next.dist[j] := newDist;
        changed := true;
        ghost var dist: seq<nat> := before[roles[3]].dist[j := newDist];
        assert Vectors() == before[roles[3] := Vector(before[roles[3]].epoch, dist)];
      } else {
        assert Vectors() == before;
      }
    }

    // ---------- the end of an iteration ----------

    /** If everybody has been served and there is news: cycle the vectors and start the next broadcast. */
    method EndOfIteration(ghost answer: Answer, ghost log: seq<seq<nat>>)
      requires Valid() && Shaped(Value(Deciding, answer, log), n) && Rotating(Value(Deciding, answer, log))
      modifies this, selectList, prevPrev, prevPrev.dist
      ensures Valid()
      ensures Value(Selecting, answer, log) == EndOfLoop(old(Value(Deciding, answer, log)), n)
    {
      if selectCount == 2 && changed {
        RotateRoles(Value(Deciding, answer, log), n);
        Cycle(answer, log);
      }
    }

    method Cycle(ghost answer: Answer, ghost log: seq<seq<nat>>)
      requires Valid() && Shaped(Value(Deciding, answer, log), n) && roles[0] != roles[3]
      modifies this, selectList, prevPrev, prevPrev.dist
      ensures Valid()
      ensures Value(Selecting, answer, log) == Rotate(old(Value(Deciding, answer, log)), n).(pc := Selecting)
    {
      hide Shaped, Targets;
      CycleVectors();
      Rearm();
      changed := false;
    }

    /** The vectors after the pointers have been cycled and the current distances copied forward. */
    method CycleVectors()
      requires ValidVectors() && roles[0] != roles[3]
      modifies `curr, `next, `prevPrev, `prev, `roles, prevPrev`epoch, prevPrev.dist
      ensures ValidVectors() && roles == [old(roles[1]), old(roles[2]), old(roles[3]), old(roles[0])]
      ensures var before := old(Vectors());
              Vectors() == before[roles[3] := Vector(before[roles[2]].epoch + 1, before[roles[2]].dist)]
    {
      ghost var before := Vectors();
      CycleRoles();
      CopyForward();
      assert Vectors() == before[roles[3] := Vector(before[roles[2]].epoch + 1, before[roles[2]].dist)];
    }

    /** Each vector takes the role of the one before it; the oldest is recycled as the next one. */
    method CycleRoles()
      requires ValidVectors()
      modifies `curr, `next, `prevPrev, `prev, `roles
      ensures ValidVectors() && roles == [old(roles[1]), old(roles[2]), old(roles[3]), old(roles[0])]
      ensures next == old(prevPrev)
    {
      var temp := curr;
      curr := next;
      next := prevPrev;
      prevPrev := prev;
      prev := temp;
      roles := [roles[1], roles[2], roles[3], roles[0]];
    }

    /** The recycled vector becomes the next epoch's, starting from what is known now. */
    method CopyForward()
      requires next.dist.Length == n && curr.dist.Length == n && next != curr && next.dist != curr.dist
      modifies next`epoch, next.dist
      ensures next.epoch == curr.epoch + 1 && next.dist[..] == curr.dist[..]
    {
      next.epoch := curr.epoch + 1;
      for i := 0 to n
        invariant next.epoch == curr.epoch + 1
        invariant forall k :: 0 <= k < i ==> next.dist[k] == curr.dist[k]
      {
        next.dist[i] := curr.dist[i];
      }
    }

    /** Every entry of the list is to be served again, with the new current vector. */
    method Rearm()
      requires selectList.Length >= 2
      modifies `selectCount, selectList
      ensures selectCount == selectList.Length
      ensures forall x :: 0 <= x < selectList.Length ==>
                selectList[x] == if x < 2 then old(selectList[x]) else old(selectList[x]).(data := curr)
      ensures Targets() == old(Targets())
    {
      selectCount := selectList.Length;
      for i := 2 to selectCount
        invariant selectCount == selectList.Length
        invariant forall x :: 0 <= x < selectList.Length ==>
          selectList[x] == if 2 <= x < i then old(selectList[x]).(data := curr) else old(selectList[x])
      {
        selectList[i] := selectList[i].(data := curr);
      }
    }

    // ---------- a probe has arrived ----------

    /** What is sent on completed_channel: the current vector, or null while there is news or unfinished sending. */
    method ProbeReply(ghost answer: Answer, ghost log: seq<seq<nat>>) returns (reply: DistanceVector?)
      requires Valid() && Shaped(Value(Selecting, answer, log), n)
      ensures var r := TakeProbe(Value(Selecting, answer, log), n);
              && (reply == null <==> r.answer.Busy?)
              && (reply != null ==> reply == pool[r.answer.slot] && reply.epoch == r.answer.epoch)
    {
      var converged := selectCount == 2 && !changed;
      reply := if converged then curr else null;
    }

    // ---------- after a send ----------

    /** select has sent to the selected entry: swap it with the last pending one. */
    method Sent(selectedIndex: nat, ghost answer: Answer, ghost log: seq<seq<nat>>)
      requires Valid() && 2 <= selectedIndex < selectCount
      requires Shaped(Value(Selecting, answer, log), n)
      modifies `selectCount, selectList
      ensures Valid()
      ensures var r := old(Value(Selecting, answer, log));
              Value(Deciding, answer, AfterSend(r, n, selectedIndex - 2).log) == AfterSend(r, n, selectedIndex - 2)
    {
      hide Shaped, Targets;
      SwapWithLast(selectedIndex);
      assert Vectors() == old(Vectors());
    }

    /** Where entry `k` gets its channel from when entry `x` and the last pending one change places. */
    ghost function Swapped(k: nat, x: nat): nat
      reads this
      requires selectCount > 0
    {
      if k == x then selectCount - 1 else if k == selectCount - 1 then x else k
    }

    /** The two entries exchange their channels, and the last one is no longer pending. */
    method SwapWithLast(selectedIndex: nat)
      requires 2 <= selectedIndex < selectCount <= selectList.Length
      modifies `selectCount, selectList
      ensures selectCount == old(selectCount) - 1
      ensures forall k :: 0 <= k < selectList.Length ==>
                selectList[k] == old(selectList[k]).(channel := old(selectList[Swapped(k, selectedIndex)].channel))
      ensures var before, last, x := old(Targets()), selectCount - 2, selectedIndex - 2;
              Targets() == before[last := before[x]][x := before[last]]
    {
      selectCount := selectCount - 1;
      var temp := selectList[selectCount].channel;
      selectList[selectCount] := selectList[selectCount].(channel := selectList[selectedIndex].channel);
      selectList[selectedIndex] := selectList[selectedIndex].(channel := temp);
    }
  }
}
