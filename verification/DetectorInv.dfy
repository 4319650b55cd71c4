/** The bookkeeping of check_done: which probe is where, and what each answer says of its router. */
module DetectorInv {
  import opened Distances
  import opened Routers
  import opened Network
  import opened NetworkInv

  predicate Replied(g: Stage) {
    g.Answering? || g.Answered? || g.Collected?
  }

  /** The replies main is not done with: the one it holds and the ones on completed_channel. */
  function Replies(s: Net): seq<Reply> {
    s.main.held + s.completed
  }

  predicate RepliedBy(done: seq<Reply>, k: nat) {
    exists x :: 0 <= x < |done| && done[x].src == k
  }

  predicate OneEach(done: seq<Reply>) {
    forall x, y :: 0 <= x < y < |done| ==> done[x].src != done[y].src
  }

  /** The stage of a probe tells where it is: in the channel, with the router, on its way back. */
  predicate StageInv(k: nat, g: Stage, q: seq<Msg>, r: Router, done: seq<Reply>) {
    && (g.Probed? <==> q == [Probe])
    && (g.Answering? <==> r.pc.Replying?)
    && (g.Answered? <==> RepliedBy(done, k))
    && (forall x :: 0 <= x < |done| && done[x].src == k ==> done[x].answer == r.answer)
  }

  /** The pointer belongs to the epoch recorded with it; if the router is still in that epoch,
      it has nothing left to send. */
  predicate FromPast(r: Router, a: Answer)
    requires |r.pool| == 4 && r.curr < 4
  {
    a.Converged? ==>
      a.slot == Slot(a.epoch) && 2 <= a.epoch <= Epoch(r) && (a.epoch == Epoch(r) ==> r.pending == 0)
  }

  /** What main has stored for router `k`: its first answer, and in the second round the second one. */
  predicate StoredInv(round: nat, g: Stage, r: Router, f: Answer, b: Answer)
    requires |r.pool| == 4 && r.curr < 4
  {
    if round == 1 then g.Collected? && r.answer.Converged? ==> f == r.answer
    else
      && f.Converged? && FromPast(r, f)
      && (g.Collected? ==> b == r.answer)
      && (Replied(g) && r.answer.Converged? ==> f.epoch <= r.answer.epoch)
  }

  predicate RouterBook(k: nat, round: nat, g: Stage, q: seq<Msg>, r: Router, done: seq<Reply>, f: Answer, b: Answer)
    requires |r.pool| == 4 && r.curr < 4
  {
    && StageInv(k, g, q, r, done)
    && (Replied(g) ==> FromPast(r, r.answer))
    && StoredInv(round, g, r, f, b)
  }

  predicate RouterMain(c: Config, s: Net, k: nat)
    requires Fits(c, s) && k < c.n
  {
    RouterBook(k, s.main.round, s.stage[k], s.chan[k], s.routers[k], Replies(s), s.main.first[k], s.main.second[k])
  }

  function Count(g: seq<Stage>): nat {
    if g == [] then 0 else Count(g[..|g| - 1]) + if g[|g| - 1].Collected? then 1 else 0
  }

  predicate PhaseInv(c: Config, s: Net)
    requires Fits(c, s)
  {
    match s.main.phase
    case Probing(i) => forall k :: 0 <= k < c.n ==> !s.stage[k].Collected? && (s.stage[k].Unprobed? <==> i <= k)
    case Collecting(i) => Count(s.stage) == i && forall k :: 0 <= k < c.n ==> !s.stage[k].Unprobed?
    case _ => forall k :: 0 <= k < c.n ==> s.stage[k].Collected?
  }

  /** Is this answer as main wants it: a pointer, and in the second round one whose epoch has the
      same remainder by four as the first. */
  predicate Accepted(round: nat, r: Router, f: Answer) {
    r.answer.Converged? && (round == 2 ==> f.Converged? && Slot(r.answer.epoch) == Slot(f.epoch))
  }

  /** `valid` holds exactly while every reply collected so far was accepted, and no comparison was torn. */
  predicate ValidInv(c: Config, s: Net)
    requires Fits(c, s)
  {
    && (s.main.round == 1 || s.main.round == 2)
    && (s.main.torn ==> s.main.round == 2)
    && (s.main.valid <==> !s.main.torn && forall k :: 0 <= k < c.n && s.stage[k].Collected? ==>
                            Accepted(s.main.round, s.routers[k], s.main.first[k]))
    && (s.main.phase.Judged? && s.main.round == 1 ==> !s.main.valid)
    && (s.main.phase.Closed? ==> s.main.round == 2 && s.main.valid)
    && (s.closed <==> s.main.phase.Closed?)
  }

  /** No router has two replies out; and what has been read for a comparison is an epoch of the slot that
      the first answer points to. */
  predicate HeldInv(c: Config, s: Net)
    requires Fits(c, s)
  {
    && OneEach(Replies(s)) && (s.main.held != [] ==> s.main.phase.Collecting?)
    && (s.main.operand.Read? ==>
          Compares(c, s) && Slot(s.main.operand.epoch) == s.main.first[s.main.held[0].src].slot)
  }

  ghost predicate MainInv(c: Config, s: Net) {
    && NetInv(c, s)
    && (forall k :: 0 <= k < c.n ==> RouterMain(c, s, k))
    && PhaseInv(c, s) && ValidInv(c, s) && HeldInv(c, s)
  }

  /** What the invariant says of one router. */
  lemma Facts(c: Config, s: Net, k: nat)
    requires MainInv(c, s) && k < c.n
    ensures ValidConfig(c) && Fits(c, s) && RouterMain(c, s, k) && RouterInv(c.w, c.n, k, s.routers[k])
  {
    hide RouterMain, RouterInv, PhaseInv, ValidInv, HeldInv, PairInv;
  }

  lemma InitMain(c: Config)
    requires ValidConfig(c)
    ensures MainInv(c, Init(c))
  {
    hide NetInv, Initial, Count;
    InitInv(c);
    var s := Init(c);
    assert Replies(s) == [];
    forall k | 0 <= k < c.n ensures RouterMain(c, s, k) {
      StartBook(c, k);
    }
  }

  lemma StartBook(c: Config, k: nat)
    requires ValidConfig(c) && k < c.n
    ensures RouterBook(k, 1, Unprobed, [], Initial(c.w, c.n, k), [], Busy, Busy)
  {
  }

  // ---------- counting collected replies ----------

  lemma {:induction false} CountBounds(g: seq<Stage>)
    ensures Count(g) <= |g| && (Count(g) == |g| <==> forall k :: 0 <= k < |g| ==> g[k].Collected?)
  {
    if g != [] {
      var h := g[..|g| - 1];
      CountBounds(h);
      assert forall k :: 0 <= k < |h| ==> g[k] == h[k];
      if forall k :: 0 <= k < |h| ==> h[k].Collected? {
        assert g[|g| - 1].Collected? ==> forall k :: 0 <= k < |g| ==> g[k].Collected?;
      }
    }
  }

  lemma {:induction false} CountUpdate(g: seq<Stage>, x: nat, v: Stage)
    requires x < |g|
    ensures Count(g[x := v]) + (if g[x].Collected? then 1 else 0) == Count(g) + if v.Collected? then 1 else 0
  {
    var h := g[..|g| - 1];
    var u := g[x := v];
    if x == |g| - 1 {
      assert u[..|u| - 1] == h;
    } else {
      assert u[..|u| - 1] == h[x := v];
      CountUpdate(h, x, v);
    }
  }

  lemma {:induction false} CountNone(g: seq<Stage>)
    requires forall k :: 0 <= k < |g| ==> !g[k].Collected?
    ensures Count(g) == 0
  {
    if g != [] {
      CountNone(g[..|g| - 1]);
    }
  }

  // ---------- the routers' steps keep the bookkeeping ----------

  /** Phase and verdict look at stages, answers and main's locals only. */
  lemma SameStages(c: Config, s: Net, t: Net)
    requires Fits(c, s) && Fits(c, t) && PhaseInv(c, s) && ValidInv(c, s)
    requires t.stage == s.stage && t.main == s.main && t.closed == s.closed && t.completed == s.completed
    requires HeldInv(c, s)
    requires forall k :: 0 <= k < c.n ==> t.routers[k].answer == s.routers[k].answer
    ensures PhaseInv(c, t) && ValidInv(c, t) && HeldInv(c, t)
  {
    hide Fits;
  }

  /** A probe moved on, but not into main's hands. */
  lemma StageMoves(c: Config, s: Net, t: Net, i: nat)
    requires Fits(c, s) && Fits(c, t) && PhaseInv(c, s) && ValidInv(c, s) && i < c.n
    requires t.main == s.main && t.closed == s.closed
    requires !s.stage[i].Collected? && !s.stage[i].Unprobed? && !t.stage[i].Collected? && !t.stage[i].Unprobed?
    requires t.stage == s.stage[i := t.stage[i]]
    requires forall k :: 0 <= k < c.n && k != i ==> t.routers[k].answer == s.routers[k].answer
    ensures PhaseInv(c, t) && ValidInv(c, t)
  {
    CountUpdate(s.stage, i, t.stage[i]);
    hide Fits, Count;
    assert forall k :: 0 <= k < c.n && k != i ==> t.stage[k] == s.stage[k];
  }

  /** A router that works on vectors keeps its books: it may finish sending or start a new epoch. */
  lemma BookKept(k: nat, round: nat, g: Stage, q: seq<Msg>, p: seq<Msg>, r: Router, t: Router, done: seq<Reply>,
                 f: Answer, b: Answer)
    requires |r.pool| == 4 && r.curr < 4 && |t.pool| == 4 && t.curr < 4
    requires RouterBook(k, round, g, q, r, done, f, b)
    requires (q == [Probe] <==> p == [Probe]) && t.answer == r.answer && (t.pc.Replying? <==> r.pc.Replying?)
    requires Epoch(t) > Epoch(r) || (Epoch(t) == Epoch(r) && t.pending <= r.pending)
    ensures RouterBook(k, round, g, p, t, done, f, b)
  {
  }

  lemma TakeRouterMain(c: Config, s: Net, i: nat, k: nat)
    requires MainInv(c, s) && Enabled(c, s, Take(i)) && k < c.n
    ensures RouterMain(c, ApplyTake(c, s, i), k)
  {
    assert RouterMain(c, s, k) && RouterInv(c.w, c.n, k, s.routers[k]);
    assert Replies(ApplyTake(c, s, i)) == Replies(s);
    hide NetInv, RouterBook, PhaseInv, ValidInv, HeldInv, RouterInv;
    if k == i {
      assert s.chan[i] == [s.chan[i][0]] && Fits(c, s);
      BookTakes(c.w, c.n, i, s.main.round, s.stage[i], s.chan[i][0], s.routers[i], Replies(s), s.main.first[i],
                s.main.second[i]);
    }
    hide TakeProbe;
  }

  lemma BookTakes(w: Matrix, n: nat, k: nat, round: nat, g: Stage, m: Msg, r: Router, done: seq<Reply>, f: Answer,
                  b: Answer)
    requires Square(w, n) && RouterInv(w, n, k, r) && r.pc.Selecting? && RouterBook(k, round, g, [m], r, done, f, b)
    ensures m.Probe? ==> RouterBook(k, round, Answering, [], TakeProbe(r, n), done, f, b)
    ensures m.Vec? ==> RouterBook(k, round, g, [], r.(pc := Relaxing(m.src, m.slot, 0)), done, f, b)
  {
    hide Honest, Serving;
    assert Epoch(TakeProbe(r, n)) == Epoch(r);
  }

  lemma TakeMain(c: Config, s: Net, i: nat)
    requires MainInv(c, s) && Enabled(c, s, Take(i))
    ensures MainInv(c, ApplyTake(c, s, i))
  {
    var t := ApplyTake(c, s, i);
    TakeInv(c, s, i);
    forall k | 0 <= k < c.n ensures RouterMain(c, t, k) {
      TakeRouterMain(c, s, i, k);
    }
    TakePhase(c, s, i);
    hide NetInv, RouterMain, PhaseInv, ValidInv;
  }

  lemma TakePhase(c: Config, s: Net, i: nat)
    requires MainInv(c, s) && Enabled(c, s, Take(i))
    ensures PhaseInv(c, ApplyTake(c, s, i)) && ValidInv(c, ApplyTake(c, s, i)) && HeldInv(c, ApplyTake(c, s, i))
  {
    var t := ApplyTake(c, s, i);
    assert RouterMain(c, s, i);
    assert s.chan[i] == [s.chan[i][0]];
    hide NetInv, RouterMain, PhaseInv, ValidInv;
    if s.chan[i][0].Vec? {
      SameStages(c, s, t);
    } else {
      StageMoves(c, s, t, i);
    }
  }

  lemma SendMain(c: Config, s: Net, i: nat, x: nat)
    requires MainInv(c, s) && Enabled(c, s, Send(i, x))
    ensures MainInv(c, ApplySend(c, s, i, x))
  {
    var t := ApplySend(c, s, i, x);
    SendInv(c, s, i, x);
    forall k | 0 <= k < c.n ensures RouterMain(c, t, k) {
      SendRouterMain(c, s, i, x, k);
    }
    hide NetInv, RouterMain;
    SameStages(c, s, t);
  }

  lemma SendRouterMain(c: Config, s: Net, i: nat, x: nat, k: nat)
    requires MainInv(c, s) && Enabled(c, s, Send(i, x)) && k < c.n
    ensures RouterMain(c, ApplySend(c, s, i, x), k)
  {
    var t := ApplySend(c, s, i, x);
    assert RouterMain(c, s, k);
    SendLooks(c, s, i, x, k);
    hide NetInv, RouterBook, ApplySend, Fits;
    BookKept(k, s.main.round, s.stage[k], s.chan[k], t.chan[k], s.routers[k], t.routers[k], Replies(s),
             s.main.first[k], s.main.second[k]);
  }

  lemma SendLooks(c: Config, s: Net, i: nat, x: nat, k: nat)
    requires ValidConfig(c) && Fits(c, s) && Enabled(c, s, Send(i, x)) && k < c.n
    ensures var t := ApplySend(c, s, i, x);
            && (s.chan[k] == [Probe] <==> t.chan[k] == [Probe])
            && t.completed == s.completed && t.stage == s.stage && t.main == s.main
            && var q, r := s.routers[k], t.routers[k];
               && r.answer == q.answer && (r.pc.Replying? <==> q.pc.Replying?)
               && Epoch(r) == Epoch(q) && r.pending <= q.pending
  {
    var dst := s.routers[i].targets[x];
    assert s.chan[dst] == [];
    assert ApplySend(c, s, i, x).chan[dst][0].Vec?;
  }

  lemma RelaxMain(c: Config, s: Net, i: nat)
    requires MainInv(c, s) && Enabled(c, s, Relax(i))
    ensures MainInv(c, ApplyRelax(c, s, i))
  {
    var t := ApplyRelax(c, s, i);
    RelaxInv(c, s, i);
    forall k | 0 <= k < c.n ensures RouterMain(c, t, k) {
      RelaxRouterMain(c, s, i, k);
    }
    hide NetInv, RouterMain;
    SameStages(c, s, t);
  }

  lemma RelaxRouterMain(c: Config, s: Net, i: nat, k: nat)
    requires MainInv(c, s) && Enabled(c, s, Relax(i)) && k < c.n
    ensures RouterMain(c, ApplyRelax(c, s, i), k)
  {
    var t := ApplyRelax(c, s, i);
    assert RouterMain(c, s, k);
    if k == i {
      var r := s.routers[i];
      assert RouterInv(c.w, c.n, i, r);
      RelaxServing(c.w, c.n, i, r, c.w[i][r.pc.src], s.routers[r.pc.src].pool[r.pc.slot].dist[r.pc.j]);
    }
    BookKept(k, s.main.round, s.stage[k], s.chan[k], t.chan[k], s.routers[k], t.routers[k], Replies(s),
             s.main.first[k], s.main.second[k]);
    hide NetInv, RouterBook;
  }

  lemma DecideMain(c: Config, s: Net, i: nat)
    requires MainInv(c, s) && Enabled(c, s, Decide(i))
    ensures MainInv(c, ApplyDecide(c, s, i))
  {
    var t := ApplyDecide(c, s, i);
    DecideInv(c, s, i);
    forall k | 0 <= k < c.n ensures RouterMain(c, t, k) {
      DecideRouterMain(c, s, i, k);
    }
    hide NetInv, RouterMain;
    SameStages(c, s, t);
  }

  lemma DecideRouterMain(c: Config, s: Net, i: nat, k: nat)
    requires MainInv(c, s) && Enabled(c, s, Decide(i)) && k < c.n
    ensures RouterMain(c, ApplyDecide(c, s, i), k)
  {
    var t := ApplyDecide(c, s, i);
    assert RouterMain(c, s, k) && Fits(c, s) && Replies(t) == Replies(s);
    assert RouterInv(c.w, c.n, k, s.routers[k]);
    hide NetInv, RouterBook, PhaseInv, ValidInv, HeldInv, RouterInv;
    if k == i {
      DecideLooks(c.w, c.n, i, s.routers[i]);
      hide EndOfLoop;
      BookKept(k, s.main.round, s.stage[k], s.chan[k], t.chan[k], s.routers[k], t.routers[k], Replies(s),
               s.main.first[k], s.main.second[k]);
    }
  }

  lemma DecideLooks(w: Matrix, n: nat, me: nat, r: Router)
    requires Square(w, n) && RouterInv(w, n, me, r) && r.pc.Deciding?
    ensures var s := EndOfLoop(r, n);
            && s.answer == r.answer && !s.pc.Replying?
            && (Epoch(s) > Epoch(r) || (Epoch(s) == Epoch(r) && s.pending <= r.pending))
  {
    RotateRoles(r, n);
    hide Slot, Honest, Serving;
  }

  lemma GiveAnswerMain(c: Config, s: Net, i: nat)
    requires MainInv(c, s) && Enabled(c, s, GiveAnswer(i))
    ensures MainInv(c, ApplyAnswer(c, s, i))
  {
    var t := ApplyAnswer(c, s, i);
    StepInv(c, s, GiveAnswer(i));
    assert Replies(t) == Replies(s) + [Reply(i, s.routers[i].answer)];
    assert RouterMain(c, s, i);
    hide NetInv, RouterMain;
    forall k | 0 <= k < c.n ensures RouterMain(c, t, k) {
      GiveAnswerRouterMain(c, s, i, k);
    }
    StageMoves(c, s, t, i);
    AppendsOne(Replies(s), Reply(i, s.routers[i].answer));
  }

  /** A router that is answering has no reply out yet. */
  lemma AppendsOne(done: seq<Reply>, reply: Reply)
    requires OneEach(done) && !RepliedBy(done, reply.src)
    ensures OneEach(done + [reply])
  {
  }

  lemma GiveAnswerRouterMain(c: Config, s: Net, i: nat, k: nat)
    requires MainInv(c, s) && Enabled(c, s, GiveAnswer(i)) && k < c.n
    ensures RouterMain(c, ApplyAnswer(c, s, i), k)
  {
    assert RouterMain(c, s, k) && RouterMain(c, s, i);
    var t := ApplyAnswer(c, s, i);
    var f, b := s.main.first[k], s.main.second[k];
    assert Replies(t) == Replies(s) + [Reply(i, s.routers[i].answer)];
    hide NetInv, RouterBook, Fits;
    if k == i {
      BookAnswers(i, s.main.round, s.stage[i], s.chan[i], s.routers[i], Replies(s), f, b);
    } else {
      BookIgnores(k, s.main.round, s.stage[k], s.chan[k], s.routers[k], Replies(s), f, b,
                  Reply(i, s.routers[i].answer));
    }
  }

  lemma BookAnswers(k: nat, round: nat, g: Stage, q: seq<Msg>, r: Router, done: seq<Reply>, f: Answer, b: Answer)
    requires |r.pool| == 4 && r.curr < 4 && r.pc.Replying? && RouterBook(k, round, g, q, r, done, f, b)
    ensures RouterBook(k, round, Answered, q, r.(pc := Deciding), done + [Reply(k, r.answer)], f, b)
  {
    var more := done + [Reply(k, r.answer)];
    assert more[|done|].src == k;
  }

  lemma BookIgnores(k: nat, round: nat, g: Stage, q: seq<Msg>, r: Router, done: seq<Reply>, f: Answer, b: Answer,
                    other: Reply)
    requires |r.pool| == 4 && r.curr < 4 && RouterBook(k, round, g, q, r, done, f, b) && other.src != k
    ensures RouterBook(k, round, g, q, r, done + [other], f, b)
  {
    var more := done + [other];
    if RepliedBy(done, k) {
      var x :| 0 <= x < |done| && done[x].src == k;
      assert more[x].src == k;
    }
  }

  lemma StopMain(c: Config, s: Net, i: nat)
    requires MainInv(c, s) && Enabled(c, s, Stop(i))
    ensures MainInv(c, ApplyStop(c, s, i))
  {
    var t := ApplyStop(c, s, i);
    StepInv(c, s, Stop(i));
    forall k | 0 <= k < c.n ensures RouterMain(c, t, k) {
      assert RouterMain(c, s, k);
    }
    hide NetInv, RouterMain;
    SameStages(c, s, t);
  }

  // ---------- main's own steps ----------

  lemma ProbeMain(c: Config, s: Net)
    requires MainInv(c, s) && s.main.phase.Probing? && MainEnabled(c, s)
    ensures MainInv(c, ApplyProbe(c, s))
  {
    var t := ApplyProbe(c, s);
    var i := s.main.phase.i;
    StepInv(c, s, MainStep);
    forall k | 0 <= k < c.n ensures RouterMain(c, t, k) {
      assert RouterMain(c, s, k);
      if k == i {
        assert s.chan[i] == [] && t.chan[i] == [Probe];
      }
    }
    if i + 1 == c.n {
      CountNone(t.stage);
    }
    hide NetInv, RouterMain, Count;
  }

  /** The reply main holds is its sender's answer, which has not been collected, and its only one. */
  lemma HeldReply(c: Config, s: Net)
    requires MainInv(c, s) && s.main.held != []
    ensures var k := s.main.held[0].src;
            && s.stage[k].Answered? && s.main.held[0] == Reply(k, s.routers[k].answer)
            && FromPast(s.routers[k], s.routers[k].answer) && !RepliedBy(s.completed, k)
  {
    var k := s.main.held[0].src;
    hide MainInv, RouterInv, OneEach, RouterBook, RepliedBy, FromPast, Fits, Replies;
    HeldFits(c, s);
    Facts(c, s, k);
    HeadIsOnly(s.main.held[0], s.completed);
    BookHead(k, s.main.round, s.stage[k], s.chan[k], s.routers[k], s.main.held[0], s.completed, s.main.first[k],
             s.main.second[k]);
  }

  lemma BookHead(k: nat, round: nat, g: Stage, q: seq<Msg>, r: Router, reply: Reply, rest: seq<Reply>, f: Answer,
                 b: Answer)
    requires |r.pool| == 4 && r.curr < 4 && reply.src == k && RouterBook(k, round, g, q, r, [reply] + rest, f, b)
    ensures g.Answered? && reply == Reply(k, r.answer) && FromPast(r, r.answer)
  {
    HeadIsThere(reply, rest);
    assert ([reply] + rest)[0] == reply;
    hide FromPast, StoredInv;
  }

  lemma HeldFits(c: Config, s: Net)
    requires MainInv(c, s) && s.main.held != []
    ensures Fits(c, s) && s.main.held[0].src < c.n && OneEach(Replies(s))
    ensures Replies(s) == [s.main.held[0]] + s.completed
    ensures forall k :: 0 <= k < c.n ==> |s.routers[k].pool| == 4 && s.routers[k].curr < 4
    ensures |s.routers| == |s.stage| == |s.chan| == |s.main.first| == |s.main.second| == c.n
  {
    hide RouterMain, PhaseInv, ValidInv, PairInv, RouterInv, OneEach;
  }

  lemma HeadIsThere(reply: Reply, rest: seq<Reply>)
    ensures RepliedBy([reply] + rest, reply.src) && ([reply] + rest)[0] == reply
  {
    assert ([reply] + rest)[0].src == reply.src;
  }

  lemma HeadIsOnly(reply: Reply, rest: seq<Reply>)
    requires OneEach([reply] + rest)
    ensures !RepliedBy(rest, reply.src) && OneEach(rest)
  {
    var all := [reply] + rest;
    forall x | 0 <= x < |rest| ensures rest[x].src != reply.src {
      assert all[0].src != all[x + 1].src;
    }
    forall x, y | 0 <= x < y < |rest| ensures rest[x].src != rest[y].src {
      assert all[x + 1].src != all[y + 1].src;
    }
  }

  /** main takes a reply from the channel. */
  lemma ReceiveMain(c: Config, s: Net)
    requires MainInv(c, s) && s.main.phase.Collecting? && s.main.held == [] && s.completed != []
    ensures MainInv(c, ApplyReceive(c, s))
  {
    var t := ApplyReceive(c, s);
    assert Replies(t) == Replies(s);
    StepInv(c, s, MainStep);
    forall k | 0 <= k < c.n ensures RouterMain(c, t, k) {
      assert RouterMain(c, s, k);
    }
    hide NetInv, RouterMain, Count;
  }

  /** main reads the first operand. */
  lemma ReadMain(c: Config, s: Net)
    requires MainInv(c, s) && s.main.phase.Collecting? && Compares(c, s) && s.main.operand.Unread?
    ensures MainInv(c, ApplyRead(c, s))
  {
    var t := ApplyRead(c, s);
    var k := s.main.held[0].src;
    assert Replies(t) == Replies(s);
    StepInv(c, s, MainStep);
    assert RouterInv(c.w, c.n, k, s.routers[k]);
    SlotEpoch(s.routers[k], s.main.first[k].slot);
    forall k | 0 <= k < c.n ensures RouterMain(c, t, k) {
      assert RouterMain(c, s, k);
    }
    hide NetInv, RouterMain, Count, RouterInv;
  }

  /** The comparison of the second round, whose operands are read at two moments: it succeeds exactly when the
      router rotated a multiple of four times between its two answers and the epoch behind the pointer has not
      been rewritten since the first operand was read. */
  lemma PointersCompareModuloFour(c: Config, s: Net)
    requires MainInv(c, s) && Compares(c, s) && s.main.operand.Read?
    ensures var k := s.main.held[0].src; var a, b := s.main.first[k], s.main.held[0].answer;
            && (a.slot == b.slot <==> (b.epoch - a.epoch) % 4 == 0)
            && (SameEpoch(c, s) <==>
                  (b.epoch - a.epoch) % 4 == 0 && s.routers[k].pool[a.slot].epoch == s.main.operand.epoch)
  {
    hide MainInv, RouterInv, Slot, Shaped;
    HeldFits(c, s);
    var k := s.main.held[0].src;
    var a, b := s.main.first[k], s.main.held[0].answer;
    HeldReply(c, s);
    Facts(c, s, k);
    OperandFact(c, s);
    SlotEpochs(c.w, c.n, k, s.routers[k], a.slot, b.slot);
    SameRemainder(a.epoch, b.epoch);
  }

  lemma OperandFact(c: Config, s: Net)
    requires MainInv(c, s) && s.main.operand.Read?
    ensures Compares(c, s) && Slot(s.main.operand.epoch) == s.main.first[s.main.held[0].src].slot
  {
    hide RouterMain, RouterInv, PairInv, PhaseInv, ValidInv;
  }

  lemma SlotEpochs(w: Matrix, n: nat, k: nat, r: Router, x: nat, y: nat)
    requires Square(w, n) && RouterInv(w, n, k, r) && x < 4 && y < 4
    ensures Slot(r.pool[x].epoch) == x && Slot(r.pool[y].epoch) == y
  {
    SlotEpoch(r, x);
    SlotEpoch(r, y);
    hide Slot, Honest, Serving;
  }

  /** main is about to be done with the reply it holds. */
  predicate Collects(c: Config, s: Net)
    requires Fits(c, s)
  {
    s.main.phase.Collecting? && s.main.held != [] && (Compares(c, s) ==> s.main.operand.Read?)
  }

  /** main's locals after one reply: the verdict so far is the old one and this answer's acceptance, unless
      the comparison was torn. */
  lemma AbsorbAccepts(c: Config, s: Net)
    requires MainInv(c, s) && Collects(c, s)
    ensures var k := s.main.held[0].src; var m := Absorb(c, s); var a := s.routers[k].answer;
            && m.round == s.main.round && m.phase == s.main.phase && m.operand.Unread? && (s.main.torn ==> m.torn)
            && (m.valid <==> s.main.valid && Accepted(s.main.round, s.routers[k], s.main.first[k]) && !m.torn)
            && (m.round == 1 ==> (a.Converged? ==> m.first == s.main.first[k := a])
                                 && (a.Busy? ==> m.first == s.main.first) && m.second == s.main.second && !m.torn)
            && (m.round == 2 ==> m.first == s.main.first && m.second == s.main.second[k := a])
  {
    var k := s.main.held[0].src;
    HeldReply(c, s);
    assert RouterMain(c, s, k);
    if Compares(c, s) {
      PointersCompareModuloFour(c, s);
      SameRemainder(s.main.first[k].epoch, s.main.held[0].answer.epoch);
    }
    hide NetInv, StageInv, SameEpoch;
  }

  lemma CollectBook(c: Config, s: Net, k: nat)
    requires MainInv(c, s) && Collects(c, s) && k < c.n
    ensures var h := s.main.held[0].src; var m := Absorb(c, s);
            RouterBook(k, m.round, if k == h then Collected else s.stage[k], s.chan[k], s.routers[k],
                       s.completed, m.first[k], m.second[k])
  {
    var m, g := Absorb(c, s), s.stage[k];
    assert Replies(s) == [s.main.held[0]] + s.completed;
    assert RouterMain(c, s, k);
    HeldReply(c, s);
    hide NetInv, Absorb, RouterBook, HeldInv, PhaseInv, ValidInv, FromPast, Compares;
    AbsorbAccepts(c, s);
    if k == s.main.held[0].src {
      BookCollects(k, m.round, s.chan[k], s.routers[k], s.main.held[0], s.completed, s.main.first[k], s.main.second[k]);
    } else {
      BookForgets(k, m.round, g, s.chan[k], s.routers[k], s.main.held[0], s.completed, m.first[k], m.second[k]);
    }
  }

  /** A reply has been collected; the first round keeps it in completed[]. */
  lemma BookCollects(k: nat, round: nat, q: seq<Msg>, r: Router, reply: Reply, done: seq<Reply>, f: Answer, b: Answer)
    requires |r.pool| == 4 && r.curr < 4 && (round == 1 || round == 2) && !RepliedBy(done, k)
    requires RouterBook(k, round, Answered, q, r, [reply] + done, f, b)
    ensures round == 1 ==> RouterBook(k, round, Collected, q, r, done, if r.answer.Converged? then r.answer else f, b)
    ensures round == 2 ==> RouterBook(k, round, Collected, q, r, done, f, r.answer)
  {
  }

  /** Somebody else's reply has been collected. */
  lemma BookForgets(k: nat, round: nat, g: Stage, q: seq<Msg>, r: Router, other: Reply, done: seq<Reply>,
                    f: Answer, b: Answer)
    requires |r.pool| == 4 && r.curr < 4 && other.src != k && RouterBook(k, round, g, q, r, [other] + done, f, b)
    ensures RouterBook(k, round, g, q, r, done, f, b)
  {
    var all := [other] + done;
    assert forall x :: 0 <= x < |done| ==> done[x] == all[x + 1];
    if RepliedBy(all, k) {
      var x :| 0 <= x < |all| && all[x].src == k;
      assert done[x - 1].src == k;
    }
  }

  /** The stages after the head reply has been taken. */
  function Taken(c: Config, s: Net): seq<Stage>
    requires Fits(c, s) && s.main.held != []
  {
    s.stage[s.main.held[0].src := Collected]
  }

  lemma TakenCounts(c: Config, s: Net)
    requires MainInv(c, s) && Collects(c, s)
    ensures Count(Taken(c, s)) == s.main.phase.i + 1
    ensures s.main.phase.i + 1 == c.n ==> forall k :: 0 <= k < c.n ==> Taken(c, s)[k].Collected?
  {
    HeldReply(c, s);
    CountUpdate(s.stage, s.main.held[0].src, Collected);
    CountBounds(Taken(c, s));
  }

  lemma TakenValid(c: Config, s: Net)
    requires MainInv(c, s) && Collects(c, s)
    ensures var m := Absorb(c, s);
            m.valid <==> !m.torn && forall k :: 0 <= k < c.n && Taken(c, s)[k].Collected? ==>
                           Accepted(m.round, s.routers[k], m.first[k])
  {
    var h := s.main.held[0].src;
    var m := Absorb(c, s);
    HeldReply(c, s);
    AbsorbAccepts(c, s);
    hide NetInv, Absorb, RouterMain;
    assert Taken(c, s)[h].Collected?;
    forall k | 0 <= k < c.n && k != h
      ensures Taken(c, s)[k] == s.stage[k] && m.first[k] == s.main.first[k] {
    }
    assert !s.stage[h].Collected?;
    assert Accepted(m.round, s.routers[h], m.first[h]) <==> Accepted(m.round, s.routers[h], s.main.first[h]);
  }

  lemma MoreForm(c: Config, s: Net)
    requires Fits(c, s) && Collects(c, s) && s.main.phase.i + 1 < c.n
    ensures ApplyCollect(c, s) == Net(s.routers, s.chan, s.completed, s.closed,
                                      Absorb(c, s).(phase := Collecting(s.main.phase.i + 1)), Taken(c, s))
  {
    hide Absorb;
  }

  /** main takes one reply and more are to come. */
  lemma CollectMore(c: Config, s: Net)
    requires MainInv(c, s) && Collects(c, s) && s.main.phase.i + 1 < c.n
    ensures MainInv(c, ApplyCollect(c, s))
  {
    var t := ApplyCollect(c, s);
    StepInv(c, s, MainStep);
    MoreForm(c, s);
    hide NetInv, RouterBook, Absorb, Count, ApplyCollect;
    assert Replies(t) == s.completed;
    forall k | 0 <= k < c.n ensures RouterMain(c, t, k) {
      CollectBook(c, s, k);
    }
    TakenCounts(c, s);
    TakenValid(c, s);
    AbsorbAccepts(c, s);
    RestIsOneEach(c, s);
    EmptyHanded(c, t);
    assert forall k :: 0 <= k < c.n ==> !t.stage[k].Unprobed?;
    CollectingInv(c, t);
  }

  lemma CollectingInv(c: Config, t: Net)
    requires NetInv(c, t) && t.main.phase.Collecting? && !t.closed && (t.main.round == 1 || t.main.round == 2)
    requires forall k :: 0 <= k < c.n ==> !t.stage[k].Unprobed?
    requires Count(t.stage) == t.main.phase.i
    requires t.main.valid <==> !t.main.torn && forall k :: 0 <= k < c.n && t.stage[k].Collected? ==>
                                 Accepted(t.main.round, t.routers[k], t.main.first[k])
    requires forall k :: 0 <= k < c.n ==> RouterMain(c, t, k)
    requires (t.main.torn ==> t.main.round == 2) && HeldInv(c, t)
    ensures MainInv(c, t)
  {
    hide NetInv, RouterMain, Accepted, Fits, Count, HeldInv;
  }

  /** With nothing in hand, main's own part of the bookkeeping is about completed_channel only. */
  lemma EmptyHanded(c: Config, t: Net)
    requires Fits(c, t) && t.main.held == [] && t.main.operand.Unread? && OneEach(t.completed)
    ensures HeldInv(c, t) && Replies(t) == t.completed
  {
  }

  lemma RestIsOneEach(c: Config, s: Net)
    requires MainInv(c, s) && s.main.held != []
    ensures OneEach(s.completed)
  {
    assert Replies(s) == [s.main.held[0]] + s.completed;
    HeadIsOnly(s.main.held[0], s.completed);
  }

  lemma BookRestarts(k: nat, q: seq<Msg>, r: Router, done: seq<Reply>, f: Answer, b: Answer)
    requires |r.pool| == 4 && r.curr < 4 && r.answer.Converged?
    requires RouterBook(k, 1, Collected, q, r, done, f, b)
    ensures RouterBook(k, 2, Unprobed, q, r, done, f, b)
  {
  }

  /** The last reply has been taken: its verdict, and what main does next. */
  lemma LastReply(c: Config, s: Net)
    requires MainInv(c, s) && Collects(c, s) && s.main.phase.i + 1 == c.n
    ensures var m := Absorb(c, s);
            && (m.round == 1 || m.round == 2) && (m.torn ==> m.round == 2)
            && (m.valid <==> !m.torn && forall k :: 0 <= k < c.n ==> Accepted(m.round, s.routers[k], m.first[k]))
            && (forall k :: 0 <= k < c.n ==>
                  RouterBook(k, m.round, Collected, s.chan[k], s.routers[k], s.completed, m.first[k], m.second[k]))
  {
    var m := Absorb(c, s);
    TakenCounts(c, s);
    TakenValid(c, s);
    AbsorbAccepts(c, s);
    forall k | 0 <= k < c.n
      ensures RouterBook(k, m.round, Collected, s.chan[k], s.routers[k], s.completed, m.first[k], m.second[k])
    {
      CollectBook(c, s, k);
      assert Taken(c, s)[k].Collected?;
    }
    hide NetInv, Absorb, Count, RouterMain, RouterBook, Accepted;
  }

  /** A good first round is followed by the second. */
  lemma CollectSwitch(c: Config, s: Net)
    requires MainInv(c, s) && Collects(c, s) && s.main.phase.i + 1 == c.n
    requires var m := Absorb(c, s); m.round == 1 && m.valid
    ensures MainInv(c, ApplyCollect(c, s))
  {
    var t := ApplyCollect(c, s);
    StepInv(c, s, MainStep);
    LastReply(c, s);
    var m := Absorb(c, s);
    RestIsOneEach(c, s);
    EmptyHanded(c, t);
    hide Absorb, NetInv, HeldInv;
    forall k | 0 <= k < c.n ensures RouterMain(c, t, k) {
      assert Accepted(m.round, s.routers[k], m.first[k]);
      BookRestarts(k, s.chan[k], s.routers[k], s.completed, m.first[k], m.second[k]);
    }
    hide RouterMain, Accepted;
  }

  /** Any other last reply gives the verdict. */
  lemma CollectJudge(c: Config, s: Net)
    requires MainInv(c, s) && Collects(c, s) && s.main.phase.i + 1 == c.n
    requires var m := Absorb(c, s); !(m.round == 1 && m.valid)
    ensures MainInv(c, ApplyCollect(c, s))
  {
    StepInv(c, s, MainStep);
    LastReply(c, s);
    TakenCounts(c, s);
    assert !s.closed;
    JudgeForm(c, s);
    RestIsOneEach(c, s);
    EmptyHanded(c, ApplyCollect(c, s));
    JudgedInv(c, ApplyCollect(c, s));
  }

  lemma JudgedInv(c: Config, t: Net)
    requires NetInv(c, t) && t.main.phase.Judged? && !t.closed && (t.main.round == 1 || t.main.round == 2)
    requires forall k :: 0 <= k < c.n ==> t.stage[k].Collected?
    requires t.main.valid <==>
      !t.main.torn && forall k :: 0 <= k < c.n ==> Accepted(t.main.round, t.routers[k], t.main.first[k])
    requires !(t.main.round == 1 && t.main.valid) && (t.main.torn ==> t.main.round == 2)
    requires HeldInv(c, t) && Replies(t) == t.completed
    requires forall k :: 0 <= k < c.n ==>
      RouterBook(k, t.main.round, Collected, t.chan[k], t.routers[k], t.completed, t.main.first[k], t.main.second[k])
    ensures MainInv(c, t)
  {
    hide NetInv, RouterBook, Accepted, Fits, HeldInv, Replies;
  }

  lemma JudgeForm(c: Config, s: Net)
    requires Fits(c, s) && Collects(c, s) && s.main.phase.i + 1 == c.n
    requires var m := Absorb(c, s); !(m.round == 1 && m.valid)
    ensures ApplyCollect(c, s) == Net(s.routers, s.chan, s.completed, s.closed,
                                      Absorb(c, s).(phase := Judged), Taken(c, s))
  {
    hide Absorb;
  }

  lemma CollectMain(c: Config, s: Net, i: nat)
    requires MainInv(c, s) && s.main.phase == Collecting(i) && Collects(c, s)
    ensures MainInv(c, ApplyCollect(c, s))
  {
    if i + 1 < c.n {
      CollectMore(c, s);
    } else {
      var m := Absorb(c, s);
      if m.round == 1 && m.valid { CollectSwitch(c, s); } else { CollectJudge(c, s); }
    }
  }

  lemma VerdictMain(c: Config, s: Net)
    requires MainInv(c, s) && s.main.phase.Judged?
    ensures MainInv(c, ApplyVerdict(c, s))
  {
    var t := ApplyVerdict(c, s);
    StepInv(c, s, MainStep);
    forall k | 0 <= k < c.n ensures RouterMain(c, t, k) {
      assert RouterMain(c, s, k);
    }
    hide NetInv, RouterMain;
  }

  lemma StepMain(c: Config, s: Net, a: Action)
    requires MainInv(c, s) && Enabled(c, s, a)
    ensures MainInv(c, Apply(c, s, a))
  {
    match a {
      case Take(i) => TakeMain(c, s, i);
      case Send(i, x) => SendMain(c, s, i, x);
      case Relax(i) => RelaxMain(c, s, i);
      case Decide(i) => DecideMain(c, s, i);
      case GiveAnswer(i) => GiveAnswerMain(c, s, i);
      case Stop(i) => StopMain(c, s, i);
      case MainStep =>
        match s.main.phase {
          case Probing(_) => ProbeMain(c, s);
          case Collecting(i) =>
            if s.main.held == [] {
              ReceiveMain(c, s);
            } else if Compares(c, s) && s.main.operand.Unread? {
              ReadMain(c, s);
            } else {
              CollectMain(c, s, i);
            }
          case Judged => VerdictMain(c, s);
        }
    }
  }

  lemma {:induction false} RunMain(c: Config, run: seq<Net>, acts: seq<Action>, x: nat)
    requires ValidConfig(c) && IsRun(c, run, acts) && x < |run|
    ensures MainInv(c, run[x])
  {
    if x == 0 {
      InitMain(c);
    } else {
      RunMain(c, run, acts, x - 1);
      StepMain(c, run[x - 1], acts[x - 1]);
    }
  }
}
