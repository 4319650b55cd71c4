/** Building blocks for runs, continued: whole rounds of check_done over routers that have nothing to say. Routers
    in `paused` are slow in select and do not act meanwhile. */
module Probes {
  import opened Distances
  import opened Routers
  import opened Network
  import opened NetworkInv
  import opened DetectorInv
  import opened Detector
  import opened Selects
  import opened Liveness

  lemma NotClosed(c: Config, s: Net, paused: set<nat>)
    requires ReachedWith(c, s, paused) && !s.main.phase.Closed?
    ensures !s.closed
  {
    ReachedInv(c, s, paused);
    assert ValidInv(c, s);
  }

  // ---------- probes ----------

  /** main probes `k`, who takes the probe. */
  function ProbedNet(c: Config, s: Net, k: nat): Net
    requires Fits(c, s) && k < c.n
  {
    s.(routers := s.routers[k := TakeProbe(s.routers[k], c.n)], stage := s.stage[k := Answering],
       main := s.main.(phase := if k + 1 < c.n then Probing(k + 1) else Collecting(0)))
  }

  lemma ProbeOne(c: Config, s: Net, k: nat, paused: set<nat>)
    requires ReachedWith(c, s, paused) && Fits(c, s) && c.cap == 1 && k < c.n && s.main.phase == Probing(k)
    requires s.chan[k] == [] && s.routers[k].pc.Selecting? && k !in paused
    ensures ReachedWith(c, ProbedNet(c, s, k), paused) && Fits(c, ProbedNet(c, s, k))
  {
    NotClosed(c, s, paused);
    ProbeForm(c, s, k);
    hide ReachedWith, TakeProbe, ProbedNet, ApplyTake, ApplyProbe, Fits;
    Go(c, s, MainStep, paused);
    var u := ApplyProbe(c, s);
    Go(c, u, Take(k), paused);
  }

  lemma ProbeForm(c: Config, s: Net, k: nat)
    requires Fits(c, s) && c.cap == 1 && k < c.n && s.main.phase == Probing(k) && s.chan[k] == []
    requires s.routers[k].pc.Selecting? && !s.closed
    ensures Enabled(c, s, MainStep)
    ensures var u := ApplyProbe(c, s); Enabled(c, u, Take(k)) && IsFirst(c, u, Take(k)) && Apply(c, s, MainStep) == u
    ensures ApplyTake(c, ApplyProbe(c, s), k) == ProbedNet(c, s, k)
  {
    var u := ApplyProbe(c, s);
    assert u.chan[k] == [Probe] && u.chan[k][1..] == [];
    var t := ApplyTake(c, u, k);
    assert t.chan == s.chan && t.stage == s.stage[k := Answering];
    hide TakeProbe, Shaped;
  }

  /** main probes everybody from `i` on. */
  lemma {:induction false} ProbeRest(c: Config, s: Net, i: nat, paused: set<nat>) returns (t: Net)
    requires ReachedWith(c, s, paused) && Fits(c, s) && c.cap == 1 && i < c.n && s.main.phase == Probing(i)
    requires forall j :: i <= j < c.n ==> s.chan[j] == [] && s.routers[j].pc.Selecting? && j !in paused
    ensures ReachedWith(c, t, paused) && Fits(c, t) && t.chan == s.chan && t.completed == s.completed
    ensures t.main == s.main.(phase := Collecting(0))
    ensures forall j :: 0 <= j < c.n ==> t.routers[j] == if j < i then s.routers[j] else TakeProbe(s.routers[j], c.n)
    decreases c.n - i
  {
    ProbeOne(c, s, i, paused);
    var u := ProbedNet(c, s, i);
    hide ReachedWith, TakeProbe, Fits;
    if i + 1 < c.n {
      t := ProbeRest(c, u, i + 1, paused);
    } else {
      t := u;
    }
  }

  // ---------- replies ----------

  /** Between select and reply, with nothing new. */
  predicate Standing(r: Router) {
    (r.pc.Selecting? || r.pc.Replying?) && !r.changed
  }

  predicate AllStand(c: Config, s: Net)
    requires Fits(c, s)
  {
    forall j :: 0 <= j < c.n ==> Standing(s.routers[j]) && (s.chan[j] == [] || s.chan[j][0].Vec?)
  }

  /** The routers have at most moved from replying to waiting. */
  predicate Moved(s: Net, t: Net) {
    && |t.routers| == |s.routers| && t.chan == s.chan
    && forall j :: 0 <= j < |s.routers| ==>
         t.routers[j] == s.routers[j] || t.routers[j] == s.routers[j].(pc := Selecting)
  }

  /** main waits for a reply: some router that has not been collected is about to give its answer. */
  lemma SomebodyReplies(c: Config, s: Net, paused: set<nat>) returns (k: nat)
    requires ReachedWith(c, s, paused) && Fits(c, s) && AllStand(c, s) && s.main.phase.Collecting?
    requires s.main.held == [] && s.completed == []
    ensures k < c.n && s.routers[k].pc.Replying? && k !in paused
  {
    ReachedInv(c, s, paused);
    CountBounds(s.stage);
    k := Uncollected(s.stage);
    assert RouterMain(c, s, k);
    assert Standing(s.routers[k]);
    if k in paused { PausedSelects(c, s, paused, k); }
    hide DetectInv, NetInv, ReachedWith;
  }

  lemma AnswerOne(c: Config, s: Net, paused: set<nat>) returns (t: Net)
    requires ReachedWith(c, s, paused) && Fits(c, s) && c.replyCap == 1 && AllStand(c, s) && s.main.phase.Collecting?
    requires s.main.held == [] && s.completed == []
    ensures ReachedWith(c, t, paused) && Fits(c, t) && AllStand(c, t) && Moved(s, t) && t.main == s.main
    ensures |t.completed| == 1
  {
    var k := SomebodyReplies(c, s, paused);
    hide ReachedWith;
    Go(c, s, GiveAnswer(k), paused);
    var u := ApplyAnswer(c, s, k);
    Go(c, u, Decide(k), paused);
    t := ApplyDecide(c, u, k);
    assert t.routers[k] == s.routers[k].(pc := Selecting);
  }

  /** main receives a reply and reads, if it has to, the first operand of its comparison. */
  lemma ReceiveOne(c: Config, s: Net, paused: set<nat>) returns (t: Net)
    requires ReachedWith(c, s, paused) && Fits(c, s) && s.main.phase.Collecting?
    requires s.main.held == [] && |s.completed| == 1
    ensures ReachedWith(c, t, paused) && Fits(c, t) && Collects(c, t)
    ensures t == s.(completed := [], main := t.main)
    ensures t.main == s.main.(held := t.main.held, operand := t.main.operand)
    ensures Compares(c, t) ==>
      t.main.operand == Read(t.routers[t.main.held[0].src].pool[t.main.first[t.main.held[0].src].slot].epoch)
  {
    hide ReachedWith;
    Go(c, s, MainStep, paused);
    var u := ApplyReceive(c, s);
    assert u.completed == [];
    if Compares(c, u) {
      Go(c, u, MainStep, paused);
      t := ApplyRead(c, u);
    } else {
      t := u;
    }
  }

  /** Nobody has acted between the two reads: the comparison is not torn. */
  lemma NotTorn(c: Config, s: Net)
    requires Fits(c, s) && Collects(c, s)
    requires Compares(c, s) ==>
      s.main.operand == Read(s.routers[s.main.held[0].src].pool[s.main.first[s.main.held[0].src].slot].epoch)
    ensures Absorb(c, s).torn == s.main.torn
  {
  }

  /** main's stored answers after the last reply, for both rounds. */
  lemma LastCollect(c: Config, s: Net, paused: set<nat>)
    requires ReachedWith(c, s, paused) && Fits(c, s) && Collects(c, s) && s.main.phase.i + 1 == c.n
    ensures var t := ApplyCollect(c, s);
            && t.routers == s.routers && t.chan == s.chan && t.completed == s.completed && t.main.held == []
            && t.main.torn == Absorb(c, s).torn
            && (s.main.round == 1 && (forall k :: 0 <= k < c.n ==> s.routers[k].answer.Converged?) ==>
                  t.main.round == 2 && t.main.phase == Probing(0)
                  && forall k :: 0 <= k < c.n ==> t.main.first[k] == s.routers[k].answer)
            && (s.main.round == 2 ==>
                  t.main.round == 2 && t.main.phase == Judged && t.main.first == s.main.first
                  && forall k :: 0 <= k < c.n ==> t.main.second[k] == s.routers[k].answer)
  {
    ReachedInv(c, s, paused);
    hide DetectInv, NetInv, ReachedWith;
    LastReply(c, s);
    AbsorbAccepts(c, s);
    hide MainInv, Absorb, Fits;
  }

  lemma CollectedMore(c: Config, s: Net, paused: set<nat>)
    requires ReachedWith(c, s, paused) && Fits(c, s) && Collects(c, s) && s.main.phase.i + 1 < c.n
    ensures var t := ApplyCollect(c, s);
            && t.routers == s.routers && t.chan == s.chan && t.completed == s.completed && t.main.held == []
            && t.main.torn == Absorb(c, s).torn
            && t.main.phase == Collecting(s.main.phase.i + 1) && t.main.round == s.main.round
            && (s.main.round == 2 ==> t.main.first == s.main.first)
  {
    ReachedInv(c, s, paused);
    AbsorbAccepts(c, s);
    MoreForm(c, s);
    hide DetectInv, MainInv, NetInv, Absorb, ReachedWith;
  }

  /** What main knows when it has collected everybody's answer. */
  predicate Concluded(c: Config, s: Net, t: Net)
    requires Fits(c, s) && Fits(c, t)
  {
    && Moved(s, t) && t.completed == [] && t.main.held == [] && t.main.round == 2 && t.main.torn == s.main.torn
    && (s.main.round == 1 ==>
          t.main.phase == Probing(0) && forall k :: 0 <= k < c.n ==> t.main.first[k] == s.routers[k].answer)
    && (s.main.round == 2 ==>
          t.main.phase == Judged && t.main.first == s.main.first
          && forall k :: 0 <= k < c.n ==> t.main.second[k] == s.routers[k].answer)
  }

  /** Some router answers, if nobody has, and main receives the reply. */
  lemma NextReply(c: Config, s: Net, paused: set<nat>) returns (t: Net)
    requires ReachedWith(c, s, paused) && Fits(c, s) && c.replyCap == 1 && AllStand(c, s) && s.main.phase.Collecting?
    requires s.main.held == []
    ensures ReachedWith(c, t, paused) && Fits(c, t) && AllStand(c, t) && Collects(c, t) && Moved(s, t)
    ensures t.completed == [] && t.main == s.main.(held := t.main.held, operand := t.main.operand)
    ensures Absorb(c, t).torn == s.main.torn
  {
    var u := s;
    if s.completed == [] {
      u := AnswerOne(c, s, paused);
    }
    hide ReachedWith;
    t := ReceiveOne(c, u, paused);
    NotTorn(c, t);
  }

  lemma MovedTwice(s: Net, t: Net, u: Net)
    requires Moved(s, t) && Moved(t, u)
    ensures Moved(s, u)
  {
  }

  /** main collects all the answers that are still out. */
  lemma {:induction false} CollectRest(c: Config, s: Net, paused: set<nat>) returns (t: Net)
    requires ReachedWith(c, s, paused) && Fits(c, s) && c.replyCap == 1 && AllStand(c, s) && s.main.phase.Collecting?
    requires s.main.held == []
    requires s.main.round == 2 || (s.main.round == 1 && forall k :: 0 <= k < c.n ==> s.routers[k].answer.Converged?)
    ensures ReachedWith(c, t, paused) && Fits(c, t) && AllStand(c, t) && Concluded(c, s, t)
    decreases c.n - s.main.phase.i
  {
    var u := NextReply(c, s, paused);
    Go(c, u, MainStep, paused);
    var v := ApplyCollect(c, u);
    assert forall k :: 0 <= k < c.n ==> u.routers[k].answer == s.routers[k].answer;
    if u.main.phase.i + 1 < c.n {
      CollectedMore(c, u, paused);
      hide ReachedWith, ApplyCollect;
      assert AllStand(c, v);
      t := CollectRest(c, v, paused);
      MovedTwice(s, u, t);
    } else {
      LastCollect(c, u, paused);
      hide ReachedWith, ApplyCollect;
      t := v;
    }
  }
}
