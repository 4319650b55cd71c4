/**
 * The whole network of stress.c: routers, their channels, and the main thread that probes them.
 * Every interleaving of the threads' steps is a run. A select is any enabled entry of the list.
 */
module Network {
  import opened Distances
  import opened Routers

  /** The link matrix, its size, and the two channel capacities given to run_stress. */
  datatype Config = Config(w: Matrix, n: nat, cap: nat, replyCap: nat)

  predicate ValidConfig(c: Config) {
    c.n > 0 && Clamped(c.w, c.n) && SymmetricLinks(c.w, c.n) && c.cap <= 1 && c.replyCap <= 1
  }

  /** NULL, or a pointer to one of a router's four vectors. */
  datatype Msg = Probe | Vec(src: nat, slot: nat)

  /** What travels on completed_channel. For NULL the sender is auxiliary: main never reads it. */
  datatype Reply = Reply(src: nat, answer: Answer)

  /** Auxiliary: how far the current probe of a router has come. */
  datatype Stage = Unprobed | Probed | Answering | Answered | Collected

  datatype Phase = Probing(i: nat) | Collecting(i: nat) | Judged | Closed

  /** The first operand of the comparison in the second round. */
  datatype Operand = Unread | Read(epoch: nat)

  /** check_done's locals. `first` is completed[]; `held` is the reply just received and `operand` what has
      been read for its comparison. Auxiliary: `second` keeps the second round's answers, and `torn` records
      that an epoch was rewritten between the two reads of a comparison. */
  datatype Main = Main(phase: Phase, round: nat, valid: bool, first: seq<Answer>, held: seq<Reply>, operand: Operand,
                       second: seq<Answer>, torn: bool)

  datatype Net = Net(routers: seq<Router>, chan: seq<seq<Msg>>, completed: seq<Reply>, closed: bool,
                     main: Main, stage: seq<Stage>)

  datatype Action = Take(i: nat) | Send(i: nat, x: nat) | Relax(i: nat) | Decide(i: nat)
                  | GiveAnswer(i: nat) | Stop(i: nat) | MainStep

  // ---------- shape ----------

  predicate MsgFits(m: Msg, n: nat) {
    m.Vec? ==> m.src < n && m.slot < 4
  }

  predicate ChanFits(c: Config, q: seq<Msg>) {
    |q| <= c.cap && forall x :: 0 <= x < |q| ==> MsgFits(q[x], c.n)
  }

  predicate AnswerFits(a: Answer) {
    a.Converged? ==> a.slot < 4
  }

  predicate MainFits(n: nat, m: Main) {
    && (m.phase.Probing? || m.phase.Collecting? ==> m.phase.i < n)
    && |m.first| == n && |m.second| == n
    && (forall k :: 0 <= k < n ==> AnswerFits(m.first[k]))
    && |m.held| <= 1 && (m.held != [] ==> m.held[0].src < n && AnswerFits(m.held[0].answer))
  }

  predicate Fits(c: Config, s: Net) {
    && c.n > 0 && Square(c.w, c.n)
    && |s.routers| == c.n && |s.chan| == c.n && |s.stage| == c.n
    && (forall k :: 0 <= k < c.n ==> Shaped(s.routers[k], c.n))
    && (forall k :: 0 <= k < c.n ==> ChanFits(c, s.chan[k]))
    && |s.completed| <= c.replyCap
    && (forall x :: 0 <= x < |s.completed| ==> s.completed[x].src < c.n && AnswerFits(s.completed[x].answer))
    && MainFits(c.n, s.main)
  }

  function FreshMain(n: nat): Main {
    Main(Probing(0), 1, true, seq(n, _ => Busy), [], Unread, seq(n, _ => Busy), false)
  }

  function Init(c: Config): (s: Net)
    requires c.n > 0 && Square(c.w, c.n)
    ensures Fits(c, s)
  {
    Net(seq(c.n, k requires 0 <= k < c.n => Initial(c.w, c.n, k)), seq(c.n, _ => []), [], false,
        FreshMain(c.n), seq(c.n, _ => Unprobed))
  }

  // ---------- steps ----------

  predicate Enabled(c: Config, s: Net, a: Action)
    requires Fits(c, s)
  {
    match a
    case Take(i) => i < c.n && s.routers[i].pc.Selecting? && s.chan[i] != []
    case Send(i, x) =>
      && i < c.n && s.routers[i].pc.Selecting? && x < s.routers[i].pending
      && |s.chan[s.routers[i].targets[x]]| < c.cap
    case Relax(i) => i < c.n && s.routers[i].pc.Relaxing?
    case Decide(i) => i < c.n && s.routers[i].pc.Deciding?
    case GiveAnswer(i) => i < c.n && s.routers[i].pc.Replying? && |s.completed| < c.replyCap
    case Stop(i) => i < c.n && s.routers[i].pc.Selecting? && s.closed
    case MainStep => MainEnabled(c, s)
  }

  predicate MainEnabled(c: Config, s: Net)
    requires Fits(c, s)
  {
    match s.main.phase
    case Probing(i) => |s.chan[i]| < c.cap
    case Collecting(i) => s.main.held != [] || s.completed != []
    case Judged => true
    case Closed => false
  }

  function ApplyTake(c: Config, s: Net, i: nat): (t: Net)
    requires Fits(c, s) && Enabled(c, s, Take(i))
    ensures Fits(c, t)
  {
    var r := s.routers[i];
    var u := s.(chan := s.chan[i := s.chan[i][1..]]);
    match s.chan[i][0]
    case Vec(k, slot) => u.(routers := s.routers[i := r.(pc := Relaxing(k, slot, 0))])
    case Probe => u.(routers := s.routers[i := TakeProbe(r, c.n)], stage := s.stage[i := Answering])
  }

  function ApplySend(c: Config, s: Net, i: nat, x: nat): (t: Net)
    requires Fits(c, s) && Enabled(c, s, Send(i, x))
    ensures Fits(c, t)
  {
    var r := s.routers[i];
    var dst := r.targets[x];
    s.(routers := s.routers[i := AfterSend(r, c.n, x)],
       chan := s.chan[dst := s.chan[dst] + [Vec(i, r.curr)]])
  }

  /** Reads the neighbour's vector as it is at this moment. */
  function ApplyRelax(c: Config, s: Net, i: nat): (t: Net)
    requires Fits(c, s) && Enabled(c, s, Relax(i))
    ensures Fits(c, t)
  {
    var r := s.routers[i];
    var d := s.routers[r.pc.src].pool[r.pc.slot].dist[r.pc.j];
    s.(routers := s.routers[i := RelaxOne(r, c.n, c.w[i][r.pc.src], d)])
  }

  function ApplyDecide(c: Config, s: Net, i: nat): (t: Net)
    requires Fits(c, s) && Enabled(c, s, Decide(i))
    ensures Fits(c, t)
  {
    s.(routers := s.routers[i := EndOfLoop(s.routers[i], c.n)])
  }

  function ApplyAnswer(c: Config, s: Net, i: nat): (t: Net)
    requires Fits(c, s) && Enabled(c, s, GiveAnswer(i))
    ensures Fits(c, t)
  {
    s.(routers := s.routers[i := s.routers[i].(pc := Deciding)],
       completed := s.completed + [Reply(i, s.routers[i].answer)],
       stage := s.stage[i := Answered])
  }

  function ApplyStop(c: Config, s: Net, i: nat): (t: Net)
    requires Fits(c, s) && Enabled(c, s, Stop(i))
    ensures Fits(c, t)
  {
    s.(routers := s.routers[i := s.routers[i].(pc := Stopped)])
  }

  // ---------- the main thread ----------

  function ApplyProbe(c: Config, s: Net): (t: Net)
    requires Fits(c, s) && s.main.phase.Probing? && MainEnabled(c, s)
    ensures Fits(c, t)
  {
    var i := s.main.phase.i;
    s.(chan := s.chan[i := s.chan[i] + [Probe]],
       stage := s.stage[i := Probed],
       main := s.main.(phase := if i + 1 < c.n then Probing(i + 1) else Collecting(0)))
  }

  function ApplyReceive(c: Config, s: Net): (t: Net)
    requires Fits(c, s) && s.completed != [] && s.main.held == []
    ensures Fits(c, t)
  {
    s.(completed := s.completed[1..], main := s.main.(held := [s.completed[0]], operand := Unread))
  }

  /** The reply held asks for a comparison of epochs. */
  predicate Compares(c: Config, s: Net)
    requires Fits(c, s)
  {
    && s.main.held != [] && s.main.round == 2
    && s.main.held[0].answer.Converged? && s.main.first[s.main.held[0].src].Converged?
  }

  /** The epoch behind the pointer kept from the first round, as it is at this moment. */
  function ApplyRead(c: Config, s: Net): (t: Net)
    requires Fits(c, s) && Compares(c, s)
    ensures Fits(c, t)
  {
    var k := s.main.held[0].src;
    s.(main := s.main.(operand := Read(s.routers[k].pool[s.main.first[k].slot].epoch)))
  }

  /** The epoch behind the pointer of the reply held, as it is at this moment, equals the one read before. */
  predicate SameEpoch(c: Config, s: Net)
    requires Fits(c, s) && Compares(c, s)
  {
    s.main.operand == Read(s.routers[s.main.held[0].src].pool[s.main.held[0].answer.slot].epoch)
  }

  /** main's locals once it is done with the reply it holds. */
  function Absorb(c: Config, s: Net): (m: Main)
    requires Fits(c, s) && s.main.held != []
    ensures MainFits(c.n, m.(phase := Judged)) && m.held == []
  {
    var k, a := s.main.held[0].src, s.main.held[0].answer;
    var m := s.main.(held := [], operand := Unread);
    if m.round == 1 then
      if a.Busy? then m.(valid := false) else m.(first := m.first[k := a])
    else
      m.(second := m.second[k := a],
         valid := m.valid && Compares(c, s) && SameEpoch(c, s),
         torn := m.torn || (Compares(c, s) && a.slot == m.first[k].slot && !SameEpoch(c, s)))
  }

  /** What follows the last reply of a round. */
  function EndRound(c: Config, s: Net): (t: Net)
    requires Fits(c, s)
    ensures Fits(c, t)
  {
    if s.main.round == 1 && s.main.valid then
      s.(main := s.main.(phase := Probing(0), round := 2), stage := seq(c.n, _ => Unprobed))
    else
      s.(main := s.main.(phase := Judged))
  }

  /** main is done with the reply it holds. */
  function ApplyCollect(c: Config, s: Net): (t: Net)
    requires Fits(c, s) && s.main.phase.Collecting? && s.main.held != []
    ensures Fits(c, t)
  {
    var i := s.main.phase.i;
    var u := s.(stage := s.stage[s.main.held[0].src := Collected],
                main := Absorb(c, s).(phase := if i + 1 < c.n then Collecting(i + 1) else Judged));
    if i + 1 < c.n then u else EndRound(c, u)
  }

  /** A false verdict starts the next check_done; a true one closes done_channel. */
  function ApplyVerdict(c: Config, s: Net): (t: Net)
    requires Fits(c, s) && s.main.phase.Judged?
    ensures Fits(c, t)
  {
    if s.main.valid then s.(closed := true, main := s.main.(phase := Closed))
    else s.(main := FreshMain(c.n), stage := seq(c.n, _ => Unprobed))
  }

  function ApplyMain(c: Config, s: Net): (t: Net)
    requires Fits(c, s) && MainEnabled(c, s)
    ensures Fits(c, t)
  {
    match s.main.phase
    case Probing(_) => ApplyProbe(c, s)
    case Collecting(_) =>
      if s.main.held == [] then ApplyReceive(c, s)
      else if Compares(c, s) && s.main.operand.Unread? then ApplyRead(c, s)
      else ApplyCollect(c, s)
    case Judged => ApplyVerdict(c, s)
  }

  function Apply(c: Config, s: Net, a: Action): (t: Net)
    requires Fits(c, s) && Enabled(c, s, a)
    ensures Fits(c, t)
  {
    match a
    case Take(i) => ApplyTake(c, s, i)
    case Send(i, x) => ApplySend(c, s, i, x)
    case Relax(i) => ApplyRelax(c, s, i)
    case Decide(i) => ApplyDecide(c, s, i)
    case GiveAnswer(i) => ApplyAnswer(c, s, i)
    case Stop(i) => ApplyStop(c, s, i)
    case MainStep => ApplyMain(c, s)
  }

  /** Each state is a step from the one before. */
  predicate IsPath(c: Config, run: seq<Net>, acts: seq<Action>) {
    && |run| == |acts| + 1
    && (forall x :: 0 <= x < |run| ==> Fits(c, run[x]))
    && (forall x :: 0 <= x < |acts| ==> Enabled(c, run[x], acts[x]) && run[x + 1] == Apply(c, run[x], acts[x]))
  }

  /** How a path gets to its state `y`. */
  lemma PathStep(c: Config, run: seq<Net>, acts: seq<Action>, y: nat)
    requires IsPath(c, run, acts) && 0 < y < |run|
    ensures |run| == |acts| + 1 && Fits(c, run[y - 1]) && Enabled(c, run[y - 1], acts[y - 1])
    ensures run[y] == Apply(c, run[y - 1], acts[y - 1])
  {
    hide Fits, Enabled, Apply;
  }

  lemma PathFits(c: Config, run: seq<Net>, acts: seq<Action>, x: nat, k: nat)
    requires IsPath(c, run, acts) && x < |run|
    ensures |run| == |acts| + 1 && Fits(c, run[x])
    ensures k < c.n ==> k < |run[x].routers| && Shaped(run[x].routers[k], c.n)
  {
    hide Enabled, Apply;
  }

  /** A run is a path that starts where run_stress starts its threads. */
  predicate IsRun(c: Config, run: seq<Net>, acts: seq<Action>)
    requires ValidConfig(c)
  {
    IsPath(c, run, acts) && run[0] == Init(c)
  }
}
