/**
 * A run in which check_done returns true too early. Six routers: a hub, a victim, and four sources whose
 * vectors never change. Between its two answers the hub learns something from each source in turn and so
 * rotates exactly four times: its second answer is the same pointer as its first, and the comparison of
 * epochs through the pointers cannot tell. Its last vector still waits in the victim's channel.
 *
 * Every select of the run takes the first entry available at that moment, but for one: the hub is slow
 * between finding its own channel empty and sending its last vector.
 */
module FalseVerdict {
  import opened Distances
  import opened Routers
  import opened Network
  import opened NetworkInv
  import opened DetectorInv
  import opened Detector
  import opened Verdict
  import opened Selects
  import opened Schedules
  import opened Probes
  import FloydWarshall

  // ---------- the topology ----------

  const ROUTERS: nat := 6

  /** The hub's vector when the victim is at distance `x` and the first source at distance `h`. */
  function Hub(x: nat, h: nat): seq<nat> {
    [0, x, h, 10, 10, 10]
  }

  const VICTIM: seq<nat> := [10, 0, 31, 20, 20, 21]

  /** What the victim knows after the hub's first broadcast. */
  const TOLD_VICTIM: seq<nat> := [10, 0, 31, 20, 20, 20]

  function Source(k: nat): (r: seq<nat>)
    ensures |r| == ROUTERS
  {
    if k == 2 then [10, 18, 0, 10, 10, 10]
    else if k == 3 then [10, 28, 11, 0, 10, 10]
    else if k == 4 then [10, 27, 11, 10, 0, 10]
    else [10, 27, 10, 10, 10, 0]
  }

  const LINKS: Matrix := [Hub(40, 21), VICTIM, Source(2), Source(3), Source(4), Source(5)]

  const CASE: Config := Config(LINKS, ROUTERS, 1, 1)

  lemma Rows()
    ensures |LINKS| == ROUTERS && LINKS[0] == Hub(40, 21) && LINKS[1] == VICTIM
    ensures forall k :: 2 <= k < ROUTERS ==> LINKS[k] == Source(k)
    ensures forall k :: 0 <= k < ROUTERS ==> |LINKS[k]| == ROUTERS
  {
  }

  /** Every pair of routers is linked. */
  lemma CaseIsValid()
    ensures ValidConfig(CASE) && LINKS[0] == Hub(40, 21) && LINKS[1] == VICTIM
    ensures forall k :: 2 <= k < ROUTERS ==> LINKS[k] == Source(k)
    ensures forall i, j :: 0 <= i < ROUTERS && 0 <= j < ROUTERS ==> LINKS[i][j] < INF
  {
    Rows();
    hide LINKS;
    forall i, j | 0 <= i < ROUTERS && 0 <= j < ROUTERS ensures LINKS[i][j] < INF {
      if i == 0 { assert Hub(40, 21)[j] < INF; }
      if i == 1 { assert VICTIM[j] < INF; }
      if i >= 2 { assert Source(i)[j] < INF; }
    }
  }

  // ---------- who tells whom what ----------

  predicate IsVictim(v: seq<nat>) {
    v == VICTIM || v == TOLD_VICTIM
  }

  lemma SourceTellsSourceNothing(k: nat, i: nat)
    requires 2 <= k < ROUTERS && 2 <= i < ROUTERS && k != i
    ensures NoNews(CASE, k, Source(k), i, Source(i))
  {
    CaseIsValid();
  }

  lemma SourceTellsVictimNothing(k: nat, v: seq<nat>)
    requires 2 <= k < ROUTERS && IsVictim(v)
    ensures |v| == ROUTERS && NoNews(CASE, k, Source(k), 1, v)
  {
    CaseIsValid();
  }

  lemma VictimTellsNothing(v: seq<nat>, i: nat, x: nat, h: nat)
    requires IsVictim(v) && x <= 40 && h <= 21
    ensures |v| == ROUTERS && NoNews(CASE, 1, v, 0, Hub(x, h))
    ensures 2 <= i < ROUTERS ==> NoNews(CASE, 1, v, i, Source(i))
  {
    CaseIsValid();
  }

  lemma HubTellsSourceNothing(x: nat, h: nat, i: nat)
    requires x >= 37 && h >= 20 && 2 <= i < ROUTERS
    ensures NoNews(CASE, 0, Hub(x, h), i, Source(i))
  {
    CaseIsValid();
  }

  /** After the first broadcast the victim learns nothing from the hub as long as the hub's way to the first
      source does not get shorter. */
  lemma HubTellsVictimNothing(x: nat)
    ensures NoNews(CASE, 0, Hub(x, 21), 1, TOLD_VICTIM)
  {
    CaseIsValid();
  }

  lemma VictimIsTold()
    ensures !NoNews(CASE, 0, Hub(40, 21), 1, VICTIM)
    ensures Better(VICTIM, LINKS[1][0], Hub(40, 21), 0) == TOLD_VICTIM
  {
    CaseIsValid();
    assert VICTIM[5] > LINKS[1][0] + Hub(40, 21)[5];
  }

  function HubAfter(k: nat): seq<nat> {
    if k == 2 then Hub(39, 21) else if k == 3 then Hub(38, 21) else if k == 4 then Hub(37, 21) else Hub(37, 20)
  }

  function HubBefore(k: nat): seq<nat> {
    if k <= 2 then Hub(40, 21) else HubAfter(k - 1)
  }

  /** The first three sources bring the hub nearer to the victim, the last one nearer to the first. */
  lemma HubIsTold(k: nat)
    requires 2 <= k < ROUTERS
    ensures |HubBefore(k)| == ROUTERS && !NoNews(CASE, k, Source(k), 0, HubBefore(k))
    ensures Better(HubBefore(k), LINKS[0][k], Source(k), 0) == HubAfter(k)
  {
    CaseIsValid();
    var j := if k == 5 then 2 else 1;
    assert HubBefore(k)[j] > LINKS[0][k] + Source(k)[j];
  }

  // ---------- the state between broadcasts ----------

  /** The hub in epoch `e` with vector `hub` and send list `list`, the victim in epoch `f` with `victim`, the
      sources as they started; `owes` says how many each still has to serve, and a source that owes anybody
      has the hub first in its list. Everybody waits. */
  ghost predicate Scene(s: Net, e: nat, hub: seq<nat>, f: nat, victim: seq<nat>, list: seq<nat>, owes: seq<nat>,
                        full: set<nat>) {
    && Reached(CASE, s) && Fits(CASE, s) && AllWait(CASE, s, full) && |owes| == ROUTERS
    && Epoch(s.routers[0]) == e && Now(s.routers[0]) == hub && s.routers[0].targets == list
    && Epoch(s.routers[1]) == f && Now(s.routers[1]) == victim
    && (forall k :: 0 <= k < ROUTERS ==> s.routers[k].pending == owes[k] && |s.routers[k].targets| == 5)
    && (forall k :: 2 <= k < ROUTERS ==> Now(s.routers[k]) == Source(k) && Epoch(s.routers[k]) == 2)
    && (forall k :: 2 <= k < ROUTERS && owes[k] > 0 ==> s.routers[k].targets[0] == 0)
  }

  /** Only the routers' send lists differ. */
  predicate OnlyLists(s: Net, t: Net) {
    && |t.routers| == |s.routers| && t == s.(routers := t.routers)
    && forall k :: 0 <= k < |s.routers| ==> SameButList(s.routers[k], t.routers[k])
  }

  /** The steps so far were the routers' own, and nobody has answered a probe. */
  predicate SameMain(s: Net, t: Net) {
    t.main == s.main && t.completed == s.completed && |t.routers| == |s.routers| > 0
    && t.routers[0].answer == s.routers[0].answer
  }

  function AllBut(k: nat, m: nat): seq<nat> {
    if m == 0 then [] else if m - 1 == k then AllBut(k, m - 1) else AllBut(k, m - 1) + [m - 1]
  }

  lemma {:induction false} ListsAllBut(k: nat, m: nat)
    requires k < ROUTERS && m <= ROUTERS && ValidConfig(CASE)
    ensures Neighbours(LINKS, ROUTERS, k, m) == AllBut(k, m)
  {
    if m > 0 {
      ListsAllBut(k, m - 1);
      CaseIsValid();
      hide LINKS;
    }
  }

  lemma AllButSix(k: nat)
    requires k < ROUTERS
    ensures |AllBut(k, 6)| == 5 && (k > 0 ==> AllBut(k, 6)[0] == 0) && (k == 0 ==> AllBut(k, 6) == [1, 2, 3, 4, 5])
  {
    if k == 0 {
      assert AllBut(0, 1) == [] && AllBut(0, 2) == [1] && AllBut(0, 3) == [1, 2];
      assert AllBut(0, 4) == [1, 2, 3] && AllBut(0, 5) == [1, 2, 3, 4];
    } else {
      LongBut(k, 6);
    }
  }

  lemma {:induction false} LongBut(k: nat, m: nat)
    requires 0 < k && 0 < m
    ensures |AllBut(k, m)| == (if k < m then m - 1 else m) && AllBut(k, m)[..1] == [0]
  {
    if m > 1 {
      LongBut(k, m - 1);
      assert |AllBut(k, m - 1)| >= 1;
    } else {
      assert AllBut(k, 0) == [];
    }
  }

  lemma StartingLists(k: nat)
    requires k < ROUTERS && ValidConfig(CASE)
    ensures var r := Initial(LINKS, ROUTERS, k);
            && |r.targets| == r.pending == 5
            && (k > 0 ==> r.targets[0] == 0) && (k == 0 ==> r.targets == [1, 2, 3, 4, 5])
            && Waiting(r) && Epoch(r) == 2 && Now(r) == LINKS[k]
  {
    ListsAllBut(k, 6);
    AllButSix(k);
    hide LINKS, Neighbours, AllBut;
  }

  const FIVES: seq<nat> := [5, 5, 5, 5, 5, 5]

  lemma Opening() returns (s: Net)
    ensures Scene(s, 2, Hub(40, 21), 2, VICTIM, [1, 2, 3, 4, 5], FIVES, {})
    ensures s.main == FreshMain(ROUTERS) && s.completed == [] && s.routers[1].targets[0] == 0
  {
    hide LINKS, ReachedWith, Initial;
    CaseIsValid();
    s := Init(CASE);
    Begin(CASE);
    forall k | 0 <= k < ROUTERS
      ensures s.routers[k].pending == 5 && |s.routers[k].targets| == 5 && (k > 0 ==> s.routers[k].targets[0] == 0)
      ensures Waiting(s.routers[k]) && Epoch(s.routers[k]) == 2 && Now(s.routers[k]) == LINKS[k]
    {
      StartingLists(k);
    }
    StartingLists(0);
  }

  // ---------- whole broadcasts ----------

  lemma ReplaceList(s: Net, e: nat, hub: seq<nat>, f: nat, victim: seq<nat>, list: seq<nat>, owes: seq<nat>,
                    full: set<nat>, k: nat, r: Router)
    requires Scene(s, e, hub, f, victim, list, owes, full) && k < ROUTERS && SameButList(s.routers[k], r)
    requires var t := With(s, k, r); Reached(CASE, t) && Fits(CASE, t) && AllWait(CASE, t, full)
    requires |r.targets| == 5 && (k >= 2 && r.pending > 0 ==> r.targets[0] == 0)
    ensures Scene(With(s, k, r), e, hub, f, victim, if k == 0 then r.targets else list, owes[k := r.pending], full)
    ensures OnlyLists(s, With(s, k, r))
  {
    hide LINKS, Reached, AllWait, Source;
  }

  /** `k` serves everybody it owes, and nobody learns anything. */
  lemma Broadcast(s: Net, e: nat, hub: seq<nat>, f: nat, victim: seq<nat>, list: seq<nat>, owes: seq<nat>,
                  full: set<nat>, k: nat) returns (t: Net)
    requires Scene(s, e, hub, f, victim, list, owes, full) && k < ROUTERS && k !in full && QuietFor(CASE, s, k, {})
    requires Servable(s.routers[k], 0, full, {})
    ensures owes[0] <= 5 == |list|
    ensures Scene(t, e, hub, f, victim, if k == 0 then Turn(list, owes[0]) else list, owes[k := 0], full)
    ensures OnlyLists(s, t)
  {
    var r := ServeAll(CASE, s, k, full);
    t := With(s, k, r);
    hide LINKS, Reached, AllWait, Source, QuietFor, Turn, Servable;
    assert |r.targets| == 5;
    ReplaceList(s, e, hub, f, victim, list, owes, full, k, r);
  }

  lemma VictimIsQuiet(s: Net, e: nat, x: nat, h: nat, f: nat, victim: seq<nat>, list: seq<nat>, owes: seq<nat>,
                      full: set<nat>)
    requires Scene(s, e, Hub(x, h), f, victim, list, owes, full) && x <= 40 && h <= 21 && IsVictim(victim)
    ensures QuietFor(CASE, s, 1, {})
  {
    hide LINKS, Reached, Source, NoNews, AllWait;
    forall i | 0 <= i < ROUTERS && i != 1 ensures NoNews(CASE, 1, Now(s.routers[1]), i, Now(s.routers[i])) {
      VictimTellsNothing(victim, i, x, h);
    }
  }

  lemma SourceIsQuiet(s: Net, e: nat, hub: seq<nat>, f: nat, victim: seq<nat>, list: seq<nat>, owes: seq<nat>,
                      full: set<nat>, k: nat)
    requires Scene(s, e, hub, f, victim, list, owes, full) && 2 <= k < ROUTERS && IsVictim(victim)
    ensures QuietFor(CASE, s, k, {0})
  {
    hide LINKS, Reached, Source, NoNews, AllWait;
    forall i | 0 <= i < ROUTERS && i != k && i !in {0}
      ensures NoNews(CASE, k, Now(s.routers[k]), i, Now(s.routers[i]))
    {
      if i == 1 { SourceTellsVictimNothing(k, victim); } else { SourceTellsSourceNothing(k, i); }
    }
  }

  /** The hub's vectors are news to the victim only at the start and at the end. */
  lemma HubIsQuiet(s: Net, e: nat, x: nat, h: nat, f: nat, list: seq<nat>, owes: seq<nat>, ex: set<nat>)
    requires Scene(s, e, Hub(x, h), f, TOLD_VICTIM, list, owes, {}) && x >= 37 && h >= 20 && (h == 21 || 1 in ex)
    ensures QuietFor(CASE, s, 0, ex)
  {
    hide LINKS, Reached, Source, NoNews, AllWait;
    forall i | 0 <= i < ROUTERS && i != 0 && i !in ex
      ensures NoNews(CASE, 0, Now(s.routers[0]), i, Now(s.routers[i]))
    {
      if i == 1 { HubTellsVictimNothing(x); } else { HubTellsSourceNothing(x, h, i); }
    }
  }

  lemma AllServable(r: Router)
    requires r.pending <= |r.targets|
    ensures Servable(r, 0, {}, {})
  {
  }

  // ---------- before the first probe ----------

  /** The victim sends its first vector to the hub, which is slow to read it. */
  lemma Park(s: Net) returns (t: Net)
    requires Scene(s, 2, Hub(40, 21), 2, VICTIM, [1, 2, 3, 4, 5], FIVES, {}) && s.routers[1].targets[0] == 0
    ensures Scene(t, 2, Hub(40, 21), 2, VICTIM, [1, 2, 3, 4, 5], [5, 4, 5, 5, 5, 5], {0}) && SameMain(s, t)
    ensures t.chan[0] == [Vec(1, t.routers[1].curr)] && t.routers[1].targets[4] == 0
  {
    var r := s.routers[1];
    assert IsFirst(CASE, s, Send(1, 0)) by { hide Reached, LINKS; }
    Posts(CASE, s, 1, 0);
    t := Posted(CASE, s, 1, 0);
    hide LINKS, Reached, Source;
  }

  /** Then it serves all the sources. */
  lemma VictimServesSources(s: Net) returns (t: Net)
    requires Scene(s, 2, Hub(40, 21), 2, VICTIM, [1, 2, 3, 4, 5], [5, 4, 5, 5, 5, 5], {0})
    requires s.routers[1].targets[4] == 0
    ensures Scene(t, 2, Hub(40, 21), 2, VICTIM, [1, 2, 3, 4, 5], Parked(2), {0}) && OnlyLists(s, t)
  {
    hide Reached, LINKS, QuietFor, AllWait, Source;
    NotToItself(CASE, s, 1, 4);
    VictimIsQuiet(s, 2, 40, 21, 2, VICTIM, [1, 2, 3, 4, 5], [5, 4, 5, 5, 5, 5], {0});
    AllButLast(s.routers[1]);
    hide Servable, Distinct;
    t := Broadcast(s, 2, Hub(40, 21), 2, VICTIM, [1, 2, 3, 4, 5], [5, 4, 5, 5, 5, 5], {0}, 1);
  }

  lemma AllButLast(r: Router)
    requires r.pending == 4 && |r.targets| == 5 && r.targets[4] == 0 && Distinct(r.targets)
    ensures Servable(r, 0, {0}, {})
  {
  }

  /** The sources before `k` have served everybody but the hub. */
  function Parked(k: nat): seq<nat> {
    [5, 0, if k > 2 then 1 else 5, if k > 3 then 1 else 5, if k > 4 then 1 else 5, if k > 5 then 1 else 5]
  }

  /** The hub's channel is full, so each source goes on to the others. */
  lemma {:induction false} SourcesServe(s: Net, k: nat) returns (t: Net)
    requires Scene(s, 2, Hub(40, 21), 2, VICTIM, [1, 2, 3, 4, 5], Parked(k), {0}) && 2 <= k <= ROUTERS
    ensures Scene(t, 2, Hub(40, 21), 2, VICTIM, [1, 2, 3, 4, 5], Parked(ROUTERS), {0}) && OnlyLists(s, t)
    decreases ROUTERS - k
  {
    if k < ROUTERS {
      var u := SourceServes(s, k);
      hide Scene, OnlyLists;
      t := SourcesServe(u, k + 1);
      OnlyListsTwice(s, u, t);
    } else {
      t := s;
      hide Scene;
    }
  }

  lemma SourceServes(s: Net, k: nat) returns (t: Net)
    requires Scene(s, 2, Hub(40, 21), 2, VICTIM, [1, 2, 3, 4, 5], Parked(k), {0}) && 2 <= k < ROUTERS
    ensures Scene(t, 2, Hub(40, 21), 2, VICTIM, [1, 2, 3, 4, 5], Parked(k + 1), {0}) && OnlyLists(s, t)
  {
    NotToItself(CASE, s, k, 0);
    SourceIsQuiet(s, 2, Hub(40, 21), 2, VICTIM, [1, 2, 3, 4, 5], Parked(k), {0}, k);
    assert Servable(s.routers[k], 1, {0}, {});
    hide Reached, LINKS, QuietFor, Servable, Distinct;
    var r := ServeAllButFirst(CASE, s, k, {0});
    t := With(s, k, r);
    assert Parked(k)[k := 1] == Parked(k + 1);
    ReplaceList(s, 2, Hub(40, 21), 2, VICTIM, [1, 2, 3, 4, 5], Parked(k), {0}, k, r);
  }

  lemma OnlyListsTwice(s: Net, t: Net, u: Net)
    requires OnlyLists(s, t) && OnlyLists(t, u)
    ensures OnlyLists(s, u)
  {
  }

  /** Now the hub reads the victim's vector, which is no news. */
  lemma Unpark(s: Net) returns (t: Net)
    requires Scene(s, 2, Hub(40, 21), 2, VICTIM, [1, 2, 3, 4, 5], Parked(6), {0})
    requires s.chan[0] == [Vec(1, s.routers[1].curr)]
    ensures Scene(t, 2, Hub(40, 21), 2, VICTIM, [1, 2, 3, 4, 5], Parked(6), {}) && SameMain(s, t)
  {
    VictimTellsNothing(VICTIM, 0, 40, 21);
    hide LINKS, NoNews;
    HeedsQuietly(CASE, s, 1, 0);
    t := s.(chan := s.chan[0 := []]);
    hide Reached, Source;
  }

  /** Everything has been said except what the sources before `k` have not told the hub yet. */
  function ForHub(hub: nat, k: nat): seq<nat> {
    [hub, 0, if k > 2 then 0 else 1, if k > 3 then 0 else 1, if k > 4 then 0 else 1, if k > 5 then 0 else 1]
  }

  /** The hub tells the victim, whose vector changes. */
  lemma TellVictim(s: Net) returns (t: Net)
    requires Scene(s, 2, Hub(40, 21), 2, VICTIM, [1, 2, 3, 4, 5], Parked(6), {})
    ensures Scene(t, 2, Hub(40, 21), 3, TOLD_VICTIM, [5, 2, 3, 4, 1], [4, 5, 1, 1, 1, 1], {}) && SameMain(s, t)
  {
    VictimIsTold();
    CaseIsValid();
    hide LINKS, NoNews, Hub, Better;
    var r := DeliverNews(CASE, s, 0, 1);
    t := With(With(s, 0, SentAt(s.routers[0], ROUTERS, 0)), 1, r);
    hide Reached, Source, AllWait;
    assert t.routers[0].targets == [5, 2, 3, 4, 1];
  }

  lemma WarmUp() returns (t: Net)
    ensures Scene(t, 2, Hub(40, 21), 3, TOLD_VICTIM, HubList(2), ForHub(0, 2), {})
    ensures t.main == FreshMain(ROUTERS) && t.completed == []
  {
    var s := Opening();
    var s1 := Park(s);
    var s2 := VictimServesSources(s1);
    hide Scene, Hub;
    var s3 := SourcesServe(s2, 2);
    assert s3.chan[0] == [Vec(1, s3.routers[1].curr)];
    var s4 := Unpark(s3);
    var s5 := TellVictim(s4);
    t := HubAndVictimServe(s5);
  }

  lemma HubAndVictimServe(s: Net) returns (t: Net)
    requires Scene(s, 2, Hub(40, 21), 3, TOLD_VICTIM, [5, 2, 3, 4, 1], [4, 5, 1, 1, 1, 1], {}) && |s.routers| > 0
    ensures Scene(t, 2, Hub(40, 21), 3, TOLD_VICTIM, HubList(2), ForHub(0, 2), {}) && SameMain(s, t)
  {
    var list, owes := [5, 2, 3, 4, 1], [4, 5, 1, 1, 1, 1];
    assert Turn(list, 4) == HubList(2) && owes[0 := 0] == [0, 5, 1, 1, 1, 1];
    hide Scene, Hub, LINKS, QuietFor, Servable, Turn, HubList, Fits;
    SceneFits(s, 2, Hub(40, 21), 3, TOLD_VICTIM, list, owes);
    AllServable(s.routers[0]);
    HubIsQuiet(s, 2, 40, 21, 3, list, owes, {});
    var u := Broadcast(s, 2, Hub(40, 21), 3, TOLD_VICTIM, list, owes, {}, 0);
    t := VictimServes(u);
  }

  lemma VictimServes(u: Net) returns (t: Net)
    requires Scene(u, 2, Hub(40, 21), 3, TOLD_VICTIM, HubList(2), [0, 5, 1, 1, 1, 1], {})
    ensures Scene(t, 2, Hub(40, 21), 3, TOLD_VICTIM, HubList(2), ForHub(0, 2), {}) && OnlyLists(u, t)
  {
    var owes := [0, 5, 1, 1, 1, 1];
    assert owes[1 := 0] == ForHub(0, 2);
    hide Scene, Hub, LINKS, QuietFor, Servable, HubList, Fits, ForHub;
    SceneFits(u, 2, Hub(40, 21), 3, TOLD_VICTIM, HubList(2), owes);
    AllServable(u.routers[1]);
    VictimIsQuiet(u, 2, 40, 21, 3, TOLD_VICTIM, HubList(2), owes, {});
    t := Broadcast(u, 2, Hub(40, 21), 3, TOLD_VICTIM, HubList(2), owes, {}, 1);
  }

  lemma SceneFits(s: Net, e: nat, hub: seq<nat>, f: nat, victim: seq<nat>, list: seq<nat>, owes: seq<nat>)
    requires Scene(s, e, hub, f, victim, list, owes, {})
    ensures Fits(CASE, s) && |s.routers| == ROUTERS
    ensures forall k :: 0 <= k < ROUTERS ==> s.routers[k].pending <= |s.routers[k].targets|
  {
    hide LINKS, Reached, AllWait, Source;
  }

  // ---------- the first probe, and four epochs of the hub ----------

  /** main probes the hub, which has nothing to say and answers at once; main goes no further for now. */
  lemma FirstAnswer(s: Net) returns (t: Net)
    requires Scene(s, 2, Hub(40, 21), 3, TOLD_VICTIM, HubList(2), ForHub(0, 2), {})
    requires s.main == FreshMain(ROUTERS) && s.completed == []
    ensures Scene(t, 2, Hub(40, 21), 3, TOLD_VICTIM, HubList(2), ForHub(0, 2), {})
    ensures t.main == FreshMain(ROUTERS).(phase := Probing(1))
    ensures t.routers[0].answer.Converged? && t.routers[0].answer.epoch == 2
  {
    ProbeOne(CASE, s, 0, {});
    var u := ProbedNet(CASE, s, 0);
    hide ReachedWith, LINKS, Hub, Source;
    Act(CASE, u, GiveAnswer(0));
    var v := ApplyAnswer(CASE, u, 0);
    Act(CASE, v, Decide(0));
    t := ApplyDecide(CASE, v, 0);
    assert t.routers[0] == s.routers[0].(answer := t.routers[0].answer);
  }

  /** The hub's send list before source `k` has told it. A whole broadcast turns it by one. */
  function HubList(k: nat): seq<nat> {
    if k == 2 then [2, 3, 4, 5, 1] else if k == 3 then [3, 4, 5, 1, 2] else if k == 4 then [4, 5, 1, 2, 3]
    else [5, 1, 2, 3, 4]
  }

  /** Source `k` tells the hub, which starts a new epoch. */
  lemma TellHub(s: Net, k: nat) returns (t: Net)
    requires 2 <= k < ROUTERS && Scene(s, k, HubBefore(k), 3, TOLD_VICTIM, HubList(k), ForHub(0, k), {})
    ensures Scene(t, k + 1, HubAfter(k), 3, TOLD_VICTIM, HubList(k), ForHub(5, k + 1), {}) && SameMain(s, t)
  {
    HubIsTold(k);
    CaseIsValid();
    assert s.routers[k].pending == 1 && s.routers[k].targets[0] == 0 && Waiting(s.routers[k]);
    hide LINKS, NoNews, HubBefore, HubAfter, Better, HubList, Reached, Source, AllWait;
    SentAtKeeps(s.routers[k], ROUTERS, 0);
    var q := SentAt(s.routers[k], ROUTERS, 0);
    var r := DeliverNews(CASE, s, k, 0);
    t := With(With(s, k, q), 0, r);
    hide SentAt;
    HubRenewed(s, t, k, q, r, HubBefore(k), HubAfter(k), HubList(k));
  }

  /** The scene after source `k` has told the hub. */
  lemma HubRenewed(s: Net, t: Net, k: nat, q: Router, r: Router, before: seq<nat>, after: seq<nat>, list: seq<nat>)
    requires 2 <= k < ROUTERS && Scene(s, k, before, 3, TOLD_VICTIM, list, ForHub(0, k), {}) && |before| == ROUTERS
    requires Square(LINKS, ROUTERS) && Shaped(r, ROUTERS) && Renewed(CASE, s.routers[0], r, k, Source(k), 0)
    requires Better(before, LINKS[0][k], Source(k), 0) == after
    requires |s.routers| == ROUTERS && SameButList(s.routers[k], q) && q.pending == 0 && |q.targets| == 5
    requires t == With(With(s, k, q), 0, r) && Reached(CASE, t) && Fits(CASE, t) && AllWait(CASE, t, {})
    ensures Scene(t, k + 1, after, 3, TOLD_VICTIM, list, ForHub(5, k + 1), {}) && SameMain(s, t)
  {
    hide LINKS, Reached, Source, AllWait, Better, Fits, ForHub, Shaped;
    OwesAfter(k);
    forall j | 2 <= j < ROUTERS
      ensures t.routers[j] == if j == k then q else s.routers[j]
    {
    }
    assert t.routers[0] == r && t.routers[1] == s.routers[1];
    hide With;
  }

  lemma OwesAfter(k: nat)
    requires 2 <= k < ROUTERS
    ensures ForHub(0, k)[k] == 1 && ForHub(5, k + 1) == ForHub(0, k)[k := 0][0 := 5]
    ensures ForHub(5, k + 1)[0] == 5 && ForHub(5, k + 1)[0 := 0] == ForHub(0, k + 1)
  {
  }

  lemma ListTurns(k: nat)
    requires 2 <= k < 5
    ensures Turn(HubList(k), 5) == HubList(k + 1)
    ensures HubAfter(k) == Hub(41 - k, 21) && HubBefore(k + 1) == HubAfter(k)
  {
    var l := HubList(k);
    assert l[1..5] + [l[0]] + l[5..] == HubList(k + 1);
  }

  /** One source tells the hub, and the hub tells everybody, who learn nothing. */
  lemma HubTurn(s: Net, k: nat) returns (t: Net)
    requires 2 <= k < 5 && Scene(s, k, HubBefore(k), 3, TOLD_VICTIM, HubList(k), ForHub(0, k), {})
    ensures Scene(t, k + 1, HubBefore(k + 1), 3, TOLD_VICTIM, HubList(k + 1), ForHub(0, k + 1), {}) && SameMain(s, t)
  {
    hide Scene, Hub, QuietFor, Servable, Turn, HubList, HubBefore, HubAfter, ForHub, LINKS, Fits;
    ListTurns(k);
    OwesAfter(k);
    var u := TellHub(s, k);
    SceneFits(u, k + 1, HubAfter(k), 3, TOLD_VICTIM, HubList(k), ForHub(5, k + 1));
    AllServable(u.routers[0]);
    HubIsQuiet(u, k + 1, 41 - k, 21, 3, HubList(k), ForHub(5, k + 1), {});
    t := Broadcast(u, k + 1, HubAfter(k), 3, TOLD_VICTIM, HubList(k), ForHub(5, k + 1), {}, 0);
  }

  /** The hub has told the last news to everybody but the victim, who comes last in its list. */
  ghost predicate LastWord(s: Net) {
    && ReachedWith(CASE, s, {0}) && Fits(CASE, s) && AllWait(CASE, s, {})
    && Epoch(s.routers[0]) == 6 && s.routers[0].pending == 1 && s.routers[0].targets[0] == 1
    && (forall k :: 1 <= k < ROUTERS ==> s.routers[k].pending == 0) && Now(s.routers[1]) == TOLD_VICTIM
  }

  /** The last source tells the hub; the hub tells everybody but the victim, and is slow from there on. */
  lemma LastTurn(s: Net) returns (t: Net)
    requires Scene(s, 5, HubBefore(5), 3, TOLD_VICTIM, HubList(5), ForHub(0, 5), {})
    ensures LastWord(t) && SameMain(s, t)
  {
    var u := TellHub(s, 5);
    HubIsQuiet(u, 6, 37, 20, 3, HubList(5), ForHub(5, 6), {1});
    hide Reached, LINKS, QuietFor, AllWait, Source;
    var r := ServeAllButSecond(CASE, u, 0, 1);
    t := With(u, 0, r);
    assert InSelect(t, 0) && t.chan[0] == [] && !t.closed && Reached(CASE, t) by { assert AllWait(CASE, t, {}); }
    PauseHub(t);
  }

  lemma PauseHub(t: Net)
    requires Reached(CASE, t) && Fits(CASE, t) && InSelect(t, 0) && t.chan[0] == [] && !t.closed
    ensures ReachedWith(CASE, t, {0})
  {
    Pause(CASE, t, 0);
  }

  /** The hub has answered in epoch 2, is in epoch 6 now, and owes its last vector to the victim. */
  lemma FourEpochs() returns (t: Net)
    ensures LastWord(t) && t.main == FreshMain(ROUTERS).(phase := Probing(1))
    ensures t.routers[0].answer.Converged? && t.routers[0].answer.epoch == 2
  {
    var s := WarmUp();
    var s1 := FirstAnswer(s);
    assert HubBefore(2) == Hub(40, 21);
    hide Scene, Hub, ForHub, HubList, HubBefore, LastWord;
    var s2 := HubTurn(s1, 2);
    var s3 := HubTurn(s2, 3);
    var s4 := HubTurn(s3, 4);
    t := LastTurn(s4);
  }

  // ---------- the first round ends ----------

  /** A router with nobody to serve answers with its current vector. */
  lemma ContentConverges(r: Router)
    requires Shaped(r, ROUTERS) && Waiting(r) && r.pending == 0
    ensures TakeProbe(r, ROUTERS) == r.(pc := Replying, answer := Converged(r.curr, Epoch(r)))
  {
  }

  /** The second round begins; main holds everybody's current vector, and the hub's from epoch 2. */
  ghost predicate HalfWay(t: Net) {
    && LastWord(t) && t.main.phase == Probing(0) && t.main.round == 2 && !t.main.torn && t.main.held == []
    && t.main.first[0].Converged? && t.main.first[0].epoch == 2
    && forall k :: 1 <= k < ROUTERS ==> t.main.first[k] == Converged(t.routers[k].curr, Epoch(t.routers[k]))
  }

  /** main probes and collects everybody else: all answers are pointers. */
  lemma FirstRound() returns (t: Net)
    ensures HalfWay(t)
  {
    var s := FourEpochs();
    var u := ProbeRest(CASE, s, 1, {0});
    forall k | 1 <= k < ROUTERS
      ensures u.routers[k] == s.routers[k].(pc := Replying, answer := Converged(s.routers[k].curr, Epoch(s.routers[k])))
    {
      ContentConverges(s.routers[k]);
    }
    hide ReachedWith, LINKS, TakeProbe, Source;
    t := CollectRest(CASE, u, {0});
    AfterRound(s, u, t);
  }

  lemma AfterRound(s: Net, u: Net, t: Net)
    requires LastWord(s) && Fits(CASE, u) && u.chan == s.chan && u.routers[0] == s.routers[0]
    requires ReachedWith(CASE, t, {0}) && Fits(CASE, t) && AllStand(CASE, t) && Moved(u, t)
    requires t.main.phase == Probing(0)
    requires forall k :: 1 <= k < ROUTERS ==>
      u.routers[k] == s.routers[k].(pc := Replying, answer := Converged(s.routers[k].curr, Epoch(s.routers[k])))
    ensures LastWord(t)
    ensures forall k :: 1 <= k < ROUTERS ==>
      t.routers[k].curr == s.routers[k].curr && Epoch(t.routers[k]) == Epoch(s.routers[k])
  {
    NotClosed(CASE, t, {0});
    forall k | 0 <= k < ROUTERS
      ensures t.routers[k] == s.routers[k].(answer := t.routers[k].answer) && Waiting(t.routers[k])
    {
      NobodyReplies(t, k);
      assert Standing(t.routers[k]);
      assert Waiting(s.routers[k]);
    }
    hide ReachedWith, LINKS, Standing, Moved, AllStand;
    assert AllWait(CASE, t, {});
  }

  /** At the start of a round no router is still answering. */
  lemma NobodyReplies(t: Net, k: nat)
    requires ReachedWith(CASE, t, {0}) && Fits(CASE, t) && t.main.phase == Probing(0) && k < ROUTERS
    ensures !t.routers[k].pc.Replying?
  {
    ReachedInv(CASE, t, {0});
    assert RouterMain(CASE, t, k);
    hide LINKS, NetInv, ReachedWith;
  }

  // ---------- the second round ----------

  /** main has probed the hub, which is slow to see it, and the victim, which has taken the probe. */
  lemma ProbeHubAndVictim(s: Net) returns (u: Net)
    requires HalfWay(s)
    ensures ReachedWith(CASE, u, {0}) && Fits(CASE, u) && u.main == s.main.(phase := Probing(2)) && !u.closed
    ensures u.routers == s.routers[1 := s.routers[1].(pc := Replying, answer := s.main.first[1])]
    ensures u.chan == s.chan[0 := [Probe]]
  {
    Go(CASE, s, MainStep, {0});
    var w := ApplyProbe(CASE, s);
    ContentConverges(s.routers[1]);
    assert s.chan[0] == [] && s.chan[0] + [Probe] == [Probe];
    hide ReachedWith, LINKS, TakeProbe, Source;
    ProbeOne(CASE, w, 1, {0});
    u := ProbedNet(CASE, w, 1);
  }

  /** The hub's select goes on to the victim's entry. */
  lemma HubSends(u: Net) returns (v: Net)
    requires ReachedWith(CASE, u, {0}) && Fits(CASE, u) && Waiting(u.routers[0]) && u.routers[0].pending == 1
    requires u.routers[0].targets[0] == 1 && u.chan[1] == []
    ensures Reached(CASE, v) && Fits(CASE, v) && v == Posted(CASE, u, 0, 0)
  {
    Resume(CASE, u, 0);
    PostsForm(CASE, u, 0, 0);
    hide ReachedWith, LINKS;
    v := ApplySend(CASE, u, 0, 0);
    Act(CASE, v, Decide(0));
    v := Posted(CASE, u, 0, 0);
  }

  /** In its next select it takes the probe, with nothing left to send. */
  lemma HubTakes(v: Net) returns (t: Net)
    requires Reached(CASE, v) && Fits(CASE, v) && v.chan[0] == [Probe] && !v.closed
    requires Waiting(v.routers[0]) && v.routers[0].pending == 0
    ensures Reached(CASE, t) && Fits(CASE, t) && t.main == v.main && t.chan == v.chan[0 := []]
    ensures t.routers
         == v.routers[0 := v.routers[0].(pc := Replying, answer := Converged(v.routers[0].curr, Epoch(v.routers[0])))]
  {
    Act(CASE, v, Take(0));
    ContentConverges(v.routers[0]);
    t := ApplyTake(CASE, v, 0);
    assert v.chan[0][1..] == [];
    hide ReachedWith, LINKS, TakeProbe, Source;
  }

  /** The hub and the victim have taken their second probes; the hub's last vector waits in the victim's channel. */
  ghost predicate Overtaken(t: Net) {
    && Reached(CASE, t) && Fits(CASE, t) && t.main.phase == Probing(2) && t.main.round == 2
    && !t.main.torn && t.main.held == [] && t.main.first[0].Converged? && t.main.first[0].epoch == 2
    && t.routers[0].pc.Replying? && !t.routers[0].changed
    && t.routers[0].answer.Converged? && t.routers[0].answer.epoch == 6
    && t.routers[1].pc.Replying? && !t.routers[1].changed && t.routers[1].answer == t.main.first[1]
    && t.main.first[1] == Converged(t.routers[1].curr, Epoch(t.routers[1])) && Now(t.routers[1]) == TOLD_VICTIM
    && t.chan[0] == [] && t.chan[1] != [] && t.chan[1][0].Vec?
    && forall k :: 2 <= k < ROUTERS ==>
         Waiting(t.routers[k]) && t.routers[k].pending == 0 && t.chan[k] == []
         && t.main.first[k] == Converged(t.routers[k].curr, Epoch(t.routers[k]))
  }

  lemma HubOvertakes() returns (t: Net)
    ensures Overtaken(t)
  {
    var s := FirstRound();
    var u := ProbeHubAndVictim(s);
    hide ReachedWith, LINKS, TakeProbe, Source;
    var v := HubSends(u);
    t := HubTakes(v);
  }

  /** Everybody has taken the second probe; only the hub's answer differs from the first. */
  ghost predicate AllAnswerAgain(u: Net) {
    && Reached(CASE, u) && Fits(CASE, u) && AllStand(CASE, u) && u.main.phase == Collecting(0) && u.main.round == 2
    && !u.main.torn && u.main.held == [] && u.main.first[0].Converged? && u.main.first[0].epoch == 2
    && u.routers[0].answer.Converged? && u.routers[0].answer.epoch == 6
    && (forall k :: 1 <= k < ROUTERS ==> u.routers[k].answer.Converged? && u.main.first[k] == u.routers[k].answer)
    && u.routers[1].answer == Converged(u.routers[1].curr, Epoch(u.routers[1])) && Now(u.routers[1]) == TOLD_VICTIM
  }

  lemma SecondProbes() returns (u: Net)
    ensures AllAnswerAgain(u)
  {
    var t := HubOvertakes();
    u := ProbeRest(CASE, t, 2, {});
    forall k | 2 <= k < ROUTERS
      ensures u.routers[k] == t.routers[k].(pc := Replying, answer := Converged(t.routers[k].curr, Epoch(t.routers[k])))
    {
      ContentConverges(t.routers[k]);
    }
    hide ReachedWith, LINKS, TakeProbe, Source;
  }

  /** The second round has found everything as it was, though the victim's vector is the one it was told at
      the start. */
  ghost predicate Misjudged(s: Net) {
    && Reached(CASE, s) && JudgedTwice(CASE, s) && Fits(CASE, s) && s.main.valid
    && s.main.first[0].Converged? && s.main.second[0].Converged? && Rotations(s, 0) == 4
    && s.main.first[1].Converged? && s.routers[1].pool[s.main.first[1].slot].dist == TOLD_VICTIM
  }

  lemma SecondRound() returns (s: Net)
    ensures Misjudged(s)
  {
    var u := SecondProbes();
    hide ReachedWith, LINKS, TakeProbe, Source, DetectInv, MainInv, NetInv, JudgedTwice, Rotations;
    s := CollectRest(CASE, u, {});
    ReachedInv(CASE, s, {});
    JudgedNow(s);
    VerdictIsTrue(u, s);
    FourRotations(u, s);
  }

  lemma JudgedNow(s: Net)
    requires DetectInv(CASE, s) && s.main.phase.Judged? && s.main.round == 2
    ensures JudgedTwice(CASE, s)
  {
  }

  lemma FourRotations(u: Net, s: Net)
    requires AllAnswerAgain(u) && Fits(CASE, s)
    requires s.main.first == u.main.first && s.main.second[0] == u.routers[0].answer
    ensures s.main.first[0].Converged? && s.main.second[0].Converged? && Rotations(s, 0) == 4
  {
    hide ReachedWith, LINKS;
  }

  lemma VerdictIsTrue(u: Net, s: Net)
    requires JudgedTwice(CASE, s) && AllAnswerAgain(u) && Fits(CASE, s)
    requires s.main.first == u.main.first && !s.main.torn
    requires forall k :: 0 <= k < ROUTERS ==> s.main.second[k] == u.routers[k].answer
    ensures s.main.valid
  {
    hide JudgedTwice, LINKS, ReachedWith;
    FourRotations(u, s);
    VerdictCountsRotationsModuloFour(CASE, s);
    forall k | 0 <= k < ROUTERS
      ensures s.main.first[k].Converged? && s.main.second[k].Converged?
      ensures Rotations(s, k) >= 0 && Rotations(s, k) % 4 == 0
    {
    }
  }

  /** The verdict is true, though the victim's vector is not the solution: the assertion at the end of
      check_done fails. */
  lemma CheckDoneCanBeWrong() returns (run: seq<Net>, acts: seq<Action>)
    ensures ValidConfig(CASE) && IsRun(CASE, run, acts) && Scanning(CASE, run, acts)
    ensures var s := run[|acts|];
            && s.main.phase.Judged? && s.main.valid && !AssertionHolds(CASE, s)
            && s.main.first[0].Converged? && s.main.second[0].Converged? && Rotations(s, 0) == 4
  {
    var s := SecondRound();
    VictimIsWrong();
    run, acts :| ReachedBy(CASE, s, {}, run, acts);
    assert Kept(CASE, s, 1) == TOLD_VICTIM;
    assert !AssertionHolds(CASE, s) by {
      hide LINKS, JudgedTwice;
      assert TOLD_VICTIM[2] != FloydWarshall.Phases(LINKS, ROUTERS, ROUTERS)[1][2];
    }
    assert s.main.phase.Judged? by { hide DetectInv, LINKS; }
    hide JudgedTwice, LINKS, Scanning;
  }

  /** From the victim over the hub and the last source it is 30 to the first source, not 31. */
  lemma VictimIsWrong()
    ensures Square(LINKS, ROUTERS) && FloydWarshall.Phases(LINKS, ROUTERS, ROUTERS)[1][2] <= 30
  {
    CaseIsValid();
    FloydWarshall.PhasesAreShortest(LINKS, ROUTERS, 1, 2);
    var p := Step(1, Walk.Step(0, Hop(5, 2)));
    assert Joins(p, ROUTERS, 1, 2);
    assert Weight(LINKS, ROUTERS, Hop(5, 2)) == LINKS[5][2] == 10;
    assert Weight(LINKS, ROUTERS, p.rest) == LINKS[0][5] + 10;
    assert Weight(LINKS, ROUTERS, p) == LINKS[1][0] + 20;
  }
}
