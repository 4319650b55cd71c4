/** Building blocks for scanning runs of the network: what a whole delivery does when nothing interferes. */
module Schedules {
  import opened Distances
  import opened Routers
  import opened Network
  import opened NetworkInv
  import opened DetectorInv
  import opened Selects

  /** A scanning run ends in this state. */
  ghost predicate Reached(c: Config, s: Net) {
    ReachedWith(c, s, {})
  }

  lemma Act(c: Config, s: Net, a: Action)
    requires Reached(c, s) && Fits(c, s) && Enabled(c, s, a) && IsFirst(c, s, a)
    ensures Reached(c, Apply(c, s, a))
  {
    Go(c, s, a, {});
  }

  // ---------- a whole relaxation loop ----------

  /** From destination `j` on, the better of the old distance and the one through the neighbour. */
  function Better(u: seq<nat>, link: nat, v: seq<nat>, j: nat): (r: seq<nat>)
    requires |u| == |v|
    ensures |r| == |u|
  {
    seq(|u|, x requires 0 <= x < |u| => if x < j then u[x] else Min(link + v[x], u[x]))
  }

  /** A router after the whole loop. */
  function Relaxed(r: Router, n: nat, link: nat, v: seq<nat>, j: nat): (s: Router)
    requires Shaped(r, n) && |v| == n
    ensures Shaped(s, n)
  {
    var d := Better(Upcoming(r), link, v, j);
    r.(pool := r.pool[r.next := Vector(r.pool[r.next].epoch, d)], changed := r.changed || d != Upcoming(r),
       pc := Deciding)
  }

  lemma {:induction false} LoopRelaxes(r: Router, n: nat, link: nat, v: seq<nat>)
    requires Shaped(r, n) && |v| == n && r.pc.Relaxing? && link <= INF && forall x :: 0 <= x < n ==> v[x] <= INF
    ensures RelaxFrom(r, n, link, v) == Relaxed(r, n, link, v, r.pc.j)
    decreases n - r.pc.j
  {
    var j := r.pc.j;
    NoWrap(link, v[j]);
    var s := RelaxOne(r, n, link, v[j]);
    var d := Better(Upcoming(r), link, v, j);
    if j + 1 < n {
      LoopRelaxes(s, n, link, v);
      assert Better(Upcoming(s), link, v, j + 1) == d;
    } else {
      assert Upcoming(s) == d;
    }
    if link + v[j] < Upcoming(r)[j] {
      assert d[j] != Upcoming(r)[j];
    } else {
      assert Upcoming(s) == Upcoming(r);
    }
    assert RelaxFrom(r, n, link, v) == RelaxFrom(s, n, link, v);
    assert j + 1 == n ==> s.pc == Deciding && RelaxFrom(s, n, link, v) == s;
  }

  /** The state after the rest of router `i`'s loop. */
  function Looped(c: Config, s: Net, i: nat): Net
    requires Fits(c, s) && i < c.n && s.routers[i].pc.Relaxing?
  {
    var r := s.routers[i];
    s.(routers := s.routers[i := RelaxFrom(r, c.n, c.w[i][r.pc.src], s.routers[r.pc.src].pool[r.pc.slot].dist)])
  }

  /** One turn of the loop leaves the rest of it as it was. */
  lemma OneTurn(c: Config, s: Net, i: nat)
    requires Fits(c, s) && Enabled(c, s, Relax(i)) && s.routers[i].pc.src != i
    ensures var u := ApplyRelax(c, s, i);
            Looped(c, s, i) == if u.routers[i].pc.Relaxing? then Looped(c, u, i) else u
  {
    var r := s.routers[i];
    var v := s.routers[r.pc.src].pool[r.pc.slot].dist;
    var u := ApplyRelax(c, s, i);
    var q := RelaxOne(r, c.n, c.w[i][r.pc.src], v[r.pc.j]);
    assert u.routers[i] == q;
    assert RelaxFrom(r, c.n, c.w[i][r.pc.src], v) == RelaxFrom(q, c.n, c.w[i][r.pc.src], v);
    assert q.pc.Relaxing? ==> q.pc.src == r.pc.src && q.pc.slot == r.pc.slot;
    hide RelaxOne, Shaped;
  }

  lemma NotOwnNews(c: Config, s: Net, i: nat)
    requires Reached(c, s) && Fits(c, s) && i < c.n && s.routers[i].pc.Relaxing?
    ensures Enabled(c, s, Relax(i)) && s.routers[i].pc.src != i && s.routers[i].pc.j < c.n
    ensures var u := ApplyRelax(c, s, i); u.routers[i].pc.Relaxing? ==> s.routers[i].pc.j < u.routers[i].pc.j < c.n
  {
    ReachedRouter(c, s, {}, i);
    hide Honest, Rotating, Serving, Reached;
  }

  lemma {:induction false} Loop(c: Config, s: Net, i: nat)
    requires Reached(c, s) && Fits(c, s) && i < c.n && s.routers[i].pc.Relaxing?
    ensures Reached(c, Looped(c, s, i))
    decreases if s.routers[i].pc.Relaxing? then c.n - s.routers[i].pc.j else 0
  {
    NotOwnNews(c, s, i);
    var u := ApplyRelax(c, s, i);
    Act(c, s, Relax(i));
    OneTurn(c, s, i);
    hide Looped, Reached, Fits, RelaxOne;
    if u.routers[i].pc.Relaxing? {
      Loop(c, u, i);
    }
  }

  // ---------- a whole delivery ----------

  /** A router after it has sent to entry `x`, has nothing to announce, and is back in select. */
  function SentAt(r: Router, n: nat, x: nat): (s: Router)
    requires Shaped(r, n) && x < r.pending
    ensures Shaped(s, n)
  {
    AfterSend(r, n, x).(pc := Selecting)
  }

  lemma SentAtKeeps(r: Router, n: nat, x: nat)
    requires Shaped(r, n) && x < r.pending && Waiting(r)
    ensures var s := SentAt(r, n, x);
            && SameButList(r, s) && s.pending == r.pending - 1 && |s.targets| == |r.targets|
            && Now(s) == Now(r) && Epoch(s) == Epoch(r) && Waiting(s)
  {
  }

  /** `k` has sent its current vector to its entry `x`, whose channel was empty. */
  function Posted(c: Config, s: Net, k: nat, x: nat): Net
    requires Fits(c, s) && k < c.n && x < s.routers[k].pending
  {
    var r := s.routers[k];
    s.(routers := s.routers[k := SentAt(r, c.n, x)], chan := s.chan[r.targets[x] := [Vec(k, r.curr)]])
  }

  lemma Posts(c: Config, s: Net, k: nat, x: nat)
    requires Reached(c, s) && Fits(c, s) && k < c.n && x < s.routers[k].pending && c.cap == 1
    requires Waiting(s.routers[k]) && s.chan[s.routers[k].targets[x]] == [] && IsFirst(c, s, Send(k, x))
    ensures Reached(c, Posted(c, s, k, x)) && Fits(c, Posted(c, s, k, x))
  {
    Act(c, s, Send(k, x));
    var u := ApplySend(c, s, k, x);
    PostsForm(c, s, k, x);
    hide Reached;
    Act(c, u, Decide(k));
  }

  lemma PostsForm(c: Config, s: Net, k: nat, x: nat)
    requires Fits(c, s) && Enabled(c, s, Send(k, x)) && !s.routers[k].changed && c.cap <= 1
    ensures ApplyDecide(c, ApplySend(c, s, k, x), k) == Posted(c, s, k, x)
  {
    var dst := s.routers[k].targets[x];
    assert s.chan[dst] == [];
    assert s.chan[dst] + [Vec(k, s.routers[k].curr)] == [Vec(k, s.routers[k].curr)];
  }

  /** The state after `i` has read what waits in its channel, relaxed, and ended its iteration. */
  function Heeded(c: Config, s: Net, k: nat, i: nat): Net
    requires Fits(c, s) && k < c.n && i < c.n
  {
    s.(routers := s.routers[i := EndOfLoop(Relaxed(s.routers[i], c.n, c.w[i][k], Now(s.routers[k]), 0), c.n)],
       chan := s.chan[i := []])
  }

  /** `i` takes the current vector of `k` from its channel. */
  lemma Heeds(c: Config, s: Net, k: nat, i: nat)
    requires Reached(c, s) && Fits(c, s) && k < c.n && i < c.n && k != i && s.routers[i].pc.Selecting? && !s.closed
    requires s.chan[i] == [Vec(k, s.routers[k].curr)]
    ensures Reached(c, Heeded(c, s, k, i))
  {
    Act(c, s, Take(i));
    var u := ApplyTake(c, s, i);
    LoopedOnce(c, s, k, i);
    hide Reached, Relaxed, EndOfLoop, Looped;
    Loop(c, u, i);
    var v := Looped(c, u, i);
    Act(c, v, Decide(i));
    assert ApplyDecide(c, v, i) == Heeded(c, s, k, i);
  }

  lemma LoopedOnce(c: Config, s: Net, k: nat, i: nat)
    requires Reached(c, s) && Fits(c, s) && k < c.n && i < c.n && k != i && s.routers[i].pc.Selecting?
    requires s.chan[i] == [Vec(k, s.routers[k].curr)] && Enabled(c, s, Take(i))
    ensures var v := Looped(c, ApplyTake(c, s, i), i);
            var d := Relaxed(s.routers[i], c.n, c.w[i][k], Now(s.routers[k]), 0);
            Fits(c, v) && v == s.(routers := s.routers[i := d], chan := s.chan[i := []]) && d.pc.Deciding?
  {
    CurrentIsSmall(c, s, k, i);
    assert s.chan[i][1..] == [];
    hide Reached, Better;
    var r := s.routers[i].(pc := Relaxing(k, s.routers[k].curr, 0));
    LoopRelaxes(r, c.n, c.w[i][k], Now(s.routers[k]));
    SameRelaxed(s.routers[i], r, c.n, c.w[i][k], Now(s.routers[k]));
    hide RelaxFrom, Relaxed;
  }

  lemma SameRelaxed(r: Router, s: Router, n: nat, link: nat, v: seq<nat>)
    requires Shaped(r, n) && |v| == n && Shaped(s, n) && s == r.(pc := s.pc)
    ensures Relaxed(s, n, link, v, 0) == Relaxed(r, n, link, v, 0)
  {
  }

  lemma CurrentIsSmall(c: Config, s: Net, k: nat, i: nat)
    requires Reached(c, s) && Fits(c, s) && k < c.n && i < c.n
    ensures c.w[i][k] <= INF && forall x :: 0 <= x < c.n ==> Now(s.routers[k])[x] <= INF
  {
    ReachedRouter(c, s, {}, k);
    assert RealVector(c.w, c.n, k, s.routers[k].pool[s.routers[k].curr].dist);
    hide Reached;
  }

  // ---------- news ----------

  /** Waiting in select with nothing new to tell. */
  predicate Waiting(r: Router) {
    r.pc.Selecting? && !r.changed
  }

  /** Everybody waits; the channels in `full` are full and all others empty. */
  predicate AllWait(c: Config, s: Net, full: set<nat>)
    requires Fits(c, s)
  {
    !s.closed && forall k :: 0 <= k < c.n ==> Waiting(s.routers[k]) && |s.chan[k]| == if k in full then 1 else 0
  }

  /** The vector of `k` tells `i` nothing. */
  predicate NoNews(c: Config, k: nat, v: seq<nat>, i: nat, u: seq<nat>)
    requires Square(c.w, c.n) && k < c.n && i < c.n && |v| == c.n && |u| == c.n
  {
    forall j :: 0 <= j < c.n ==> u[j] <= c.w[i][k] + v[j]
  }

  lemma WaitingKnows(c: Config, s: Net, k: nat)
    requires Reached(c, s) && k < c.n && Fits(c, s) && Waiting(s.routers[k])
    ensures Upcoming(s.routers[k]) == Now(s.routers[k])
  {
    ReachedRouter(c, s, {}, k);
  }

  lemma NoNewsChangesNothing(c: Config, r: Router, i: nat, k: nat, v: seq<nat>)
    requires Square(c.w, c.n) && i < c.n && k < c.n && Shaped(r, c.n) && |v| == c.n && Waiting(r)
    requires NoNews(c, k, v, i, Upcoming(r))
    ensures EndOfLoop(Relaxed(r, c.n, c.w[i][k], v, 0), c.n) == r
  {
    assert Better(Upcoming(r), c.w[i][k], v, 0) == Upcoming(r);
    assert r.pool[r.next] == Vector(r.pool[r.next].epoch, Upcoming(r));
  }

  /** What waits in the channel of `i` is no news: reading it only empties the channel. */
  lemma HeedsQuietly(c: Config, s: Net, k: nat, i: nat)
    requires Reached(c, s) && Fits(c, s) && k < c.n && i < c.n && k != i && Waiting(s.routers[i]) && !s.closed
    requires s.chan[i] == [Vec(k, s.routers[k].curr)] && NoNews(c, k, Now(s.routers[k]), i, Now(s.routers[i]))
    ensures Reached(c, s.(chan := s.chan[i := []]))
  {
    Heeds(c, s, k, i);
    WaitingKnows(c, s, i);
    NoNewsChangesNothing(c, s.routers[i], i, k, Now(s.routers[k]));
    assert s.routers[i := s.routers[i]] == s.routers;
    hide Reached, EndOfLoop, Relaxed, NoNews;
  }

  /** One delivery without news: only the sender's list shows it. */
  lemma DeliverQuietly(c: Config, s: Net, k: nat, x: nat)
    requires Reached(c, s) && Fits(c, s) && k < c.n && x < s.routers[k].pending && c.cap == 1 && !s.closed
    requires Waiting(s.routers[k]) && IsFirst(c, s, Send(k, x))
    requires var i := s.routers[k].targets[x];
             && i != k && Waiting(s.routers[i]) && s.chan[i] == []
             && NoNews(c, k, Now(s.routers[k]), i, Now(s.routers[i]))
    ensures Reached(c, s.(routers := s.routers[k := SentAt(s.routers[k], c.n, x)]))
  {
    var i := s.routers[k].targets[x];
    Posts(c, s, k, x);
    var u := Posted(c, s, k, x);
    hide Reached, NoNews;
    HeedsQuietly(c, u, k, i);
    assert u.chan[i := []] == s.chan;
  }

  // ---------- a broadcast without news ----------

  /** The state with only router `k` replaced. */
  function With(s: Net, k: nat, r: Router): Net
    requires k < |s.routers|
  {
    s.(routers := s.routers[k := r])
  }

  /** Everything about a router but its send list. */
  predicate SameButList(r: Router, s: Router) {
    s == r.(targets := s.targets, pending := s.pending, log := s.log)
  }

  /** The vector of `k` is news to nobody but those in `ex`. */
  predicate QuietFor(c: Config, s: Net, k: nat, ex: set<nat>)
    requires Fits(c, s) && k < c.n
  {
    forall i :: 0 <= i < c.n && i != k && i !in ex ==> NoNews(c, k, Now(s.routers[k]), i, Now(s.routers[i]))
  }

  /** The pending entries from `lo` on can be served: their channels are empty and they learn nothing. */
  predicate Servable(r: Router, lo: nat, full: set<nat>, ex: set<nat>)
    requires r.pending <= |r.targets|
  {
    forall y :: lo <= y < r.pending ==> r.targets[y] !in full && r.targets[y] !in ex
  }

  lemma NotToItself(c: Config, s: Net, k: nat, x: nat)
    requires Reached(c, s) && Fits(c, s) && k < c.n && x < |s.routers[k].targets|
    ensures s.routers[k].targets[x] != k && Distinct(s.routers[k].targets)
  {
    ReachedRouter(c, s, {}, k);
    assert s.routers[k].targets[x] in s.routers[k].targets;
    hide Reached, Honest, Rotating;
  }

  /** One delivery of a broadcast: from the first entry, or from the second if the first one is full. */
  lemma ServeOne(c: Config, s: Net, k: nat, x: nat, full: set<nat>, ex: set<nat>)
    requires Reached(c, s) && Fits(c, s) && k < c.n && c.cap == 1 && AllWait(c, s, full) && QuietFor(c, s, k, ex)
    requires k !in full && x < s.routers[k].pending && s.routers[k].targets[x] !in full + ex
    requires x == 0 || (x == 1 && s.routers[k].targets[0] in full)
    ensures var t := With(s, k, SentAt(s.routers[k], c.n, x));
            Reached(c, t) && Fits(c, t) && AllWait(c, t, full) && QuietFor(c, t, k, ex)
  {
    var r := s.routers[k];
    NotToItself(c, s, k, x);
    assert IsFirst(c, s, Send(k, x)) by {
      hide Reached, QuietFor;
    }
    assert NoNews(c, k, Now(r), r.targets[x], Now(s.routers[r.targets[x]]));
    hide Reached, NoNews, Distinct, IsFirst;
    DeliverQuietly(c, s, k, x);
    var q := SentAt(r, c.n, x);
    assert Now(q) == Now(r) && Waiting(q);
    StillQuiet(c, s, k, q, full, ex);
  }

  lemma StillQuiet(c: Config, s: Net, k: nat, q: Router, full: set<nat>, ex: set<nat>)
    requires Fits(c, s) && k < c.n && AllWait(c, s, full) && QuietFor(c, s, k, ex)
    requires Shaped(q, c.n) && Waiting(q) && Now(q) == Now(s.routers[k])
    ensures var t := With(s, k, q); Fits(c, t) && AllWait(c, t, full) && QuietFor(c, t, k, ex)
  {
    hide NoNews;
  }

  /** What serving the first `p` entries of a list one by one, always the first, makes of it. */
  function Turn(l: seq<nat>, p: nat): (t: seq<nat>)
    requires p <= |l|
    ensures |t| == |l|
  {
    if p == 0 then l else l[1..p] + [l[0]] + l[p..]
  }

  /** The list after the first of `p` pending entries has been served. */
  function Swapped(l: seq<nat>, p: nat): (t: seq<nat>)
    requires 0 < p <= |l|
    ensures |t| == |l|
  {
    l[p - 1 := l[0]][0 := l[p - 1]]
  }

  lemma TurnsOn(l: seq<nat>, p: nat)
    requires 0 < p <= |l|
    ensures Turn(Swapped(l, p), p - 1) == Turn(l, p)
  {
    var m := Swapped(l, p);
    if p > 1 {
      assert m[1..p - 1] + [m[0]] == l[1..p];
      assert m[p - 1..] == [l[0]] + l[p..];
      assert Turn(m, p - 1) == m[1..p - 1] + [m[0]] + m[p - 1..];
    } else {
      assert m == l;
    }
  }

  /** `k` serves everybody it owes, in the order of its list. */
  lemma {:induction false} ServeAll(c: Config, s: Net, k: nat, full: set<nat>) returns (r: Router)
    requires Reached(c, s) && Fits(c, s) && k < c.n && c.cap == 1 && AllWait(c, s, full) && QuietFor(c, s, k, {})
    requires k !in full && Servable(s.routers[k], 0, full, {})
    ensures var t := With(s, k, r); Reached(c, t) && Fits(c, t) && AllWait(c, t, full)
    ensures SameButList(s.routers[k], r) && r.pending == 0
    ensures r.targets == Turn(s.routers[k].targets, s.routers[k].pending)
    decreases s.routers[k].pending
  {
    var q := s.routers[k];
    if q.pending == 0 {
      r := q;
      assert With(s, k, r) == s;
    } else {
      ServeOne(c, s, k, 0, full, {});
      var next := SentAt(q, c.n, 0);
      assert next.targets == Swapped(q.targets, q.pending);
      TurnsOn(q.targets, q.pending);
      assert Servable(next, 0, full, {});
      hide Reached, QuietFor, AllWait, Servable, Turn, Swapped, SentAt;
      r := ServeAll(c, With(s, k, next), k, full);
      assert With(With(s, k, next), k, r) == With(s, k, r);
    }
  }

  /** `k` serves everybody it owes but the second entry of its list, which is left over. */
  lemma {:induction false} ServeAllButSecond(c: Config, s: Net, k: nat, late: nat) returns (r: Router)
    requires Reached(c, s) && Fits(c, s) && k < c.n && c.cap == 1 && AllWait(c, s, {}) && QuietFor(c, s, k, {late})
    requires s.routers[k].pending >= 2 && s.routers[k].targets[1] == late
    requires forall y :: 0 <= y < s.routers[k].pending && y != 1 ==> s.routers[k].targets[y] != late
    ensures var t := With(s, k, r); Reached(c, t) && Fits(c, t) && AllWait(c, t, {})
    ensures SameButList(s.routers[k], r) && r.pending == 1 && r.targets[0] == late
    decreases s.routers[k].pending
  {
    var q := s.routers[k];
    ServeOne(c, s, k, 0, {}, {late});
    var next := SentAt(q, c.n, 0);
    hide Reached, QuietFor, AllWait;
    if q.pending == 2 {
      r := next;
    } else {
      r := ServeAllButSecond(c, With(s, k, next), k, late);
      assert With(With(s, k, next), k, r) == With(s, k, r);
    }
  }

  /** While the channel of its first entry is full, `k` serves all the others. */
  lemma {:induction false} ServeAllButFirst(c: Config, s: Net, k: nat, full: set<nat>) returns (r: Router)
    requires Reached(c, s) && Fits(c, s) && k < c.n && c.cap == 1 && AllWait(c, s, full) && QuietFor(c, s, k, full)
    requires k !in full && s.routers[k].pending >= 1 && s.routers[k].targets[0] in full
    requires Servable(s.routers[k], 1, full, {})
    ensures var t := With(s, k, r); Reached(c, t) && Fits(c, t) && AllWait(c, t, full)
    ensures SameButList(s.routers[k], r) && r.pending == 1 && |r.targets| == |s.routers[k].targets|
    ensures r.targets[0] == s.routers[k].targets[0]
    decreases s.routers[k].pending
  {
    var q := s.routers[k];
    if q.pending == 1 {
      r := q;
      assert With(s, k, r) == s;
    } else {
      ServeOne(c, s, k, 1, full, full);
      var next := SentAt(q, c.n, 1);
      hide Reached, QuietFor, AllWait;
      r := ServeAllButFirst(c, With(s, k, next), k, full);
      assert With(With(s, k, next), k, r) == With(s, k, r);
    }
  }

  // ---------- a delivery with news ----------

  /** What a delivery with news makes of a receiver that had served everybody: a new epoch. */
  predicate Renewed(c: Config, r: Router, s: Router, k: nat, v: seq<nat>, i: nat)
    requires Square(c.w, c.n) && k < c.n && i < c.n && Shaped(r, c.n) && Shaped(s, c.n) && |v| == c.n
  {
    && Waiting(s) && Now(s) == Better(Now(r), c.w[i][k], v, 0) && Epoch(s) == Epoch(r) + 1 && s.answer == r.answer
    && s.targets == r.targets && s.pending == |r.targets|
  }

  lemma NewsRenews(c: Config, r: Router, i: nat, k: nat, v: seq<nat>)
    requires ValidConfig(c) && k < c.n && RouterInv(c.w, c.n, i, r) && |v| == c.n && Waiting(r) && r.pending == 0
    requires !NoNews(c, k, v, i, Now(r))
    ensures var s := EndOfLoop(Relaxed(r, c.n, c.w[i][k], v, 0), c.n); Shaped(s, c.n) && Renewed(c, r, s, k, v, i)
  {
    var q := Relaxed(r, c.n, c.w[i][k], v, 0);
    NewsChanges(c, r, i, k, v);
    RotateRoles(q, c.n);
    assert q.targets == r.targets && q.answer == r.answer;
    hide Relaxed, Better, Rotating, RouterInv, NoNews;
    var s := Rotate(q, c.n).(pc := Selecting);
    assert EndOfLoop(q, c.n) == s;
  }

  lemma NewsChanges(c: Config, r: Router, i: nat, k: nat, v: seq<nat>)
    requires ValidConfig(c) && k < c.n && RouterInv(c.w, c.n, i, r) && |v| == c.n && Waiting(r)
    requires !NoNews(c, k, v, i, Now(r))
    ensures var q := Relaxed(r, c.n, c.w[i][k], v, 0);
            && q.changed && q.pending == r.pending && Rotating(q) && Epoch(q) == Epoch(r)
            && Upcoming(q) == Better(Now(r), c.w[i][k], v, 0)
  {
    var d := Better(Upcoming(r), c.w[i][k], v, 0);
    assert Upcoming(r) == Now(r);
    BetterDiffers(c, k, v, i, Upcoming(r));
    ReplacedKeepsRoles(r, d);
    assert Relaxed(r, c.n, c.w[i][k], v, 0)
        == r.(pool := r.pool[r.next := Vector(r.pool[r.next].epoch, d)], changed := true, pc := Deciding);
    hide RouterInv, Rotating, Better, NoNews;
  }

  lemma BetterDiffers(c: Config, k: nat, v: seq<nat>, i: nat, u: seq<nat>)
    requires Square(c.w, c.n) && k < c.n && i < c.n && |v| == c.n && |u| == c.n && !NoNews(c, k, v, i, u)
    ensures Better(u, c.w[i][k], v, 0) != u
  {
    var j :| 0 <= j < c.n && u[j] > c.w[i][k] + v[j];
    assert Better(u, c.w[i][k], v, 0)[j] != u[j];
  }

  /** New distances in the upcoming slot leave epochs and roles alone. */
  lemma ReplacedKeepsRoles(r: Router, d: seq<nat>)
    requires |r.pool| == 4 && r.prevPrev < 4 && r.prev < 4 && r.curr < 4 && r.next < 4 && Rotating(r)
    ensures var q := r.(pool := r.pool[r.next := Vector(r.pool[r.next].epoch, d)], changed := true, pc := Deciding);
            Rotating(q) && Epoch(q) == Epoch(r)
  {
    FourApart(Epoch(r) - 2);
    hide Slot;
  }

  /** One delivery with news, from the sender's first entry. */
  lemma DeliverNews(c: Config, s: Net, k: nat, i: nat) returns (r: Router)
    requires Reached(c, s) && Fits(c, s) && k < c.n && i < c.n && c.cap == 1 && AllWait(c, s, {})
    requires s.routers[k].pending > 0 && s.routers[k].targets[0] == i && s.routers[i].pending == 0
    requires !NoNews(c, k, Now(s.routers[k]), i, Now(s.routers[i]))
    ensures k != i && Shaped(r, c.n) && Renewed(c, s.routers[i], r, k, Now(s.routers[k]), i)
    ensures var t := With(With(s, k, SentAt(s.routers[k], c.n, 0)), i, r);
            Reached(c, t) && Fits(c, t) && AllWait(c, t, {})
  {
    hide NoNews, RouterInv, Relaxed, EndOfLoop, Distinct, ReachedWith, Better;
    NotToItself(c, s, k, 0);
    ReachedRouter(c, s, {}, i);
    NewsRenews(c, s.routers[i], i, k, Now(s.routers[k]));
    r := EndOfLoop(Relaxed(s.routers[i], c.n, c.w[i][k], Now(s.routers[k]), 0), c.n);
    Posts(c, s, k, 0);
    var u := Posted(c, s, k, 0);
    assert u.routers[i] == s.routers[i] && Now(u.routers[k]) == Now(s.routers[k]);
    Heeds(c, u, k, i);
    assert u.chan[i := []] == s.chan;
    assert Heeded(c, u, k, i) == With(With(s, k, SentAt(s.routers[k], c.n, 0)), i, r);
  }
}
