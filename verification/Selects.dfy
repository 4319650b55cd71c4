/**
 * What channel_select promises beyond "some enabled entry": it goes through the list in order and takes the
 * first entry it finds available. It need not see all channels at one instant, so a scan may pass an entry
 * shortly before it becomes available.
 */
module Selects {
  import opened Distances
  import opened Routers
  import opened Network
  import opened NetworkInv
  import opened DetectorInv
  import opened Detector

  /** Entry `e` of the select list of router `i` can be served in this state: done_channel is closed, the
      router's own channel holds something, or the neighbour's channel has room. */
  predicate Ready(c: Config, s: Net, i: nat, e: nat)
    requires Fits(c, s) && i < c.n
  {
    if e == 0 then s.closed
    else if e == 1 then s.chan[i] != []
    else e - 2 < s.routers[i].pending && |s.chan[s.routers[i].targets[e - 2]]| < c.cap
  }

  predicate IsSelect(a: Action) {
    a.Stop? || a.Take? || a.Send?
  }

  /** The entry that select has picked. */
  function Picked(a: Action): nat
    requires IsSelect(a)
  {
    match a
    case Stop(_) => 0
    case Take(_) => 1
    case Send(_, x) => x + 2
  }

  predicate InSelect(s: Net, i: nat) {
    i < |s.routers| && s.routers[i].pc.Selecting?
  }

  /** At moment `y` router `i` found entry `e` unavailable, and it has not left the call of select since. */
  predicate Passed(c: Config, run: seq<Net>, i: nat, e: nat, y: nat, x: nat)
    requires (forall z :: 0 <= z < |run| ==> Fits(c, run[z])) && i < c.n && x < |run|
  {
    y <= x && !Ready(c, run[y], i, e) && forall z :: y <= z <= x ==> InSelect(run[z], i)
  }

  /** The select that ends with action `a` in state `x` has passed every earlier entry of its list, in order. */
  ghost predicate Scanned(c: Config, run: seq<Net>, a: Action, x: nat)
    requires (forall z :: 0 <= z < |run| ==> Fits(c, run[z])) && x < |run| && IsSelect(a) && a.i < c.n
  {
    exists looks: seq<nat> :: Looks(c, run, a, x, looks)
  }

  predicate Looks(c: Config, run: seq<Net>, a: Action, x: nat, looks: seq<nat>)
    requires (forall z :: 0 <= z < |run| ==> Fits(c, run[z])) && x < |run| && IsSelect(a) && a.i < c.n
  {
    && |looks| == Picked(a)
    && (forall e :: 0 <= e < |looks| ==> Passed(c, run, a.i, e, looks[e], x))
    && (forall d, e :: 0 <= d < e < |looks| ==> looks[d] <= looks[e])
  }

  /** Every select of this run goes through its list in order. */
  ghost predicate Scanning(c: Config, run: seq<Net>, acts: seq<Action>)
    requires IsPath(c, run, acts)
  {
    forall x :: 0 <= x < |acts| && IsSelect(acts[x]) ==> Scanned(c, run, acts[x], x)
  }

  /** No earlier entry is available at this moment. */
  predicate IsFirst(c: Config, s: Net, a: Action)
    requires Fits(c, s)
  {
    IsSelect(a) && a.i < c.n ==> forall e :: 0 <= e < Picked(a) ==> !Ready(c, s, a.i, e)
  }

  /** The action of a select that picks entry `e`. */
  function Pick(i: nat, e: nat): (a: Action)
    ensures IsSelect(a) && Picked(a) == e && a.i == i
  {
    if e == 0 then Stop(i) else if e == 1 then Take(i) else Send(i, e - 2)
  }

  /** The entries that can be served are those whose actions the router can take. */
  lemma ReadyIsEnabled(c: Config, s: Net, i: nat, e: nat)
    requires Fits(c, s) && InSelect(s, i)
    ensures i < c.n && (Ready(c, s, i, e) <==> Enabled(c, s, Pick(i, e)))
  {
  }

  /** What Scanning rules out: select does not pass an entry that has been available in every state since the router
      entered select. It picks this entry or an earlier one. */
  lemma AvailableIsNotPassed(c: Config, run: seq<Net>, acts: seq<Action>, x: nat, y: nat, e: nat)
    requires IsPath(c, run, acts) && Scanning(c, run, acts)
    requires y <= x < |acts| && IsSelect(acts[x]) && acts[x].i < c.n
    requires y == 0 || !InSelect(run[y - 1], acts[x].i)
    requires forall z :: y <= z <= x ==> Ready(c, run[z], acts[x].i, e)
    ensures Picked(acts[x]) <= e
  {
    hide Fits, Enabled, Apply, Ready;
    var looks: seq<nat> :| Looks(c, run, acts[x], x, looks);
    if e < Picked(acts[x]) {
      LookedSince(c, run, acts[x].i, e, looks[e], x, y);
    }
  }

  /** The look at an entry falls between entering select and leaving it. */
  lemma LookedSince(c: Config, run: seq<Net>, i: nat, e: nat, look: nat, x: nat, y: nat)
    requires (forall z :: 0 <= z < |run| ==> Fits(c, run[z])) && i < c.n && y <= x < |run|
    requires Passed(c, run, i, e, look, x) && (y == 0 || !InSelect(run[y - 1], i))
    ensures y <= look <= x && !Ready(c, run[look], i, e)
  {
  }

  // ---------- reaching a state by such a run ----------

  /** Some scanning run ends in this state; and each router in `paused` has been in select since a moment at
      which it found done_channel open and its own channel empty. */
  ghost predicate ReachedWith(c: Config, s: Net, paused: set<nat>) {
    ValidConfig(c) && exists run: seq<Net>, acts: seq<Action> :: ReachedBy(c, s, paused, run, acts)
  }

  ghost predicate ReachedBy(c: Config, s: Net, paused: set<nat>, run: seq<Net>, acts: seq<Action>)
    requires ValidConfig(c)
  {
    && IsRun(c, run, acts) && Scanning(c, run, acts) && run[|acts|] == s
    && forall i :: i in paused ==> i < c.n && HasPaused(c, run, i)
  }

  ghost predicate HasPaused(c: Config, run: seq<Net>, i: nat)
    requires (forall z :: 0 <= z < |run| ==> Fits(c, run[z])) && i < c.n && |run| > 0
  {
    exists y :: 0 <= y < |run| && PausedSince(c, run, i, y)
  }

  predicate PausedSince(c: Config, run: seq<Net>, i: nat, y: nat)
    requires (forall z :: 0 <= z < |run| ==> Fits(c, run[z])) && i < c.n && y < |run|
  {
    Passed(c, run, i, 0, y, |run| - 1) && Passed(c, run, i, 1, y, |run| - 1)
  }

  lemma Begin(c: Config)
    requires ValidConfig(c)
    ensures ReachedWith(c, Init(c), {})
  {
    assert ReachedBy(c, Init(c), {}, [Init(c)], []);
  }

  lemma LooksAgain(c: Config, run: seq<Net>, more: Net, a: Action, x: nat, looks: seq<nat>)
    requires (forall z :: 0 <= z < |run| ==> Fits(c, run[z])) && Fits(c, more) && x < |run| && IsSelect(a) && a.i < c.n
    requires Looks(c, run, a, x, looks)
    ensures Looks(c, run + [more], a, x, looks)
  {
    var next := run + [more];
    forall e | 0 <= e < |looks| ensures Passed(c, next, a.i, e, looks[e], x) {
      assert Passed(c, run, a.i, e, looks[e], x);
      assert forall z :: 0 <= z <= x ==> next[z] == run[z];
      hide Ready, Fits;
    }
  }

  /** One more step keeps a run scanning if the step's own select has scanned. */
  lemma Extend(c: Config, run: seq<Net>, acts: seq<Action>, a: Action)
    requires ValidConfig(c) && IsRun(c, run, acts) && Scanning(c, run, acts) && Enabled(c, run[|acts|], a)
    requires IsSelect(a) ==> Scanned(c, run, a, |acts|)
    ensures IsRun(c, run + [Apply(c, run[|acts|], a)], acts + [a])
    ensures Scanning(c, run + [Apply(c, run[|acts|], a)], acts + [a])
  {
    var t := Apply(c, run[|acts|], a);
    var next, more := run + [t], acts + [a];
    ExtendPath(c, run, acts, a);
    hide Apply, Enabled, Fits, Init;
    forall x | 0 <= x < |more| && IsSelect(more[x]) ensures Scanned(c, next, more[x], x) {
      assert more[x] == if x < |acts| then acts[x] else a;
      assert more[x].i < c.n by { SelectsInRange(c, next[x], more[x]); }
      var looks :| Looks(c, run, more[x], x, looks);
      LooksAgain(c, run, t, more[x], x, looks);
    }
  }

  lemma SelectsInRange(c: Config, s: Net, a: Action)
    requires Fits(c, s) && Enabled(c, s, a) && IsSelect(a)
    ensures a.i < c.n
  {
  }

  lemma ExtendPath(c: Config, run: seq<Net>, acts: seq<Action>, a: Action)
    requires ValidConfig(c) && IsRun(c, run, acts) && Enabled(c, run[|acts|], a)
    ensures IsRun(c, run + [Apply(c, run[|acts|], a)], acts + [a])
  {
    var next, more := run + [Apply(c, run[|acts|], a)], acts + [a];
    assert Fits(c, Apply(c, run[|acts|], a));
    hide Fits, Enabled, Apply, Init;
    forall x | 0 <= x < |more|
      ensures Enabled(c, next[x], more[x]) && next[x + 1] == Apply(c, next[x], more[x])
    {
      assert next[x] == run[x];
    }
  }

  /** Who is in select stays there until it acts itself. */
  lemma PauseGoesOn(c: Config, run: seq<Net>, a: Action, i: nat)
    requires (forall z :: 0 <= z < |run| ==> Fits(c, run[z])) && i < c.n && |run| > 0 && HasPaused(c, run, i)
    requires Enabled(c, run[|run| - 1], a) && (a.MainStep? || a.i != i)
    ensures HasPaused(c, run + [Apply(c, run[|run| - 1], a)], i)
  {
    var s, n := run[|run| - 1], |run|;
    var t := Apply(c, s, a);
    var next := run + [t];
    assert t.routers[i] == s.routers[i] by { if a.MainStep? { MainSends(c, s); } hide ApplyMain, Shaped; }
    assert Fits(c, t);
    hide Apply, Fits, Enabled, Ready;
    var y :| 0 <= y < n && PausedSince(c, run, i, y);
    assert forall z :: 0 <= z < n ==> next[z] == run[z];
    assert InSelect(run[n - 1], i) && next[n] == t;
    assert Passed(c, next, i, 0, y, n) && Passed(c, next, i, 1, y, n);
    assert PausedSince(c, next, i, y);
  }

  /** A step whose select takes the first entry available at this moment. */
  lemma Go(c: Config, s: Net, a: Action, paused: set<nat>)
    requires ReachedWith(c, s, paused) && Fits(c, s) && Enabled(c, s, a) && IsFirst(c, s, a)
    requires a.MainStep? || a.i !in paused
    ensures ReachedWith(c, Apply(c, s, a), paused)
  {
    var run: seq<Net>, acts: seq<Action> :| ReachedBy(c, s, paused, run, acts);
    if IsSelect(a) {
      SelectsInRange(c, s, a);
      FirstIsScanned(c, run, a);
    }
    Goes(c, s, a, paused, run, acts);
  }

  lemma Goes(c: Config, s: Net, a: Action, paused: set<nat>, run: seq<Net>, acts: seq<Action>)
    requires ValidConfig(c) && ReachedBy(c, s, paused, run, acts) && Enabled(c, s, a)
    requires IsSelect(a) ==> a.i < c.n && Scanned(c, run, a, |acts|)
    requires a.MainStep? || a.i !in paused
    ensures ReachedWith(c, Apply(c, s, a), paused)
  {
    Extend(c, run, acts, a);
    hide Scanned, Scanning, Apply, Enabled;
    forall i | i in paused ensures HasPaused(c, run + [Apply(c, s, a)], i) {
      PauseGoesOn(c, run, a, i);
    }
    assert ReachedBy(c, Apply(c, s, a), paused, run + [Apply(c, s, a)], acts + [a]);
  }

  lemma FirstIsScanned(c: Config, run: seq<Net>, a: Action)
    requires (forall z :: 0 <= z < |run| ==> Fits(c, run[z])) && |run| > 0 && IsSelect(a) && a.i < c.n
    requires Enabled(c, run[|run| - 1], a) && IsFirst(c, run[|run| - 1], a)
    ensures Scanned(c, run, a, |run| - 1)
  {
    var x := |run| - 1;
    var looks := seq(Picked(a), _ => x);
    assert InSelect(run[x], a.i);
    hide Ready, Fits;
    assert Looks(c, run, a, x, looks);
  }

  /** A router that waits in select with an empty channel may be slow from here on. */
  lemma Pause(c: Config, s: Net, i: nat)
    requires ReachedWith(c, s, {}) && Fits(c, s) && i < c.n && InSelect(s, i) && !s.closed && s.chan[i] == []
    ensures ReachedWith(c, s, {i})
  {
    var run: seq<Net>, acts: seq<Action> :| ReachedBy(c, s, {}, run, acts);
    assert PausedSince(c, run, i, |acts|);
    assert HasPaused(c, run, i);
    assert ReachedBy(c, s, {i}, run, acts);
  }

  /** It then goes on to its next entry, whatever has come into its own channel since. */
  lemma Resume(c: Config, s: Net, i: nat)
    requires ReachedWith(c, s, {i}) && Fits(c, s) && Enabled(c, s, Send(i, 0))
    ensures ReachedWith(c, Apply(c, s, Send(i, 0)), {})
  {
    var run: seq<Net>, acts: seq<Action> :| ReachedBy(c, s, {i}, run, acts);
    var y :| 0 <= y < |run| && PausedSince(c, run, i, y);
    assert Looks(c, run, Send(i, 0), |acts|, [y, y]);
    assert ReachedBy(c, s, {}, run, acts);
    Goes(c, s, Send(i, 0), {}, run, acts);
  }

  lemma PausedSelects(c: Config, s: Net, paused: set<nat>, i: nat)
    requires ReachedWith(c, s, paused) && i in paused
    ensures Fits(c, s) && i < c.n && InSelect(s, i)
  {
    var run: seq<Net>, acts: seq<Action> :| ReachedBy(c, s, paused, run, acts);
    var y :| 0 <= y < |run| && PausedSince(c, run, i, y);
  }

  lemma ReachedInv(c: Config, s: Net, paused: set<nat>)
    requires ReachedWith(c, s, paused)
    ensures DetectInv(c, s) && MainInv(c, s) && NetInv(c, s) && Fits(c, s)
  {
    var run: seq<Net>, acts: seq<Action> :| ReachedBy(c, s, paused, run, acts);
    RunDetect(c, run, acts, |acts|);
  }

  lemma ReachedRouter(c: Config, s: Net, paused: set<nat>, k: nat)
    requires ReachedWith(c, s, paused) && k < c.n
    ensures ValidConfig(c) && Fits(c, s) && RouterInv(c.w, c.n, k, s.routers[k])
  {
    ReachedInv(c, s, paused);
  }
}
