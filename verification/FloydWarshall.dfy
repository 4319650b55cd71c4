/** The sequential reference solver of stress.c, in place on flat arrays. */
module FloydWarshall {
  import opened Distances

  // ---------- the specification: one phase, then all phases ----------

  function Through(m: Matrix, n: nat, k: nat, i: nat, j: nat): nat
    requires Square(m, n) && k < n && i < n && j < n
  {
    Min(m[i][k] + m[k][j], m[i][j])
  }

  /** Phase `k` done for every pair before `(src, dst)` in row-major order. */
  function Partial(m: Matrix, n: nat, k: nat, src: nat, dst: nat): (r: Matrix)
    requires Square(m, n) && k < n
    ensures Square(r, n)
  {
    seq(n, i requires 0 <= i < n =>
      seq(n, j requires 0 <= j < n =>
        if i < src || (i == src && j < dst) then Through(m, n, k, i, j) else m[i][j]))
  }

  function Phase(m: Matrix, n: nat, k: nat): (r: Matrix)
    requires Square(m, n) && k < n
    ensures Square(r, n)
  {
    Partial(m, n, k, n, 0)
  }

  function Phases(w: Matrix, n: nat, k: nat): (r: Matrix)
    requires Square(w, n) && k <= n
    ensures Square(r, n)
  {
    if k == 0 then w else Phase(Phases(w, n, k - 1), n, k - 1)
  }

  /** Row `k` and column `k` stay as they are during phase `k`. */
  lemma PivotStaysFixed(m: Matrix, n: nat, k: nat, src: nat, dst: nat, i: nat)
    requires Square(m, n) && k < n && i < n
    ensures Partial(m, n, k, src, dst)[i][k] == m[i][k]
    ensures Partial(m, n, k, src, dst)[k][i] == m[k][i]
  {
  }

  // ---------- the specification computes shortest distances ----------

  /** Every entry is real and beats all walks whose inner vertices are below `k`. */
  ghost predicate Solves(w: Matrix, n: nat, k: nat, m: Matrix)
    requires Square(w, n) && Square(m, n)
  {
    forall i, j :: 0 <= i < n && 0 <= j < n ==>
      Real(w, n, i, j, m[i][j]) && Below(w, n, i, j, k, m[i][j])
  }

  lemma {:induction false} HopsSolve(w: Matrix, n: nat)
    requires Clamped(w, n)
    ensures Solves(w, n, 0, w)
  {
    forall i, j | 0 <= i < n && 0 <= j < n
      ensures Real(w, n, i, j, w[i][j]) && Below(w, n, i, j, 0, w[i][j])
    {
      LinkIsReal(w, n, i, j);
      forall p: Walk | Joins(p, n, i, j) && p.Via(0) ensures w[i][j] <= Weight(w, n, p) {
        assert p.Hop?;
      }
    }
  }

  /** A walk through vertices up to `k` costs no less than going straight or once through `k`. */
  lemma {:induction false} TailToPivot(w: Matrix, n: nat, k: nat, m: Matrix, p: Walk)
    requires Square(w, n) && Square(m, n) && k < n && Solves(w, n, k, m)
    requires p.In(n) && p.Via(k + 1)
    ensures p.Last() < n
    ensures || (p.Via(k) && m[p.src][p.Last()] <= Weight(w, n, p))
            || m[p.src][k] + m[k][p.Last()] <= Weight(w, n, p)
  {
    WalkStaysIn(n, p);
    if p.Via(k) {
      assert Joins(p, n, p.src, p.Last());
      assert Below(w, n, p.src, p.Last(), k, m[p.src][p.Last()]);
    } else {
      var q, r := FirstPivot(w, n, k, p);
      assert Below(w, n, p.src, k, k, m[p.src][k]);
      FromPivot(w, n, k, m, r);
    }
  }

  lemma {:induction false} WalkStaysIn(n: nat, p: Walk)
    requires p.In(n)
    ensures p.src < n && p.Last() < n
  {
    match p {
      case Hop(_, _) =>
      case Step(_, t) => WalkStaysIn(n, t);
    }
  }

  /** Splits a walk where it first meets the pivot. */
  lemma {:induction false} FirstPivot(w: Matrix, n: nat, k: nat, p: Walk) returns (q: Walk, r: Walk)
    requires Square(w, n) && k < n && p.In(n) && p.Via(k + 1) && !p.Via(k)
    ensures Joins(q, n, p.src, k) && q.Via(k)
    ensures Joins(r, n, k, p.Last()) && r.Via(k + 1) && r < p
    ensures Weight(w, n, p) == Weight(w, n, q) + Weight(w, n, r)
  {
    var t := p.rest;
    if t.src == k {
      q, r := Hop(p.src, k), t;
    } else {
      q, r := FirstPivot(w, n, k, t);
      q := Step(p.src, q);
    }
  }

  /** Cycles at the pivot cost nothing less than zero, so they can be dropped. */
  lemma {:induction false} FromPivot(w: Matrix, n: nat, k: nat, m: Matrix, p: Walk)
    requires Square(w, n) && Square(m, n) && k < n && Solves(w, n, k, m)
    requires p.In(n) && p.src == k && p.Via(k + 1)
    ensures p.Last() < n && m[k][p.Last()] <= Weight(w, n, p)
    decreases p
  {
    WalkStaysIn(n, p);
    if p.Via(k) {
      assert Joins(p, n, k, p.Last());
      assert Below(w, n, k, p.Last(), k, m[k][p.Last()]);
    } else {
      var _, r := FirstPivot(w, n, k, p);
      FromPivot(w, n, k, m, r);
    }
  }

  lemma {:induction false} PhaseSolves(w: Matrix, n: nat, k: nat, m: Matrix)
    requires Square(w, n) && Square(m, n) && k < n && Solves(w, n, k, m)
    ensures Solves(w, n, k + 1, Phase(m, n, k))
  {
    var r := Phase(m, n, k);
    forall i, j | 0 <= i < n && 0 <= j < n
      ensures Real(w, n, i, j, r[i][j]) && Below(w, n, i, j, k + 1, r[i][j])
    {
      assert r[i][j] == Through(m, n, k, i, j);
      if m[i][k] + m[k][j] < m[i][j] {
        JoinIsReal(w, n, i, k, j, m[i][k], m[k][j]);
      }
      forall p: Walk | Joins(p, n, i, j) && p.Via(k + 1) ensures r[i][j] <= Weight(w, n, p) {
        TailToPivot(w, n, k, m, p);
      }
    }
  }

  lemma {:induction false} PhasesSolve(w: Matrix, n: nat, k: nat)
    requires Clamped(w, n) && k <= n
    ensures Solves(w, n, k, Phases(w, n, k))
  {
    if k == 0 {
      HopsSolve(w, n);
    } else {
      PhasesSolve(w, n, k - 1);
      PhaseSolves(w, n, k - 1, Phases(w, n, k - 1));
    }
  }

  lemma {:induction false} EveryWalkIsVia(n: nat, p: Walk)
    requires p.In(n)
    ensures p.Via(n)
  {
    match p {
      case Hop(_, _) =>
      case Step(_, t) => EveryWalkIsVia(n, t); WalkStaysIn(n, t);
    }
  }

  /** The last phase leaves, for every pair, the smaller of INF and the least walk weight. */
  lemma PhasesAreShortest(w: Matrix, n: nat, i: nat, j: nat)
    requires Clamped(w, n) && i < n && j < n
    ensures Shortest(w, n, i, j, Phases(w, n, n)[i][j])
  {
    PhasesSolve(w, n, n);
    var d := Phases(w, n, n)[i][j];
    forall p: Walk | Joins(p, n, i, j) ensures d <= Weight(w, n, p) {
      EveryWalkIsVia(n, p);
      assert Below(w, n, i, j, n, d);
    }
  }

  /** No link can improve the result. */
  lemma PhasesAreSettled(w: Matrix, n: nat)
    requires Clamped(w, n)
    ensures Settled(w, n, Phases(w, n, n))
  {
    var d := Phases(w, n, n);
    forall i, j | 0 <= i < n && 0 <= j < n ensures d[i][j] <= w[i][j] {
      PhasesAreShortest(w, n, i, j);
      assert Joins(Hop(i, j), n, i, j) && Weight(w, n, Hop(i, j)) == w[i][j];
    }
    forall i, k, j | 0 <= i < n && 0 <= k < n && 0 <= j < n ensures d[i][j] <= w[i][k] + d[k][j] {
      PhasesAreShortest(w, n, i, j);
      PhasesAreShortest(w, n, k, j);
      hide Phases;
      if d[k][j] < INF {
        var p: Walk :| Joins(p, n, k, j) && Weight(w, n, p) == d[k][j];
        assert Joins(Step(i, p), n, i, j) && Weight(w, n, Step(i, p)) == w[i][k] + d[k][j];
      }
    }
  }

  lemma {:induction false} PhasesStayClamped(w: Matrix, n: nat, k: nat)
    requires Clamped(w, n) && k <= n
    ensures Clamped(Phases(w, n, k), n)
  {
    PhasesSolve(w, n, k);
  }

  // ---------- flat arrays ----------

  /** Where entry `(i, j)` lives in the flat array. */
  function Index(n: nat, i: nat, j: nat): (r: nat)
    requires i < n && j < n
    ensures r < n * n
  {
    IndexFits(n, i, j);
    i * n + j
  }

  lemma IndexFits(n: nat, i: nat, j: nat)
    requires i < n && j < n
    ensures 0 <= i * n + j < n * n
  {
    assert (i + 1) * n <= n * n;
    assert (i + 1) * n == i * n + n;
  }

  lemma RowsAscend(n: nat, i: nat, j: nat, a: nat, b: nat)
    requires i < a && j < n && b < n
    ensures i * n + j < a * n + b
  {
    assert (i + 1) * n <= a * n;
    assert (i + 1) * n == i * n + n;
  }

  /** Two entries never share a cell. */
  lemma IndexInjective(n: nat, i: nat, j: nat, a: nat, b: nat)
    requires i < n && j < n && a < n && b < n && i * n + j == a * n + b
    ensures i == a && j == b
  {
    if i < a {
      RowsAscend(n, i, j, a, b);
    } else if a < i {
      RowsAscend(n, a, b, i, j);
    }
  }

  function Put(m: Matrix, n: nat, i: nat, j: nat, v: nat): (r: Matrix)
    requires Square(m, n) && i < n && j < n
    ensures Square(r, n)
  {
    var row: seq<nat> := m[i][j := v];
    m[i := row]
  }

  /** The flat array holds exactly this matrix. */
  ghost predicate Holds(a: seq<nat>, n: nat, m: Matrix) {
    |a| == n * n && Square(m, n) && forall i, j :: 0 <= i < n && 0 <= j < n ==> a[Index(n, i, j)] == m[i][j]
  }

  lemma StoreHolds(a: seq<nat>, n: nat, m: Matrix, i: nat, j: nat, v: nat)
    requires Holds(a, n, m) && i < n && j < n
    ensures Holds(a[Index(n, i, j) := v], n, Put(m, n, i, j, v))
  {
    var b := a[Index(n, i, j) := v];
    var r := Put(m, n, i, j, v);
    forall x, y | 0 <= x < n && 0 <= y < n ensures b[Index(n, x, y)] == r[x][y] {
      if Index(n, x, y) == Index(n, i, j) {
        IndexInjective(n, x, y, i, j);
      }
    }
  }

  /** Treating one more pair is one store, or none when the pair cannot improve. */
  lemma PartialStep(m: Matrix, n: nat, k: nat, i: nat, j: nat)
    requires Square(m, n) && k < n && i < n && j < n
    ensures var r := Partial(m, n, k, i, j);
            Partial(m, n, k, i, j + 1) == Put(r, n, i, j, Through(m, n, k, i, j))
  {
    var r := Partial(m, n, k, i, j);
    var s := Partial(m, n, k, i, j + 1);
    var t := Put(r, n, i, j, Through(m, n, k, i, j));
    forall x | 0 <= x < n ensures s[x] == t[x] {
      assert |s[x]| == |t[x]|;
      assert forall y :: 0 <= y < n ==> s[x][y] == t[x][y];
    }
  }

  lemma PartialRowDone(m: Matrix, n: nat, k: nat, i: nat)
    requires Square(m, n) && k < n && i < n
    ensures Partial(m, n, k, i, n) == Partial(m, n, k, i + 1, 0)
  {
    var r := Partial(m, n, k, i, n);
    var s := Partial(m, n, k, i + 1, 0);
    forall x | 0 <= x < n ensures r[x] == s[x] {
      assert forall y :: 0 <= y < n ==> r[x][y] == s[x][y];
    }
  }

  lemma PartialStart(m: Matrix, n: nat, k: nat)
    requires Square(m, n) && k < n
    ensures Partial(m, n, k, 0, 0) == m
  {
    var r := Partial(m, n, k, 0, 0);
    forall x | 0 <= x < n ensures r[x] == m[x] {
      assert forall y :: 0 <= y < n ==> r[x][y] == m[x][y];
    }
  }

  // ---------- the program ----------

  /** The unsigned reading of what fscanf stores for a 32-bit integer. */
  function Unsigned(x: int): (u: nat)
    requires -0x8000_0000 <= x < 0x8000_0000
    ensures u < WORD && (u - x) % WORD == 0
  {
    if x < 0 then x + WORD else x
  }

  /** Reads the scanned integers into the topology: exactly the negative ones become "no link" (which is also
      what the largest integer says), all others are kept. */
  method LoadTopology(scanned: seq<int>, topology: array<nat>)
    requires |scanned| == topology.Length
    requires forall i :: 0 <= i < |scanned| ==> -0x8000_0000 <= scanned[i] < 0x8000_0000
    modifies topology
    ensures forall i :: 0 <= i < topology.Length ==> topology[i] == if scanned[i] < 0 then 0x7fff_ffff else scanned[i]
    ensures forall i :: 0 <= i < topology.Length ==> topology[i] <= INF
    ensures forall i :: 0 <= i < topology.Length ==>
              (topology[i] == INF <==> scanned[i] < 0 || scanned[i] == 0x7fff_ffff)
  {
    for i := 0 to topology.Length
      invariant forall k :: 0 <= k < i ==> topology[k] == if scanned[k] < 0 then INF else scanned[k]
    {
      var distance := Unsigned(scanned[i]);
      if distance > INF {
        distance := INF;
      }
      topology[i] := distance;
    }
  }

  /** What the three cells read for one pair hold, and what the pair has to become. */
  lemma PairCells(m: Matrix, n: nat, k: nat, i: nat, j: nat)
    requires Clamped(m, n) && k < n && i < n && j < n
    ensures var r := Partial(m, n, k, i, j);
            && r[i][j] == m[i][j] && r[i][k] == m[i][k] && r[k][j] == m[k][j]
            && m[i][k] <= INF && m[k][j] <= INF
            && Partial(m, n, k, i, j + 1) == Put(r, n, i, j, Min(m[i][k] + m[k][j], m[i][j]))
            && r == Put(r, n, i, j, m[i][j])
  {
    PivotStaysFixed(m, n, k, i, j, i);
    PivotStaysFixed(m, n, k, i, j, j);
    PartialStep(m, n, k, i, j);
    var r := Partial(m, n, k, i, j);
    assert r[i][j] == m[i][j];
    var row: seq<nat> := r[i][j := m[i][j]];
    assert row == r[i];
  }

  /** One pair of one phase, with 32-bit arithmetic, reading cells as they are now. */
  method RelaxPair(solution: array<nat>, n: nat, k: nat, i: nat, j: nat, ghost m: Matrix)
    requires Clamped(m, n) && k < n && i < n && j < n
    requires Holds(solution[..], n, Partial(m, n, k, i, j))
    modifies solution
    ensures Holds(solution[..], n, Partial(m, n, k, i, j + 1))
  {
    PairCells(m, n, k, i, j);
    ghost var r := Partial(m, n, k, i, j);
    ghost var before := solution[..];
    hide Partial, Put;
    var sum := Add32(solution[Index(n, i, k)], solution[Index(n, k, j)]);
    assert sum == m[i][k] + m[k][j];
    var ij := Index(n, i, j);
    if sum < solution[ij] {
      StoreHolds(before, n, r, i, j, sum);
      solution[ij] := sum;
      assert solution[..] == before[ij := sum];
    }
  }

  /** Copies the topology and relaxes through every intermediate router in turn. */
  method Solve(topology: array<nat>, solution: array<nat>, n: nat, ghost w: Matrix)
    requires Clamped(w, n) && Holds(topology[..], n, w)
    requires solution != topology && solution.Length == topology.Length
    modifies solution
    ensures Holds(solution[..], n, Phases(w, n, n))
    ensures forall i, j :: 0 <= i < n && 0 <= j < n ==> Shortest(w, n, i, j, solution[Index(n, i, j)])
  {
    forall c | 0 <= c < topology.Length {
      solution[c] := topology[c];
    }
    assert solution[..] == topology[..];
    for k := 0 to n
      invariant Holds(solution[..], n, Phases(w, n, k))
    {
      SolvePhase(solution, n, k, w);
    }
    forall i, j | 0 <= i < n && 0 <= j < n ensures Shortest(w, n, i, j, solution[Index(n, i, j)]) {
      PhasesAreShortest(w, n, i, j);
    }
  }

  method SolvePhase(solution: array<nat>, n: nat, k: nat, ghost w: Matrix)
    requires Clamped(w, n) && k < n && Holds(solution[..], n, Phases(w, n, k))
    modifies solution
    ensures Holds(solution[..], n, Phases(w, n, k + 1))
  {
    ghost var m := Phases(w, n, k);
    PhasesStayClamped(w, n, k);
    PartialStart(m, n, k);
    for i := 0 to n
      invariant Holds(solution[..], n, Partial(m, n, k, i, 0))
    {
      for j := 0 to n
        invariant Holds(solution[..], n, Partial(m, n, k, i, j))
      {
        RelaxPair(solution, n, k, i, j, m);
      }
      PartialRowDone(m, n, k, i);
    }
  }
}
