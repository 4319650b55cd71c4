/** Link matrices, walks over them, and what a correct distance is. */
module Distances {

  /** "No link"; also the largest distance any vector may hold. */
  const INF: nat := 0x7fff_ffff

  /** `distance_t` is a 32-bit unsigned integer, so sums wrap here. */
  const WORD: nat := 0x1_0000_0000

  type Matrix = seq<seq<nat>>

  function Add32(a: nat, b: nat): nat {
    (a + b) % WORD
  }

  function Min(a: nat, b: nat): nat {
    if a < b then a else b
  }

  predicate Square(m: Matrix, n: nat) {
    |m| == n && forall i :: 0 <= i < n ==> |m[i]| == n
  }

  /** A matrix of `n` routers whose entries `create_topology` has clamped. */
  predicate Clamped(m: Matrix, n: nat) {
    Square(m, n) && forall i, j :: 0 <= i < n && 0 <= j < n ==> m[i][j] <= INF
  }

  /** Router `i` sends its vector to router `j`. */
  predicate Linked(w: Matrix, n: nat, i: nat, j: nat)
    requires Square(w, n)
  {
    i < n && j < n && i != j && w[i][j] != INF
  }

  /** Finiteness of links is symmetric; their weights need not be. */
  predicate SymmetricLinks(w: Matrix, n: nat)
    requires Square(w, n)
  {
    forall i, j :: 0 <= i < n && 0 <= j < n && w[i][j] != INF ==> w[j][i] != INF
  }

  /** A walk of at least one hop, written from its first vertex on. */
  datatype Walk = Hop(src: nat, dst: nat) | Step(src: nat, rest: Walk) {

    function Last(): nat {
      match this
      case Hop(_, j) => j
      case Step(_, t) => t.Last()
    }

    predicate In(n: nat) {
      match this
      case Hop(i, j) => i < n && j < n
      case Step(i, t) => i < n && t.src < n && t.In(n)
    }

    /** Every vertex strictly inside the walk is below `k`. */
    predicate Via(k: nat) {
      match this
      case Hop(_, _) => true
      case Step(_, t) => t.src < k && t.Via(k)
    }
  }

  function Weight(w: Matrix, n: nat, p: Walk): nat
    requires Square(w, n) && p.In(n)
  {
    match p
    case Hop(i, j) => w[i][j]
    case Step(i, t) => w[i][t.src] + Weight(w, n, t)
  }

  ghost predicate Joins(p: Walk, n: nat, i: nat, j: nat) {
    p.In(n) && p.src == i && p.Last() == j
  }

  /** `d` stands for "unreachable" or is what some walk from `i` to `j` costs. */
  ghost predicate Real(w: Matrix, n: nat, i: nat, j: nat, d: nat)
    requires Square(w, n)
  {
    d <= INF && (d == INF || exists p: Walk :: Joins(p, n, i, j) && Weight(w, n, p) == d)
  }

  /** No walk from `i` to `j` with its inner vertices below `k` costs less than `d`. */
  ghost predicate Below(w: Matrix, n: nat, i: nat, j: nat, k: nat, d: nat)
    requires Square(w, n)
  {
    forall p: Walk :: Joins(p, n, i, j) && p.Via(k) ==> d <= Weight(w, n, p)
  }

  /** `d` is the smaller of INF and the least weight of any walk from `i` to `j`. */
  ghost predicate Shortest(w: Matrix, n: nat, i: nat, j: nat, d: nat)
    requires Square(w, n)
  {
    Real(w, n, i, j, d) && forall p: Walk :: Joins(p, n, i, j) ==> d <= Weight(w, n, p)
  }

  lemma ShortestIsUnique(w: Matrix, n: nat, i: nat, j: nat, d: nat, e: nat)
    requires Square(w, n) && Shortest(w, n, i, j, d) && Shortest(w, n, i, j, e)
    ensures d == e
  {
  }

  /** Neither operand above INF: a 32-bit sum is the true sum. */
  lemma NoWrap(a: nat, b: nat)
    requires a <= INF && b <= INF
    ensures Add32(a, b) == a + b
  {
  }

  lemma LinkIsReal(w: Matrix, n: nat, i: nat, j: nat)
    requires Clamped(w, n) && i < n && j < n
    ensures Real(w, n, i, j, w[i][j])
  {
    assert Joins(Hop(i, j), n, i, j) && Weight(w, n, Hop(i, j)) == w[i][j];
  }

  /** One more hop in front of a real distance is a real distance. */
  lemma PrependIsReal(w: Matrix, n: nat, i: nat, k: nat, j: nat, d: nat)
    requires Clamped(w, n) && i < n && k < n && j < n
    requires Real(w, n, k, j, d) && w[i][k] + d < INF
    ensures Real(w, n, i, j, w[i][k] + d)
  {
    var p: Walk :| Joins(p, n, k, j) && Weight(w, n, p) == d;
    assert Joins(Step(i, p), n, i, j) && Weight(w, n, Step(i, p)) == w[i][k] + d;
  }

  function Append(p: Walk, q: Walk): Walk {
    match p
    case Hop(i, _) => Step(i, q)
    case Step(i, t) => Step(i, Append(t, q))
  }

  lemma {:induction false} AppendWeighs(w: Matrix, n: nat, p: Walk, q: Walk)
    requires Square(w, n) && p.In(n) && q.In(n) && p.Last() == q.src
    ensures var r := Append(p, q); r.In(n) && r.src == p.src && r.Last() == q.Last()
                                   && Weight(w, n, r) == Weight(w, n, p) + Weight(w, n, q)
  {
    match p {
      case Hop(_, _) =>
      case Step(_, t) => AppendWeighs(w, n, t, q);
    }
  }

  lemma JoinIsReal(w: Matrix, n: nat, i: nat, k: nat, j: nat, d: nat, e: nat)
    requires Square(w, n) && Real(w, n, i, k, d) && Real(w, n, k, j, e) && d + e < INF
    ensures Real(w, n, i, j, d + e)
  {
    var p: Walk :| Joins(p, n, i, k) && Weight(w, n, p) == d;
    var q: Walk :| Joins(q, n, k, j) && Weight(w, n, q) == e;
    AppendWeighs(w, n, p, q);
    assert Joins(Append(p, q), n, i, j);
  }

  /** A matrix that no link can improve: the fixed point of relaxation. */
  predicate Settled(w: Matrix, n: nat, d: Matrix)
    requires Square(w, n) && Square(d, n)
  {
    && (forall i, j :: 0 <= i < n && 0 <= j < n ==> d[i][j] <= w[i][j])
    && (forall i, k, j :: 0 <= i < n && 0 <= k < n && 0 <= j < n ==> d[i][j] <= w[i][k] + d[k][j])
  }

  lemma {:induction false} SettledBelowWalk(w: Matrix, n: nat, d: Matrix, p: Walk)
    requires Square(w, n) && Square(d, n) && Settled(w, n, d) && p.In(n)
    ensures p.Last() < n && d[p.src][p.Last()] <= Weight(w, n, p)
  {
    match p {
      case Hop(_, _) =>
      case Step(_, t) => SettledBelowWalk(w, n, d, t);
    }
  }

  /** A settled matrix of real distances is the matrix of shortest distances. */
  lemma SettledIsShortest(w: Matrix, n: nat, d: Matrix, i: nat, j: nat)
    requires Square(w, n) && Square(d, n) && Settled(w, n, d) && i < n && j < n
    requires Real(w, n, i, j, d[i][j])
    ensures Shortest(w, n, i, j, d[i][j])
  {
    forall p: Walk | Joins(p, n, i, j) ensures d[i][j] <= Weight(w, n, p) {
      SettledBelowWalk(w, n, d, p);
    }
  }
}
