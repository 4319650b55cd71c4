/** How good the links of a topology have to be for check_done to be trusted on it: the bound of `Budget` is
    the best possible. */
module Bound {
  import opened Distances
  import opened Network
  import opened Verdict
  import opened Selects
  import opened Progress
  import opened Budget
  import opened FalseVerdict
  import FloydWarshall

  /** check_done is about to return true. */
  ghost predicate SaysDone(c: Config, run: seq<Net>, acts: seq<Action>, x: nat)
    requires ValidConfig(c)
  {
    IsRun(c, run, acts) && Scanning(c, run, acts) && x < |run| && run[x].main.phase.Judged? && run[x].main.valid
  }

  /** Whenever check_done is about to return true on this topology, its assertion holds. */
  ghost predicate Trusted(c: Config)
    requires ValidConfig(c)
  {
    forall run: seq<Net>, acts: seq<Action>, x: nat :: SaysDone(c, run, acts, x) ==> AssertionHolds(c, run[x])
  }

  // ---------- the topology that fools check_done is within five of its solution ----------

  const SOLUTION: Matrix :=
    [Hub(37, 20), [10, 0, 30, 20, 20, 20], Source(2), Source(3), Source(4), Source(5)]

  lemma SolutionRows()
    ensures Square(SOLUTION, ROUTERS) && SOLUTION[0] == Hub(37, 20) && SOLUTION[1] == [10, 0, 30, 20, 20, 20]
    ensures forall k :: 2 <= k < ROUTERS ==> SOLUTION[k] == Source(k)
  {
  }

  /** No link improves the row of router `i`. */
  lemma RowIsSettled(i: nat, k: nat, j: nat)
    requires i < ROUTERS && k < ROUTERS && j < ROUTERS
    ensures Square(LINKS, ROUTERS) && Square(SOLUTION, ROUTERS)
    ensures SOLUTION[i][j] <= LINKS[i][j] && SOLUTION[i][j] <= LINKS[i][k] + SOLUTION[k][j]
  {
    Rows();
    SolutionRows();
    hide LINKS, SOLUTION;
    if i == 0 { FromHub(k, j); } else if i == 1 { FromVictim(k, j); } else { FromSource(i, k, j); }
  }

  lemma FromHub(k: nat, j: nat)
    requires k < ROUTERS && j < ROUTERS
    ensures Square(LINKS, ROUTERS) && Square(SOLUTION, ROUTERS)
    ensures Hub(37, 20)[j] <= Hub(40, 21)[j] && Hub(37, 20)[j] <= Hub(40, 21)[k] + SOLUTION[k][j]
  {
    Rows();
    SolutionRows();
    hide LINKS, SOLUTION;
  }

  lemma FromVictim(k: nat, j: nat)
    requires k < ROUTERS && j < ROUTERS
    ensures Square(LINKS, ROUTERS) && Square(SOLUTION, ROUTERS)
    ensures SOLUTION[1][j] <= VICTIM[j] && SOLUTION[1][j] <= VICTIM[k] + SOLUTION[k][j]
  {
    Rows();
    SolutionRows();
    hide LINKS, SOLUTION;
  }

  lemma FromSource(i: nat, k: nat, j: nat)
    requires 2 <= i < ROUTERS && k < ROUTERS && j < ROUTERS
    ensures Square(LINKS, ROUTERS) && Square(SOLUTION, ROUTERS)
    ensures SOLUTION[i][j] <= Source(i)[k] + SOLUTION[k][j]
  {
    Rows();
    SolutionRows();
    hide LINKS, SOLUTION;
  }

  lemma SolutionIsBelow(i: nat, j: nat)
    requires i < ROUTERS && j < ROUTERS
    ensures ValidConfig(CASE) && Square(SOLUTION, ROUTERS) && SOLUTION[i][j] <= Best(CASE, i)[j]
  {
    CaseIsValid();
    SolutionRows();
    hide LINKS, SOLUTION, FloydWarshall.Phases;
    assert Settled(LINKS, ROUTERS, SOLUTION) by {
      forall i, k, j | 0 <= i < ROUTERS && 0 <= k < ROUTERS && 0 <= j < ROUTERS
        ensures SOLUTION[i][j] <= LINKS[i][j] && SOLUTION[i][j] <= LINKS[i][k] + SOLUTION[k][j]
      {
        RowIsSettled(i, k, j);
      }
    }
    FloydWarshall.PhasesAreShortest(LINKS, ROUTERS, i, j);
    var d := Best(CASE, i)[j];
    if d < INF {
      var p: Walk :| Joins(p, ROUTERS, i, j) && Weight(LINKS, ROUTERS, p) == d;
      SettledBelowWalk(LINKS, ROUTERS, SOLUTION, p);
    } else {
      RowIsSettled(i, i, j);
    }
  }

  lemma SumSix(v: seq<nat>)
    requires |v| == 6
    ensures Sum(v) == v[0] + v[1] + v[2] + v[3] + v[4] + v[5]
  {
    assert Sum(v) == v[0] + Sum(v[1..]) && Sum(v[1..]) == v[1] + Sum(v[2..]) by { assert v[1..][1..] == v[2..]; }
    assert Sum(v[2..]) == v[2] + Sum(v[3..]) && Sum(v[3..]) == v[3] + Sum(v[4..]) by {
      assert v[2..][1..] == v[3..] && v[3..][1..] == v[4..];
    }
    assert Sum(v[4..]) == v[4] + Sum(v[5..]) && Sum(v[5..]) == v[5] by {
      assert v[4..][1..] == v[5..] && v[5..] == [v[5]];
    }
  }

  lemma CaseIsNear()
    ensures ValidConfig(CASE) && Near(CASE, 5)
  {
    CaseIsValid();
    SolutionRows();
    hide LINKS, SOLUTION, FloydWarshall.Phases, Sum, Best;
    forall k | 0 <= k < ROUTERS ensures Sum(LINKS[k]) < 5 + Sum(Best(CASE, k)) {
      forall j | 0 <= j < ROUTERS ensures SOLUTION[k][j] <= Best(CASE, k)[j] {
        SolutionIsBelow(k, j);
      }
      SumMono(SOLUTION[k], Best(CASE, k));
      SumSix(LINKS[k]);
      SumSix(SOLUTION[k]);
    }
  }

  lemma CaseIsNotTrusted()
    ensures ValidConfig(CASE) && !Trusted(CASE)
  {
    var run, acts := CheckDoneCanBeWrong();
    hide LINKS, AssertionHolds, Scanning, Apply, Enabled, Fits;
    assert SaysDone(CASE, run, acts, |acts|);
  }

  // ---------- the bound ----------

  lemma NearIsTrusted(c: Config, b: nat)
    requires ValidConfig(c) && Near(c, b) && b <= 4
    ensures Trusted(c)
  {
    forall run: seq<Net>, acts: seq<Action>, x: nat | SaysDone(c, run, acts, x) ensures AssertionHolds(c, run[x]) {
      NearTopologiesAreSafe(c, run, acts, x);
    }
  }

  /** A bound on how far the links may be from the solution makes check_done trustworthy, on every topology and
      in every run, if and only if it is at most four. */
  lemma FourIsTheBound(b: nat)
    ensures (forall c: Config :: ValidConfig(c) && Near(c, b) ==> Trusted(c)) <==> b <= 4
  {
    if b <= 4 {
      forall c: Config | ValidConfig(c) && Near(c, b) ensures Trusted(c) {
        NearIsTrusted(c, b);
      }
    } else {
      CaseIsNear();
      CaseIsNotTrusted();
      hide LINKS, Trusted, Best, Sum;
      assert Near(CASE, b);
    }
  }
}
