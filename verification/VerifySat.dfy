/** The check of a worker's satisfying assignment against the job's formula and the cube. */
module VerifySat {
  import opened GoText
  import opened Cnf
  import opened Dimacs
  import opened ShardFile
  import opened Cubes

  /** Negation of an int32, which maps the least value to itself. */
  function Neg32(n: int): int {
    ToInt32(-n)
  }

  /** Values of variables, as a worker reports them. */
  type Partial = map<int, bool>

  function Extend(m: Partial, lit: int): Partial {
    if lit == 0 then m else if lit > 0 then m[lit := true] else m[Neg32(lit) := false]
  }

  /** The literals in order, a later one overriding an earlier one. */
  function Fold(assignment: seq<int>): (m: Partial) {
    if assignment == [] then map[]
    else Extend(Fold(assignment[..|assignment| - 1]), assignment[|assignment| - 1])
  }

  predicate LitHolds(m: Partial, lit: int) {
    if lit > 0 then lit in m && m[lit] else -lit in m && !m[-lit]
  }

  /** A cube literal, an int32, is contradicted. */
  predicate LitFails(m: Partial, lit: int) {
    if lit > 0 then lit in m && !m[lit] else Neg32(lit) in m && m[Neg32(lit)]
  }

  predicate ClauseHolds(m: Partial, c: Clause) {
    exists i :: 0 <= i < |c| && LitHolds(m, c[i])
  }

  /** An assignment is accepted if it contradicts no cube literal and makes some literal of
      every clause true. A cube variable may be left open. */
  predicate Accepts(f: File, cube: seq<int>, assignment: seq<int>) {
    var m, formula := Fold(assignment), Clauses(f);
    && (forall i :: 0 <= i < |cube| ==> !LitFails(m, cube[i]))
    && (forall i :: 0 <= i < |formula| ==> ClauseHolds(m, formula[i]))
  }

  /** A valuation that agrees with a partial assignment. */
  ghost predicate Agrees(v: Valuation, m: Partial) {
    forall x :: x in m ==> (m[x] <==> x in v)
  }

  // ---- The checker ----

  predicate IsInt32(n: int) {
    MIN_INT32 <= n <= MAX_INT32
  }

  method BuildMap(assignment: seq<int>) returns (assign: map<int, bool>)
    ensures assign == Fold(assignment)
  {
    assign := map[];
    var i := 0;
    while i < |assignment|
      invariant 0 <= i <= |assignment|
      invariant assign == Fold(assignment[..i])
    {
      var lit := assignment[i];
      assert assignment[..i + 1][..i] == assignment[..i];
      i := i + 1;
      if lit == 0 {
        continue;
      }
      if lit > 0 {
        assign := assign[lit := true];
      } else {
        assign := assign[Neg32(lit) := false];
      }
    }
    assert assignment[..|assignment|] == assignment;
  }

  method CheckCube(assign: map<int, bool>, cube: seq<int>) returns (ok: bool)
    ensures ok <==> forall i :: 0 <= i < |cube| ==> !LitFails(assign, cube[i])
  {
    for i := 0 to |cube|
      invariant forall k :: 0 <= k < i ==> !LitFails(assign, cube[k])
    {
      var cl := cube[i];
      if cl > 0 {
        if cl in assign && !assign[cl] {
          assert LitFails(assign, cube[i]);
          return false;
        }
      } else {
        if Neg32(cl) in assign && assign[Neg32(cl)] {
          assert LitFails(assign, cube[i]);
          return false;
        }
      }
    }
    return true;
  }

  /** The token loop on one clause line. */
  method CheckClause(assign: map<int, bool>, toks: seq<string>) returns (satisfied: bool)
    requires forall x :: x in assign ==> MIN_INT32 <= x <= MAX_INT32
    ensures satisfied <==> ClauseHolds(assign, Literals(toks))
  {
    hide Atoi, Literals;
    var i := 0;
    while i < |toks|
      invariant 0 <= i <= |toks|
      invariant i <= |Literals(toks)|
      invariant forall k :: 0 <= k < i ==> !LitHolds(assign, Literals(toks)[k])
    {
      var lit := Atoi(toks[i]);
      LiteralsPrefix(toks, i);
      if lit.None? {
        return false;
      }
      if lit.value == 0 {
        break;
      }
      var holds := CheckLiteral(assign, lit.value);
      if holds {
        return true;
      }
      i := i + 1;
    }
    return false;
  }

  method CheckLiteral(assign: map<int, bool>, lit: int) returns (holds: bool)
    requires forall x :: x in assign ==> MIN_INT32 <= x <= MAX_INT32
    requires MIN_INT64 <= lit <= MAX_INT64 && lit != 0
    ensures holds <==> LitHolds(assign, lit)
  {
    var abs := lit;
    if abs < 0 {
      abs := ToInt64(-abs);
    }
    if abs !in assign {
      return false;
    }
    var val := assign[abs];
    return (lit > 0 && val) || (lit < 0 && !val);
  }

  lemma LiteralsPrefix(toks: seq<string>, i: nat)
    requires i <= |Literals(toks)|
    ensures i < |toks| ==>
              if Atoi(toks[i]).None? || Atoi(toks[i]) == Some(0) then |Literals(toks)| == i
              else i < |Literals(toks)| && Literals(toks)[i] == Atoi(toks[i]).value
  {
    hide Atoi;
  }

  method VerifySatAssignment(f: File, cube: seq<int>, assignment: seq<int>) returns (ok: bool)
    requires forall i :: 0 <= i < |assignment| ==> IsInt32(assignment[i])
    ensures ok <==> Accepts(f, cube, assignment)
  {
    var assign := BuildMap(assignment);
    FoldFits(assignment);
    hide Fold, LitFails, LitHolds, TrimSpace, Fields, Literals, ClauseHolds, Normalised;
    var cubeOk := CheckCube(assign, cube);
    if !cubeOk {
      return false;
    }
    ok := CheckLines(f, assign);
  }

  /** The line loop. */
  method CheckLines(f: File, assign: map<int, bool>) returns (ok: bool)
    requires forall x :: x in assign ==> MIN_INT32 <= x <= MAX_INT32
    ensures ok <==> forall i :: 0 <= i < |Clauses(f)| ==> ClauseHolds(assign, Clauses(f)[i])
  {
    hide TrimSpace, Fields, Literals, ClauseHolds, Normalised;
    var i := 0;
    while i < |f|
      invariant 0 <= i <= |f|
      invariant PercentFree(f[..i])
      invariant forall k :: 0 <= k < |ClausesOf(f[..i])| ==> ClauseHolds(assign, ClausesOf(f[..i])[k])
    {
      var line := TrimSpace(f[i]);
      ClausesOfStep(f, i);
      if line == "" || HasPrefix(line, "c") {
        assert !Percent(f[i]);
      } else if HasPrefix(line, "p") {
        assert !Percent(f[i]);
      } else if HasPrefix(line, "%") {
        break;
      } else {
        var toks := Fields(line);
        var satisfied := CheckClause(assign, toks);
        if !satisfied {
          UnsatisfiedLine(f, i, assign);
          return false;
        }
      }
      i := i + 1;
    }
    NormalisedIs(f, i);
    return true;
  }

  lemma ClausesOfStep(f: File, i: nat)
    requires i < |f|
    ensures ClausesOf(f[..i + 1]) == ClausesOf(f[..i]) + if ClauseLine(f[i]) then [Literals(Toks(f[i]))] else []
  {
    hide ClauseLine, Literals, Toks;
    assert f[..i + 1][..i] == f[..i];
  }

  lemma UnsatisfiedLine(f: File, i: nat, m: Partial)
    requires i < |f| && PercentFree(f[..i]) && ClauseLine(f[i])
    requires !ClauseHolds(m, Literals(Toks(f[i])))
    ensures exists k :: 0 <= k < |Clauses(f)| && !ClauseHolds(m, Clauses(f)[k])
  {
    hide Toks, Literals, TrimSpace, ClauseHolds;
    var n := FirstPercent(f);
    assert forall k :: 0 <= k < i ==> f[..i][k] == f[k];
    assert i < n;
    var upto, rest := f[..i + 1], f[i + 1..n];
    assert f[..n] == upto + rest;
    ClausesOfConcat(upto, rest);
    ClausesOfStep(f, i);
    var k := |ClausesOf(f[..i])|;
    assert Clauses(f)[k] == Literals(Toks(f[i]));
  }

  lemma {:induction false} FoldFits(assignment: seq<int>)
    requires forall i :: 0 <= i < |assignment| ==> IsInt32(assignment[i])
    ensures forall x :: x in Fold(assignment) ==> MIN_INT32 <= x <= MAX_INT32
  {
    if assignment != [] {
      FoldFits(assignment[..|assignment| - 1]);
    }
  }

  /** The last literal on a variable decides its value. (The least 32-bit integer, which has no
      negation, is on no variable.) */
  lemma {:induction false} LastLiteralWins(assignment: seq<int>, k: nat)
    requires forall i :: 0 <= i < |assignment| ==> IsInt32(assignment[i])
    requires k < |assignment| && assignment[k] != 0 && assignment[k] != MIN_INT32
    requires forall i :: k < i < |assignment| ==> assignment[i] != assignment[k] && assignment[i] != -assignment[k]
    ensures var x := if assignment[k] < 0 then -assignment[k] else assignment[k];
            x in Fold(assignment) && Fold(assignment)[x] == (assignment[k] > 0)
  {
    var n := |assignment| - 1;
    if k < n {
      LastLiteralWins(assignment[..n], k);
    }
  }

  lemma {:induction false} OnlyReportedVariables(assignment: seq<int>, x: int)
    requires forall i :: 0 <= i < |assignment| ==> IsInt32(assignment[i])
    requires x > 0 && x in Fold(assignment)
    ensures x in assignment || -x in assignment
  {
    var n := |assignment| - 1;
    if x in Fold(assignment[..n]) {
      OnlyReportedVariables(assignment[..n], x);
    } else {
      assert assignment[n] in assignment;
    }
  }

  // ---- What acceptance means ----

  lemma ClauseHoldsExtends(m: Partial, c: Clause, v: Valuation)
    requires ClauseHolds(m, c) && Agrees(v, m)
    ensures ClauseTrue(c, v)
  {
    var i :| 0 <= i < |c| && LitHolds(m, c[i]);
    assert LitTrue(c[i], v);
  }

  /** However the open variables are set, an accepted assignment satisfies the formula. */
  lemma AcceptedSatisfies(f: File, cube: seq<int>, assignment: seq<int>, v: Valuation)
    requires Accepts(f, cube, assignment) && Agrees(v, Fold(assignment))
    ensures Models(v, Clauses(f))
  {
    hide Fold, Clauses, ClauseHolds, ClauseTrue, Agrees;
    forall i | 0 <= i < |Clauses(f)| ensures ClauseTrue(Clauses(f)[i], v) {
      ClauseHoldsExtends(Fold(assignment), Clauses(f)[i], v);
    }
  }

  /** A partial assignment that contradicts no cube literal extends to one that makes a
      consistent cube true. */
  lemma ExtendToCube(m: Partial, cube: seq<int>, v0: Valuation) returns (v: Valuation)
    requires CubeTrue(cube, v0)
    requires forall i :: 0 <= i < |cube| ==> MIN_INT32 < cube[i] <= MAX_INT32 && !LitFails(m, cube[i])
    ensures Agrees(v, m) && CubeTrue(cube, v)
  {
    v := iset x: int | if x in m then m[x] else x in v0;
    forall i | 0 <= i < |cube| ensures LitTrue(cube[i], v) {
      assert LitTrue(cube[i], v0) && !LitFails(m, cube[i]);
    }
  }

  /** An accepted assignment extends to a model of formula and cube, so the shard's formula
      is satisfiable, although the check leaves cube variables open. */
  lemma AcceptedShardIsSatisfiable(f: File, depth: nat, mask: nat, assignment: seq<int>)
    requires mask < Pow2(depth) && depth <= MAX_INT32
    requires Accepts(f, CubeAt(depth, mask), assignment)
    ensures Satisfiable(Clauses(f) + Units(CubeAt(depth, mask)))
  {
    hide Fold, Clauses, ClauseHolds, Models, CubeTrue, Agrees, Units, Bit;
    var cube := CubeAt(depth, mask);
    var v0 := TrueIn(cube, depth, mask);
    var v := ExtendToCube(Fold(assignment), cube, v0);
    AcceptedSatisfies(f, cube, assignment, v);
    ModelsWithUnits(v, Clauses(f), cube);
  }

  // ---- Which assignments are accepted ----

  ghost predicate CoversClause(m: Partial, c: Clause) {
    forall i :: 0 <= i < |c| ==> (if c[i] < 0 then -c[i] else c[i]) in m
  }

  ghost predicate Covers(m: Partial, f: Formula) {
    forall i :: 0 <= i < |f| ==> CoversClause(m, f[i])
  }

  lemma CoveredClause(m: Partial, c: Clause, v: Valuation)
    requires CoversClause(m, c) && Agrees(v, m)
    ensures ClauseHolds(m, c) <==> ClauseTrue(c, v)
  {
    forall i | 0 <= i < |c| ensures LitHolds(m, c[i]) <==> LitTrue(c[i], v) {
    }
    if ClauseTrue(c, v) {
      var i :| 0 <= i < |c| && LitTrue(c[i], v);
      assert LitHolds(m, c[i]);
    }
    if ClauseHolds(m, c) {
      ClauseHoldsExtends(m, c, v);
    }
  }

  /** On assignments that give every variable of the formula a value the check is exact: it
      accepts the models of the formula that contradict no cube literal, and nothing else. */
  lemma CheckIsExact(f: File, cube: seq<int>, assignment: seq<int>, v: Valuation)
    requires Agrees(v, Fold(assignment)) && Covers(Fold(assignment), Clauses(f))
    ensures Accepts(f, cube, assignment)
       <==> Models(v, Clauses(f)) && forall i :: 0 <= i < |cube| ==> !LitFails(Fold(assignment), cube[i])
  {
    hide Fold, Clauses, ClauseHolds, ClauseTrue, Agrees, CoversClause, LitFails;
    forall i | 0 <= i < |Clauses(f)|
      ensures ClauseHolds(Fold(assignment), Clauses(f)[i]) <==> ClauseTrue(Clauses(f)[i], v)
    {
      CoveredClause(Fold(assignment), Clauses(f)[i], v);
    }
  }

  /** No clause holds a variable with both signs that the assignment leaves open. */
  predicate Untangled(m: Partial, f: Formula) {
    forall i, x :: 0 <= i < |f| && x > 0 && x in f[i] && -x in f[i] ==> x in m
  }

  /** Unless a clause is true only because of a variable that is left open, the check accepts
      exactly the assignments that contradict no cube literal and all of whose total
      extensions satisfy the formula. */
  lemma AcceptedIffAllExtensions(f: File, cube: seq<int>, assignment: seq<int>)
    requires Untangled(Fold(assignment), Clauses(f))
    ensures Accepts(f, cube, assignment)
       <==> (forall i :: 0 <= i < |cube| ==> !LitFails(Fold(assignment), cube[i]))
            && forall v: Valuation :: Agrees(v, Fold(assignment)) ==> Models(v, Clauses(f))
  {
    hide Fold, Clauses, ClauseHolds, ClauseTrue, Agrees, LitFails;
    var m, formula := Fold(assignment), Clauses(f);
    if Accepts(f, cube, assignment) {
      forall v: Valuation | Agrees(v, m) ensures Models(v, formula) {
        AcceptedSatisfies(f, cube, assignment, v);
      }
    }
    if forall v: Valuation :: Agrees(v, m) ==> Models(v, formula) {
      forall i | 0 <= i < |formula| ensures ClauseHolds(m, formula[i]) {
        var v := LeastTrue(m, formula[i]);
        assert Models(v, formula);
      }
    }
  }

  /** The extension that makes as few literals of the clause true as possible. */
  lemma LeastTrue(m: Partial, c: Clause) returns (v: Valuation)
    requires forall x :: x > 0 && x in c && -x in c ==> x in m
    ensures Agrees(v, m) && (ClauseTrue(c, v) ==> ClauseHolds(m, c))
  {
    v := iset x: int | if x in m then m[x] else -x in c;
    forall i | 0 <= i < |c| && LitTrue(c[i], v) ensures LitHolds(m, c[i]) {
      assert c[i] in c && (c[i] <= 0 ==> -(-c[i]) == c[i]);
    }
  }

  /** A solver's model as it is reported: int32 literals that are true, zeros excluded. */
  ghost predicate Reports(assignment: seq<int>, v: Valuation) {
    forall i :: 0 <= i < |assignment| ==>
      MIN_INT32 < assignment[i] <= MAX_INT32 && assignment[i] != 0 && LitTrue(assignment[i], v)
  }

  lemma {:induction false} ReportAgrees(assignment: seq<int>, v: Valuation)
    requires Reports(assignment, v)
    ensures Agrees(v, Fold(assignment))
    ensures forall i :: 0 <= i < |assignment| ==>
              (if assignment[i] < 0 then -assignment[i] else assignment[i]) in Fold(assignment)
  {
    if assignment != [] {
      var rest, lit := assignment[..|assignment| - 1], assignment[|assignment| - 1];
      ReportAgrees(rest, v);
      assert lit < 0 ==> Neg32(lit) == -lit;
      assert forall i :: 0 <= i < |rest| ==> assignment[i] == rest[i];
    }
  }

  /** Every variable of the formula is reported. */
  ghost predicate Complete(assignment: seq<int>, f: Formula) {
    forall i, j :: 0 <= i < |f| && 0 <= j < |f[i]| ==> f[i][j] in assignment || -f[i][j] in assignment
  }

  /** A complete report of a model of formula and cube is always accepted. */
  lemma ModelIsAccepted(f: File, cube: seq<int>, assignment: seq<int>, v: Valuation)
    requires Models(v, Clauses(f) + Units(cube))
    requires Reports(assignment, v) && Complete(assignment, Clauses(f))
    requires forall i :: 0 <= i < |cube| ==> IsInt32(cube[i])
    ensures Accepts(f, cube, assignment)
  {
    ModelsWithUnits(v, Clauses(f), cube);
    ReportAgrees(assignment, v);
    CompleteCovers(assignment, Clauses(f), v);
    hide Fold, Clauses, ClauseHolds, ClauseTrue, Covers, Units;
    CheckIsExact(f, cube, assignment, v);
    forall i | 0 <= i < |cube| ensures !LitFails(Fold(assignment), cube[i]) {
      assert LitTrue(cube[i], v);
      NoLeastKey(assignment, v);
    }
  }

  lemma {:induction false} NoLeastKey(assignment: seq<int>, v: Valuation)
    requires Reports(assignment, v)
    ensures MIN_INT32 !in Fold(assignment)
  {
    if assignment != [] {
      var rest := assignment[..|assignment| - 1];
      assert forall i :: 0 <= i < |rest| ==> rest[i] == assignment[i];
      NoLeastKey(rest, v);
    }
  }

  lemma CompleteCovers(assignment: seq<int>, f: Formula, v: Valuation)
    requires Reports(assignment, v) && Complete(assignment, f)
    ensures Covers(Fold(assignment), f)
  {
    hide Fold;
    ReportAgrees(assignment, v);
    forall i, j | 0 <= i < |f| && 0 <= j < |f[i]|
      ensures (if f[i][j] < 0 then -f[i][j] else f[i][j]) in Fold(assignment)
    {
      var lit := f[i][j];
      assert lit in assignment || -lit in assignment;
    }
  }
}
