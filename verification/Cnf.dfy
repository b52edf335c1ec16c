/** Propositional formulas in conjunctive normal form, and what they mean. */
module Cnf {

  type Clause = seq<int>
  type Formula = seq<Clause>

  /** A total truth assignment, as the set of the variables it makes true. */
  type Valuation = iset<int>

  ghost predicate LitTrue(lit: int, v: Valuation) {
    if lit > 0 then lit in v else -lit !in v
  }

  ghost predicate ClauseTrue(c: Clause, v: Valuation) {
    exists i :: 0 <= i < |c| && LitTrue(c[i], v)
  }

  ghost predicate Models(v: Valuation, f: Formula) {
    forall i :: 0 <= i < |f| ==> ClauseTrue(f[i], v)
  }

  ghost predicate Satisfiable(f: Formula) {
    exists v: Valuation :: Models(v, f)
  }

  ghost predicate CubeTrue(cube: seq<int>, v: Valuation) {
    forall i :: 0 <= i < |cube| ==> LitTrue(cube[i], v)
  }

  function Units(cube: seq<int>): (f: Formula)
    ensures |f| == |cube| && forall i :: 0 <= i < |cube| ==> f[i] == [cube[i]]
  {
    seq(|cube|, i requires 0 <= i < |cube| => [cube[i]])
  }

  /** A model of `f` and the unit clauses of a cube is a model of `f` that makes the cube true. */
  lemma ModelsWithUnits(v: Valuation, f: Formula, cube: seq<int>)
    ensures Models(v, f + Units(cube)) <==> Models(v, f) && CubeTrue(cube, v)
  {
    var g := f + Units(cube);
    if Models(v, g) {
      forall i | 0 <= i < |f| ensures ClauseTrue(f[i], v) {
        assert ClauseTrue(g[i], v);
      }
      forall i | 0 <= i < |cube| ensures LitTrue(cube[i], v) {
        assert g[|f| + i] == [cube[i]];
        assert ClauseTrue(g[|f| + i], v);
      }
    }
    if Models(v, f) && CubeTrue(cube, v) {
      forall i | 0 <= i < |g| ensures ClauseTrue(g[i], v) {
        if i >= |f| {
          assert g[i][0] == cube[i - |f|];
        } else {
          assert g[i] == f[i];
        }
      }
    }
  }
}
