/** Splitting a formula into cubes over its first variables. */
module Cubes {
  import opened GoText
  import opened Cnf
  import opened Dimacs
  import opened CubeApply
  import opened ShardFile

  const HALF_RANGE: int := 0x4000_0000_0000_0000
  const MAX_DEPTH_CAP: int := 20

  function Pow2(n: nat): (p: nat)
    ensures p >= 1
  {
    if n == 0 then 1 else 2 * Pow2(n - 1)
  }

  lemma {:induction false} Pow2Monotone(a: nat, b: nat)
    requires a <= b
    ensures Pow2(a) <= Pow2(b)
    ensures a < b ==> 2 * Pow2(a) <= Pow2(b)
  {
    if a < b {
      Pow2Monotone(a, b - 1);
    }
  }

  lemma {:induction false} Pow2Add(a: nat, b: nat)
    ensures Pow2(a + b) == Pow2(a) * Pow2(b)
  {
    if b > 0 {
      Pow2Add(a, b - 1);
    }
  }

  lemma HalfRangeIsPow2()
    ensures Pow2(62) == HALF_RANGE
  {
    SmallPowers();
    hide Pow2;
    Pow2Add(8, 8);
    Pow2Add(16, 16);
    Pow2Add(32, 16);
    Pow2Add(48, 8);
    Pow2Add(56, 6);
  }

  lemma SmallPowers()
    ensures Pow2(6) == 64 && Pow2(8) == 256
  {
  }

  function Min(a: int, b: int): int {
    if a < b then a else b
  }

  // ---- How deep to split ----

  /** The number of halvings (rounding up) that bring `n` down to 1. */
  function CeilLog2(n: nat): nat {
    if n <= 1 then 0 else 1 + CeilLog2((n + 1) / 2)
  }

  /** 2^d is the smallest power of two that is at least `n`. */
  predicate SmallestPower(n: nat, d: nat) {
    n <= Pow2(d) && (d > 0 ==> Pow2(d - 1) < n)
  }

  lemma {:induction false} CeilLog2IsSmallest(n: nat)
    ensures SmallestPower(n, CeilLog2(n))
  {
    if n > 1 {
      CeilLog2IsSmallest((n + 1) / 2);
    }
  }

  function Cap(maxDepthCap: int): int {
    if maxDepthCap <= 0 then 30 else maxDepthCap
  }

  /** The depth in closed form. The doubling runs in int64: above 2^62 workers it wraps
      around before reaching the target, and then only the two limits stop the loop. */
  function Depth(maxWorkers: int, numVars: int, maxDepthCap: int): (d: nat) {
    if maxWorkers <= 1 || numVars <= 0 then 0
    else
      var limit := Min(numVars, Cap(maxDepthCap));
      if maxWorkers > HALF_RANGE then limit else Min(CeilLog2(maxWorkers), limit)
  }

  /** The value of the loop's int64 variable `shards` after `depth` doublings. */
  function Shards(depth: nat): int {
    if depth <= 62 then Pow2(depth) else if depth == 63 then MIN_INT64 else 0
  }

  lemma ShardsDouble(depth: nat)
    ensures Shards(depth + 1) == ToInt64(2 * Shards(depth))
    ensures Shards(depth) <= HALF_RANGE
  {
    HalfRangeIsPow2();
    if depth <= 62 {
      Pow2Monotone(depth, 62);
    }
  }

  method ChooseDepthCeil(maxWorkers: int, numVars: int, maxDepthCap: int) returns (depth: nat)
    requires maxWorkers <= MAX_INT64
    ensures depth == Depth(maxWorkers, numVars, maxDepthCap)
  {
    if maxWorkers <= 1 || numVars <= 0 {
      return 0;
    }
    var cap := maxDepthCap;
    if cap <= 0 {
      cap := 30;
    }
    depth := 0;
    var shards := 1;
    ghost var log := CeilLog2(maxWorkers);
    CeilLog2IsSmallest(maxWorkers);
    hide Pow2, CeilLog2, ToInt64;
    while shards < maxWorkers
      invariant depth <= Min(numVars, cap) && shards == Shards(depth)
      invariant maxWorkers <= HALF_RANGE ==> depth <= log && depth <= 62
      decreases Min(numVars, cap) - depth
    {
      if depth + 1 > numVars {
        break;
      }
      if depth + 1 > cap {
        break;
      }
      ShardsDouble(depth);
      StillBelow(maxWorkers, depth);
      depth := depth + 1;
      shards := ToInt64(shards * 2);
    }
    ShardsDouble(depth);
    if maxWorkers <= HALF_RANGE && shards >= maxWorkers {
      Reached(maxWorkers, depth);
    }
  }

  lemma StillBelow(maxWorkers: nat, depth: nat)
    requires 1 < maxWorkers && Shards(depth) < maxWorkers
    ensures maxWorkers <= HALF_RANGE && depth <= 62 ==> depth < CeilLog2(maxWorkers) && depth < 62
  {
    CeilLog2IsSmallest(maxWorkers);
    HalfRangeIsPow2();
    hide Pow2, CeilLog2;
    if maxWorkers <= HALF_RANGE && depth <= 62 && CeilLog2(maxWorkers) <= depth {
      Pow2Monotone(CeilLog2(maxWorkers), depth);
    }
  }

  lemma Reached(maxWorkers: nat, depth: nat)
    requires 1 < maxWorkers <= Shards(depth) && depth <= 62 && depth <= CeilLog2(maxWorkers)
    ensures depth == CeilLog2(maxWorkers)
  {
    CeilLog2IsSmallest(maxWorkers);
    hide Pow2, CeilLog2;
    if depth < CeilLog2(maxWorkers) {
      Pow2Monotone(depth, CeilLog2(maxWorkers) - 1);
    }
  }

  /** Splitting goes no deeper than there are variables and the cap allows. Where neither of
      them is below the target's logarithm, and only there, the number of shards is the
      next power of two. */
  lemma DepthMeetsTheTarget(maxWorkers: int, numVars: int, maxDepthCap: int)
    requires 2 <= maxWorkers <= HALF_RANGE && numVars >= 0
    ensures Depth(maxWorkers, numVars, maxDepthCap) <= Min(numVars, Cap(maxDepthCap))
    ensures maxWorkers <= Pow2(Depth(maxWorkers, numVars, maxDepthCap)) < 2 * maxWorkers
       <==> CeilLog2(maxWorkers) <= Min(numVars, Cap(maxDepthCap))
    ensures CeilLog2(maxWorkers) > Min(numVars, Cap(maxDepthCap)) ==>
              Depth(maxWorkers, numVars, maxDepthCap) == Min(numVars, Cap(maxDepthCap))
  {
    PowersAroundTarget(maxWorkers, Depth(maxWorkers, numVars, maxDepthCap));
    hide CeilLog2, Pow2;
  }

  lemma PowersAroundTarget(n: nat, d: nat)
    requires n >= 2 && d <= CeilLog2(n)
    ensures n <= Pow2(d) < 2 * n <==> d == CeilLog2(n)
  {
    var log := CeilLog2(n);
    CeilLog2IsSmallest(n);
    assert log > 0;
    assert Pow2(log) == 2 * Pow2(log - 1);
    hide CeilLog2, Pow2;
    if d < log {
      Pow2Monotone(d, log - 1);
    }
  }

  // ---- The cubes ----

  /** mask & (1 << i) != 0, for a non-negative mask. */
  predicate Bit(mask: nat, i: nat) {
    if i == 0 then mask % 2 == 1 else Bit(mask / 2, i - 1)
  }

  /** Variables 1..depth, each with the sign its bit says. */
  function CubeAt(depth: nat, mask: nat): (cube: seq<int>)
    ensures |cube| == depth
    ensures forall i :: 0 <= i < depth ==> cube[i] == if Bit(mask, i) then i + 1 else -(i + 1)
  {
    seq(depth, i requires 0 <= i < depth => if Bit(mask, i) then i + 1 else -(i + 1))
  }

  function AllCubes(depth: nat): (cubes: seq<seq<int>>)
    ensures |cubes| == Pow2(depth)
    ensures forall mask :: 0 <= mask < Pow2(depth) ==> cubes[mask] == CubeAt(depth, mask)
  {
    seq(Pow2(depth), mask requires 0 <= mask < Pow2(depth) => CubeAt(depth, mask))
  }

  /** num_vars of the first line that starts with 'p', if it has four fields. */
  function NumVars(f: File): Option<int> {
    if f == [] then None
    else if HasPrefix(TrimSpace(f[0]), "p") then
      if |Toks(f[0])| < 4 then None else Atoi(Toks(f[0])[2])
    else NumVars(f[1..])
  }

  /** The split of an upload, or None where its header cannot be read. */
  function Split(f: File, maxWorkers: int): Option<seq<seq<int>>> {
    var n := NumVars(f);
    if n.None? then None else Some(AllCubes(Depth(maxWorkers, n.value, MAX_DEPTH_CAP)))
  }

  method ReadNumVars(f: File) returns (numVars: Option<int>)
    ensures numVars == NumVars(f)
  {
    hide TrimSpace, Fields, Atoi;
    var i := 0;
    while i < |f|
      invariant 0 <= i <= |f|
      invariant NumVars(f) == NumVars(f[i..])
    {
      var line := TrimSpace(f[i]);
      assert f[i..][1..] == f[i + 1..];
      if HasPrefix(line, "p") {
        var fields := Fields(line);
        if |fields| < 4 {
          return None;
        }
        return Atoi(fields[2]);
      }
      i := i + 1;
    }
    return None;
  }

  method GenerateCubes(f: File, maxWorkers: int) returns (cubes: Option<seq<seq<int>>>)
    requires maxWorkers <= MAX_INT64
    ensures cubes == Split(f, maxWorkers)
  {
    hide NumVars, Bit, CeilLog2;
    var n := ReadNumVars(f);
    if n.None? {
      return None;
    }
    var numVars := n.value;
    assert AllCubes(0) == [[]] by { assert CubeAt(0, 0) == []; }
    if maxWorkers <= 1 || numVars == 0 {
      return Some([[]]);
    }
    var depth := ChooseDepthCeil(maxWorkers, numVars, MAX_DEPTH_CAP);
    if depth == 0 {
      return Some([[]]);
    }
    var numCubes := Pow2(depth);
    var all: seq<seq<int>> := [];
    var mask := 0;
    while mask < numCubes
      invariant 0 <= mask <= numCubes
      invariant all == AllCubes(depth)[..mask]
    {
      var cube := BuildCube(depth, mask);
      all := all + [cube];
      mask := mask + 1;
    }
    assert AllCubes(depth)[..numCubes] == AllCubes(depth);
    return Some(all);
  }

  /** The inner loop: one literal for each branching variable. */
  method BuildCube(depth: nat, mask: nat) returns (cube: seq<int>)
    ensures cube == CubeAt(depth, mask)
  {
    hide Bit;
    cube := [];
    var i := 0;
    while i < depth
      invariant 0 <= i <= depth
      invariant cube == CubeAt(depth, mask)[..i]
    {
      var v := i + 1;
      if Bit(mask, i) {
        cube := cube + [v];
      } else {
        cube := cube + [-v];
      }
      i := i + 1;
    }
  }

  // ---- The cubes partition the truth assignments ----

  /** The mask whose bits are the values of variables first, first + 1, ... */
  ghost function MaskOf(v: Valuation, first: int, depth: nat): (mask: nat)
    ensures mask < Pow2(depth)
    decreases depth
  {
    if depth == 0 then 0 else (if first in v then 1 else 0) + 2 * MaskOf(v, first + 1, depth - 1)
  }

  lemma {:induction false} MaskBit(v: Valuation, first: int, depth: nat, i: nat)
    requires i < depth
    ensures Bit(MaskOf(v, first, depth), i) <==> first + i in v
    decreases depth
  {
    var rest := MaskOf(v, first + 1, depth - 1);
    assert MaskOf(v, first, depth) / 2 == rest;
    if i > 0 {
      MaskBit(v, first + 1, depth - 1, i - 1);
    }
  }

  lemma {:induction false} BitsDetermineTheMask(a: nat, b: nat, depth: nat)
    requires a < Pow2(depth) && b < Pow2(depth)
    requires forall i :: 0 <= i < depth ==> Bit(a, i) == Bit(b, i)
    ensures a == b
  {
    if depth > 0 {
      forall i | 0 <= i < depth - 1 ensures Bit(a / 2, i) == Bit(b / 2, i) {
        assert Bit(a, i + 1) == Bit(b, i + 1);
      }
      BitsDetermineTheMask(a / 2, b / 2, depth - 1);
      assert Bit(a, 0) == Bit(b, 0);
    }
  }

  lemma CubeTrueIsMask(depth: nat, mask: nat, v: Valuation)
    requires mask < Pow2(depth)
    ensures CubeTrue(CubeAt(depth, mask), v) <==> mask == MaskOf(v, 1, depth)
  {
    hide Pow2, Bit, MaskOf;
    var m, cube := MaskOf(v, 1, depth), CubeAt(depth, mask);
    forall i | 0 <= i < depth ensures LitTrue(cube[i], v) <==> (Bit(mask, i) == Bit(m, i)) {
      MaskBit(v, 1, depth, i);
    }
    if CubeTrue(cube, v) {
      BitsDetermineTheMask(mask, m, depth);
    }
  }

  /** Every truth assignment makes exactly one cube true; in particular no two cubes agree. */
  lemma CubesPartition(depth: nat, v: Valuation)
    ensures exists k :: 0 <= k < |AllCubes(depth)| && CubeTrue(AllCubes(depth)[k], v)
    ensures forall j, k | 0 <= j < |AllCubes(depth)| && 0 <= k < |AllCubes(depth)| ::
              CubeTrue(AllCubes(depth)[j], v) && CubeTrue(AllCubes(depth)[k], v) ==> j == k
  {
    hide Pow2, Bit, CubeTrue, AllCubes, CubeAt;
    var cubes := AllCubes(depth);
    forall k | 0 <= k < |cubes| ensures CubeTrue(cubes[k], v) <==> k == MaskOf(v, 1, depth) {
      CubeTrueIsMask(depth, k, v);
    }
    assert CubeTrue(cubes[MaskOf(v, 1, depth)], v);
  }

  /** Distinct masks give distinct cubes, so the split has exactly 2^depth shards. */
  lemma CubesAreDistinct(depth: nat, j: nat, k: nat)
    requires j < k < |AllCubes(depth)|
    ensures AllCubes(depth)[j] != AllCubes(depth)[k]
  {
    var v := TrueIn(AllCubes(depth)[k], depth, k);
    CubesPartition(depth, v);
  }

  /** Each cube is consistent: some assignment makes it true. */
  lemma TrueIn(cube: seq<int>, depth: nat, mask: nat) returns (v: Valuation)
    requires cube == CubeAt(depth, mask)
    ensures CubeTrue(cube, v)
  {
    hide Bit;
    v := iset x | x in cube;
    forall i | 0 <= i < |cube| ensures LitTrue(cube[i], v) {
      assert cube[i] < 0 ==> forall j :: 0 <= j < |cube| ==> cube[j] != -cube[i];
    }
  }

  lemma CubesInRange(f: File, maxWorkers: int, k: nat)
    requires Split(f, maxWorkers).Some? && k < |Split(f, maxWorkers).value|
    ensures CubeInRange(Split(f, maxWorkers).value[k], NumVars(f).value)
  {
    hide NumVars, Pow2, Bit, Atoi;
    var n := NumVars(f).value;
    assert Depth(maxWorkers, n, MAX_DEPTH_CAP) <= MAX_DEPTH_CAP;
    NumVarsFits(f);
  }

  lemma {:induction false} NumVarsFits(f: File)
    ensures NumVars(f).Some? ==> NumVars(f).value <= MAX_INT64
  {
    hide Atoi, Toks, TrimSpace;
    if f != [] && !HasPrefix(TrimSpace(f[0]), "p") {
      NumVarsFits(f[1..]);
    }
  }

  /** A formula is satisfiable exactly if it is together with one of the cubes. */
  lemma SplitPreservesSatisfiability(f: Formula, depth: nat)
    ensures Satisfiable(f) <==> exists k :: 0 <= k < |AllCubes(depth)| && Satisfiable(f + Units(AllCubes(depth)[k]))
  {
    hide AllCubes, Models, CubeTrue, Units;
    var cubes := AllCubes(depth);
    if v: Valuation :| Models(v, f) {
      CubesPartition(depth, v);
      var k :| 0 <= k < |cubes| && CubeTrue(cubes[k], v);
      ModelsWithUnits(v, f, cubes[k]);
      assert Satisfiable(f + Units(cubes[k]));
    }
    if k :| 0 <= k < |cubes| && Satisfiable(f + Units(cubes[k])) {
      var v: Valuation :| Models(v, f + Units(cubes[k]));
      ModelsWithUnits(v, f, cubes[k]);
    }
  }

  // ---- The header that the splitter reads is the one that was validated ----

  lemma {:induction false} NumVarsOfUpload(f: File, numVars: int)
    requires Accepted(f, numVars)
    ensures NumVars(f) == Some(numVars)
  {
    hide TrimSpace, Toks, ClauseShape, NumVars, Significant, Relevant, HasPrefix;
    var h := FindHeader(f);
    NothingSignificant(f[..h]);
    PLineIsRelevant(f[h]);
    forall i | 0 <= i < h ensures !HasPrefix(TrimSpace(f[i]), "p") {
      assert f[..h][i] == f[i];
      PLineIsRelevant(f[i]);
    }
    HeaderStartsWithP(f[h]);
    NumVarsAt(f, h);
  }

  lemma PLineIsRelevant(line: string)
    ensures HasPrefix(TrimSpace(line), "p") ==> Relevant(line)
  {
    hide TrimSpace;
  }

  lemma {:induction false} NumVarsAt(f: File, h: nat)
    requires h < |f| && HasPrefix(TrimSpace(f[h]), "p") && |Toks(f[h])| == 4
    requires forall i :: 0 <= i < h ==> !HasPrefix(TrimSpace(f[i]), "p")
    ensures NumVars(f) == Atoi(Toks(f[h])[2])
  {
    hide TrimSpace, Toks, Atoi;
    if h > 0 {
      assert forall i :: 0 <= i < h - 1 ==> f[1..][i] == f[i + 1];
      NumVarsAt(f[1..], h - 1);
    }
  }

  /** The prepared file of every shard of a well-formed upload passes the upload validator,
      for any number of workers. */
  lemma ShardsAreValid(f: File, numVars: int, maxWorkers: int, k: nat)
    requires WellFormed(f, numVars)
    requires Split(f, maxWorkers).Some? && k < |Split(f, maxWorkers).value|
    ensures Valid(Prepared(f, Split(f, maxWorkers).value[k]))
  {
    WellFormedIs(f, numVars);
    NumVarsOfUpload(f, numVars);
    CubesInRange(f, maxWorkers, k);
    hide *;
    PreparedIsValid(f, numVars, Split(f, maxWorkers).value[k]);
  }

  /** How many shards a job is split into: a power of two below twice the target, and at least the
      target unless there are too few variables or 2^20 shards were reached. */
  lemma ShardCount(f: File, maxWorkers: int)
    requires NumVars(f).Some? && NumVars(f).value > 0 && 2 <= maxWorkers <= HALF_RANGE
    ensures Split(f, maxWorkers).Some?
    ensures var n := |Split(f, maxWorkers).value|;
            && n < 2 * maxWorkers && n <= 1_048_576
            && (n >= maxWorkers || n == 1_048_576 || n == Pow2(NumVars(f).value))
  {
    var numVars := NumVars(f).value;
    var d := Depth(maxWorkers, numVars, MAX_DEPTH_CAP);
    DepthMeetsTheTarget(maxWorkers, numVars, MAX_DEPTH_CAP);
    CeilLog2IsSmallest(maxWorkers);
    TwentyDoublings();
    hide NumVars, Pow2, CeilLog2;
    Pow2Monotone(d, 20);
    PowersAroundTarget(maxWorkers, d);
    if d < CeilLog2(maxWorkers) {
      Pow2Monotone(d, CeilLog2(maxWorkers) - 1);
    }
  }

  lemma TwentyDoublings()
    ensures Pow2(20) == 1_048_576
  {
    SmallPowers();
    Pow2Add(8, 6);
    Pow2Add(14, 6);
  }
}
