/** What the prepared shard file means: exactly when it is the job's formula and the cube. */
module ShardFile {
  import opened GoText
  import opened Cnf
  import opened Dimacs
  import opened CubeApply

  /** Cube literals within the job's variables. */
  predicate CubeInRange(cube: seq<int>, numVars: int) {
    && |cube| <= MAX_LINES && numVars <= MAX_INT64
    && forall i :: 0 <= i < |cube| ==> cube[i] != 0 && -numVars <= cube[i] <= numVars
  }

  // ---- The uploads that can be recounted ----

  /** Below the header there are only clauses, and as many lines are counted as there are
      clauses; the header is among the counted lines if it ends in "0" and does not start
      with "p ". */
  predicate Recountable(sig: File, numVars: int) {
    AllClauses(sig, numVars) && CountLines(sig) == |sig| - 1
  }

  ghost predicate WellFormed(f: File, numVars: int) {
    Accepted(f, numVars) && Recountable(Significant(f), numVars)
  }

  /** The part of being well formed that the server never checks. */
  ghost predicate Tidy(f: File, numVars: int) {
    var sig := Significant(f);
    && |f| <= MAX_LINES && sig != [] && Recountable(sig, numVars)
    && |Toks(sig[0])| > 2 && Atoi(Toks(sig[0])[2]) == Some(numVars)
  }

  lemma ValidAndTidy(f: File, numVars: int)
    requires Valid(f) && PercentFree(f) && Tidy(f, numVars)
    ensures WellFormed(f, numVars)
  {
    hide TrimSpace, Fields, Atoi, ClauseShape, Significant, CountLines;
  }

  // ---- Only the significant lines matter ----

  lemma {:induction false} FindHeader(f: File) returns (h: nat)
    requires Significant(f) != []
    ensures h < |f| && Significant(f[..h]) == [] && Relevant(f[h])
    ensures Significant(f) == [f[h]] + Significant(f[h + 1..])
  {
    hide Relevant;
    assert f == [f[0]] + f[1..];
    SignificantConcat([f[0]], f[1..]);
    SignificantSnoc([], f[0]);
    assert [] + [f[0]] == [f[0]];
    if Relevant(f[0]) {
      h := 0;
    } else {
      var k := FindHeader(f[1..]);
      h := k + 1;
      assert f[..h] == [f[0]] + f[1..][..k];
      SignificantConcat([f[0]], f[1..][..k]);
      assert f[h + 1..] == f[1..][k + 1..];
    }
  }

  lemma {:induction false} NothingSignificant(f: File)
    requires Significant(f) == []
    ensures forall i :: 0 <= i < |f| ==> !Relevant(f[i])
  {
    hide Relevant;
    if f != [] {
      NothingSignificant(f[..|f| - 1]);
      assert forall i :: 0 <= i < |f| - 1 ==> f[i] == f[..|f| - 1][i];
    }
  }

  lemma {:induction false} SignificantAreRelevant(f: File)
    ensures forall i :: 0 <= i < |Significant(f)| ==> Relevant(Significant(f)[i])
  {
    hide Relevant;
    if f != [] {
      SignificantAreRelevant(f[..|f| - 1]);
    }
  }

  lemma {:induction false} AllSignificant(f: File)
    requires forall i :: 0 <= i < |f| ==> Relevant(f[i])
    ensures Significant(f) == f
  {
    hide Relevant;
    if f != [] {
      AllSignificant(f[..|f| - 1]);
      assert f == f[..|f| - 1] + [f[|f| - 1]];
    }
  }

  lemma HeaderIsRelevant(line: string)
    requires HeaderShape(line)
    ensures Relevant(line)
  {
    hide TrimSpace, Fields;
    BlankHasNoTokens(line);
    FirstToken(line);
  }

  lemma HeaderStartsWithP(line: string)
    requires HeaderShape(line)
    ensures HasPrefix(TrimSpace(line), "p")
  {
    hide TrimSpace, Fields;
    BlankHasNoTokens(line);
    FirstToken(line);
  }

  lemma BlankHasNoTokens(line: string)
    ensures TrimSpace(line) == "" ==> Toks(line) == []
  {
    hide TrimSpace;
  }

  lemma {:induction false} CountOfSignificant(f: File)
    requires PercentFree(f)
    ensures CountLines(f) == CountLines(Significant(f))
  {
    hide TrimSpace, Toks, Percent, Relevant, Counted;
    if f != [] {
      var rest, last := f[..|f| - 1], f[|f| - 1];
      CountOfSignificant(rest);
      var sig := Significant(rest);
      SkippedIsNotCounted(last);
      if Relevant(last) {
        CountSnoc(sig, last);
      } else {
        assert sig + [] == sig;
      }
    }
  }

  lemma SkippedIsNotCounted(line: string)
    ensures !Percent(line) && !Relevant(line) ==> !Counted(line)
  {
    hide TrimSpace, Toks;
  }

  lemma {:induction false} ClausesOfSignificant(f: File)
    ensures ClausesOf(f) == ClausesOf(Significant(f))
  {
    hide TrimSpace, Toks, Relevant, Literals;
    if f != [] {
      var rest, last := f[..|f| - 1], f[|f| - 1];
      ClausesOfSignificant(rest);
      if Relevant(last) {
        assert (Significant(rest) + [last])[..|Significant(rest)|] == Significant(rest);
      } else {
        assert Significant(rest) + [] == Significant(rest);
      }
    }
  }

  // ---- The significant lines of the prepared file ----

  /** The clause lines of an upload: its significant lines after the header. */
  function Body(f: File): File {
    var sig := Significant(f);
    if sig == [] then [] else sig[1..]
  }

  lemma FirstHeaderIs(f: File, h: nat)
    requires h < |f| && Significant(f[..h]) == [] && HeaderShape(f[h])
    ensures FirstHeader(f) == h
  {
    hide HeaderShape, Relevant;
    NothingSignificant(f[..h]);
    forall i | 0 <= i < h ensures !HeaderShape(f[i]) {
      assert f[..h][i] == f[i];
      if HeaderShape(f[i]) {
        HeaderIsRelevant(f[i]);
        assert false;
      }
    }
  }

  lemma SignificantOfRecounted(body: File, h: nat, line: string)
    requires h < |body| && Significant(body[..h]) == [] && Relevant(line)
    requires Significant(body) == [body[h]] + Significant(body[h + 1..])
    ensures Significant(body[h := line]) == [line] + Significant(body[h + 1..])
  {
    hide Relevant, Significant;
    var pre, post := body[..h], body[h + 1..];
    SignificantSnoc(pre, line);
    SignificantConcat(pre + [line], post);
    assert body[h := line] == (pre + [line]) + post;
    assert [] + [line] == [line];
  }

  lemma SignificantUnits(cube: seq<int>, numVars: int)
    requires CubeInRange(cube, numVars)
    ensures Significant(UnitLines(cube)) == UnitLines(cube)
    ensures forall i :: 0 <= i < |cube| ==> CanonicalClause(UnitLines(cube)[i], numVars)
    ensures ClausesOf(UnitLines(cube)) == Units(cube)
    decreases |cube|
  {
    hide UnitLine, CanonicalClause, Relevant, Toks, Literals;
    forall i | 0 <= i < |cube|
      ensures CanonicalClause(UnitLines(cube)[i], numVars) && Relevant(UnitLines(cube)[i])
    {
      UnitLineTokens(cube[i], numVars);
    }
    AllSignificant(UnitLines(cube));
    ClausesOfUnits(cube, numVars);
  }

  lemma {:induction false} ClausesOfUnits(cube: seq<int>, numVars: int)
    requires CubeInRange(cube, numVars)
    ensures ClausesOf(UnitLines(cube)) == Units(cube)
  {
    hide UnitLine, CanonicalClause, Relevant, Toks, Literals;
    if cube != [] {
      var rest, lit := cube[..|cube| - 1], cube[|cube| - 1];
      ClausesOfUnits(rest, numVars);
      UnitLineTokens(lit, numVars);
      assert UnitLines(cube)[..|cube| - 1] == UnitLines(rest);
      assert Units(cube) == Units(rest) + [[lit]];
    }
  }

  /** Recounting replaces the header of an upload and nothing else. */
  lemma RecountedLines(f: File, numVars: int, extra: nat)
    requires Accepted(f, numVars) && extra <= MAX_LINES
    ensures Significant(Recounted(f, extra)) == [HeaderLine(numVars, CountLines(Significant(f)) + extra)] + Body(f)
  {
    hide Toks, HeaderLine, CountLines, Relevant, Significant, ClauseShape, Percent, FirstHeader;
    var h := FindHeader(f);
    var sig := Significant(f);
    assert sig[0] == f[h] && sig[1..] == Significant(f[h + 1..]);
    FirstHeaderIs(f, h);
    CountOfSignificant(f);
    var line := HeaderLine(numVars, CountLines(sig) + extra);
    HeaderLineTokens(numVars, CountLines(sig) + extra);
    SignificantOfRecounted(f, h, line);
  }

  /** The prepared file is the upload with a recounted header, and the cube's units below. */
  lemma PreparedLines(f: File, numVars: int, cube: seq<int>)
    requires Accepted(f, numVars) && CubeInRange(cube, numVars)
    ensures PercentFree(Prepared(f, cube))
    ensures Significant(Prepared(f, cube))
         == [HeaderLine(numVars, CountLines(Significant(f)) + |cube|)] + Body(f) + UnitLines(cube)
  {
    hide Significant, Recounted, ValidFor, HeaderLine, HeaderShape, UnitLines, UnitLine, CountLines, Percent, TrimSpace,
         Toks, Body, CanonicalClause, HasPrefix, FirstHeader;
    assert f[..|f|] == f;
    NormalisedIs(f, |f|);
    PreparingKeepsTheCube(f, cube);
    RecountedLines(f, numVars, |cube|);
    SignificantConcat(Recounted(f, |cube|), UnitLines(cube));
    SignificantUnits(cube, numVars);
  }

  lemma {:induction false} CountConcat(a: File, b: File)
    ensures CountLines(a + b) == CountLines(a) + CountLines(b)
  {
    hide Counted;
    if b == [] {
      assert a + b == a;
    } else {
      assert (a + b)[..|a + b| - 1] == a + b[..|b| - 1];
      CountConcat(a, b[..|b| - 1]);
    }
  }

  lemma CountFirst(sig: File)
    requires sig != [] && !Counted(sig[0])
    ensures CountLines(sig) == CountLines(sig[1..])
  {
    hide Counted;
    assert sig == [sig[0]] + sig[1..];
    CountConcat([sig[0]], sig[1..]);
    assert [sig[0]][..0] == [];
  }

  // ---- Reading clause lines as a stream ----

  lemma {:induction false} ReadConcat(a: seq<string>, b: seq<string>, open: Clause, numVars: int)
    requires ReadStream(a, open, numVars).Some?
    ensures ReadStream(a + b, open, numVars)
         == var g := ReadStream(b, [], numVars);
            if g.None? then None else Some(ReadStream(a, open, numVars).value + g.value)
  {
    hide Atoi;
    if a == [] {
      assert a + b == b;
      var g := ReadStream(b, [], numVars);
      assert g.Some? ==> [] + g.value == g.value;
    } else {
      assert (a + b)[1..] == a[1..] + b;
      if Atoi(a[0]) == Some(0) {
        ReadConcat(a[1..], b, [], numVars);
        var g := ReadStream(b, [], numVars);
        if g.Some? {
          var r := ReadStream(a[1..], [], numVars).value;
          assert [open] + (r + g.value) == [open] + r + g.value;
        }
      } else {
        ReadConcat(a[1..], b, open + [Atoi(a[0]).value], numVars);
      }
    }
  }

  lemma {:induction false} ReadLine(ws: seq<string>, open: Clause, numVars: int)
    requires |ws| > 0 && Atoi(ws[|ws| - 1]) == Some(0)
    requires forall i :: 0 <= i < |ws| - 1 ==> Literal(ws[i], numVars)
    ensures ReadStream(ws, open, numVars) == Some([open + Literals(ws)])
  {
    if |ws| == 1 {
      ReadTerminator(ws, open, numVars);
    } else {
      var lit := Atoi(ws[0]).value;
      ReadLine(ws[1..], open + [lit], numVars);
      ReadLiteral(ws, open, numVars);
      hide Literals, ReadStream, Atoi;
      assert (open + [lit]) + Literals(ws[1..]) == open + ([lit] + Literals(ws[1..]));
    }
  }

  lemma ReadTerminator(ws: seq<string>, open: Clause, numVars: int)
    requires |ws| == 1 && Atoi(ws[0]) == Some(0)
    ensures ReadStream(ws, open, numVars) == Some([open + Literals(ws)])
  {
    hide Atoi;
    assert ReadStream(ws[1..], [], numVars) == Some([]);
    assert Literals(ws) == [];
    assert [open] + [] == [open] && open + [] == open;
  }

  lemma ReadLiteral(ws: seq<string>, open: Clause, numVars: int)
    requires ws != [] && Literal(ws[0], numVars)
    ensures ReadStream(ws, open, numVars) == ReadStream(ws[1..], open + [Atoi(ws[0]).value], numVars)
    ensures Literals(ws) == [Atoi(ws[0]).value] + Literals(ws[1..])
  {
    hide Atoi;
  }

  /** On clause lines the token stream is read as one clause a line. */
  lemma {:induction false} ReadLines(lines: File, numVars: int)
    requires forall k :: 0 <= k < |lines| ==> ClauseShape(lines[k], numVars)
    ensures ReadStream(Flatten(lines), [], numVars) == Some(ClausesOf(lines))
  {
    hide Toks, Atoi, ClauseLine;
    if lines != [] {
      var line, rest := lines[0], lines[1..];
      ReadLines(rest, numVars);
      IntegerLineIsClauseLine(line);
      ReadLine(Toks(line), [], numVars);
      assert [] + Literals(Toks(line)) == Literals(Toks(line));
      ReadConcat(Toks(line), Flatten(rest), [], numVars);
      ClausesOfFirst(lines);
    }
  }

  lemma ClausesOfFirst(lines: File)
    requires lines != []
    ensures ClausesOf(lines)
         == (if ClauseLine(lines[0]) then [Literals(Toks(lines[0]))] else []) + ClausesOf(lines[1..])
  {
    hide ClauseLine, Toks, Literals;
    var first := [lines[0]];
    assert lines == first + lines[1..];
    ClausesOfConcat(first, lines[1..]);
    assert first[..0] == [];
  }

  /** The clauses of an upload are those of its body. */
  lemma ClausesOfUpload(f: File, numVars: int)
    requires Accepted(f, numVars)
    ensures Clauses(f) == ClausesOf(Body(f))
  {
    hide ClausesOf, Toks, TrimSpace, Percent, ClauseShape, Significant;
    ClausesOfPercentFree(f);
    var sig := Significant(f);
    ClausesOfFirst(sig);
    HeaderStartsWithP(sig[0]);
    assert !ClauseLine(sig[0]);
  }

  // ---- Counting ----

  function Zeros(ws: seq<string>): nat {
    if ws == [] then 0 else (if Atoi(ws[0]) == Some(0) then 1 else 0) + Zeros(ws[1..])
  }

  predicate Readable(tok: string, numVars: int) {
    Atoi(tok) == Some(0) || Literal(tok, numVars)
  }

  lemma {:induction false} ZerosConcat(a: seq<string>, b: seq<string>)
    ensures Zeros(a + b) == Zeros(a) + Zeros(b)
  {
    hide Atoi;
    if a == [] {
      assert a + b == b;
    } else {
      assert (a + b)[1..] == a[1..] + b;
      ZerosConcat(a[1..], b);
    }
  }

  /** A readable stream has one clause a zero and only readable tokens. */
  lemma {:induction false} StreamIsReadable(ws: seq<string>, open: Clause, numVars: int)
    requires ReadStream(ws, open, numVars).Some?
    ensures |ReadStream(ws, open, numVars).value| == Zeros(ws)
    ensures forall i :: 0 <= i < |ws| ==> Readable(ws[i], numVars)
  {
    hide Atoi;
    if ws != [] {
      var next := if Atoi(ws[0]) == Some(0) then [] else open + [Atoi(ws[0]).value];
      StreamIsReadable(ws[1..], next, numVars);
      assert forall i :: 1 <= i < |ws| ==> ws[i] == ws[1..][i - 1];
    }
  }

  lemma {:induction false} LinesAreReadable(lines: File, numVars: int)
    requires forall i :: 0 <= i < |Flatten(lines)| ==> Readable(Flatten(lines)[i], numVars)
    ensures forall k, i :: 0 <= k < |lines| && 0 <= i < |Toks(lines[k])| ==> Readable(Toks(lines[k])[i], numVars)
  {
    hide Toks, Readable;
    if lines != [] {
      var ws, rest := Toks(lines[0]), Flatten(lines[1..]);
      assert forall i :: 0 <= i < |ws| ==> ws[i] == Flatten(lines)[i];
      assert forall i :: 0 <= i < |rest| ==> rest[i] == Flatten(lines)[|ws| + i];
      LinesAreReadable(lines[1..], numVars);
      assert forall k :: 1 <= k < |lines| ==> lines[k] == lines[1..][k - 1];
    }
  }

  lemma {:induction false} LastZero(ws: seq<string>)
    requires ws != [] && Atoi(ws[|ws| - 1]) == Some(0)
    ensures Zeros(ws) >= 1
    ensures Zeros(ws) == 1 ==> forall i :: 0 <= i < |ws| - 1 ==> Atoi(ws[i]) != Some(0)
  {
    hide Atoi;
    if |ws| > 1 {
      LastZero(ws[1..]);
      assert forall i :: 1 <= i < |ws| ==> ws[i] == ws[1..][i - 1];
    }
  }

  /** Where every line ends in its terminator, there are at least as many zeros as lines, and
      exactly as many only if no line has a second one. */
  lemma {:induction false} ZerosOfLines(lines: File)
    requires forall k :: 0 <= k < |lines| ==> Counted(lines[k])
    ensures Zeros(Flatten(lines)) >= |lines|
    ensures Zeros(Flatten(lines)) == |lines| ==> forall k :: 0 <= k < |lines| ==> Zeros(Toks(lines[k])) == 1
  {
    hide Toks;
    if lines != [] {
      ZerosOfLines(lines[1..]);
      ZerosConcat(Toks(lines[0]), Flatten(lines[1..]));
      assert Atoi("0") == Some(0) by { AtoiOfItoa(0); OnlyZeroPrintsZero(0); }
      hide Atoi, Zeros, TrimSpace;
      LastZero(Toks(lines[0]));
      assert forall k :: 1 <= k < |lines| ==> lines[k] == lines[1..][k - 1];
    }
  }

  lemma {:induction false} AllCounted(lines: File)
    requires CountLines(lines) == |lines|
    ensures forall k :: 0 <= k < |lines| ==> Counted(lines[k])
  {
    hide Counted;
    if lines != [] {
      AllCounted(lines[..|lines| - 1]);
      assert forall k :: 0 <= k < |lines| - 1 ==> lines[k] == lines[..|lines| - 1][k];
    }
  }

  lemma {:induction false} CountedAll(lines: File)
    requires forall k :: 0 <= k < |lines| ==> Counted(lines[k])
    ensures CountLines(lines) == |lines|
  {
    hide Counted;
    if lines != [] {
      CountedAll(lines[..|lines| - 1]);
    }
  }

  lemma {:induction false} OneClauseALine(lines: File)
    requires forall k :: 0 <= k < |lines| ==> ClauseLine(lines[k])
    ensures |ClausesOf(lines)| == |lines|
  {
    hide ClauseLine;
    if lines != [] {
      OneClauseALine(lines[..|lines| - 1]);
    }
  }

  lemma CanonicalIsCounted(line: string, numVars: int)
    requires CanonicalClause(line, numVars)
    ensures Counted(line) && ClauseLine(line)
  {
    hide TrimSpace, Fields, Atoi;
    IntegerLineIsClauseLine(line);
    assert HasPrefix(TrimSpace(line), "p ") ==> HasPrefix(TrimSpace(line), "p");
  }

  // ---- The main results ----

  /** Read line by line, the prepared file is the job's formula and then the cube. */
  lemma PreparedClauses(f: File, numVars: int, cube: seq<int>)
    requires Accepted(f, numVars) && CubeInRange(cube, numVars)
    ensures Clauses(Prepared(f, cube)) == Clauses(f) + Units(cube)
  {
    hide *;
    var out, header := Prepared(f, cube), HeaderLine(numVars, CountLines(Significant(f)) + |cube|);
    CubeFits(cube, numVars);
    PreparedLines(f, numVars, cube);
    ClausesOfPercentFree(out);
    ClausesOfThree(header, Body(f), UnitLines(cube));
    SignificantUnits(cube, numVars);
    ClausesOfUpload(f, numVars);
    RecountFits(f, numVars, |cube|);
    HeaderIsNoClause(numVars, CountLines(Significant(f)) + |cube|);
    assert [] + Clauses(f) == Clauses(f);
  }

  lemma CubeFits(cube: seq<int>, numVars: int)
    requires CubeInRange(cube, numVars)
    ensures |cube| <= MAX_LINES
  {
  }

  lemma ClausesOfPercentFree(f: File)
    requires PercentFree(f)
    ensures Clauses(f) == ClausesOf(Significant(f))
  {
    hide ClausesOf, Significant, PercentFree;
    assert f[..|f|] == f;
    NormalisedIs(f, |f|);
    ClausesOfSignificant(f);
  }

  lemma ClausesOfThree(header: string, a: File, b: File)
    ensures ClausesOf([header] + a + b) == ClausesOf([header]) + ClausesOf(a) + ClausesOf(b)
  {
    hide *;
    ClausesOfConcat([header] + a, b);
    ClausesOfConcat([header], a);
  }

  lemma HeaderIsNoClause(numVars: int, numClauses: int)
    requires 0 < numVars <= MAX_INT64 && 0 <= numClauses <= MAX_INT64
    ensures ClausesOf([HeaderLine(numVars, numClauses)]) == []
  {
    hide Toks, TrimSpace, HeaderLine, Relevant;
    var header := HeaderLine(numVars, numClauses);
    HeaderLineTokens(numVars, numClauses);
    HeaderStartsWithP(header);
    assert [header][..0] == [] && !ClauseLine(header);
  }

  function IfCount(r: Option<Formula>, n: int): Option<Formula> {
    if r.Some? && |r.value| == n then r else None
  }

  /** What a solver finds in the prepared file, as long as the header count matches. */
  lemma PreparedStream(f: File, numVars: int, cube: seq<int>)
    requires Accepted(f, numVars) && CubeInRange(cube, numVars)
    ensures SolverReads(Prepared(f, cube))
         == IfCount(ReadStream(Flatten(Body(f) + UnitLines(cube)), [], numVars), CountLines(Significant(f)) + |cube|)
  {
    hide Significant, Accepted, HeaderLine, UnitLines, Body, Toks, CountLines, Flatten, ReadStream, Prepared;
    PreparedLines(f, numVars, cube);
    RecountFits(f, numVars, |cube|);
    HeaderLineTokens(numVars, CountLines(Significant(f)) + |cube|);
    var sig := Significant(Prepared(f, cube));
    assert sig[1..] == Body(f) + UnitLines(cube);
  }

  lemma RecountFits(f: File, numVars: int, extra: nat)
    requires Accepted(f, numVars) && extra <= MAX_LINES
    ensures 0 < numVars <= MAX_INT64 && CountLines(Significant(f)) + extra <= MAX_INT64
  {
    hide Toks, ClauseShape;
  }

  lemma ClauseStream(body: File, numVars: int, cube: seq<int>)
    requires CubeInRange(cube, numVars)
    requires forall k :: 0 <= k < |body| ==> ClauseShape(body[k], numVars)
    ensures ReadStream(Flatten(body + UnitLines(cube)), [], numVars) == Some(ClausesOf(body) + Units(cube))
    ensures |ClausesOf(body) + Units(cube)| == |body| + |cube|
  {
    hide CanonicalClause, ClauseShape, ClausesOf, Flatten, ReadStream, CountLines, UnitLine, CubeInRange;
    var lines := body + UnitLines(cube);
    SignificantUnits(cube, numVars);
    CanonicalLines(UnitLines(cube), numVars);
    ShapedLines(body, numVars);
    ReadLines(lines, numVars);
    ClausesOfConcat(body, UnitLines(cube));
  }

  lemma ShapedLines(lines: File, numVars: int)
    requires forall k :: 0 <= k < |lines| ==> ClauseShape(lines[k], numVars)
    ensures |ClausesOf(lines)| == |lines|
  {
    hide Toks, ClauseLine, ClausesOf, Atoi;
    forall k | 0 <= k < |lines| ensures ClauseLine(lines[k]) {
      IntegerLineIsClauseLine(lines[k]);
    }
    OneClauseALine(lines);
  }

  /** If the upload can be recounted, the solver and the proof checker read the job's formula
      and the cube. */
  lemma RecountSuffices(f: File, numVars: int, cube: seq<int>)
    requires WellFormed(f, numVars) && CubeInRange(cube, numVars)
    ensures SolverReads(Prepared(f, cube)) == Some(Clauses(f) + Units(cube))
  {
    WellFormedIs(f, numVars);
    hide *;
    PreparedStream(f, numVars, cube);
    BodyIsShaped(f, numVars);
    ClauseStream(Body(f), numVars, cube);
    ClausesOfUpload(f, numVars);
    IfCountHolds(Clauses(f) + Units(cube), CountLines(Significant(f)) + |cube|);
  }

  lemma IfCountHolds(f: Formula, n: int)
    requires |f| == n
    ensures IfCount(Some(f), n) == Some(f)
  {
  }

  lemma BodyIsShaped(f: File, numVars: int)
    requires Significant(f) != [] && Recountable(Significant(f), numVars)
    ensures forall k :: 0 <= k < |Body(f)| ==> ClauseShape(Body(f)[k], numVars)
    ensures CountLines(Significant(f)) == |Body(f)|
  {
    hide ClauseShape, Significant, CountLines;
    assert forall k :: 0 <= k < |Body(f)| ==> Body(f)[k] == Significant(f)[k + 1];
  }

  lemma CanonicalLines(lines: File, numVars: int)
    requires forall k :: 0 <= k < |lines| ==> CanonicalClause(lines[k], numVars)
    ensures forall k :: 0 <= k < |lines| ==> ClauseShape(lines[k], numVars)
    ensures CountLines(lines) == |lines| == |ClausesOf(lines)|
  {
    hide ClauseShape, Toks, ClauseLine, Counted, CountLines, ClausesOf;
    forall k | 0 <= k < |lines| ensures ClauseShape(lines[k], numVars) && Counted(lines[k]) && ClauseLine(lines[k]) {
      assert CanonicalClause(lines[k], numVars);
      CanonicalIsCounted(lines[k], numVars);
    }
    CountedAll(lines);
    OneClauseALine(lines);
  }

  /** Clause lines whose every token is readable, and that are all counted, with one zero each. */
  lemma OneZeroIsCanonical(line: string, numVars: int)
    requires Counted(line) && Zeros(Toks(line)) == 1
    requires forall i :: 0 <= i < |Toks(line)| ==> Readable(Toks(line)[i], numVars)
    ensures CanonicalClause(line, numVars)
  {
    assert Atoi("0") == Some(0) by { AtoiOfItoa(0); OnlyZeroPrintsZero(0); }
    hide Toks, Atoi, TrimSpace, Zeros, Literal;
    LastZero(Toks(line));
  }

  lemma ReadableLinesAreClauses(lines: File, numVars: int)
    requires forall k :: 0 <= k < |lines| ==> Relevant(lines[k])
    requires forall k, i :: 0 <= k < |lines| && 0 <= i < |Toks(lines[k])| ==> Readable(Toks(lines[k])[i], numVars)
    ensures |ClausesOf(lines)| == |lines|
  {
    hide Toks, Atoi, TrimSpace, ClauseLine, ClausesOf;
    forall k | 0 <= k < |lines| ensures ClauseLine(lines[k]) {
      FirstToken(lines[k]);
      assert Readable(Toks(lines[k])[0], numVars);
      IntegerLineIsClauseLine(lines[k]);
    }
    OneClauseALine(lines);
  }

  lemma UnitZeros(cube: seq<int>, numVars: int)
    requires CubeInRange(cube, numVars)
    ensures Zeros(Flatten(UnitLines(cube))) == |cube|
  {
    hide Toks, CanonicalClause, Flatten, ClausesOf, Zeros;
    SignificantUnits(cube, numVars);
    CanonicalLines(UnitLines(cube), numVars);
    ReadLines(UnitLines(cube), numVars);
    StreamIsReadable(Flatten(UnitLines(cube)), [], numVars);
  }

  lemma BodyIsRelevant(f: File)
    ensures forall k :: 0 <= k < |Body(f)| ==> Relevant(Body(f)[k])
  {
    hide Relevant, Significant;
    SignificantAreRelevant(f);
    assert forall k :: 0 <= k < |Body(f)| ==> Body(f)[k] == Significant(f)[k + 1];
  }

  /** If a stream of the body and the units can be read, the body has one clause a line. */
  lemma ReadableBody(body: File, numVars: int, cube: seq<int>)
    requires CubeInRange(cube, numVars)
    requires forall k :: 0 <= k < |body| ==> Relevant(body[k])
    requires ReadStream(Flatten(body + UnitLines(cube)), [], numVars).Some?
    ensures |ReadStream(Flatten(body + UnitLines(cube)), [], numVars).value| == Zeros(Flatten(body)) + |cube|
    ensures forall k, i :: 0 <= k < |body| && 0 <= i < |Toks(body[k])| ==> Readable(Toks(body[k])[i], numVars)
    ensures |ClausesOf(body)| == |body|
  {
    hide Toks, Relevant, CanonicalClause, Flatten, ClausesOf, Zeros, Readable, CountLines, ReadStream, UnitLines,
         Counted;
    StreamIsReadable(Flatten(body + UnitLines(cube)), [], numVars);
    FlattenConcat(body, UnitLines(cube));
    ZerosConcat(Flatten(body), Flatten(UnitLines(cube)));
    UnitZeros(cube, numVars);
    ReadablePrefix(Flatten(body), Flatten(UnitLines(cube)), numVars);
    LinesAreReadable(body, numVars);
    ReadableLinesAreClauses(body, numVars);
  }

  /** If moreover every line is counted, and there is one zero a line, all are canonical. */
  lemma CanonicalFromCounts(body: File, numVars: int)
    requires forall k, i :: 0 <= k < |body| && 0 <= i < |Toks(body[k])| ==> Readable(Toks(body[k])[i], numVars)
    requires Zeros(Flatten(body)) == |body| == CountLines(body)
    ensures forall k :: 0 <= k < |body| ==> CanonicalClause(body[k], numVars)
  {
    hide Toks, CanonicalClause, Flatten, Zeros, Readable, CountLines, Counted;
    AllCounted(body);
    ZerosOfLines(body);
    forall k | 0 <= k < |body| ensures CanonicalClause(body[k], numVars) {
      OneZeroIsCanonical(body[k], numVars);
    }
  }

  lemma ReadablePrefix(a: seq<string>, b: seq<string>, numVars: int)
    requires forall i :: 0 <= i < |a + b| ==> Readable((a + b)[i], numVars)
    ensures forall i :: 0 <= i < |a| ==> Readable(a[i], numVars)
  {
    hide Readable;
    assert forall i :: 0 <= i < |a| ==> a[i] == (a + b)[i];
  }

  /** A header that is counted declares no clauses, so all lines below it were validated. */
  lemma CountedHeaderDeclaresNone(f: File, numVars: int)
    requires Accepted(f, numVars) && Counted(Significant(f)[0])
    ensures AllClauses(Significant(f), numVars)
  {
    assert Atoi("0") == Some(0) by { AtoiOfItoa(0); OnlyZeroPrintsZero(0); }
    hide TrimSpace, Fields, Atoi, ClauseShape, Significant;
  }

  lemma RecountNecessary(f: File, numVars: int, cube: seq<int>)
    requires Accepted(f, numVars) && CubeInRange(cube, numVars)
    requires SolverReads(Prepared(f, cube)) == Some(Clauses(f) + Units(cube))
    ensures Recountable(Significant(f), numVars)
  {
    hide Significant, Accepted, UnitLines, Toks, CountLines, CanonicalClause, ClauseShape, Flatten, ReadStream,
         ClausesOf, SolverReads, Prepared, Clauses, Zeros, Counted;
    PreparedStream(f, numVars, cube);
    ClausesOfUpload(f, numVars);
    BodyIsRelevant(f);
    ReadableBody(Body(f), numVars, cube);
    HasHeader(f, numVars);
    if Counted(Significant(f)[0]) {
      CountedHeaderDeclaresNone(f, numVars);
    } else {
      CountFirst(Significant(f));
      CanonicalFromCounts(Body(f), numVars);
      BodyShapesAll(f, numVars);
    }
  }

  lemma HasHeader(f: File, numVars: int)
    requires Accepted(f, numVars)
    ensures Significant(f) != [] && HeaderShape(Significant(f)[0])
  {
    hide Toks, Significant, ClauseShape;
  }

  lemma BodyShapesAll(f: File, numVars: int)
    requires forall k :: 0 <= k < |Body(f)| ==> CanonicalClause(Body(f)[k], numVars)
    ensures AllClauses(Significant(f), numVars)
  {
    hide ClauseShape, Significant, Toks;
    assert forall k :: 1 <= k < |Significant(f)| ==> Significant(f)[k] == Body(f)[k - 1];
  }

  /** The solver and the proof checker are handed exactly the job's formula with the cube if
      and only if every line of the upload below its header is a clause, also the lines
      beyond the declared count, which validation does not look at, and as many lines are
      counted as there are clauses. */
  lemma PreparedMeansFormulaAndCube(f: File, numVars: int, cube: seq<int>)
    requires Accepted(f, numVars) && CubeInRange(cube, numVars)
    ensures SolverReads(Prepared(f, cube)) == Some(Clauses(f) + Units(cube))
       <==> Recountable(Significant(f), numVars)
  {
    hide *;
    if Recountable(Significant(f), numVars) {
      WellFormedIs(f, numVars);
      RecountSuffices(f, numVars, cube);
    }
    if SolverReads(Prepared(f, cube)) == Some(Clauses(f) + Units(cube)) {
      RecountNecessary(f, numVars, cube);
    }
  }

  lemma WellFormedIs(f: File, numVars: int)
    ensures WellFormed(f, numVars) <==> Accepted(f, numVars) && Recountable(Significant(f), numVars)
    ensures WellFormed(f, numVars) ==> Significant(f) != []
  {
    hide Toks, ClauseShape, Significant, CountLines;
  }

  /** For a header that is not counted, as one that starts with "p ", the condition says that
      every line below it spells its terminator "0". */
  lemma RecountableIsCanonical(f: File, numVars: int)
    requires Accepted(f, numVars) && !Counted(Significant(f)[0])
    ensures Recountable(Significant(f), numVars) <==> AllCanonical(Significant(f), numVars)
  {
    hide Toks, ClauseShape, Significant, CountLines, Counted, CanonicalClause;
    var sig, body := Significant(f), Body(f);
    CountFirst(sig);
    assert forall k :: 1 <= k < |sig| ==> sig[k] == body[k - 1];
    if Recountable(sig, numVars) {
      AllCounted(body);
      forall k | 1 <= k < |sig| ensures CanonicalClause(sig[k], numVars) {
        CountedClause(body[k - 1], numVars);
      }
    }
    if AllCanonical(sig, numVars) {
      CanonicalLines(body, numVars);
    }
  }

  lemma CountedClause(line: string, numVars: int)
    requires Counted(line) && ClauseShape(line, numVars)
    ensures CanonicalClause(line, numVars)
  {
    hide TrimSpace, Fields, Atoi;
  }

  /** The recounted header keeps num_vars and declares as many clauses as there are lines, so
      a prepared shard file passes the upload validator again. */
  lemma PreparedIsValid(f: File, numVars: int, cube: seq<int>)
    requires WellFormed(f, numVars) && CubeInRange(cube, numVars)
    ensures ValidFor(Significant(Prepared(f, cube)), numVars, |Clauses(Prepared(f, cube))|)
    ensures |Significant(Prepared(f, cube))| == 1 + |Clauses(Prepared(f, cube))|
    ensures Valid(Prepared(f, cube))
  {
    WellFormedIs(f, numVars);
    hide Significant, WellFormed, Recountable, Accepted, UnitLines, Units, Toks, CountLines, CanonicalClause,
         ClauseShape,
         ClausesOf, Prepared, Header, HeaderLine, Clauses;
    var body, units, sig := Body(f), UnitLines(cube), Significant(Prepared(f, cube));
    PreparedLines(f, numVars, cube);
    PreparedClauses(f, numVars, cube);
    ClausesOfUpload(f, numVars);
    RecountFits(f, numVars, |cube|);
    HeaderLineTokens(numVars, CountLines(Significant(f)) + |cube|);
    BodyIsShaped(f, numVars);
    ShapedLines(body, numVars);
    SignificantUnits(cube, numVars);
    CanonicalLines(units, numVars);
    forall k | 1 <= k < |sig| ensures ClauseShape(sig[k], numVars) {
      assert sig[k] == if k <= |body| then body[k - 1] else units[k - 1 - |body|];
    }
  }

  // ---- Why neither half of the condition can be dropped ----

  /** "p cnf 1 1", "1 0" and, beyond the declared count, "-1 00". */
  function OddlyTerminated(): File {
    [HeaderLine(1, 1), UnitLine(1), Join(["-1", "00"])]
  }

  /** A valid upload whose undeclared last clause spells its terminator "00": the recount
      misses it, so what the proof checker is handed is not the formula the model checker
      uses, whatever the cube. */
  lemma UndeclaredClauseIsMiscounted(cube: seq<int>)
    requires CubeInRange(cube, 1)
    ensures Accepted(OddlyTerminated(), 1) && Valid(OddlyTerminated())
    ensures SolverReads(Prepared(OddlyTerminated(), cube)) != Some(Clauses(OddlyTerminated()) + Units(cube))
  {
    hide Toks, TrimSpace, Fields, Itoa, HeaderLine, UnitLine, Atoi, Literals, SolverReads, Prepared, Units;
    var f := OddlyTerminated();
    var ws := ["-1", "00"];
    assert Atoi("-1") == Some(-1) by { MinusOne(); }
    FieldsOfJoin(ws);
    TrimOfJoin(ws);
    OddLine();
    HeaderLineTokens(1, 1);
    HeaderStart();
    UnitLineTokens(1, 1);
    AllSignificant(f);
    assert ValidFor(Significant(f), 1, 1);
    PreparedMeansFormulaAndCube(f, 1, cube);
    assert !Counted(f[0]);
    RecountableIsCanonical(f, 1);
    assert !CanonicalClause(f[2], 1);
  }

  lemma MinusOne()
    ensures Atoi("-1") == Some(-1)
  {
    AtoiOfItoa(-1);
    assert Digits(1) == ['1'] && Itoa(-1) == "-1";
  }

  lemma OddLine()
    ensures Toks(Join(["-1", "00"])) == ["-1", "00"] && Relevant(Join(["-1", "00"]))
  {
    hide TrimSpace, Fields, Join, Itoa, Atoi;
    var ws := ["-1", "00"];
    FieldsOfJoin(ws);
    TrimOfJoin(ws);
    MinusOne();
    IntegerLineIsClauseLine(Join(ws));
  }

  lemma HeaderStart()
    ensures HasPrefix(TrimSpace(HeaderLine(1, 1)), "p ")
  {
    hide TrimSpace, Fields, Atoi;
    var ws := ["p", "cnf", Itoa(1), Itoa(1)];
    ItoaIsAWord(1);
    TrimOfJoin(ws);
    assert Join(ws) == "p" + " " + Join(ws[1..]);
  }

  /** "p<TAB>cnf 1 0", "1 0". */
  function TabbedHeader(): File {
    ["p" + ("\t" + Join(["cnf", Itoa(1), "0"])), UnitLine(1)]
  }

  /** A valid upload with canonical clause lines whose header is itself counted as a clause:
      the recounted header declares one clause too many, whatever the cube. */
  lemma TabbedHeaderIsMiscounted(cube: seq<int>)
    requires CubeInRange(cube, 1)
    ensures Accepted(TabbedHeader(), 1) && Valid(TabbedHeader()) && AllCanonical(Significant(TabbedHeader()), 1)
    ensures SolverReads(Prepared(TabbedHeader(), cube)) != Some(Clauses(TabbedHeader()) + Units(cube))
  {
    hide Toks, TrimSpace, Fields, Itoa, UnitLine, Atoi, Literals, SolverReads, Prepared, Units;
    var f := TabbedHeader();
    TabbedIsValid();
    CanonicalIsCounted(f[1], 1);
    CountedAll(f);
    hide Counted, CountLines, CanonicalClause, ClauseShape, Header, Significant;
    PreparedMeansFormulaAndCube(f, 1, cube);
  }

  lemma TabbedIsValid()
    ensures Accepted(TabbedHeader(), 1) && Valid(TabbedHeader()) && Significant(TabbedHeader()) == TabbedHeader()
    ensures Counted(TabbedHeader()[0]) && CanonicalClause(TabbedHeader()[1], 1)
  {
    hide Toks, TrimSpace, Fields, Itoa, UnitLine, Atoi, Literals, Join;
    var f := TabbedHeader();
    TabbedLine();
    AtoiOfItoa(1);
    assert Atoi("0") == Some(0) by { AtoiOfItoa(0); OnlyZeroPrintsZero(0); }
    HeaderIsRelevant(f[0]);
    UnitLineTokens(1, 1);
    AllSignificant(f);
    assert ValidFor(Significant(f), 1, 0);
  }

  lemma TabbedLine()
    ensures var line := TabbedHeader()[0];
            Toks(line) == ["p", "cnf", Itoa(1), "0"] && TrimSpace(line) == line && Counted(line)
  {
    hide TrimSpace, Fields, Itoa, Join, IsSpace;
    var ws := ["cnf", Itoa(1), "0"];
    WordsOfTabbed();
    JoinEnds(ws);
    FieldsOfJoin(ws);
    FieldsOfTabbed(Join(ws));
    TrimOfTabbed("\t" + Join(ws));
    assert ["p"] + ws == ["p", "cnf", Itoa(1), "0"];
  }

  lemma WordsOfTabbed()
    ensures IsWord("cnf") && IsWord(Itoa(1)) && IsWord("0")
  {
    hide Itoa;
    ItoaIsAWord(1);
  }

  lemma FieldsOfTabbed(s: string)
    ensures Fields("p" + ("\t" + s)) == ["p"] + Fields(s)
  {
    hide Fields;
    FieldsOfWordThen("p", "\t" + s);
    TabThen(s);
  }

  lemma TrimOfTabbed(tail: string)
    requires |tail| > 1 && tail[0] == '\t' && !IsSpace(tail[|tail| - 1])
    ensures TrimSpace("p" + tail) == "p" + tail && !HasPrefix("p" + tail, "p ") && !HasPrefix("p" + tail, "c")
  {
    hide TrimSpace;
    var line := "p" + tail;
    assert line[0] == 'p' && line[1] == '\t' && line[|line| - 1] == tail[|tail| - 1];
    TrimSpaceNoOp(line);
  }

  lemma TabThen(s: string)
    ensures Fields("\t" + s) == Fields(s)
  {
    assert ("\t" + s)[1..] == s;
  }
}
