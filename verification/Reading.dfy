/** What the readers of DIMACS files make of any file, spelled out on the lines' text: which lines
    they pass over, which files are valid, and that a formula that was written is read back. */
module Reading {
  import opened GoText
  import opened Cnf
  import opened Dimacs
  import opened CubeApply
  import opened ShardFile

  // ---- Lines that are passed over ----

  /** Blank lines and comments. */
  predicate Comment(line: string) {
    TrimSpace(line) == "" || TrimSpace(line)[0] == 'c'
  }

  predicate Trailer(line: string) {
    TrimSpace(line) != "" && TrimSpace(line)[0] == '%'
  }

  lemma CommentIs(line: string)
    ensures Comment(line) ==> !Relevant(line) && !Percent(line)
    ensures Trailer(line) <==> Percent(line)
    ensures Trailer(line) ==> !Relevant(line)
  {
    hide TrimSpace;
  }

  lemma SignificantSkips(a: File, line: string, b: File)
    requires !Relevant(line)
    ensures Significant(a + [line] + b) == Significant(a + b)
  {
    hide Relevant, Significant;
    SignificantConcat(a + [line], b);
    SignificantSnoc(a, line);
    SignificantConcat(a, b);
    assert Significant(a) + [] == Significant(a);
  }

  lemma {:induction false} NormalisedConcat(a: File, b: File)
    ensures Normalised(a + b) == if PercentFree(a) then a + Normalised(b) else Normalised(a)
  {
    hide Percent;
    if a == [] {
      assert a + b == b && a + Normalised(b) == Normalised(b);
    } else {
      assert a + b == [a[0]] + (a[1..] + b) && (a + b)[1..] == a[1..] + b;
      NormalisedConcat(a[1..], b);
      NormalisedFirst(a + b);
      NormalisedFirst(a);
      if !Percent(a[0]) {
        assert PercentFree(a) <==> PercentFree(a[1..]) by { PercentFreeFirst(a); }
        assert [a[0]] + (a[1..] + Normalised(b)) == a + Normalised(b);
      }
    }
  }

  lemma NormalisedFirst(f: File)
    requires f != []
    ensures Normalised(f) == if Percent(f[0]) then [] else [f[0]] + Normalised(f[1..])
  {
    hide Percent;
    var m := FirstPercent(f);
    if !Percent(f[0]) {
      assert f[..m] == [f[0]] + f[1..][..m - 1];
    }
  }

  lemma PercentFreeFirst(f: File)
    requires f != [] && !Percent(f[0])
    ensures PercentFree(f) <==> PercentFree(f[1..])
  {
    hide Percent;
    assert forall i :: 0 < i < |f| ==> f[i] == f[1..][i - 1];
    assert forall i :: 0 <= i < |f| - 1 ==> f[1..][i] == f[i + 1];
  }

  /** A blank line or a comment may stand anywhere: it changes neither whether a file is valid,
      nor its formula, nor what a solver reads. */
  lemma CommentsAreIgnored(a: File, line: string, b: File)
    requires TrimSpace(line) == "" || TrimSpace(line)[0] == 'c'
    ensures Valid(a + [line] + b) <==> Valid(a + b)
    ensures Clauses(a + [line] + b) == Clauses(a + b)
    ensures SolverReads(a + [line] + b) == SolverReads(a + b)
  {
    CommentIs(line);
    SignificantSkips(a, line, b);
    CommentKeepsClauses(a, line, b);
    PercentFreeParts(a, line, b);
    hide Significant, Clauses, TrimSpace, ReadStream, Flatten;
  }

  lemma PercentFreeParts(a: File, line: string, b: File)
    requires !Percent(line)
    ensures PercentFree(a + [line] + b) <==> PercentFree(a + b)
  {
    hide Percent;
    var f, g := a + [line] + b, a + b;
    assert forall i :: 0 <= i < |a| ==> f[i] == g[i] == a[i];
    assert forall i :: 0 <= i < |b| ==> f[|a| + 1 + i] == g[|a| + i] == b[i];
    if PercentFree(f) {
      forall i | 0 <= i < |g| ensures !Percent(g[i]) {
        assert g[i] == if i < |a| then f[i] else f[i + 1];
      }
    }
    if PercentFree(g) {
      forall i | 0 <= i < |f| ensures !Percent(f[i]) {
        assert f[i] == if i < |a| then g[i] else if i == |a| then line else g[i - 1];
      }
    }
  }

  lemma CommentKeepsClauses(a: File, line: string, b: File)
    requires !Relevant(line) && !Percent(line)
    ensures Clauses(a + [line] + b) == Clauses(a + b)
  {
    hide Relevant, Percent, Normalised, ClausesOf;
    assert a + [line] + b == a + ([line] + b);
    NormalisedConcat(a, [line] + b);
    NormalisedConcat([line], b);
    NormalisedConcat(a, b);
    if PercentFree(a) {
      var g := Normalised(b);
      assert a + ([line] + g) == a + [line] + g;
      ClausesOfConcat(a + [line], g);
      ClausesOfConcat(a, [line]);
      ClausesOfConcat(a, g);
      NoClause(line);
      assert ClausesOf(a) + [] == ClausesOf(a);
    }
  }

  lemma NoClause(line: string)
    requires !Relevant(line)
    ensures ClausesOf([line]) == []
  {
    hide Relevant;
    assert [line][..0] == [];
  }

  /** At a '%' line the formula ends, whatever follows; the validator only skips that line. */
  lemma TrailerEndsTheFormula(a: File, line: string, b: File)
    requires TrimSpace(line) != "" && TrimSpace(line)[0] == '%'
    ensures Clauses(a + [line] + b) == Clauses(a)
    ensures Valid(a + [line] + b) <==> Valid(a + b)
  {
    CommentIs(line);
    SignificantSkips(a, line, b);
    hide Significant, TrimSpace, Relevant, ClausesOf, Percent;
    assert a + [line] + b == a + ([line] + b);
    NormalisedConcat(a, [line] + b);
    NormalisedConcat(a, []);
    NormalisedFirst([line] + b);
    assert a + [] == a && Normalised([]) == [];
  }

  // ---- Which files are valid ----

  /** The lines the validator looks at: not blank, and not starting with 'c' or '%'. */
  function Kept(f: File): File {
    if f == [] then []
    else
      var line := TrimSpace(f[0]);
      (if line == "" || line[0] == 'c' || line[0] == '%' then [] else [f[0]]) + Kept(f[1..])
  }

  lemma SignificantFirst(f: File)
    requires f != []
    ensures Significant(f) == (if Relevant(f[0]) then [f[0]] else []) + Significant(f[1..])
  {
    hide Relevant, Significant;
    var a, b := [f[0]], f[1..];
    SignificantSnoc([], f[0]);
    assert [] + a == a && Significant([]) == [] by { NothingIsSignificant(); }
    SignificantConcat(a, b);
    assert f == a + b;
  }

  lemma NothingIsSignificant()
    ensures Significant([]) == []
  {
  }

  lemma {:induction false} KeptAreSignificant(f: File)
    ensures Kept(f) == Significant(f)
  {
    hide TrimSpace, Significant;
    if f == [] {
      NothingIsSignificant();
    } else {
      KeptAreSignificant(f[1..]);
      SignificantFirst(f);
    }
  }

  predicate HeaderWords(ws: seq<string>, numVars: int, numClauses: int) {
    && |ws| == 4 && ws[0] == "p" && ws[1] == "cnf"
    && Atoi(ws[2]) == Some(numVars) && Atoi(ws[3]) == Some(numClauses) && numVars >= 1 && numClauses >= 0
  }

  predicate ClauseWords(ws: seq<string>, numVars: int) {
    && ws != [] && Atoi(ws[|ws| - 1]) == Some(0)
    && forall i :: 0 <= i < |ws| - 1 ==>
         Atoi(ws[i]).Some? && (1 <= Atoi(ws[i]).value <= numVars || -numVars <= Atoi(ws[i]).value <= -1)
  }

  /** A header, and then as many clause lines as it declares, or only clause lines if it
      declares none. */
  predicate ReadsAsCnf(kept: File, numVars: int, numClauses: int) {
    && |kept| > numClauses && kept != [] && HeaderWords(Fields(TrimSpace(kept[0])), numVars, numClauses)
    && forall k :: 1 <= k < |kept| && (numClauses == 0 || k <= numClauses) ==>
         ClauseWords(Fields(TrimSpace(kept[k])), numVars)
  }

  lemma ValidMeans(f: File)
    ensures Valid(f) <==> exists numVars, numClauses :: ReadsAsCnf(Kept(f), numVars, numClauses)
  {
    hide TrimSpace, Fields, Atoi;
    KeptAreSignificant(f);
    hide Kept, Significant;
    forall v, c ensures ReadsAsCnf(Kept(f), v, c) <==> ValidFor(Significant(f), v, c) {
      SameShapes(Kept(f), v, c);
    }
    hide ReadsAsCnf, ValidFor;
  }

  lemma SameShapes(sig: File, numVars: int, numClauses: int)
    ensures ReadsAsCnf(sig, numVars, numClauses) <==> ValidFor(sig, numVars, numClauses)
  {
    hide TrimSpace, Fields, Atoi;
  }

  // ---- Writing and reading ----

  function Words(c: Clause): (ws: seq<string>)
    ensures |ws| == |c| + 1 && ws[|c|] == "0" && forall i :: 0 <= i < |c| ==> ws[i] == Itoa(c[i])
  {
    seq(|c|, i requires 0 <= i < |c| => Itoa(c[i])) + ["0"]
  }

  function ClauseTexts(f: Formula): (lines: File)
    ensures |lines| == |f| && forall k :: 0 <= k < |f| ==> lines[k] == Join(Words(f[k]))
  {
    seq(|f|, k requires 0 <= k < |f| => Join(Words(f[k])))
  }

  /** A formula as DIMACS writers put it down: header, then a clause a line. */
  function Written(numVars: int, f: Formula): File {
    [HeaderLine(numVars, |f|)] + ClauseTexts(f)
  }

  predicate LiteralsWithin(f: Formula, numVars: int) {
    forall k, i :: 0 <= k < |f| && 0 <= i < |f[k]| ==> f[k][i] != 0 && -numVars <= f[k][i] <= numVars
  }

  lemma {:induction false} LiteralsOfWords(c: Clause, ws: seq<string>)
    requires |ws| == |c| + 1 && Atoi(ws[|c|]) == Some(0)
    requires forall i :: 0 <= i < |c| ==> c[i] != 0 && Atoi(ws[i]) == Some(c[i])
    ensures Literals(ws) == c
  {
    hide Atoi;
    if c != [] {
      LiteralsOfWords(c[1..], ws[1..]);
      assert [c[0]] + c[1..] == c;
    }
  }

  lemma WrittenClause(c: Clause, numVars: int)
    requires 0 < numVars <= MAX_INT64 && forall i :: 0 <= i < |c| ==> c[i] != 0 && -numVars <= c[i] <= numVars
    ensures var line := Join(Words(c));
            CanonicalClause(line, numVars) && Relevant(line) && ClauseLine(line) && Literals(Toks(line)) == c
  {
    hide Itoa, Atoi, Fields, TrimSpace, Join;
    var ws, line := Words(c), Join(Words(c));
    AtoiOfItoa(0);
    OnlyZeroPrintsZero(0);
    ItoaIsAWord(0);
    forall i | 0 <= i < |c| ensures IsWord(ws[i]) && Atoi(ws[i]) == Some(c[i]) {
      ItoaIsAWord(c[i]);
      AtoiOfItoa(c[i]);
    }
    FieldsOfJoin(ws);
    TrimOfJoin(ws);
    IntegerLineIsClauseLine(line);
    hide Words, Literals;
    LiteralsOfWords(c, ws);
  }

  lemma {:induction false} ClausesOfLines(lines: File, f: Formula)
    requires |lines| == |f|
    requires forall k :: 0 <= k < |f| ==> ClauseLine(lines[k]) && Literals(Toks(lines[k])) == f[k]
    ensures ClausesOf(lines) == f
  {
    hide ClauseLine, Toks, Literals;
    if f != [] {
      ClausesOfLines(lines[..|f| - 1], f[..|f| - 1]);
      assert f == f[..|f| - 1] + [f[|f| - 1]];
    }
  }

  lemma WrittenBody(numVars: int, f: Formula, body: File)
    requires 0 < numVars <= MAX_INT64 && LiteralsWithin(f, numVars)
    requires |body| == |f| && forall k :: 0 <= k < |f| ==> body[k] == Join(Words(f[k]))
    ensures forall k :: 0 <= k < |f| ==> CanonicalClause(body[k], numVars) && Relevant(body[k])
    ensures ClausesOf(body) == f
  {
    hide CanonicalClause, ClauseLine, Literals, Toks, TrimSpace, Words, Join;
    forall k | 0 <= k < |f|
      ensures CanonicalClause(body[k], numVars) && Relevant(body[k])
              && ClauseLine(body[k]) && Literals(Toks(body[k])) == f[k] {
      WrittenClause(f[k], numVars);
    }
    ClausesOfLines(body, f);
  }

  lemma HeaderThenBody(header: string, body: File)
    requires Relevant(header) && forall k :: 0 <= k < |body| ==> Relevant(body[k])
    ensures Significant([header] + body) == [header] + body && PercentFree([header] + body)
  {
    hide TrimSpace;
    var lines := [header] + body;
    forall k | 0 <= k < |lines| ensures Relevant(lines[k]) {
      assert k > 0 ==> lines[k] == body[k - 1];
    }
    AllSignificant(lines);
  }

  lemma WrittenLines(numVars: int, f: Formula)
    requires 0 < numVars <= MAX_INT64 && LiteralsWithin(f, numVars) && |f| < MAX_LINES
    ensures var lines := Written(numVars, f);
            && Significant(lines) == lines && PercentFree(lines) && Header(lines[0], numVars, |f|)
            && (forall k :: 1 <= k <= |f| ==> CanonicalClause(lines[k], numVars)) && ClausesOf(lines[1..]) == f
  {
    var header, body := HeaderLine(numVars, |f|), ClauseTexts(f);
    HeaderLineTokens(numVars, |f|);
    hide ClauseTexts, CanonicalClause, Header, HeaderLine, TrimSpace, Words, Join, LiteralsWithin, Relevant,
         Significant;
    WrittenBody(numVars, f, body);
    HeaderThenBody(header, body);
    hide ClausesOf, PercentFree;
    assert ([header] + body)[1..] == body;
  }

  /** Whatever formula is written down is valid and read back as it was, by the model checker
      and by a solver. */
  lemma WrittenIsRead(numVars: int, f: Formula)
    requires 0 < numVars <= MAX_INT64 && LiteralsWithin(f, numVars) && |f| < MAX_LINES
    ensures Accepted(Written(numVars, f), numVars) && Valid(Written(numVars, f))
    ensures Clauses(Written(numVars, f)) == f && SolverReads(Written(numVars, f)) == Some(f)
  {
    var lines := Written(numVars, f);
    WrittenLines(numVars, f);
    hide Written, LiteralsWithin, Toks, Significant, ClausesOf, CanonicalClause;
    WrittenIsValid(lines, numVars, |f|);
    ClausesOfUpload(lines, numVars);
    assert Body(lines) == lines[1..];
    forall k | 0 <= k < |lines[1..]| ensures ClauseShape(lines[1..][k], numVars) {
      assert lines[1..][k] == lines[k + 1] && CanonicalClause(lines[k + 1], numVars);
      CanonicalIsShaped(lines[k + 1], numVars);
    }
    hide ClauseShape, ReadStream, Flatten, Clauses;
    ReadLines(lines[1..], numVars);
  }

  lemma CanonicalIsShaped(line: string, numVars: int)
    requires CanonicalClause(line, numVars)
    ensures ClauseShape(line, numVars)
  {
  }

  lemma WrittenIsValid(lines: File, numVars: int, n: nat)
    requires |lines| == 1 + n && n < MAX_LINES && Significant(lines) == lines && PercentFree(lines)
    requires Header(lines[0], numVars, n) && numVars > 0
    requires forall k :: 1 <= k <= n ==> CanonicalClause(lines[k], numVars)
    ensures Accepted(lines, numVars) && Valid(lines)
  {
    hide Toks, Significant, Header, Percent;
    assert ValidFor(Significant(lines), numVars, n);
  }
}
