/** The shard file: formula and cube in one DIMACS file, with the header recounted. */
module CubeApply {
  import opened GoText
  import opened Cnf
  import opened Dimacs

  /** The lines `ApplyCube` counts as clauses: last field "0", no comment, no "p " line. */
  predicate Counted(line: string) {
    var trim, ws := TrimSpace(line), Toks(line);
    trim != "" && !HasPrefix(trim, "c") && |ws| > 0 && ws[|ws| - 1] == "0" && !HasPrefix(trim, "p ")
  }

  function CountLines(f: File): (n: nat)
    ensures n <= |f|
  {
    if f == [] then 0 else CountLines(f[..|f| - 1]) + if Counted(f[|f| - 1]) then 1 else 0
  }

  function FirstHeader(f: File): (n: nat)
    ensures n <= |f|
    ensures forall i :: 0 <= i < n ==> !HeaderShape(f[i])
    ensures n < |f| ==> HeaderShape(f[n])
  {
    if f == [] || HeaderShape(f[0]) then 0 else 1 + FirstHeader(f[1..])
  }

  function HeaderLine(numVars: int, numClauses: int): string {
    Join(["p", "cnf", Itoa(numVars), Itoa(numClauses)])
  }

  function UnitLine(lit: int): string {
    Join([Itoa(lit), "0"])
  }

  function UnitLines(cube: seq<int>): (ls: File)
    ensures |ls| == |cube| && forall i :: 0 <= i < |cube| ==> ls[i] == UnitLine(cube[i])
  {
    seq(|cube|, i requires 0 <= i < |cube| => UnitLine(cube[i]))
  }

  /** num_vars of the first header, or 0 where there is none to rewrite. */
  function HeaderVars(body: File): (v: int)
    ensures MIN_INT64 <= v <= MAX_INT64
  {
    var h := FirstHeader(body);
    if h < |body| then
      var v := Atoi(Toks(body[h])[2]);
      if v.Some? then v.value else 0
    else 0
  }

  /** The body of the file with its header recounted for `extra` more clauses. */
  function Recounted(body: File, extra: nat): (out: File)
    ensures |out| == |body|
  {
    if HeaderVars(body) > 0 then
      body[FirstHeader(body) := HeaderLine(HeaderVars(body), CountLines(body) + extra)]
    else body
  }

  function Cubed(f: File, cube: seq<int>): File {
    Recounted(Normalised(f), |cube|) + UnitLines(cube)
  }

  /** The file handed to the solver and to the proof checker. */
  function Prepared(f: File, cube: seq<int>): File {
    Normalised(Cubed(f, cube))
  }

  /** The first pass: copy lines up to '%', find the header, count the clauses. */
  method ScanBody(f: File) returns (lines: File, headerIndex: int, headerNumVars: int, actualClauses: nat)
    ensures lines == Normalised(f)
    ensures headerIndex == if FirstHeader(lines) < |lines| then FirstHeader(lines) else -1
    ensures headerNumVars == HeaderVars(lines)
    ensures actualClauses == CountLines(lines)
  {
    hide Fields, TrimSpace, Atoi, Normalised, FirstHeader, CountLines;
    lines, headerIndex, headerNumVars, actualClauses := [], -1, 0, 0;
    ScanNothing();
    var i := 0;
    while i < |f|
      invariant 0 <= i <= |f|
      invariant lines == f[..i] && PercentFree(lines)
      invariant headerIndex == if FirstHeader(lines) < |lines| then FirstHeader(lines) else -1
      invariant headerNumVars == HeaderVars(lines)
      invariant actualClauses == CountLines(lines)
    {
      var line := f[i];
      var trim := TrimSpace(line);
      if HasPrefix(trim, "%") {
        break;
      }
      ScanStep(lines, line);
      if headerIndex == -1 {
        var fields := Fields(trim);
        if |fields| == 4 && fields[0] == "p" && fields[1] == "cnf" {
          headerIndex := |lines|;
          var v := Atoi(fields[2]);
          if v.Some? {
            headerNumVars := v.value;
          }
        }
      }
      if trim != "" && !HasPrefix(trim, "c") {
        var fields := Fields(trim);
        if |fields| > 0 && fields[|fields| - 1] == "0" && !HasPrefix(trim, "p ") {
          actualClauses := actualClauses + 1;
        }
      }
      lines := lines + [line];
      i := i + 1;
    }
    NormalisedIs(f, i);
  }

  /** The second half: overwrite the header, then append the cube as unit clauses. */
  method ApplyCube(f: File, cube: seq<int>) returns (lines: File)
    ensures lines == Cubed(f, cube)
  {
    hide *;
    var headerIndex, headerNumVars, actualClauses;
    lines, headerIndex, headerNumVars, actualClauses := ScanBody(f);
    lines := RewriteHeader(lines, headerIndex, headerNumVars, actualClauses + |cube|, |cube|);
    lines := AppendUnits(lines, cube);
    CubedIs(f, cube);
  }

  lemma CubedIs(f: File, cube: seq<int>)
    ensures Cubed(f, cube) == Recounted(Normalised(f), |cube|) + UnitLines(cube)
  {
  }

  method RewriteHeader(body: File, headerIndex: int, headerNumVars: int, newClauseCount: int, ghost extra: nat)
    returns (lines: File)
    requires headerIndex == if FirstHeader(body) < |body| then FirstHeader(body) else -1
    requires headerNumVars == HeaderVars(body) && newClauseCount == CountLines(body) + extra
    ensures lines == Recounted(body, extra)
  {
    hide HeaderLine, HeaderVars, HeaderShape, CountLines, FirstHeader;
    lines := body;
    if headerIndex != -1 && headerNumVars > 0 {
      lines := lines[headerIndex := HeaderLine(headerNumVars, newClauseCount)];
    }
  }

  method AppendUnits(body: File, cube: seq<int>) returns (lines: File)
    ensures lines == body + UnitLines(cube)
  {
    lines := body;
    var k := 0;
    while k < |cube|
      invariant 0 <= k <= |cube|
      invariant lines == body + UnitLines(cube[..k])
    {
      assert cube[..k + 1] == cube[..k] + [cube[k]];
      assert UnitLines(cube[..k + 1]) == UnitLines(cube[..k]) + [UnitLine(cube[k])];
      lines := lines + [UnitLine(cube[k])];
      k := k + 1;
    }
    assert cube[..|cube|] == cube;
  }

  lemma ScanNothing()
    ensures FirstHeader([]) == 0 && CountLines([]) == 0
  {
  }

  lemma FirstHeaderIsLeast(f: File, n: nat)
    requires n <= |f| && (forall i :: 0 <= i < n ==> !HeaderShape(f[i])) && (n < |f| ==> HeaderShape(f[n]))
    ensures FirstHeader(f) == n
  {
    hide HeaderShape;
  }

  lemma ScanStep(f: File, line: string)
    ensures FirstHeader(f + [line]) == if FirstHeader(f) < |f| || HeaderShape(line) then FirstHeader(f) else |f| + 1
    ensures FirstHeader(f) < |f| ==> HeaderVars(f + [line]) == HeaderVars(f)
    ensures CountLines(f + [line]) == CountLines(f) + if Counted(line) then 1 else 0
  {
    hide HeaderShape, FirstHeader;
    FirstHeaderIsLeast(f + [line], if FirstHeader(f) < |f| || HeaderShape(line) then FirstHeader(f) else |f| + 1);
    CountSnoc(f, line);
    hide Toks, CountLines;
  }

  lemma CountSnoc(f: File, line: string)
    ensures CountLines(f + [line]) == CountLines(f) + if Counted(line) then 1 else 0
  {
    hide Counted;
    var g := f + [line];
    assert g[|f|] == line && g[..|f|] == f;
  }

  // ---- The lines ApplyCube writes ----

  lemma HeaderLineTokens(numVars: int, numClauses: int)
    requires MIN_INT64 <= numVars <= MAX_INT64 && MIN_INT64 <= numClauses <= MAX_INT64
    ensures Header(HeaderLine(numVars, numClauses), numVars, numClauses)
    ensures Relevant(HeaderLine(numVars, numClauses))
  {
    hide Itoa, Atoi, Fields, TrimSpace, Join;
    var ws := ["p", "cnf", Itoa(numVars), Itoa(numClauses)];
    ItoaIsAWord(numVars);
    ItoaIsAWord(numClauses);
    AtoiOfItoa(numVars);
    AtoiOfItoa(numClauses);
    FieldsOfJoin(ws);
    TrimOfJoin(ws);
    JoinEnds(ws);
  }

  lemma UnitLineTokens(lit: int, numVars: int)
    requires lit != 0 && -numVars <= lit <= numVars && numVars <= MAX_INT64
    ensures Toks(UnitLine(lit)) == [Itoa(lit), "0"]
    ensures CanonicalClause(UnitLine(lit), numVars) && ClauseLine(UnitLine(lit))
    ensures Literals(Toks(UnitLine(lit))) == [lit]
  {
    hide Itoa, Atoi, Fields, TrimSpace, Join;
    var ws := [Itoa(lit), "0"];
    ItoaIsAWord(lit);
    AtoiOfItoa(lit);
    AtoiOfItoa(0);
    OnlyZeroPrintsZero(0);
    FieldsOfJoin(ws);
    TrimOfJoin(ws);
    IntegerLineIsClauseLine(UnitLine(lit));
  }

  /** Cutting at '%' happens before the cube is appended, so preparing the result for the
      solver changes nothing: no cube literal is lost behind a trailer. */
  lemma PreparingKeepsTheCube(f: File, cube: seq<int>)
    requires forall i :: 0 <= i < |cube| ==> cube[i] != 0 && -MAX_INT64 <= cube[i] <= MAX_INT64
    requires |f| + |cube| <= MAX_INT64
    ensures Prepared(f, cube) == Cubed(f, cube)
  {
    hide Normalised, FirstHeader, CountLines, HeaderVars, HeaderLine, UnitLine, Percent, Toks, Header, CanonicalClause,
         Literals;
    var body, out := Normalised(f), Cubed(f, cube);
    forall i | 0 <= i < |out| ensures !Percent(out[i]) {
      if i >= |body| {
        UnitLineTokens(cube[i - |body|], MAX_INT64);
      } else if HeaderVars(body) > 0 && i == FirstHeader(body) {
        HeaderLineTokens(HeaderVars(body), CountLines(body) + |cube|);
      }
    }
    assert out[..|out|] == out;
    NormalisedIs(out, |out|);
  }
}
