/** DIMACS CNF files: how the server validates and normalises them, and the two readings of
    their clauses, line by line (the model checker's) and as a token stream (a solver's). */
module Dimacs {
  import opened GoText
  import opened Cnf

  /** A slice length is an `int`; this bound leaves room to add two of them. */
  const MAX_LINES: int := 0x2000_0000_0000_0000

  function Toks(line: string): (ws: seq<string>)
    ensures forall i :: 0 <= i < |ws| ==> IsWord(ws[i])
  {
    Fields(TrimSpace(line))
  }

  /** Blank lines and `c` comments. */
  predicate Skipped(line: string) {
    TrimSpace(line) == "" || HasPrefix(TrimSpace(line), "c")
  }

  predicate Percent(line: string) {
    HasPrefix(TrimSpace(line), "%")
  }

  /** A line that a reader has to parse. */
  predicate Relevant(line: string) {
    !Skipped(line) && !Percent(line)
  }

  predicate PercentFree(f: File) {
    forall i :: 0 <= i < |f| ==> !Percent(f[i])
  }

  function Significant(f: File): (sig: File)
    ensures |sig| <= |f|
  {
    if f == [] then []
    else Significant(f[..|f| - 1]) + if Relevant(f[|f| - 1]) then [f[|f| - 1]] else []
  }

  predicate HeaderShape(line: string) {
    var ws := Toks(line);
    |ws| == 4 && ws[0] == "p" && ws[1] == "cnf"
  }

  predicate Header(line: string, numVars: int, numClauses: int) {
    HeaderShape(line) && Atoi(Toks(line)[2]) == Some(numVars) && Atoi(Toks(line)[3]) == Some(numClauses)
  }

  predicate Literal(tok: string, numVars: int) {
    var n := Atoi(tok);
    n.Some? && n.value != 0 && -numVars <= n.value <= numVars
  }

  /** Literals in range, then one terminator, however it is spelled. */
  predicate ClauseShape(line: string, numVars: int) {
    var ws := Toks(line);
    && |ws| > 0 && Atoi(ws[|ws| - 1]) == Some(0)
    && forall i :: 0 <= i < |ws| - 1 ==> Literal(ws[i], numVars)
  }

  /** What a valid upload is: a header with positive `numVars`, then at least as many clause
      lines as it declares, of which only that many are looked at (all of them if it
      declares none). */
  ghost predicate ValidFor(sig: File, numVars: int, numClauses: int) {
    && |sig| > 0 && Header(sig[0], numVars, numClauses) && numVars > 0 && numClauses >= 0
    && numClauses < |sig|
    && forall k :: 1 <= k < |sig| && (k <= numClauses || numClauses == 0) ==> ClauseShape(sig[k], numVars)
  }

  ghost predicate Valid(f: File) {
    exists numVars, numClauses :: ValidFor(Significant(f), numVars, numClauses)
  }

  /** The clause-token loop of the validator. */
  method CheckClauseLine(fields: seq<string>, numVars: int) returns (ok: bool)
    requires fields != [] && numVars <= MAX_INT64
    ensures ok <==> Atoi(fields[|fields| - 1]) == Some(0)
                    && forall i :: 0 <= i < |fields| - 1 ==> Literal(fields[i], numVars)
  {
    var hasTerminator := false;
    var i := 0;
    while i < |fields|
      invariant 0 <= i <= |fields|
      invariant !hasTerminator
      invariant forall k :: 0 <= k < i ==> Literal(fields[k], numVars)
    {
      var val := Atoi(fields[i]);
      if val.None? {
        return false;
      }
      if val.value == 0 {
        hasTerminator := true;
        if i != |fields| - 1 {
          assert !Literal(fields[i], numVars);
          return false;
        }
        break;
      }
      var abs := if val.value < 0 then ToInt64(-val.value) else val.value;
      if abs < 1 || abs > numVars {
        if i == |fields| - 1 {
          assert val != Some(0);
        } else {
          assert !Literal(fields[i], numVars);
        }
        return false;
      }
      i := i + 1;
    }
    if !hasTerminator {
      assert Literal(fields[|fields| - 1], numVars);
      return false;
    }
    return true;
  }

  /** The header-line checks of the validator. */
  method ParseHeader(fields: seq<string>) returns (ok: bool, numVars: int, numClauses: int)
    ensures ok <==> |fields| == 4 && fields[0] == "p" && fields[1] == "cnf"
                    && Atoi(fields[2]).Some? && Atoi(fields[2]).value > 0
                    && Atoi(fields[3]).Some? && Atoi(fields[3]).value >= 0
    ensures ok ==> Atoi(fields[2]) == Some(numVars) && Atoi(fields[3]) == Some(numClauses)
  {
    ok, numVars, numClauses := false, 0, 0;
    if |fields| != 4 || fields[0] != "p" || fields[1] != "cnf" {
      return;
    }
    var v := Atoi(fields[2]);
    if v.None? || v.value <= 0 {
      return;
    }
    var c := Atoi(fields[3]);
    if c.None? || c.value < 0 {
      return;
    }
    return true, v.value, c.value;
  }

  datatype Scan = Scan(seenHeader: bool, numVars: int, numClauses: int, seenClauses: int)

  /** The validator's variables after lines whose significant ones are `sig`. */
  ghost predicate Scanned(sig: File, st: Scan) {
    if !st.seenHeader then sig == []
    else
      && sig != [] && Header(sig[0], st.numVars, st.numClauses) && 0 < st.numVars <= MAX_INT64 && st.numClauses >= 0
      && st.seenClauses == (if 0 < st.numClauses < |sig| then st.numClauses else |sig| - 1)
      && forall k :: 1 <= k <= st.seenClauses ==> ClauseShape(sig[k], st.numVars)
  }

  /** No file whose significant lines start with `sig` is valid. */
  ghost predicate Hopeless(sig: File) {
    forall rest, v, c :: !ValidFor(sig + rest, v, c)
  }

  /** One iteration of the validator's loop, on a line that is not skipped. */
  method ScanLine(raw: string, st: Scan, ghost sig: File) returns (ok: bool, st': Scan)
    requires Relevant(raw) && Scanned(sig, st)
    ensures if ok then Scanned(sig + [raw], st') else Hopeless(sig + [raw])
  {
    hide Fields, TrimSpace, Atoi, Literal;
    ok, st' := true, st;
    var line := TrimSpace(raw);
    var fields := Fields(line);
    ghost var sig' := sig + [raw];
    if !st.seenHeader {
      var numVars, numClauses;
      ok, numVars, numClauses := ParseHeader(fields);
      if ok {
        st' := Scan(true, numVars, numClauses, 0);
      } else {
        assert forall rest: File :: (sig' + rest)[0] == raw;
      }
      return;
    }
    if st.numClauses > 0 && st.seenClauses >= st.numClauses {
      return;
    }
    FirstField(line);
    ok := CheckClauseLine(fields, st.numVars);
    if ok {
      st' := st.(seenClauses := st.seenClauses + 1);
    } else {
      BadClauseLine(sig', st.numVars, st.numClauses);
    }
  }

  method ValidateDIMACS(f: File) returns (ok: bool)
    ensures ok <==> Valid(f)
  {
    hide Fields, TrimSpace, Atoi, ClauseShape;
    var st := Scan(false, 0, 0, 0);
    ghost var sig: File := [];
    var lineNo := 0;
    while lineNo < |f|
      invariant 0 <= lineNo <= |f|
      invariant sig == Significant(f[..lineNo])
      invariant Scanned(sig, st)
    {
      var line := TrimSpace(f[lineNo]);
      SignificantStep(f, lineNo);
      lineNo := lineNo + 1;
      if line == "" || HasPrefix(line, "c") || HasPrefix(line, "%") {
        continue;
      }
      var good;
      good, st := ScanLine(f[lineNo - 1], st, sig);
      sig := sig + [f[lineNo - 1]];
      if !good {
        SignificantSplit(f, lineNo);
        return false;
      }
    }
    assert f[..|f|] == f;
    if !st.seenHeader {
      return false;
    }
    if st.numClauses > 0 && st.seenClauses < st.numClauses {
      return false;
    }
    assert ValidFor(sig, st.numVars, st.numClauses);
    return true;
  }

  lemma BadClauseLine(sig: File, numVars: int, numClauses: int)
    requires |sig| > 1 && Header(sig[0], numVars, numClauses)
    requires numClauses == 0 || |sig| - 1 <= numClauses
    requires !ClauseShape(sig[|sig| - 1], numVars)
    ensures Hopeless(sig)
  {
    forall rest: File, v, c ensures !ValidFor(sig + rest, v, c) {
      assert (sig + rest)[0] == sig[0] && (sig + rest)[|sig| - 1] == sig[|sig| - 1];
    }
  }

  lemma SignificantStep(f: File, n: nat)
    requires n < |f|
    ensures Significant(f[..n + 1]) == Significant(f[..n]) + if Relevant(f[n]) then [f[n]] else []
  {
    assert f[..n + 1] == f[..n] + [f[n]];
    SignificantSnoc(f[..n], f[n]);
  }

  /** What was read so far is a prefix of the whole. */
  lemma SignificantSplit(f: File, n: nat)
    requires n <= |f|
    ensures Significant(f) == Significant(f[..n]) + Significant(f[n..])
  {
    assert f == f[..n] + f[n..];
    SignificantConcat(f[..n], f[n..]);
  }

  lemma SignificantSnoc(a: File, line: string)
    ensures Significant(a + [line]) == Significant(a) + if Relevant(line) then [line] else []
  {
    hide Relevant;
    assert (a + [line])[..|a|] == a;
  }

  lemma SignificantConcat(a: File, b: File)
    ensures Significant(a + b) == Significant(a) + Significant(b)
  {
    hide Relevant;
    if b == [] {
      assert a + b == a;
    } else {
      var rest, last := b[..|b| - 1], b[|b| - 1];
      assert a + b == (a + rest) + [last];
      SignificantSnoc(a + rest, last);
      SignificantConcat(a, rest);
    }
  }

  // ---- Normalising: everything from the first '%' line on is dropped ----

  function FirstPercent(f: File): (n: nat)
    ensures n <= |f| && PercentFree(f[..n])
    ensures n < |f| ==> Percent(f[n])
  {
    if f == [] || Percent(f[0]) then 0 else 1 + FirstPercent(f[1..])
  }

  function Normalised(f: File): (g: File)
    ensures g <= f && PercentFree(g)
  {
    f[..FirstPercent(f)]
  }

  /** `Normalised` is the longest '%'-free prefix. */
  lemma NormalisedIs(f: File, n: nat)
    requires n <= |f| && PercentFree(f[..n]) && (n < |f| ==> Percent(f[n]))
    ensures Normalised(f) == f[..n]
  {
    var m := FirstPercent(f);
    assert forall k :: 0 <= k < n ==> f[..n][k] == f[k];
    assert forall k :: 0 <= k < m ==> f[..m][k] == f[k];
  }

  method PrepareCNFForSolving(f: File) returns (out: File)
    ensures out == Normalised(f)
  {
    out := [];
    var i := 0;
    while i < |f|
      invariant 0 <= i <= |f|
      invariant out == f[..i] && PercentFree(out)
    {
      var trim := TrimSpace(f[i]);
      if HasPrefix(trim, "%") {
        break;
      }
      out := out + [f[i]];
      i := i + 1;
    }
    NormalisedIs(f, i);
  }

  /** Normalising twice is normalising once, and keeps the formula. */
  lemma NormalisingIsIdempotent(f: File)
    ensures Normalised(Normalised(f)) == Normalised(f)
    ensures Clauses(Normalised(f)) == Clauses(f)
  {
    var g := Normalised(f);
    assert g[..|g|] == g;
    NormalisedIs(g, |g|);
  }

  // ---- The model checker's reading: one clause a line ----

  /** The leading non-zero integers of a token list. */
  function Literals(ws: seq<string>): (c: Clause)
    ensures |c| <= |ws|
    ensures forall i :: 0 <= i < |c| ==> Atoi(ws[i]) == Some(c[i]) && c[i] != 0
    ensures |c| < |ws| ==> Atoi(ws[|c|]) == None || Atoi(ws[|c|]) == Some(0)
  {
    if ws == [] || Atoi(ws[0]).None? || Atoi(ws[0]).value == 0 then []
    else
      assert forall i :: 0 <= i < |ws| - 1 ==> ws[1..][i] == ws[i + 1];
      [Atoi(ws[0]).value] + Literals(ws[1..])
  }

  predicate ClauseLine(line: string) {
    Relevant(line) && !HasPrefix(TrimSpace(line), "p")
  }

  function ClausesOf(f: File): Formula {
    if f == [] then []
    else ClausesOf(f[..|f| - 1]) + if ClauseLine(f[|f| - 1]) then [Literals(Toks(f[|f| - 1]))] else []
  }

  /** The formula of a CNF file: the clause lines before the first '%'. */
  function Clauses(f: File): Formula {
    ClausesOf(Normalised(f))
  }

  // ---- A solver's reading: header, then a stream of zero-terminated clauses ----

  function Flatten(lines: File): seq<string> {
    if lines == [] then [] else Toks(lines[0]) + Flatten(lines[1..])
  }

  /** The clauses of a token stream, if every token is an integer in range and no clause is
      left open at the end. */
  function ReadStream(ws: seq<string>, open: Clause, numVars: int): (r: Option<Formula>) {
    if ws == [] then
      if open == [] then Some([]) else None
    else if Atoi(ws[0]) == Some(0) then
      var rest := ReadStream(ws[1..], [], numVars);
      if rest.None? then None else Some([open] + rest.value)
    else if Literal(ws[0], numVars) then
      ReadStream(ws[1..], open + [Atoi(ws[0]).value], numVars)
    else None
  }

  /** The formula a DIMACS reader finds in a file, if the file is proper DIMACS: no '%'
      trailer, a header, and exactly as many clauses as the header declares. */
  function SolverReads(f: File): Option<Formula> {
    var sig := Significant(f);
    if !PercentFree(f) || sig == [] || !HeaderShape(sig[0]) then None
    else
      var numVars, numClauses := Atoi(Toks(sig[0])[2]), Atoi(Toks(sig[0])[3]);
      if numVars.None? || numClauses.None? then None
      else
        var r := ReadStream(Flatten(sig[1..]), [], numVars.value);
        if r.Some? && |r.value| == numClauses.value then r else None
  }

  // ---- Well-formed clause lines ----

  /** A clause line as DIMACS writers produce it: the terminator is spelled "0". */
  predicate CanonicalClause(line: string, numVars: int) {
    ClauseShape(line, numVars) && Toks(line)[|Toks(line)| - 1] == "0"
  }

  /** Every line after the header has the shape of a clause, also beyond the declared count. */
  predicate AllClauses(sig: File, numVars: int) {
    forall k :: 1 <= k < |sig| ==> ClauseShape(sig[k], numVars)
  }

  /** ... and spells its terminator "0". */
  predicate AllCanonical(sig: File, numVars: int) {
    forall k :: 1 <= k < |sig| ==> CanonicalClause(sig[k], numVars)
  }

  /** A validated, normalised upload. */
  ghost predicate Accepted(f: File, numVars: int) {
    && |f| <= MAX_LINES && PercentFree(f)
    && exists numClauses :: ValidFor(Significant(f), numVars, numClauses)
  }

  // ---- Facts about line readings ----

  lemma ClausesOfConcat(a: File, b: File)
    ensures ClausesOf(a + b) == ClausesOf(a) + ClausesOf(b)
  {
    if b == [] {
      assert a + b == a;
    } else {
      assert (a + b)[..|a + b| - 1] == a + b[..|b| - 1];
      ClausesOfConcat(a, b[..|b| - 1]);
    }
  }

  lemma FlattenConcat(a: File, b: File)
    ensures Flatten(a + b) == Flatten(a) + Flatten(b)
  {
    if a == [] {
      assert a + b == b;
    } else {
      assert (a + b)[1..] == a[1..] + b;
      FlattenConcat(a[1..], b);
    }
  }

  /** The first field of a non-blank line starts with the line's first character. */
  lemma FirstToken(line: string)
    requires TrimSpace(line) != ""
    ensures Toks(line) != [] && Toks(line)[0][0] == TrimSpace(line)[0]
  {
    FirstField(TrimSpace(line));
  }

  /** A line whose first token is an integer is a clause line. */
  lemma IntegerLineIsClauseLine(line: string)
    requires Toks(line) != [] && Atoi(Toks(line)[0]).Some?
    ensures ClauseLine(line)
  {
    FirstField(TrimSpace(line));
    FirstToken(line);
    var w := Toks(line)[0];
    assert AllDigits(Unsigned(w));
    assert w[0] == '-' || w[0] == '+' || '0' <= w[0] <= '9';
  }
}
