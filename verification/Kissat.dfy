/** How a solver's answer becomes the text a worker sends, and how the server reads it back. */
module Kissat {
  import opened GoText
  import opened Cnf

  /** The literals of a "v" line: the integer fields after the "v", zeros excluded. */
  function IntegersOf(ws: seq<string>): (lits: seq<int>)
    ensures forall i :: 0 <= i < |lits| ==> lits[i] != 0 && MIN_INT64 <= lits[i] <= MAX_INT64
  {
    if ws == [] then []
    else
      var n := Atoi(ws[|ws| - 1]);
      IntegersOf(ws[..|ws| - 1]) + if n.Some? && n.value != 0 then [n.value] else []
  }

  predicate StatusLine(line: string) {
    HasPrefix(TrimSpace(line), "s ")
  }

  predicate ValueLine(line: string) {
    HasPrefix(TrimSpace(line), "v ")
  }

  datatype SolverStatus = Unknown | Sat | Unsat

  /** The status after one more line; a later status line overrides an earlier one. */
  function NextStatus(status: SolverStatus, line: string): SolverStatus {
    if !StatusLine(line) then status
    else if Contains(TrimSpace(line), "UNSAT") then Unsat
    else if Contains(TrimSpace(line), "SAT") then Sat
    else status
  }

  function StatusOf(lines: File): SolverStatus {
    if lines == [] then Unknown else NextStatus(StatusOf(lines[..|lines| - 1]), lines[|lines| - 1])
  }

  function LineLiterals(line: string): (lits: seq<int>)
    ensures forall i :: 0 <= i < |lits| ==> lits[i] != 0 && MIN_INT64 <= lits[i] <= MAX_INT64
  {
    var ws := Fields(TrimSpace(line));
    if ValueLine(line) && ws != [] then IntegersOf(ws[1..]) else []
  }

  function ModelOf(lines: File): (lits: seq<int>)
    ensures forall i :: 0 <= i < |lits| ==> lits[i] != 0 && MIN_INT64 <= lits[i] <= MAX_INT64
  {
    if lines == [] then [] else ModelOf(lines[..|lines| - 1]) + LineLiterals(lines[|lines| - 1])
  }

  function PrintLiterals(lits: seq<int>): (ws: seq<string>)
    ensures |ws| == |lits| && forall i :: 0 <= i < |lits| ==> ws[i] == Itoa(lits[i])
  {
    seq(|lits|, i requires 0 <= i < |lits| => Itoa(lits[i]))
  }

  /** The solver's verdict with the printed model, or None without a status line. */
  datatype Answer = Answer(sat: bool, model: string)

  function Parsed(out: string): Option<Answer> {
    var lines := SplitLines(out);
    match StatusOf(lines)
    case Unknown => None
    case Sat => Some(Answer(true, Join(PrintLiterals(ModelOf(lines)))))
    case Unsat => Some(Answer(false, ""))
  }

  method ParseKissatOutput(out: string) returns (answer: Option<Answer>)
    ensures answer == Parsed(out)
  {
    hide TrimSpace, Fields, Atoi, Contains, SplitLines, Join;
    var lines := SplitLines(out);
    var status, modelLits := Unknown, [];
    var i := 0;
    while i < |lines|
      invariant 0 <= i <= |lines|
      invariant status == StatusOf(lines[..i]) && modelLits == ModelOf(lines[..i])
    {
      var line := TrimSpace(lines[i]);
      assert lines[..i + 1][..i] == lines[..i];
      i := i + 1;
      if HasPrefix(line, "s ") {
        if Contains(line, "UNSAT") {
          status := Unsat;
        } else if Contains(line, "SAT") {
          status := Sat;
        }
      }
      var lits := [];
      if HasPrefix(line, "v ") {
        FirstField(line);
        var fields := Fields(line)[1..];
        lits := ReadIntegers(fields);
      }
      modelLits := modelLits + lits;
    }
    assert lines[..|lines|] == lines;
    if status == Unknown {
      return None;
    }
    if status == Sat {
      return Some(Answer(true, Join(PrintLiterals(modelLits))));
    }
    return Some(Answer(false, ""));
  }

  method ReadIntegers(fields: seq<string>) returns (lits: seq<int>)
    ensures lits == IntegersOf(fields)
  {
    hide Atoi;
    lits := [];
    var i := 0;
    while i < |fields|
      invariant 0 <= i <= |fields|
      invariant lits == IntegersOf(fields[..i])
    {
      assert fields[..i + 1][..i] == fields[..i];
      var n := Atoi(fields[i]);
      if n.Some? && n.value != 0 {
        lits := lits + [n.value];
      }
      i := i + 1;
    }
    assert fields[..|fields|] == fields;
  }

  // ---- The server's side ----

  /** Every field an integer, cut to 32 bits; None for a malformed or empty text. */
  function AssignmentOf(ws: seq<string>): (r: Option<seq<int>>)
    ensures r.Some? ==> |r.value| == |ws|
    ensures r.Some? ==> forall i :: 0 <= i < |r.value| ==> MIN_INT32 <= r.value[i] <= MAX_INT32
  {
    if ws == [] then Some([])
    else
      var rest, n := AssignmentOf(ws[..|ws| - 1]), Atoi(ws[|ws| - 1]);
      if rest.Some? && n.Some? then Some(rest.value + [ToInt32(n.value)]) else None
  }

  function ParsedAssignment(s: string): (r: Option<seq<int>>)
    ensures r.Some? ==> forall i :: 0 <= i < |r.value| ==> MIN_INT32 <= r.value[i] <= MAX_INT32
  {
    var t := TrimSpace(s);
    if t == "" then None else AssignmentOf(Fields(t))
  }

  method ParseAssignment(sval: string) returns (r: Option<seq<int>>)
    ensures r == ParsedAssignment(sval)
  {
    hide TrimSpace, Fields, Atoi, ToInt32;
    var s := TrimSpace(sval);
    if s == "" {
      return None;
    }
    var parts := Fields(s);
    var out := [];
    var i := 0;
    while i < |parts|
      invariant 0 <= i <= |parts|
      invariant AssignmentOf(parts[..i]) == Some(out)
    {
      assert parts[..i + 1][..i] == parts[..i];
      var n := Atoi(parts[i]);
      if n.None? {
        BadPart(parts, i);
        return None;
      }
      out := out + [ToInt32(n.value)];
      i := i + 1;
    }
    assert parts[..|parts|] == parts;
    return Some(out);
  }

  lemma {:induction false} BadPart(ws: seq<string>, i: nat)
    requires i < |ws| && Atoi(ws[i]).None?
    ensures AssignmentOf(ws).None?
    decreases |ws|
  {
    hide Atoi, ToInt32;
    if i < |ws| - 1 {
      BadPart(ws[..|ws| - 1], i);
    }
  }

  predicate AllIntegers(ws: seq<string>) {
    forall i :: 0 <= i < |ws| ==> Atoi(ws[i]).Some?
  }

  lemma {:induction false} AssignmentOfWords(ws: seq<string>)
    ensures AssignmentOf(ws).Some? <==> AllIntegers(ws)
    ensures AllIntegers(ws) ==>
              |AssignmentOf(ws).value| == |ws|
              && forall i :: 0 <= i < |ws| ==> AssignmentOf(ws).value[i] == ToInt32(Atoi(ws[i]).value)
  {
    hide Atoi, ToInt32;
    if ws != [] {
      var rest := ws[..|ws| - 1];
      AssignmentOfWords(rest);
      assert forall i :: 0 <= i < |rest| ==> rest[i] == ws[i];
    }
  }

  /** A reported assignment is read if and only if there is one and every word of it is an
      integer, and then as these integers, each cut to 32 bits. */
  lemma AssignmentIsReadIff(s: string)
    ensures var ws := Fields(TrimSpace(s));
            && (ParsedAssignment(s).Some? <==> TrimSpace(s) != "" && AllIntegers(ws))
            && (ParsedAssignment(s).Some? ==>
                  |ParsedAssignment(s).value| == |ws|
                  && forall i :: 0 <= i < |ws| ==> ParsedAssignment(s).value[i] == ToInt32(Atoi(ws[i]).value))
  {
    hide Atoi, ToInt32, Fields, TrimSpace, AssignmentOf;
    AssignmentOfWords(Fields(TrimSpace(s)));
  }

  // ---- The two sides agree ----

  function Cut(lits: seq<int>): (r: seq<int>)
    ensures |r| == |lits| && forall i :: 0 <= i < |lits| ==> r[i] == ToInt32(lits[i])
  {
    seq(|lits|, i requires 0 <= i < |lits| => ToInt32(lits[i]))
  }

  lemma {:induction false} AssignmentOfPrinted(lits: seq<int>)
    requires forall i :: 0 <= i < |lits| ==> MIN_INT64 <= lits[i] <= MAX_INT64
    ensures AssignmentOf(PrintLiterals(lits)) == Some(Cut(lits))
  {
    hide Atoi, Itoa, ToInt32;
    if lits != [] {
      var rest, lit := lits[..|lits| - 1], lits[|lits| - 1];
      AssignmentOfPrinted(rest);
      AtoiOfItoa(lit);
      assert PrintLiterals(lits)[..|lits| - 1] == PrintLiterals(rest);
      assert Cut(lits) == Cut(rest) + [ToInt32(lit)];
    }
  }

  lemma PrintedAreWords(lits: seq<int>)
    ensures forall i :: 0 <= i < |lits| ==> IsWord(PrintLiterals(lits)[i])
  {
    hide Itoa, IsWord;
    forall i | 0 <= i < |lits| ensures IsWord(PrintLiterals(lits)[i]) {
      ItoaIsAWord(lits[i]);
    }
  }

  /** The server reads back the literals that the worker's solver printed, each cut to
      32 bits, and it does so exactly when the solver printed any. */
  lemma ReadingInvertsPrinting(out: string)
    requires Parsed(out).Some? && Parsed(out).value.sat
    ensures var lits := ModelOf(SplitLines(out));
            ParsedAssignment(Parsed(out).value.model) == if lits == [] then None else Some(Cut(lits))
  {
    hide Atoi, Itoa, ToInt32, Fields, TrimSpace, Join, ModelOf, StatusOf, SplitLines, AssignmentOf;
    var lits := ModelOf(SplitLines(out));
    var ws := PrintLiterals(lits);
    PrintedAreWords(lits);
    FieldsOfJoin(ws);
    TrimOfJoin(ws);
    AssignmentOfPrinted(lits);
    if lits == [] {
      assert Join(ws) == "" by { JoinNothing(ws); }
    } else {
      JoinEnds(ws);
    }
  }

  lemma JoinNothing(ws: seq<string>)
    requires ws == []
    ensures Join(ws) == ""
  {
  }

  // ---- What a solver prints is understood ----

  /** The text of a value line. */
  function ValueText(lits: seq<int>): string {
    "v " + Join(PrintLiterals(lits) + ["0"])
  }

  function ValueTexts(chunks: seq<seq<int>>): (lines: File)
    ensures |lines| == |chunks| && forall i :: 0 <= i < |chunks| ==> lines[i] == ValueText(chunks[i])
  {
    seq(|chunks|, i requires 0 <= i < |chunks| => ValueText(chunks[i]))
  }

  /** A solver's output: the status, and for SAT the model over any number of value lines. */
  function Printed(sat: bool, chunks: seq<seq<int>>): File {
    [if sat then "s SATISFIABLE" else "s UNSATISFIABLE"] + ValueTexts(chunks)
  }

  function Unlines(lines: File): string {
    if lines == [] then "" else lines[0] + ("\n" + Unlines(lines[1..]))
  }

  function Flat(chunks: seq<seq<int>>): seq<int> {
    if chunks == [] then [] else Flat(chunks[..|chunks| - 1]) + chunks[|chunks| - 1]
  }

  predicate Printable(lits: seq<int>) {
    forall i :: 0 <= i < |lits| ==> lits[i] != 0 && MIN_INT64 <= lits[i] <= MAX_INT64
  }

  lemma {:induction false} LinesOfUnlines(lines: File)
    requires forall i :: 0 <= i < |lines| ==> '\n' !in lines[i]
    ensures SplitLines(Unlines(lines)) == lines + [""]
  {
    if lines == [] {
      assert lines + [""] == [""];
    } else {
      LinesOfUnlines(lines[1..]);
      SplitAtNewline(lines[0], Unlines(lines[1..]));
      hide SplitLines;
      assert [lines[0]] + (lines[1..] + [""]) == lines + [""];
    }
  }

  lemma {:induction false} NotContained(s: string, sub: string)
    requires sub != "" && sub[0] !in s
    ensures !Contains(s, sub)
  {
    if s != "" {
      NotContained(s[1..], sub);
    }
  }

  lemma {:induction false} ContainedAt(s: string, sub: string, k: nat)
    requires k <= |s| && sub <= s[k..]
    ensures Contains(s, sub)
  {
    if k > 0 {
      assert s[1..][k - 1..] == s[k..];
      ContainedAt(s[1..], sub, k - 1);
    }
  }

  lemma TextOfStatus(text: string)
    requires text == "s SATISFIABLE" || text == "s UNSATISFIABLE"
    ensures HasPrefix(text, "s ") && !HasPrefix(text, "v ") && TrimSpace(text) == text && '\n' !in text
  {
    hide TrimSpace;
    TrimSpaceNoOp(text);
    assert text[0] == 's' && text[..2] == "s ";
  }

  lemma StatusLines()
    ensures forall st :: NextStatus(st, "s SATISFIABLE") == Sat && NextStatus(st, "s UNSATISFIABLE") == Unsat
    ensures LineLiterals("s SATISFIABLE") == [] && LineLiterals("s UNSATISFIABLE") == []
    ensures '\n' !in "s SATISFIABLE" && '\n' !in "s UNSATISFIABLE"
  {
    var yes, no := "s SATISFIABLE", "s UNSATISFIABLE";
    hide TrimSpace, Fields, Contains, HasPrefix, IntegersOf;
    TextOfStatus(yes);
    TextOfStatus(no);
    StatusWords();
  }

  lemma StatusWords()
    ensures !Contains("s SATISFIABLE", "UNSAT") && Contains("s SATISFIABLE", "SAT")
    ensures Contains("s UNSATISFIABLE", "UNSAT")
  {
    hide Contains;
    NotContained("s SATISFIABLE", "UNSAT");
    assert "s SATISFIABLE"[2..] == "SAT" + "ISFIABLE";
    ContainedAt("s SATISFIABLE", "SAT", 2);
    assert "s UNSATISFIABLE"[2..] == "UNSAT" + "ISFIABLE";
    ContainedAt("s UNSATISFIABLE", "UNSAT", 2);
  }

  lemma {:induction false} JoinStaysOnLine(ws: seq<string>)
    requires forall i :: 0 <= i < |ws| ==> IsWord(ws[i])
    ensures '\n' !in Join(ws)
  {
    if ws != [] {
      assert forall i :: 0 <= i < |ws[0]| ==> !IsSpace(ws[0][i]);
      JoinStaysOnLine(ws[1..]);
    }
  }

  lemma {:induction false} IntegersOfPrinted(lits: seq<int>)
    requires Printable(lits)
    ensures IntegersOf(PrintLiterals(lits)) == lits
  {
    hide Atoi, Itoa;
    if lits != [] {
      var rest, lit := lits[..|lits| - 1], lits[|lits| - 1];
      IntegersOfPrinted(rest);
      AtoiOfItoa(lit);
      assert PrintLiterals(lits)[..|lits| - 1] == PrintLiterals(rest);
      assert rest + [lit] == lits;
    }
  }

  lemma IntegersOfLine(lits: seq<int>)
    requires Printable(lits)
    ensures IntegersOf(PrintLiterals(lits) + ["0"]) == lits
  {
    IntegersOfPrinted(lits);
    assert Atoi("0") == Some(0) by { AtoiOfItoa(0); OnlyZeroPrintsZero(0); }
    hide Atoi, PrintLiterals;
    var ws := PrintLiterals(lits);
    assert (ws + ["0"])[..|ws|] == ws && lits + [] == lits;
  }

  lemma ValueLineIs(lits: seq<int>)
    requires Printable(lits)
    ensures LineLiterals(ValueText(lits)) == lits && !StatusLine(ValueText(lits)) && '\n' !in ValueText(lits)
  {
    hide TrimSpace, Fields, Join, Itoa, IntegersOf;
    var ws := PrintLiterals(lits) + ["0"];
    PrintedAreWords(lits);
    assert IsWord("0") && forall i :: 0 <= i < |ws| ==> IsWord(ws[i]);
    IntegersOfLine(lits);
    FieldsOfJoin(ws);
    JoinEnds(ws);
    JoinStaysOnLine(ws);
    hide PrintLiterals, IsWord;
    ValueLineOf(ws, Join(ws));
    assert (["v"] + ws)[1..] == ws;
  }

  lemma ValueLineOf(ws: seq<string>, s: string)
    requires Fields(s) == ws && s != "" && !IsSpace(s[|s| - 1])
    ensures TrimSpace("v " + s) == "v " + s && Fields("v " + s) == ["v"] + ws
    ensures HasPrefix("v " + s, "v ") && !HasPrefix("v " + s, "s ") && ('\n' in "v " + s <==> '\n' in s)
  {
    hide TrimSpace, Fields;
    var line := "v " + s;
    assert line[0] == 'v' && line[1] == ' ' && line[|line| - 1] == s[|s| - 1] && line[..2] == "v ";
    TrimSpaceNoOp(line);
    assert line == "v" + " " + s;
    FieldsOfWordSpace("v", s);
  }

  lemma BlankLineIs()
    ensures forall st :: NextStatus(st, "") == st
    ensures LineLiterals("") == []
  {
  }

  lemma {:induction false} ReadChunks(sat: bool, chunks: seq<seq<int>>)
    requires forall i :: 0 <= i < |chunks| ==> Printable(chunks[i])
    ensures StatusOf(Printed(sat, chunks)) == if sat then Sat else Unsat
    ensures ModelOf(Printed(sat, chunks)) == Flat(chunks)
    ensures forall i :: 0 <= i <= |chunks| ==> '\n' !in Printed(sat, chunks)[i]
  {
    hide NextStatus, LineLiterals, ValueText, Printable;
    var lines := Printed(sat, chunks);
    StatusLines();
    if chunks == [] {
      assert lines == [lines[0]] && lines[..0] == [];
      assert [] + LineLiterals(lines[0]) == [];
    } else {
      var n := |chunks| - 1;
      ReadChunks(sat, chunks[..n]);
      ValueLineIs(chunks[n]);
      assert lines[..n + 1] == Printed(sat, chunks[..n]) && lines[n + 1] == ValueText(chunks[n]);
      NoStatus(lines[n + 1], StatusOf(lines[..n + 1]));
      assert forall i :: 0 <= i <= n ==> lines[i] == lines[..n + 1][i];
    }
  }

  lemma NoStatus(line: string, status: SolverStatus)
    ensures !StatusLine(line) ==> NextStatus(status, line) == status
  {
    hide StatusLine;
  }

  /** What a solver prints comes out as its verdict and its model, over however many value
      lines the model is spread. */
  lemma PrintedIsParsed(sat: bool, chunks: seq<seq<int>>)
    requires forall i :: 0 <= i < |chunks| ==> Printable(chunks[i])
    ensures Parsed(Unlines(Printed(sat, chunks)))
         == Some(if sat then Answer(true, Join(PrintLiterals(Flat(chunks)))) else Answer(false, ""))
  {
    var lines := Printed(sat, chunks);
    ReadChunks(sat, chunks);
    LinesOfUnlines(lines);
    BlankAtTheEnd(lines);
    hide Printed, Unlines, SplitLines, StatusOf, ModelOf, Join, PrintLiterals, Flat;
  }

  lemma BlankAtTheEnd(lines: File)
    ensures StatusOf(lines + [""]) == StatusOf(lines) && ModelOf(lines + [""]) == ModelOf(lines)
  {
    BlankLineIs();
    hide NextStatus, LineLiterals;
    assert (lines + [""])[..|lines|] == lines;
    assert ModelOf(lines) + [] == ModelOf(lines);
  }
}
