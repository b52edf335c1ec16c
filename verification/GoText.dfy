/** The parts of Go's `strings` and `strconv` packages that the CNF and result parsers
    rely on, over Unicode strings. */
module GoText {

  datatype Option<+T> = None | Some(value: T)

  /** A text file, as bufio.Scanner delivers it: its lines without their terminators. */
  type File = seq<string>

  const MIN_INT64: int := -0x8000_0000_0000_0000
  const MAX_INT64: int := 0x7fff_ffff_ffff_ffff
  const MIN_INT32: int := -0x8000_0000
  const MAX_INT32: int := 0x7fff_ffff

  /** Conversion to int32, which keeps the low 32 bits. */
  function ToInt32(n: int): (r: int)
    ensures MIN_INT32 <= r <= MAX_INT32
    ensures MIN_INT32 <= n <= MAX_INT32 ==> r == n
  {
    (n - MIN_INT32) % 0x1_0000_0000 + MIN_INT32
  }

  /** Conversion to int64, which keeps the low 64 bits. */
  function ToInt64(n: int): (r: int)
    ensures MIN_INT64 <= r <= MAX_INT64
    ensures MIN_INT64 <= n <= MAX_INT64 ==> r == n
  {
    (n - MIN_INT64) % 0x1_0000_0000_0000_0000 + MIN_INT64
  }

  /** unicode.IsSpace. */
  predicate IsSpace(c: char) {
    || c == ' ' || '\t' <= c <= '\r' || c == '\U{0085}' || c == '\U{00A0}' || c == '\U{1680}'
    || '\U{2000}' <= c <= '\U{200A}' || c == '\U{2028}' || c == '\U{2029}' || c == '\U{202F}'
    || c == '\U{205F}' || c == '\U{3000}'
  }

  predicate IsWord(w: string) {
    w != "" && forall i :: 0 <= i < |w| ==> !IsSpace(w[i])
  }

  predicate HasPrefix(s: string, prefix: string) {
    prefix <= s
  }

  predicate Contains(s: string, sub: string) {
    sub <= s || (s != "" && Contains(s[1..], sub))
  }

  function TrimLeft(s: string): (t: string)
    ensures t != "" ==> !IsSpace(t[0])
  {
    if s != "" && IsSpace(s[0]) then TrimLeft(s[1..]) else s
  }

  function TrimRight(s: string): (t: string)
    ensures t <= s
    ensures t != "" ==> !IsSpace(t[|t| - 1])
  {
    if s != "" && IsSpace(s[|s| - 1]) then TrimRight(s[..|s| - 1]) else s
  }

  function TrimSpace(s: string): (t: string)
    ensures t != "" ==> !IsSpace(t[0]) && !IsSpace(t[|t| - 1])
  {
    TrimRight(TrimLeft(s))
  }

  /** Length of the leading run of non-space characters. */
  function WordLength(s: string): (n: nat)
    ensures n <= |s|
    ensures forall i :: 0 <= i < n ==> !IsSpace(s[i])
    ensures n < |s| ==> IsSpace(s[n])
  {
    if s == "" || IsSpace(s[0]) then 0 else 1 + WordLength(s[1..])
  }

  function Fields(s: string): (ws: seq<string>)
    ensures forall i :: 0 <= i < |ws| ==> IsWord(ws[i])
    decreases |s|
  {
    if s == "" then []
    else if IsSpace(s[0]) then Fields(s[1..])
    else
      var n := WordLength(s);
      [s[..n]] + Fields(s[n..])
  }

  /** strings.Join with a one-space separator. */
  function Join(ws: seq<string>): string {
    if ws == [] then "" else if |ws| == 1 then ws[0] else ws[0] + " " + Join(ws[1..])
  }

  /** strings.Split at newlines. */
  function SplitLines(s: string): (ls: File)
    ensures |ls| > 0
  {
    if s == "" then [""]
    else
      var rest := SplitLines(s[1..]);
      if s[0] == '\n' then [""] + rest else [[s[0]] + rest[0]] + rest[1..]
  }

  function DigitChar(d: nat): char
    requires d < 10
  {
    '0' + d as char
  }

  predicate AllDigits(s: string) {
    forall i :: 0 <= i < |s| ==> '0' <= s[i] <= '9'
  }

  function Digits(n: nat): (s: string)
    ensures s != "" && AllDigits(s)
  {
    if n < 10 then [DigitChar(n)] else Digits(n / 10) + [DigitChar(n % 10)]
  }

  function DigitsValue(s: string): (v: int)
    requires AllDigits(s)
    ensures v >= 0
  {
    if s == "" then 0 else 10 * DigitsValue(s[..|s| - 1]) + (s[|s| - 1] as int - '0' as int)
  }

  function Itoa(n: int): string {
    if n < 0 then "-" + Digits(-n) else Digits(n)
  }

  function Unsigned(s: string): string {
    if s != "" && (s[0] == '-' || s[0] == '+') then s[1..] else s
  }

  /** strconv.Atoi on a 64-bit platform; strconv.ParseInt(s, 10, 64) agrees with it. */
  function Atoi(s: string): (r: Option<int>)
    ensures r.Some? ==> MIN_INT64 <= r.value <= MAX_INT64
  {
    var body := Unsigned(s);
    if body == "" || !AllDigits(body) then None
    else
      var v := if s[0] == '-' then -DigitsValue(body) else DigitsValue(body);
      if MIN_INT64 <= v <= MAX_INT64 then Some(v) else None
  }

  lemma {:induction false} DigitsValueOfDigits(n: nat)
    ensures DigitsValue(Digits(n)) == n
  {
    if n >= 10 {
      DigitsValueOfDigits(n / 10);
      assert Digits(n)[..|Digits(n)| - 1] == Digits(n / 10);
    }
  }

  lemma DigitsAreAWord(s: string)
    requires AllDigits(s)
    ensures forall i :: 0 <= i < |s| ==> !IsSpace(s[i]) && s[i] != '-' && s[i] != '+'
  {
  }

  lemma ItoaIsAWord(n: int)
    ensures IsWord(Itoa(n))
    ensures Unsigned(Itoa(n)) == Digits(if n < 0 then -n else n)
  {
    var ds := Digits(if n < 0 then -n else n);
    DigitsAreAWord(ds);
    assert Itoa(n) == ds || Itoa(n) == "-" + ds;
  }

  /** Reading back a printed integer gives the integer. */
  lemma AtoiOfItoa(n: int)
    requires MIN_INT64 <= n <= MAX_INT64
    ensures Atoi(Itoa(n)) == Some(n)
  {
    ItoaIsAWord(n);
    DigitsValueOfDigits(if n < 0 then -n else n);
    DigitsAreAWord(Digits(if n < 0 then -n else n));
  }

  lemma OnlyZeroPrintsZero(n: int)
    ensures Itoa(n) == "0" <==> n == 0
  {
    DigitsValueOfDigits(if n < 0 then -n else n);
    assert DigitsValue("0") == 0;
  }

  /** A trimmed string is empty exactly when it has no fields, and its first field
      starts with its first character. */
  lemma FirstField(t: string)
    requires t != "" ==> !IsSpace(t[0])
    ensures t == "" <==> Fields(t) == []
    ensures t != "" ==> Fields(t)[0] <= t
    ensures t != "" ==> Fields(t)[0] == t[..WordLength(t)]
  {
  }

  lemma WordLengthOfWord(w: string, rest: string)
    requires forall i :: 0 <= i < |w| ==> !IsSpace(w[i])
    requires rest != "" ==> IsSpace(rest[0])
    ensures WordLength(w + rest) == |w|
  {
    hide IsSpace, WordLength;
    var s := w + rest;
    assert forall i :: 0 <= i < |w| ==> s[i] == w[i];
    assert rest != "" ==> s[|w|] == rest[0];
  }

  lemma FieldsOfWordThen(w: string, rest: string)
    requires IsWord(w)
    requires rest != "" ==> IsSpace(rest[0])
    ensures Fields(w + rest) == [w] + Fields(rest)
  {
    WordLengthOfWord(w, rest);
    assert (w + rest)[..|w|] == w && (w + rest)[|w|..] == rest;
    assert !IsSpace((w + rest)[0]);
  }

  lemma TrimSpaceNoOp(t: string)
    requires t != "" ==> !IsSpace(t[0]) && !IsSpace(t[|t| - 1])
    ensures TrimSpace(t) == t
  {
  }

  lemma {:induction false} JoinEnds(ws: seq<string>)
    requires ws != [] && IsWord(ws[0]) && forall i :: 0 <= i < |ws| ==> IsWord(ws[i])
    ensures Join(ws) != "" && !IsSpace(Join(ws)[0]) && Join(ws)[0] == ws[0][0]
    ensures !IsSpace(Join(ws)[|Join(ws)| - 1])
  {
    if |ws| > 1 {
      var rest := Join(ws[1..]);
      JoinEnds(ws[1..]);
      assert Join(ws) == ws[0] + (" " + rest);
      assert Join(ws)[|Join(ws)| - 1] == rest[|rest| - 1];
    }
  }

  lemma FieldsOfWordSpace(w: string, s: string)
    requires IsWord(w)
    ensures Fields(w + " " + s) == [w] + Fields(s)
  {
    var tail := " " + s;
    assert w + " " + s == w + tail;
    FieldsOfWordThen(w, tail);
    assert tail[1..] == s && IsSpace(tail[0]);
  }

  /** Splitting inverts joining. */
  lemma {:induction false} FieldsOfJoin(ws: seq<string>)
    requires forall i :: 0 <= i < |ws| ==> IsWord(ws[i])
    ensures Fields(Join(ws)) == ws
  {
    if |ws| == 1 {
      FieldsOfWordThen(ws[0], "");
      assert ws[0] + "" == ws[0];
    } else if |ws| > 1 {
      FieldsOfJoin(ws[1..]);
      FieldsOfWordSpace(ws[0], Join(ws[1..]));
    }
  }

  lemma TrimOfJoin(ws: seq<string>)
    requires forall i :: 0 <= i < |ws| ==> IsWord(ws[i])
    ensures TrimSpace(Join(ws)) == Join(ws)
  {
    if ws != [] {
      JoinEnds(ws);
      assert !IsSpace(ws[0][0]);
    }
    TrimSpaceNoOp(Join(ws));
  }

  // ---- Exactly which texts are read, and how ----

  function Zeros(n: nat): (s: string)
    ensures |s| == n && forall i :: 0 <= i < n ==> s[i] == '0'
  {
    seq(n, i => '0')
  }

  /** An optional sign, leading zeros, and the number's digits. */
  ghost predicate Spells(s: string, n: int) {
    exists sign: string, z: nat :: SpelledWith(s, n, sign, z)
  }

  predicate SpelledWith(s: string, n: int, sign: string, z: nat) {
    && s == sign + (Zeros(z) + Digits(if n < 0 then -n else n))
    && (sign == "-" || sign == "+" || sign == "") && (n < 0 ==> sign == "-") && (n > 0 ==> sign != "-")
  }

  lemma {:induction false} ValueOfPadded(z: nat, s: string)
    requires AllDigits(s)
    ensures AllDigits(Zeros(z) + s) && DigitsValue(Zeros(z) + s) == DigitsValue(s)
  {
    var t := Zeros(z) + s;
    assert AllDigits(t);
    if t != "" {
      if s == "" {
        assert t == Zeros(z) && t[..z - 1] == Zeros(z - 1) + "";
        ValueOfPadded(z - 1, "");
      } else {
        assert t[..|t| - 1] == Zeros(z) + s[..|s| - 1];
        ValueOfPadded(z, s[..|s| - 1]);
      }
    }
  }

  lemma {:induction false} PaddedDigits(s: string) returns (z: nat)
    requires s != "" && AllDigits(s)
    ensures s == Zeros(z) + Digits(DigitsValue(s))
  {
    var p, d := s[..|s| - 1], s[|s| - 1];
    LastDigit(s);
    if p == "" {
      z := 0;
      assert Zeros(0) + [d] == s;
    } else {
      var y := PaddedDigits(p);
      hide DigitsValue, Digits;
      if DigitsValue(p) == 0 {
        z := y + 1;
        ZerosAndDigit(p, y, d);
      } else {
        z := y;
        assert Zeros(y) + (Digits(DigitsValue(p)) + [d]) == p + [d] == s;
      }
    }
  }

  /** How the last digit enters a number and its text. */
  lemma LastDigit(s: string)
    requires s != "" && AllDigits(s)
    ensures var v := DigitsValue(s[..|s| - 1]);
            Digits(DigitsValue(s)) == (if v == 0 then [] else Digits(v)) + [s[|s| - 1]]
  {
    var v, d := DigitsValue(s[..|s| - 1]), s[|s| - 1] as int - '0' as int;
    assert DigitsValue(s) == 10 * v + d;
    hide DigitsValue, Digits;
    DigitsOfSum(v, d);
  }

  lemma DigitsOfSum(v: nat, d: nat)
    requires d < 10
    ensures Digits(10 * v + d) == (if v == 0 then [] else Digits(v)) + [DigitChar(d)]
  {
    if v > 0 {
      assert (10 * v + d) / 10 == v && (10 * v + d) % 10 == d;
    }
  }

  lemma ZerosAndDigit(p: string, y: nat, d: char)
    requires p == Zeros(y) + Digits(0)
    ensures p + [d] == Zeros(y + 1) + [d]
  {
    assert Digits(0) == "0";
    assert Zeros(y) + "0" == Zeros(y + 1);
  }

  lemma AtoiOfBody(s: string, n: int)
    requires MIN_INT64 <= n <= MAX_INT64 && s != "" && Unsigned(s) != "" && AllDigits(Unsigned(s))
    requires n == if s[0] == '-' then -DigitsValue(Unsigned(s)) else DigitsValue(Unsigned(s))
    ensures Atoi(s) == Some(n)
  {
    hide DigitsValue, AllDigits, Unsigned;
  }

  lemma UnsignedOf(sign: string, body: string)
    requires (sign == "-" || sign == "+" || sign == "") && body != "" && AllDigits(body)
    ensures sign + body != "" && Unsigned(sign + body) == body && ((sign + body)[0] == '-' <==> sign == "-")
  {
    assert '0' <= body[0] <= '9';
    if sign == "" {
      assert sign + body == body;
    } else {
      assert (sign + body)[1..] == body;
    }
  }

  lemma SpelledIsRead(s: string, n: int, sign: string, z: nat)
    requires MIN_INT64 <= n <= MAX_INT64 && SpelledWith(s, n, sign, z)
    ensures Atoi(s) == Some(n)
  {
    hide Digits, DigitsValue, Zeros, AllDigits, Unsigned, Atoi;
    var m := if n < 0 then -n else n;
    ValueOfPadded(z, Digits(m));
    DigitsValueOfDigits(m);
    UnsignedOf(sign, Zeros(z) + Digits(m));
    AtoiOfBody(s, n);
  }

  lemma ReadBody(s: string, n: int)
    requires Atoi(s) == Some(n)
    ensures s != "" && Unsigned(s) != "" && AllDigits(Unsigned(s))
    ensures n == if s[0] == '-' then -DigitsValue(Unsigned(s)) else DigitsValue(Unsigned(s))
  {
    hide DigitsValue, AllDigits;
  }

  lemma SignOf(s: string) returns (sign: string)
    requires s != ""
    ensures s == sign + Unsigned(s) && (sign == "-" || sign == "+" || sign == "") && (sign == "-" <==> s[0] == '-')
  {
    if s[0] == '-' || s[0] == '+' {
      sign := [s[0]];
      assert s == [s[0]] + s[1..];
    } else {
      sign := "";
      assert s == "" + s;
    }
  }

  lemma ReadIsSpelled(s: string, n: int)
    requires Atoi(s) == Some(n)
    ensures Spells(s, n)
  {
    hide Digits, DigitsValue, Zeros, AllDigits, Unsigned, Atoi;
    ReadBody(s, n);
    var z := PaddedDigits(Unsigned(s));
    var sign := SignOf(s);
    assert SpelledWith(s, n, sign, z);
  }

  /** Exactly the spellings of 64-bit integers are read as integers. */
  lemma AtoiReads(s: string, n: int)
    ensures Atoi(s) == Some(n) <==> MIN_INT64 <= n <= MAX_INT64 && Spells(s, n)
  {
    hide SpelledWith;
    if MIN_INT64 <= n <= MAX_INT64 && Spells(s, n) {
      var sign: string, z: nat :| SpelledWith(s, n, sign, z);
      SpelledIsRead(s, n, sign, z);
    }
    hide Spells;
    if Atoi(s) == Some(n) {
      ReadIsSpelled(s, n);
    }
  }

  predicate Blank(s: string) {
    forall i :: 0 <= i < |s| ==> IsSpace(s[i])
  }

  lemma {:induction false} TrimLeftSkips(a: string, s: string)
    requires Blank(a)
    ensures TrimLeft(a + s) == TrimLeft(s)
  {
    hide IsSpace;
    if a == "" {
      assert a + s == s;
    } else {
      assert (a + s)[0] == a[0] && (a + s)[1..] == a[1..] + s;
      TrimLeftSkips(a[1..], s);
    }
  }

  lemma {:induction false} TrimRightSkips(s: string, b: string)
    requires Blank(b)
    ensures TrimRight(s + b) == TrimRight(s)
  {
    hide IsSpace;
    if b == "" {
      assert s + b == s;
    } else {
      var n := |s + b| - 1;
      assert (s + b)[n] == b[|b| - 1] && (s + b)[..n] == s + b[..|b| - 1];
      TrimRightSkips(s, b[..|b| - 1]);
    }
  }

  /** Trimming removes the spaces at both ends, and nothing else. */
  lemma TrimSpaceStrips(a: string, t: string, b: string)
    requires Blank(a) && Blank(b) && t != "" && !IsSpace(t[0]) && !IsSpace(t[|t| - 1])
    ensures TrimSpace(a + (t + b)) == t
  {
    hide IsSpace;
    TrimLeftSkips(a, t + b);
    assert (t + b)[0] == t[0];
    TrimRightSkips(t, b);
  }

  /** Fields are separated by any run of spaces. */
  lemma {:induction false} FieldsSkip(a: string, s: string)
    requires Blank(a)
    ensures Fields(a + s) == Fields(s)
  {
    hide IsSpace;
    if a == "" {
      assert a + s == s;
    } else {
      assert (a + s)[0] == a[0] && (a + s)[1..] == a[1..] + s;
      FieldsSkip(a[1..], s);
    }
  }

  /** Lines end at newlines. */
  lemma {:induction false} SplitAtNewline(a: string, b: string)
    requires '\n' !in a
    ensures SplitLines(a) == [a]
    ensures SplitLines(a + ("\n" + b)) == [a] + SplitLines(b)
  {
    var s := a + ("\n" + b);
    if a == "" {
      assert s[1..] == b;
    } else {
      SplitAtNewline(a[1..], b);
      assert s[0] == a[0] && s[1..] == a[1..] + ("\n" + b);
      assert [a[0]] + a[1..] == a;
    }
  }
}
