/**
 The Content-Range header of a resumable upload (section 14.4 of RFC 9110): the grammar
 the handler accepts, its parser, and numbers as 64-bit integers hold them.
 */
module ContentRange {
  import opened Common

  const MAX_INT64: int := 0x7FFF_FFFF_FFFF_FFFF

  /** The 64-bit value two's complement leaves of x. */
  function Wrap(x: int): (r: int)
    ensures -MAX_INT64 - 1 <= r <= MAX_INT64 && (x - r) % 0x1_0000_0000_0000_0000 == 0
    ensures -MAX_INT64 - 1 <= x <= MAX_INT64 ==> r == x
  {
    (x + MAX_INT64 + 1) % 0x1_0000_0000_0000_0000 - MAX_INT64 - 1
  }

  // ----- characters and digits -----

  /** unicode.IsSpace */
  predicate IsSpace(c: char) {
    || '\t' <= c <= '\r' || c == ' ' || c == '\U{0085}' || c == '\U{00A0}' || c == '\U{1680}'
    || '\U{2000}' <= c <= '\U{200a}' || c == '\U{2028}' || c == '\U{2029}' || c == '\U{202f}' || c == '\U{205f}' || c == '\U{3000}'
  }

  function TrimLeft(s: string): string {
    if s != [] && IsSpace(s[0]) then TrimLeft(s[1..]) else s
  }

  function TrimRight(s: string): string {
    if s != [] && IsSpace(s[|s| - 1]) then TrimRight(s[..|s| - 1]) else s
  }

  /** strings.TrimSpace */
  function TrimSpace(s: string): string {
    TrimRight(TrimLeft(s))
  }

  ghost predicate AllSpace(s: string) {
    forall i :: 0 <= i < |s| ==> IsSpace(s[i])
  }

  lemma {:induction false} TrimmedLeft(s: string) returns (spaces: string)
    ensures s == spaces + TrimLeft(s) && AllSpace(spaces)
    ensures TrimLeft(s) == [] || !IsSpace(TrimLeft(s)[0])
  {
    spaces := [];
    if s != [] && IsSpace(s[0]) {
      spaces := TrimmedLeft(s[1..]);
      spaces := [s[0]] + spaces;
    }
  }

  lemma {:induction false} TrimmedRight(s: string) returns (spaces: string)
    ensures s == TrimRight(s) + spaces && AllSpace(spaces)
    ensures TrimRight(s) == [] || !IsSpace(TrimRight(s)[|TrimRight(s)| - 1])
    decreases |s|
  {
    spaces := [];
    if s != [] && IsSpace(s[|s| - 1]) {
      spaces := TrimmedRight(s[..|s| - 1]);
      spaces := spaces + [s[|s| - 1]];
    }
  }

  /** Trimming takes the white space at both ends, and all of it. */
  lemma TrimmedExactly(s: string) returns (before: string, after: string)
    ensures s == before + TrimSpace(s) + after && AllSpace(before) && AllSpace(after)
    ensures var t := TrimSpace(s); t != [] ==> !IsSpace(t[0]) && !IsSpace(t[|t| - 1])
  {
    before := TrimmedLeft(s);
    after := TrimmedRight(TrimLeft(s));
    var t := TrimSpace(s);
    assert t != [] ==> t[0] == TrimLeft(s)[0];
  }

  /** And so what stands between white space is found. */
  lemma SpaceAround(before: string, t: string, after: string)
    requires AllSpace(before) && AllSpace(after) && t != [] && !IsSpace(t[0]) && !IsSpace(t[|t| - 1])
    ensures TrimSpace(before + t + after) == t
  {
    SpaceBefore(before, t + after);
    assert before + t + after == before + (t + after);
    SpaceAfter(t, after);
  }

  lemma {:induction false} SpaceBefore(before: string, t: string)
    requires AllSpace(before) && t != [] && !IsSpace(t[0])
    ensures TrimLeft(before + t) == t
  {
    if before == [] {
      assert before + t == t;
    } else {
      assert (before + t)[1..] == before[1..] + t;
      SpaceBefore(before[1..], t);
    }
  }

  lemma {:induction false} SpaceAfter(t: string, after: string)
    requires AllSpace(after) && t != [] && !IsSpace(t[|t| - 1])
    ensures TrimRight(t + after) == t
    decreases |after|
  {
    if after == [] {
      assert t + after == t;
    } else {
      assert (t + after)[..|t + after| - 1] == t + after[..|after| - 1];
      SpaceAfter(t, after[..|after| - 1]);
    }
  }

  predicate IsDigit(c: char) {
    '0' <= c <= '9'
  }

  predicate Digits(s: string) {
    s != [] && forall i :: 0 <= i < |s| ==> IsDigit(s[i])
  }

  function Value(s: string): (n: int)
    requires forall i :: 0 <= i < |s| ==> IsDigit(s[i])
    ensures n >= 0
  {
    if s == [] then 0
    else
      var last := s[|s| - 1];
      assert IsDigit(last);
      10 * Value(s[..|s| - 1]) + (last as int - '0' as int)
  }

  /** strconv.ParseInt with its error dropped: a number too large reads as the largest. */
  function ParseInt(s: string): (n: int)
    requires Digits(s)
    ensures 0 <= n <= MAX_INT64
  {
    Min(Value(s), MAX_INT64)
  }

  function Decimal(n: nat): (s: string)
    ensures Digits(s)
  {
    var d := ('0' as int + n % 10) as char;
    if n < 10 then [d] else Decimal(n / 10) + [d]
  }

  lemma {:induction false} DecimalReadsBack(n: nat)
    ensures Value(Decimal(n)) == n
  {
    if n >= 10 {
      DecimalReadsBack(n / 10);
    } else {
      assert Decimal(n)[..0] == [];
    }
  }

  // ----- the header -----

  datatype Range = Range(start: int, end: int, total: Option<int>)

  /** The longest prefix of digits. */
  function DigitPrefix(s: string): (n: nat)
    ensures n <= |s|
    ensures forall i :: 0 <= i < n ==> IsDigit(s[i])
    ensures n < |s| ==> !IsDigit(s[n])
  {
    if s != [] && IsDigit(s[0]) then
      var n := DigitPrefix(s[1..]);
      assert forall i :: 1 <= i < 1 + n ==> s[i] == s[1..][i - 1];
      1 + n
    else 0
  }

  /** Digits up to the next stop character, and what follows it. */
  function Number(s: string, stop: char): Option<(string, string)> {
    var n := DigitPrefix(s);
    if n == 0 || n == |s| || s[n] != stop then None else Some((s[..n], s[n + 1..]))
  }

  lemma NumberFinds(a: string, stop: char, rest: string)
    requires Digits(a) && !IsDigit(stop)
    ensures Number(a + ([stop] + rest), stop) == Some((a, rest))
  {
    var s := a + ([stop] + rest);
    var n := DigitPrefix(s);
    assert s[|a|] == stop;
    assert forall i :: 0 <= i < |a| ==> s[i] == a[i];
    assert n == |a|;
    assert s[..n] == a && s[n + 1..] == rest;
  }

  lemma NumberFound(s: string, stop: char)
    requires Number(s, stop).Some?
    ensures var (a, rest) := Number(s, stop).value; Digits(a) && s == a + ([stop] + rest)
  {
  }

  const UNIT := "bytes "

  /** parseContentRange: ^bytes (\d+)-(\d+)/(\d+|\*)$ on the trimmed header. */
  function Parse(header: string): Option<Range> {
    var v := TrimSpace(header);
    if !(UNIT <= v) then None
    else
      var first := Number(v[|UNIT|..], '-');
      if first.None? then None
      else
        var second := Number(first.value.1, '/');
        if second.None? then None
        else
          var c := second.value.1;
          if c == "*" || Digits(c) then Some(Meaning(first.value.0, second.value.0, c)) else None
  }

  /** The header line for the parts of a match. */
  function Line(a: string, b: string, c: string): string {
    UNIT + (a + (['-'] + (b + (['/'] + c))))
  }

  /** The regular expression's language, and what each match stands for. */
  ghost predicate Matches(v: string, a: string, b: string, c: string) {
    Digits(a) && Digits(b) && (c == "*" || Digits(c)) && v == Line(a, b, c)
  }

  function Meaning(a: string, b: string, c: string): Range
    requires Digits(a) && Digits(b) && (c == "*" || Digits(c))
  {
    Range(ParseInt(a), ParseInt(b), if c == "*" then None else Some(ParseInt(c)))
  }

  /** A match is found, whatever its parts. */
  lemma MatchIsParsed(header: string, a: string, b: string, c: string)
    requires Matches(TrimSpace(header), a, b, c)
    ensures Parse(header) == Some(Meaning(a, b, c))
  {
    assert TrimSpace(header)[|UNIT|..] == a + (['-'] + (b + (['/'] + c)));
    NumberFinds(a, '-', b + (['/'] + c));
    NumberFinds(b, '/', c);
  }

  /** What is parsed is a match. */
  lemma ParsedIsAMatch(header: string)
    requires Parse(header).Some?
    ensures exists a, b, c :: Matches(TrimSpace(header), a, b, c)
  {
    var v := TrimSpace(header);
    var s := v[|UNIT|..];
    NumberFound(s, '-');
    var (a, t) := Number(s, '-').value;
    NumberFound(t, '/');
    var (b, c) := Number(t, '/').value;
    assert v == UNIT + s;
    assert Matches(v, a, b, c);
  }

  /** The parser accepts exactly the headers whose trimmed text is in the language, and reads each as its parts say. */
  lemma ParseIsTheGrammar(header: string)
    ensures Parse(header).Some? <==> exists a, b, c :: Matches(TrimSpace(header), a, b, c)
    ensures forall a, b, c :: Matches(TrimSpace(header), a, b, c) ==>
              Parse(header) == Some(Range(Min(Value(a), MAX_INT64), Min(Value(b), MAX_INT64),
                                          if c == "*" then None else Some(Min(Value(c), MAX_INT64))))
  {
    if Parse(header).Some? {
      ParsedIsAMatch(header);
    }
    forall a, b, c | Matches(TrimSpace(header), a, b, c)
      ensures Parse(header) == Some(Meaning(a, b, c))
    {
      MatchIsParsed(header, a, b, c);
    }
  }

  lemma NumbersOfTheRfc()
    ensures Value("42") == 42 && Value("1233") == 1233 && Value("1234") == 1234
  {
    assert "42"[..1] == "4" && "12"[..1] == "1" && "123"[..2] == "12" && "1233"[..3] == "123" && "1234"[..3] == "123";
    assert Value("4") == 4 && Value("1") == 1;
    assert Value("42") == 42 && Value("12") == 12 && Value("123") == 123;
    assert Value("1233") == 1233 && Value("1234") == 1234;
  }

  /** The example of section 14.4, and one of unknown length. */
  lemma HeadersOfTheRfc()
    ensures Parse("bytes 42-1233/1234") == Some(Range(42, 1233, Some(1234)))
    ensures Parse("bytes 42-1233/*") == Some(Range(42, 1233, None))
    ensures Parse("\t " + "bytes 42-1233/*" + " \r\n") == Some(Range(42, 1233, None))
  {
    NumbersOfTheRfc();
    SpaceAround("\t ", "bytes 42-1233/*", " \r\n");
    hide Value, TrimSpace;
    NoSpaceAround("bytes 42-1233/1234");
    NoSpaceAround("bytes 42-1233/*");
    assert "bytes 42-1233/1234" == Line("42", "1233", "1234");
    assert "bytes 42-1233/*" == Line("42", "1233", "*");
    MatchIsParsed("bytes 42-1233/1234", "42", "1233", "1234");
    MatchIsParsed("bytes 42-1233/*", "42", "1233", "*");
    MatchIsParsed("\t " + "bytes 42-1233/*" + " \r\n", "42", "1233", "*");
  }

  lemma NoSpaceAround(s: string)
    requires s != [] && !IsSpace(s[0]) && !IsSpace(s[|s| - 1])
    ensures TrimSpace(s) == s
  {
  }

  function Format(r: Range): string
    requires r.start >= 0 && r.end >= 0 && (r.total.Some? ==> r.total.value >= 0)
  {
    Line(Decimal(r.start), Decimal(r.end), if r.total.Some? then Decimal(r.total.value) else "*")
  }

  /** A range of 64-bit numbers survives being written and read. */
  lemma RoundTrip(r: Range)
    requires 0 <= r.start <= MAX_INT64 && 0 <= r.end <= MAX_INT64
    requires r.total.Some? ==> 0 <= r.total.value <= MAX_INT64
    ensures Parse(Format(r)) == Some(r)
  {
    var a, b := Decimal(r.start), Decimal(r.end);
    var c := if r.total.Some? then Decimal(r.total.value) else "*";
    var v := Format(r);
    assert v[|v| - 1] == c[|c| - 1] && v[0] == 'b';
    assert TrimSpace(v) == v;
    assert Matches(v, a, b, c);
    MatchIsParsed(v, a, b, c);
    DecimalReadsBack(r.start);
    DecimalReadsBack(r.end);
    if r.total.Some? {
      DecimalReadsBack(r.total.value);
      assert IsDigit(c[0]);
    }
  }
}
