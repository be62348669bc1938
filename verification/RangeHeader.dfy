/** Byte ranges in request and response headers: `ParseContentRangeHeader` and the printed Content-Range. */
module RangeHeader {
  import opened Base

  const MAX_INT64: nat := 0x7FFF_FFFF_FFFF_FFFF

  /** Two's complement of a sum that is at most one past the largest value. */
  function Wrap(n: nat): (w: int)
    requires n <= MAX_INT64 + 1
    ensures w == if n < 0x8000_0000_0000_0000 then n else n - 0x1_0000_0000_0000_0000
  {
    if n == MAX_INT64 + 1 then -(MAX_INT64 + 1) else n
  }

  // ---------------------------------------------------------------------
  // Characters
  // ---------------------------------------------------------------------

  predicate IsDigit(c: char) {
    '0' <= c <= '9'
  }

  /** `\s` in the regular expression. */
  predicate IsBlank(c: char) {
    c == ' ' || c == '\t' || c == '\n' || c == '\r' || c == '\U{0C}'
  }

  /** What strings.TrimSpace strips. */
  predicate IsSpace(c: char) {
    || IsBlank(c) || c == '\U{0B}' || c == '\U{85}' || c == '\U{A0}' || c == '\U{1680}' || '\U{2000}' <= c <= '\U{200A}'
    || c == '\U{2028}' || c == '\U{2029}' || c == '\U{202F}' || c == '\U{205F}' || c == '\U{3000}'
  }

  predicate All(s: string, p: char -> bool) {
    forall i :: 0 <= i < |s| ==> p(s[i])
  }

  /** The number of leading characters that satisfy p. */
  function Span(s: string, p: char -> bool): (n: nat)
    ensures n <= |s| && All(s[..n], p) && (n < |s| ==> !p(s[n]))
  {
    if s == [] || !p(s[0]) then 0
    else
      var n := 1 + Span(s[1..], p);
      assert forall i :: 0 < i < n ==> s[..n][i] == s[1..][..n - 1][i - 1];
      n
  }

  lemma {:induction false} SpanIs(a: string, rest: string, p: char -> bool)
    requires All(a, p) && (rest == [] || !p(rest[0]))
    ensures Span(a + rest, p) == |a|
  {
    if a == [] {
      assert a + rest == rest;
    } else {
      assert (a + rest)[1..] == a[1..] + rest;
      SpanIs(a[1..], rest, p);
    }
  }

  function TrimRight(s: string): string {
    if s != [] && IsSpace(s[|s| - 1]) then TrimRight(s[..|s| - 1]) else s
  }

  /** strings.TrimSpace */
  function Trim(s: string): string {
    TrimRight(s[Span(s, IsSpace)..])
  }

  predicate Trimmed(s: string) {
    s != [] ==> !IsSpace(s[0]) && !IsSpace(s[|s| - 1])
  }

  lemma AllSnoc(s: string, c: char, p: char -> bool)
    requires All(s, p) && p(c)
    ensures All(s + [c], p)
  {
  }

  lemma {:induction false} TrimRightSplits(s: string)
    ensures |TrimRight(s)| <= |s| && TrimRight(s) == s[..|TrimRight(s)|] && All(s[|TrimRight(s)|..], IsSpace)
    ensures TrimRight(s) != [] ==> !IsSpace(TrimRight(s)[|TrimRight(s)| - 1])
  {
    if s != [] && IsSpace(s[|s| - 1]) {
      var r, n := s[..|s| - 1], |TrimRight(s)|;
      TrimRightSplits(r);
      AllSnoc(r[n..], s[|s| - 1], IsSpace);
      assert s[n..] == r[n..] + [s[|s| - 1]];
    }
  }

  /** What starts without white space is trimmed once its end is. */
  lemma FrontStays(s: string)
    requires s != [] ==> !IsSpace(s[0])
    ensures Trimmed(TrimRight(s))
  {
    TrimRightSplits(s);
  }

  lemma FrontCut(s: string)
    ensures var rest := s[Span(s, IsSpace)..];
            s == s[..Span(s, IsSpace)] + rest && (rest != [] ==> !IsSpace(rest[0]))
  {
  }

  /** Trimming takes white space off both ends, and leaves none there. */
  lemma TrimSplits(s: string) returns (before: string, after: string)
    ensures s == before + Trim(s) + after && All(before, IsSpace) && All(after, IsSpace) && Trimmed(Trim(s))
  {
    var n := Span(s, IsSpace);
    var rest := s[n..];
    FrontCut(s);
    FrontStays(rest);
    TrimRightSplits(rest);
    before, after := s[..n], rest[|TrimRight(rest)|..];
    CutAt(rest, |TrimRight(rest)|);
    AppendAssociates(before, TrimRight(rest), after);
  }

  lemma TrimKeeps(s: string)
    requires Trimmed(s)
    ensures Trim(s) == s
  {
    assert Span(s, IsSpace) == 0;
    assert s[0..] == s;
  }

  // ---------------------------------------------------------------------
  // Decimal numbers
  // ---------------------------------------------------------------------

  predicate Digits(s: string) {
    s != [] && All(s, IsDigit)
  }

  function Value(s: string): nat
    requires All(s, IsDigit)
  {
    if s == [] then 0 else 10 * Value(s[..|s| - 1]) + (s[|s| - 1] - '0') as nat
  }

  /** strconv.ParseInt(s, 10, 64) on a string of digits */
  function ParseInt(s: string): (n: Option<nat>)
    requires All(s, IsDigit)
    ensures n == if Value(s) < 0x8000_0000_0000_0000 then Some(Value(s)) else None
  {
    if Value(s) <= MAX_INT64 then Some(Value(s)) else None
  }

  function DigitChar(d: nat): char
    requires d < 10
  {
    '0' + d as char
  }

  /** %d */
  function Print(n: nat): string {
    if n < 10 then [DigitChar(n)] else Print(n / 10) + [DigitChar(n % 10)]
  }

  lemma {:induction false} PrintParses(n: nat)
    ensures Digits(Print(n)) && Value(Print(n)) == n && (n > 0 ==> Print(n)[0] != '0') && |Print(0)| == 1
  {
    if n < 10 {
      assert Print(n)[..0] == [];
      assert Value(Print(n)) == 10 * Value([]) + n;
    } else {
      PrintParses(n / 10);
      var s := Print(n);
      assert s[..|s| - 1] == Print(n / 10);
      assert IsDigit(DigitChar(n % 10));
    }
  }

  function PowerOfTen(n: nat): nat {
    if n == 0 then 1 else 10 * PowerOfTen(n - 1)
  }

  /** A digit is its place in this list. */
  lemma DigitIs(c: char)
    requires IsDigit(c)
    ensures Value([c]) < 10 && "0123456789"[Value([c])] == c
  {
    assert [c][..0] == [];
    assert Value([c]) == (c - '0') as nat;
  }

  lemma Shift(a: nat, p: nat, b: nat, d: nat)
    ensures 10 * (a * p + b) + d == a * (10 * p) + (10 * b + d)
  {
  }

  /** Numbers are decimal: what stands before n digits counts 10^n times. */
  lemma {:induction false} Decimal(a: string, b: string)
    requires All(a, IsDigit) && All(b, IsDigit)
    ensures All(a + b, IsDigit) && Value(a + b) == Value(a) * PowerOfTen(|b|) + Value(b)
  {
    if b == [] {
      assert a + b == a;
    } else {
      var rest := b[..|b| - 1];
      Decimal(a, rest);
      assert (a + b)[..|a + b| - 1] == a + rest;
      Shift(Value(a), PowerOfTen(|rest|), Value(rest), (b[|b| - 1] - '0') as nat);
    }
  }

  // ---------------------------------------------------------------------
  // The header
  // ---------------------------------------------------------------------

  /** What the regular expression captures. The tail is empty, or a slash and the total. */
  datatype Fields = Fields(first: string, last: string, tail: string)

  predicate Separator(s: string) {
    s == "=" || (s != [] && All(s, IsBlank))
  }

  predicate TailOk(s: string) {
    s == [] || (s[0] == '/' && (s[1..] == "*" || Digits(s[1..])))
  }

  /** The language of the regular expression. */
  predicate Matches(s: string, separator: string, f: Fields) {
    && Separator(separator) && Digits(f.first) && Digits(f.last) && TailOk(f.tail)
    && s == "bytes" + separator + f.first + "-" + f.last + f.tail
  }

  function SplitNumbers(s: string): Option<Fields> {
    var a := Span(s, IsDigit);
    if a == 0 || a == |s| || s[a] != '-' then None
    else
      var rest := s[a + 1..];
      var b := Span(rest, IsDigit);
      if b == 0 || !TailOk(rest[b..]) then None else Some(Fields(s[..a], rest[..b], rest[b..]))
  }

  function SplitSeparator(s: string): Option<Fields> {
    if s != [] && s[0] == '=' then SplitNumbers(s[1..])
    else
      var n := Span(s, IsBlank);
      if n == 0 then None else SplitNumbers(s[n..])
  }

  /** FindStringSubmatch */
  function Split(s: string): Option<Fields> {
    if "bytes" <= s then SplitSeparator(s[|"bytes"|..]) else None
  }

  lemma CutAround(a: string, c: char, b: string)
    ensures (a + [c] + b)[..|a|] == a && (a + [c] + b)[|a|] == c && (a + [c] + b)[|a| + 1..] == b
    ensures a + [c] + b == a + ([c] + b)
  {
  }

  lemma CutAt(s: string, n: nat)
    requires n <= |s|
    ensures s == s[..n] + s[n..]
    ensures n < |s| ==> s == s[..n] + [s[n]] + s[n + 1..]
  {
  }

  lemma SplitNumbersComplete(f: Fields)
    requires Digits(f.first) && Digits(f.last) && TailOk(f.tail)
    ensures SplitNumbers(f.first + "-" + f.last + f.tail) == Some(f)
  {
    var rest := f.last + f.tail;
    AppendAssociates(f.first + "-", f.last, f.tail);
    CutAround(f.first, '-', rest);
    SpanIs(f.first, "-" + rest, IsDigit);
    SpanIs(f.last, f.tail, IsDigit);
    CutPrefix(f.last, f.tail);
  }

  lemma SplitNumbersSound(s: string)
    requires SplitNumbers(s).Some?
    ensures var f := SplitNumbers(s).value;
            Digits(f.first) && Digits(f.last) && TailOk(f.tail) && s == f.first + "-" + f.last + f.tail
  {
    var a := Span(s, IsDigit);
    var rest := s[a + 1..];
    var b := Span(rest, IsDigit);
    CutAt(s, a);
    CutAt(rest, b);
    AppendAssociates(s[..a] + "-", rest[..b], rest[b..]);
  }

  lemma SplitSeparatorComplete(separator: string, numbers: string)
    requires Separator(separator) && numbers != [] && IsDigit(numbers[0])
    ensures SplitSeparator(separator + numbers) == SplitNumbers(numbers)
  {
    var s := separator + numbers;
    assert s[0] == separator[0] && s[|separator|..] == numbers;
    if separator != "=" {
      SpanIs(separator, numbers, IsBlank);
    }
  }

  lemma SplitSeparatorSound(s: string) returns (separator: string)
    requires SplitSeparator(s).Some?
    ensures Separator(separator) && |separator| <= |s| && s == separator + s[|separator|..]
    ensures SplitSeparator(s) == SplitNumbers(s[|separator|..])
  {
    if s[0] == '=' {
      separator := "=";
    } else {
      separator := s[..Span(s, IsBlank)];
    }
  }

  function Numbers(f: Fields): string {
    f.first + "-" + f.last + f.tail
  }

  lemma MatchIs(separator: string, f: Fields)
    ensures "bytes" + separator + f.first + "-" + f.last + f.tail == "bytes" + (separator + Numbers(f))
  {
    AppendAssociates("bytes", separator, f.first);
    AppendAssociates("bytes", separator + f.first, "-");
    AppendAssociates("bytes", separator + f.first + "-", f.last);
    AppendAssociates("bytes", separator + f.first + "-" + f.last, f.tail);
    AppendAssociates(separator, f.first, "-");
    AppendAssociates(separator, f.first + "-", f.last);
    AppendAssociates(separator, f.first + "-" + f.last, f.tail);
  }

  lemma CutPrefix(prefix: string, rest: string)
    ensures prefix <= prefix + rest && (prefix + rest)[|prefix|..] == rest
  {
  }

  /** Whatever matches is split into what it was made of... */
  lemma SplitComplete(s: string, separator: string, f: Fields)
    requires Matches(s, separator, f)
    ensures Split(s) == Some(f)
  {
    MatchIs(separator, f);
    CutPrefix("bytes", separator + Numbers(f));
    SplitSeparatorComplete(separator, Numbers(f));
    SplitNumbersComplete(f);
  }

  /** ... and nothing else is. */
  lemma SplitSound(s: string) returns (separator: string)
    requires Split(s).Some?
    ensures Matches(s, separator, Split(s).value)
  {
    var rest := s[|"bytes"|..];
    separator := SplitSeparatorSound(rest);
    SplitNumbersSound(rest[|separator|..]);
    MatchIs(separator, Split(s).value);
    assert s == "bytes" + rest;
  }

  datatype Range = Range(start: int, end: int, total: int)

  function Total(tail: string): Option<int>
    requires TailOk(tail)
  {
    if tail == [] || tail[1..] == "*" then Some(-1)
    else
      match ParseInt(tail[1..])
      case Some(n) => Some(n as int)
      case None => None
  }

  function ReadFields(f: Fields): Option<Range>
    requires Digits(f.first) && Digits(f.last) && TailOk(f.tail)
  {
    var start, last, total := ParseInt(f.first), ParseInt(f.last), Total(f.tail);
    if start.None? || last.None? || total.None? then None
    else Some(Range(start.value, Wrap(last.value + 1), total.value))
  }

  /** `ParseContentRangeHeader` */
  function Parse(header: string): Option<Range> {
    var s := Trim(header);
    if Split(s).None? then None
    else
      assert Digits(Split(s).value.first) && Digits(Split(s).value.last) && TailOk(Split(s).value.tail) by {
        var separator := SplitSound(s);
      }
      ReadFields(Split(s).value)
  }

  /** The check that GetObject makes on a parsed range. */
  predicate InBounds(r: Range, size: nat) {
    !(r.start < 0 || r.start >= r.end || r.end > size)
  }

  /** The range that GetObject accepts from a header, if any. */
  function Accepted(header: string, size: nat): Option<Range> {
    if Parse(header).Some? && InBounds(Parse(header).value, size) then Parse(header) else None
  }

  /** fmt.Sprintf("bytes %d-%d/%d", start, end-1, size) */
  function ContentRange(start: nat, end: nat, size: nat): string
    requires end > 0
  {
    Header(Print(start), Print(end - 1), Print(size))
  }

  /** The header asks for bytes first to last. */
  ghost predicate AsksFor(header: string, first: nat, last: nat) {
    exists separator, f ::
      && Matches(Trim(header), separator, f)
      && Value(f.first) == first && Value(f.last) == last && Total(f.tail).Some?
  }

  lemma ParseOfMatch(header: string, separator: string, f: Fields)
    requires Matches(Trim(header), separator, f)
    ensures Parse(header) == ReadFields(f)
  {
    SplitComplete(Trim(header), separator, f);
  }

  lemma MatchOfParse(header: string) returns (separator: string, f: Fields)
    requires Parse(header).Some?
    ensures Matches(Trim(header), separator, f) && Parse(header) == ReadFields(f)
  {
    separator := SplitSound(Trim(header));
    f := Split(Trim(header)).value;
  }

  predicate Takes(header: string, size: nat, start: int, end: int) {
    && Accepted(header, size).Some?
    && Accepted(header, size).value.start == start && Accepted(header, size).value.end == end
  }

  lemma AcceptedAsksFor(header: string, size: nat, start: int, end: int)
    requires size < 0x8000_0000_0000_0000 && Takes(header, size, start, end)
    ensures 0 <= start < end <= size && AsksFor(header, start, end - 1)
  {
    var separator, f := MatchOfParse(header);
    assert Value(f.last) + 1 == end;
  }

  lemma AskedIsAccepted(header: string, size: nat, start: int, end: int)
    requires size < 0x8000_0000_0000_0000 && 0 <= start < end <= size && AsksFor(header, start, end - 1)
    ensures Takes(header, size, start, end)
  {
    var separator, f :|
      && Matches(Trim(header), separator, f)
      && Value(f.first) == start && Value(f.last) == end - 1 && Total(f.tail).Some?;
    ParseOfMatch(header, separator, f);
  }

  /** Exactly the well-formed headers with first <= last < size are accepted, as the half-open range
      [first, last + 1). So an accepted end is never 0, and never the result of wrapping around. */
  lemma AcceptedIff(header: string, size: nat, start: int, end: int)
    requires size < 0x8000_0000_0000_0000
    ensures Takes(header, size, start, end) <==> 0 <= start < end <= size && AsksFor(header, start, end - 1)
  {
    if Takes(header, size, start, end) {
      AcceptedAsksFor(header, size, start, end);
    } else if 0 <= start < end <= size && AsksFor(header, start, end - 1) {
      AskedIsAccepted(header, size, start, end);
    }
  }

  /** The header clients send for bytes first to last, with an equals sign or blanks behind the unit. */
  function Request(separator: string, first: nat, last: nat): string {
    "bytes" + separator + Print(first) + "-" + Print(last)
  }

  lemma SeparatorIs(separator: string)
    requires separator == "=" || (separator != "" && forall c :: c in separator ==> c in " \t\n\r\U{0C}")
    ensures Separator(separator)
  {
    if separator != "=" {
      forall i | 0 <= i < |separator|
        ensures IsBlank(separator[i])
      {
        assert separator[i] in separator;
      }
    }
  }

  lemma RequestMatches(separator: string, first: nat, last: nat)
    requires Separator(separator)
    ensures Matches(Trim(Request(separator, first, last)), separator, Fields(Print(first), Print(last), ""))
  {
    PrintParses(first);
    PrintParses(last);
    var s, b := Request(separator, first, last), Print(last);
    assert s[|s| - 1] == b[|b| - 1] && s[0] == 'b';
    TrimKeeps(s);
    assert s + "" == s;
  }

  lemma RequestParses(separator: string, first: nat, last: nat)
    requires Separator(separator)
    ensures Request(separator, first, last) != "" && Digits(Print(first)) && Digits(Print(last))
    ensures Parse(Request(separator, first, last)) == ReadFields(Fields(Print(first), Print(last), ""))
  {
    PrintParses(first);
    PrintParses(last);
    RequestMatches(separator, first, last);
    ParseOfMatch(Request(separator, first, last), separator, Fields(Print(first), Print(last), ""));
  }

  lemma FieldsAccepted(header: string, f: Fields, size: nat)
    requires Digits(f.first) && Digits(f.last) && f.tail == "" && Parse(header) == ReadFields(f)
    requires size < 0x8000_0000_0000_0000
    ensures var first, last := Value(f.first), Value(f.last);
            Accepted(header, size) == if first <= last < size then Some(Range(first, last + 1, -1)) else None
  {
    assert Total(f.tail) == Some(-1);
  }

  lemma PrintedAccepted(header: string, first: nat, last: nat, size: nat)
    requires Digits(Print(first)) && Digits(Print(last)) && size < 0x8000_0000_0000_0000
    requires Parse(header) == ReadFields(Fields(Print(first), Print(last), ""))
    ensures Accepted(header, size) == if first <= last < size then Some(Range(first, last + 1, -1)) else None
  {
    PrintParses(first);
    PrintParses(last);
    FieldsAccepted(header, Fields(Print(first), Print(last), ""), size);
  }

  /** Bytes first to last are accepted as the half-open range [first, last + 1), exactly if there are any and they are
      all within the object. */
  lemma RequestAccepted(separator: string, first: nat, last: nat, size: nat)
    requires separator == "=" || (separator != "" && forall c :: c in separator ==> c in " \t\n\r\U{0C}")
    requires size < 0x8000_0000_0000_0000
    ensures Request(separator, first, last) != ""
    ensures Accepted(Request(separator, first, last), size)
         == if first <= last < size then Some(Range(first, last + 1, -1)) else None
  {
    SeparatorIs(separator);
    RequestParses(separator, first, last);
    PrintedAccepted(Request(separator, first, last), first, last, size);
  }

  lemma EndsAreTrimmed(a: string, mid: string, b: string)
    requires a != [] && b != [] && !IsSpace(a[0]) && !IsSpace(b[|b| - 1])
    ensures Trimmed(a + mid + b)
  {
  }

  lemma TotalOf(size: string)
    requires Digits(size) && Value(size) < 0x8000_0000_0000_0000
    ensures TailOk("/" + size) && Total("/" + size) == Some(Value(size))
  {
    assert ("/" + size)[1..] == size;
    assert size[0] != '*';
  }

  /** fmt.Sprintf on numbers already printed. */
  function Header(first: string, last: string, size: string): string {
    "bytes" + " " + first + "-" + last + ("/" + size)
  }

  lemma HeaderIsTrimmed(first: string, last: string, size: string)
    requires Digits(size)
    ensures Trimmed(Header(first, last, size))
  {
    var tail, mid := "/" + size, " " + first + "-" + last;
    assert tail[|tail| - 1] == size[|size| - 1];
    AppendAssociates("bytes", " ", first);
    AppendAssociates("bytes", " " + first, "-");
    AppendAssociates("bytes", " " + first + "-", last);
    EndsAreTrimmed("bytes", mid, tail);
  }

  lemma HeaderMatches(first: string, last: string, size: string)
    requires Digits(first) && Digits(last) && Digits(size) && TailOk("/" + size)
    ensures Parse(Header(first, last, size)) == ReadFields(Fields(first, last, "/" + size))
  {
    HeaderIsTrimmed(first, last, size);
    TrimKeeps(Header(first, last, size));
    ParseOfMatch(Header(first, last, size), " ", Fields(first, last, "/" + size));
  }

  lemma FieldsRead(f: Fields, total: int)
    requires Digits(f.first) && Digits(f.last) && TailOk(f.tail) && Total(f.tail) == Some(total)
    requires Value(f.first) <= MAX_INT64 && Value(f.last) < MAX_INT64
    ensures ReadFields(f) == Some(Range(Value(f.first), Value(f.last) + 1, total))
  {
  }

  lemma HeaderText(first: string, last: string, size: string)
    ensures Header(first, last, size) == "bytes " + first + "-" + last + "/" + size
  {
    assert "bytes" + " " == "bytes ";
    AppendAssociates("bytes " + first + "-" + last, "/", size);
  }

  /** A printed Content-Range parses back to what was printed. */
  lemma ContentRangeRoundTrip(start: nat, end: nat, size: nat)
    requires start < end <= size < 0x8000_0000_0000_0000
    ensures Parse(ContentRange(start, end, size)) == Some(Range(start, end, size))
    ensures ContentRange(start, end, size) == "bytes " + Print(start) + "-" + Print(end - 1) + "/" + Print(size)
  {
    HeaderText(Print(start), Print(end - 1), Print(size));
    PrintParses(start);
    PrintParses(end - 1);
    PrintParses(size);
    TotalOf(Print(size));
    FieldsRead(Fields(Print(start), Print(end - 1), "/" + Print(size)), size);
    HeaderMatches(Print(start), Print(end - 1), Print(size));
  }
}
