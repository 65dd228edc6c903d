/** The text-level pieces of the .chart decoder (lib/chart-parser.ts): JavaScript's
    `trim`, `Number.parseInt` and `Number.parseFloat`, and the regular expressions the
    parser matches lines against, each written out as a deterministic scan. */
module ChartText {
  import opened Wrappers

  /** JavaScript's white space and line terminators: what `trim` strips and `\s` matches. */
  predicate IsSpace(c: char) {
    ('\t' <= c <= '\r') || c == ' ' || c == '\U{00A0}' || c == '\U{1680}' || ('\U{2000}' <= c <= '\U{200A}')
    || c == '\U{2028}' || c == '\U{2029}' || c == '\U{202F}' || c == '\U{205F}' || c == '\U{3000}' || c == '\U{FEFF}'
  }

  predicate IsDigit(c: char) {
    '0' <= c <= '9'
  }

  /** `\w`. */
  predicate IsWordChar(c: char) {
    ('a' <= c <= 'z') || ('A' <= c <= 'Z') || IsDigit(c) || c == '_'
  }

  /** `trimStart`: drops the leading white space. The laws of the three trims are
      lemmas below rather than postconditions, so that a proof sees them only where
      it asks for them. */
  function TrimStart(s: string): string {
    if s != [] && IsSpace(s[0]) then TrimStart(s[1..]) else s
  }

  function TrimEnd(s: string): string {
    if s != [] && IsSpace(s[|s| - 1]) then TrimEnd(s[..|s| - 1]) else s
  }

  /** `String.prototype.trim`. */
  function Trim(s: string): string {
    TrimEnd(TrimStart(s))
  }

  /** trimStart removes a run of white space from the front and stops at the first other character. */
  lemma {:induction false} TrimStartSpec(s: string)
    ensures var r := TrimStart(s);
      && |r| <= |s| && r == s[|s| - |r|..]
      && (r == [] || !IsSpace(r[0]))
      && forall k :: 0 <= k < |s| - |r| ==> IsSpace(s[k])
  {
    if s != [] && IsSpace(s[0]) {
      var t := s[1..];
      TrimStartSpec(t);
      var r := TrimStart(t);
      assert TrimStart(s) == r;
      assert s[|s| - |r|..] == t[|t| - |r|..];
      forall k | 0 <= k < |s| - |r| ensures IsSpace(s[k]) {
        if k > 0 {
          assert s[k] == t[k - 1];
        }
      }
    }
  }

  /** trimEnd removes a run of white space from the back and stops at the last other character. */
  lemma {:induction false} TrimEndSpec(s: string)
    ensures var r := TrimEnd(s);
      && |r| <= |s| && r == s[..|r|]
      && (r == [] || !IsSpace(r[|r| - 1]))
      && forall k :: |r| <= k < |s| ==> IsSpace(s[k])
  {
    if s != [] && IsSpace(s[|s| - 1]) {
      TrimEndSpec(s[..|s| - 1]);
    }
  }

  /** The trimmed text neither starts nor ends with white space, and is empty exactly
      when the whole line is white space. */
  lemma TrimSpec(s: string)
    ensures var r := Trim(s);
      && (r == [] || (!IsSpace(r[0]) && !IsSpace(r[|r| - 1])))
      && (r == [] <==> forall k :: 0 <= k < |s| ==> IsSpace(s[k]))
  {
    var t := TrimStart(s);
    TrimStartSpec(s);
    TrimEndSpec(t);
    assert t != [] ==> t[0] == s[|s| - |t|];
  }

  /** Trimming twice is trimming once. */
  lemma TrimIdempotent(s: string)
    ensures Trim(Trim(s)) == Trim(s)
  {
    var r := Trim(s);
    TrimSpec(s);
    if r != [] {
      assert TrimStart(r) == r;
      assert TrimEnd(r) == r;
    }
  }

  /** The character classes the line patterns scan over: `\s`, `\d` and `\w`. */
  datatype CharClass = Space | Digit | Word

  predicate InClass(c: char, cls: CharClass) {
    match cls
    case Space => IsSpace(c)
    case Digit => IsDigit(c)
    case Word => IsWordChar(c)
  }

  /** Every character of `s[i..j]` is in `p`. */
  predicate AllIn(s: string, i: nat, j: nat, p: CharClass)
    requires i <= j <= |s|
  {
    forall k :: i <= k < j ==> InClass(s[k], p)
  }

  /** The end of the longest run of `p`-characters starting at `i`. */
  function Span(s: string, i: nat, p: CharClass): (j: nat)
    requires i <= |s|
    ensures i <= j <= |s|
    ensures AllIn(s, i, j, p)
    ensures j == |s| || !InClass(s[j], p)
    decreases |s| - i
  {
    if i < |s| && InClass(s[i], p) then Span(s, i + 1, p) else i
  }

  function DigitValue(c: char): nat
    requires IsDigit(c)
  {
    c as int - '0' as int
  }

  /** The decimal value of the digits `s[i..j]`. */
  function NumberAt(s: string, i: nat, j: nat): nat
    requires i <= j <= |s| && AllIn(s, i, j, Digit)
    decreases j - i
  {
    if i == j then 0 else 10 * NumberAt(s, i, j - 1) + DigitValue(s[j - 1])
  }

  predicate AllDigits(d: string) {
    AllIn(d, 0, |d|, Digit)
  }

  /** The decimal value of a digit string. */
  function DigitsValue(d: string): nat
    requires AllDigits(d)
  {
    NumberAt(d, 0, |d|)
  }

  /** NumberAt depends only on the characters it reads. */
  lemma {:induction false} NumberAtSame(s: string, i: nat, t: string, k: nat, n: nat)
    requires i + n <= |s| && k + n <= |t| && AllIn(s, i, i + n, Digit)
    requires forall m :: i <= m < i + n ==> s[m] == t[m - i + k]
    ensures AllIn(t, k, k + n, Digit) && NumberAt(s, i, i + n) == NumberAt(t, k, k + n)
  {
    if n > 0 {
      NumberAtSame(s, i, t, k, n - 1);
      assert s[i + n - 1] == t[k + n - 1];
    }
  }

  /** The decimal digits of a natural number (the inverse of DigitsValue). */
  function NatToString(n: nat): (r: string)
    ensures |r| > 0 && AllDigits(r)
  {
    var last := ['0' + (n % 10) as char];
    if n < 10 then last else NatToString(n / 10) + last
  }

  /** Appending a digit multiplies by ten and adds it. */
  lemma AppendDigit(q: string, c: char)
    requires AllDigits(q) && IsDigit(c)
    ensures AllDigits(q + [c]) && DigitsValue(q + [c]) == 10 * DigitsValue(q) + DigitValue(c)
  {
    var r := q + [c];
    assert forall m :: 0 <= m < |q| ==> q[m] == r[m];
    NumberAtSame(q, 0, r, 0, |q|);
    assert r[|q|] == c;
  }

  lemma {:induction false} NatToStringRoundTrip(n: nat)
    ensures DigitsValue(NatToString(n)) == n
  {
    var c := '0' + (n % 10) as char;
    assert DigitValue(c) == n % 10;
    if n >= 10 {
      NatToStringRoundTrip(n / 10);
      AppendDigit(NatToString(n / 10), c);
    } else {
      AppendDigit([], c);
      assert [] + [c] == [c];
    }
  }

  /** `Number.parseInt(s, 10)`: leading white space, an optional sign, then the
      longest digit prefix; None stands for NaN (no digits). */
  function ParseIntPrefix(s: string): Option<int> {
    var a := Span(s, 0, Space);
    var neg := a < |s| && s[a] == '-';
    var b := if a < |s| && (s[a] == '-' || s[a] == '+') then a + 1 else a;
    var c := Span(s, b, Digit);
    if c == b then None
    else
      var v: int := NumberAt(s, b, c);
      Some(if neg then -v else v)
  }

  function Pow10(k: nat): (p: nat)
    ensures p >= 1
  {
    if k == 0 then 1 else 10 * Pow10(k - 1)
  }

  /** `Number.parseFloat(s)` for plain decimals: leading white space, an optional
      sign, digits with an optional fraction (at least one digit in all); None stands
      for NaN. */
  function ParseFloatPrefix(s: string): Option<real> {
    var a := Span(s, 0, Space);
    var neg := a < |s| && s[a] == '-';
    var b := if a < |s| && (s[a] == '-' || s[a] == '+') then a + 1 else a;
    var c := Span(s, b, Digit);
    var hasPoint := c < |s| && s[c] == '.';
    var d := if hasPoint then Span(s, c + 1, Digit) else c;
    if c == b && d <= c + 1 then None
    else
      var fraction := if hasPoint then NumberAt(s, c + 1, d) as real / Pow10(d - c - 1) as real else 0.0;
      var v := NumberAt(s, b, c) as real + fraction;
      Some(if neg then -v else v)
  }

  /** The position after the literal `lit` at `i`, if it is there. */
  function Expect(s: string, i: nat, lit: string): Option<nat>
    requires i <= |s|
  {
    if i + |lit| <= |s| && s[i..i + |lit|] == lit then Some(i + |lit|) else None
  }

  /** `^\[([^\]]+)\]$`: the header's name. */
  function MatchHeader(line: string): (r: Option<string>)
    ensures r.Some? ==> |line| >= 3 && r.value == line[1..|line| - 1]
  {
    if |line| >= 3 && line[0] == '[' && line[|line| - 1] == ']'
       && forall k :: 1 <= k < |line| - 1 ==> line[k] != ']'
    then Some(line[1..|line| - 1])
    else None
  }

  /** A `tick = B milliBpm` line (`^\s*(\d+)\s*=\s*B\s+(\d+)$`). */
  datatype SyncMatch = SyncMatch(tick: nat, milliBpm: nat)

  /** A `tick = N lane sustain` line (`^\s*(\d+)\s*=\s*N\s+(\d+)\s+(\d+)$`). */
  datatype NoteMatch = NoteMatch(tick: nat, lane: nat, sustain: nat)

  /** A `tick = E "section name"` line (`^\s*(\d+)\s*=\s*E\s+"section\s+([^"]+)"$`). */
  datatype EventMatch = EventMatch(tick: nat, name: string)

  /** A `Key = "value"` line (`^\s*(\w+)\s*=\s*"([^"]*)"$`). */
  datatype MetaMatch = MetaMatch(key: string, value: string)

  /** The common prefix `\s*(\d+)\s*=\s*X`: the tick and the position after the tag `X`. */
  function MatchTickTag(s: string, tag: char): Option<(nat, nat)> {
    var a := Span(s, 0, Space);
    var b := Span(s, a, Digit);
    var c := Span(s, b, Space);
    if b == a || c >= |s| || s[c] != '=' then None
    else
      var d := Span(s, c + 1, Space);
      if d >= |s| || s[d] != tag then None
      else Some((NumberAt(s, a, b), d + 1))
  }

  /** `\s+(\d+)` at `i`: the number and the position after it. */
  function MatchSpacedNumber(s: string, i: nat): (r: Option<(nat, nat)>)
    requires i <= |s|
    ensures r.Some? ==> i < r.value.1 <= |s|
  {
    var e := Span(s, i, Space);
    var f := Span(s, e, Digit);
    if e == i || f == e then None else Some((NumberAt(s, e, f), f))
  }

  function MatchSync(s: string): Option<SyncMatch> {
    match MatchTickTag(s, 'B')
    case None => None
    case Some((tick, i)) =>
      if i > |s| then None
      else match MatchSpacedNumber(s, i)
        case Some((bpm, j)) => if j == |s| then Some(SyncMatch(tick, bpm)) else None
        case None => None
  }

  function MatchNote(s: string): Option<NoteMatch> {
    match MatchTickTag(s, 'N')
    case None => None
    case Some((tick, i)) =>
      if i > |s| then None
      else match MatchSpacedNumber(s, i)
        case None => None
        case Some((lane, j)) =>
          match MatchSpacedNumber(s, j)
          case Some((sustain, k)) => if k == |s| then Some(NoteMatch(tick, lane, sustain)) else None
          case None => None
  }

  function MatchEvent(s: string): Option<EventMatch> {
    match MatchTickTag(s, 'E')
    case None => None
    case Some((tick, i)) =>
      if i > |s| then None
      else
        var q := Span(s, i, Space);
        if q == i then None
        else match Expect(s, q, "\"section")
          case None => None
          case Some(b) =>
            // the rest up to the closing quote, which must end the line
            if |s| == 0 || b > |s| - 1 || s[|s| - 1] != '"' then None
            else match MatchSectionName(s[b..|s| - 1])
              case Some(name) => Some(EventMatch(tick, name))
              case None => None
  }

  /** `\s+([^"]+)` over the whole of `rest`: the name after the white space. */
  function MatchSectionName(rest: string): (r: Option<string>)
    ensures r.Some? ==> |r.value| > 0 && NoQuote(r.value)
  {
    if rest == [] || !IsSpace(rest[0]) || !NoQuote(rest) then None
    else
      var w := Span(rest, 0, Space);
      if w < |rest| then Some(rest[w..])
      // all white space: `\s+` gives its last character back to `[^"]+`
      else if |rest| >= 2 then Some(rest[|rest| - 1..])
      else None
  }

  function MatchMeta(s: string): Option<MetaMatch> {
    var a := Span(s, 0, Space);
    var b := Span(s, a, Word);
    var c := Span(s, b, Space);
    if b == a || c >= |s| || s[c] != '=' then None
    else
      var d := Span(s, c + 1, Space);
      if d >= |s| - 1 || s[d] != '"' || s[|s| - 1] != '"' then None
      else
        var value := s[d + 1..|s| - 1];
        if NoQuote(value) then Some(MetaMatch(s[a..b], value)) else None
  }

  /** The canonical text of a tempo line and of a note line. */
  function FormatSync(tick: nat, milliBpm: nat): string {
    NatToString(tick) + " = B " + NatToString(milliBpm)
  }

  function FormatNote(tick: nat, lane: nat, sustain: nat): string {
    NatToString(tick) + " = N " + NatToString(lane) + " " + NatToString(sustain)
  }

  /** The canonical text of a section marker and of a song property. */
  function FormatEvent(tick: nat, name: string): string {
    NatToString(tick) + " = E \"section " + name + "\""
  }

  function FormatMeta(key: string, value: string): string {
    key + " = \"" + value + "\""
  }

  predicate NoQuote(s: string) {
    forall k :: 0 <= k < |s| ==> s[k] != '"'
  }

  /** A section name the marker pattern gives back unchanged: no quote, not starting with white space. */
  predicate PlainName(name: string) {
    |name| > 0 && !IsSpace(name[0]) && NoQuote(name)
  }

  /** A property key: one or more word characters. */
  predicate IsKey(key: string) {
    |key| > 0 && AllIn(key, 0, |key|, Word)
  }

  /** The digits `d` sit in `s` at `i`, followed by a non-digit or the end. */
  predicate DigitsAt(s: string, i: nat, d: string) {
    |d| > 0 && AllDigits(d) && i + |d| <= |s|
    && (forall m :: i <= m < i + |d| ==> s[m] == d[m - i])
    && (i + |d| == |s| || !IsDigit(s[i + |d|]))
  }

  /** A run of class-`p` characters copied into `s` at `i` and ended there is what Span finds. */
  lemma SpanOver(s: string, i: nat, d: string, p: CharClass)
    requires AllIn(d, 0, |d|, p) && i + |d| <= |s|
    requires forall m :: i <= m < i + |d| ==> s[m] == d[m - i]
    requires i + |d| == |s| || !InClass(s[i + |d|], p)
    ensures Span(s, i, p) == i + |d|
    decreases |d|
  {
    if |d| > 0 {
      assert s[i] == d[0];
      SpanOver(s, i + 1, d[1..], p);
    }
  }

  lemma SpanOverDigits(s: string, i: nat, d: string)
    requires DigitsAt(s, i, d)
    ensures Span(s, i, Digit) == i + |d|
    ensures AllIn(s, i, i + |d|, Digit) && NumberAt(s, i, i + |d|) == DigitsValue(d)
  {
    SpanOver(s, i, d, Digit);
    assert forall m :: 0 <= m < |d| ==> d[m] == s[m + i];
    NumberAtSame(d, 0, s, i, |d|);
  }

  lemma SpanStops(s: string, i: nat, p: CharClass)
    requires i < |s| && !InClass(s[i], p)
    ensures Span(s, i, p) == i
  {
  }

  lemma SpanOne(s: string, i: nat, p: CharClass)
    requires i + 1 < |s| && InClass(s[i], p) && !InClass(s[i + 1], p)
    ensures Span(s, i, p) == i + 1
  {
    SpanStops(s, i + 1, p);
  }

  /** The tick prefix of a canonical line: digits, " = " and the tag. */
  lemma TickTagAt(s: string, t: string, tag: char)
    requires DigitsAt(s, 0, t) && |t| + 4 <= |s| && !IsSpace(tag)
    requires s[|t|] == ' ' && s[|t| + 1] == '=' && s[|t| + 2] == ' ' && s[|t| + 3] == tag
    ensures MatchTickTag(s, tag) == Some((DigitsValue(t), |t| + 4))
  {
    assert s[0] == t[0];
    SpanStops(s, 0, Space);
    SpanOverDigits(s, 0, t);
    SpanOne(s, |t|, Space);
    SpanOne(s, |t| + 2, Space);
  }

  /** A single space followed by the digits `d`. */
  lemma SpacedNumberAt(s: string, i: nat, d: string)
    requires i < |s| && s[i] == ' ' && DigitsAt(s, i + 1, d)
    ensures MatchSpacedNumber(s, i) == Some((DigitsValue(d), i + 1 + |d|))
  {
    assert s[i + 1] == d[0];
    SpanOne(s, i, Space);
    SpanOverDigits(s, i + 1, d);
  }

  /** A tempo line written with single spaces decodes to its two numbers. */
  lemma SyncLineOfDigits(t: string, b: string)
    requires |t| > 0 && AllDigits(t) && |b| > 0 && AllDigits(b)
    ensures MatchSync(t + " = B " + b) == Some(SyncMatch(DigitsValue(t), DigitsValue(b)))
  {
    var s := t + " = B " + b;
    var c := |t|;
    assert s[c] == ' ' && s[c + 1] == '=' && s[c + 2] == ' ' && s[c + 3] == 'B' && s[c + 4] == ' ';
    assert DigitsAt(s, 0, t);
    assert DigitsAt(s, c + 5, b);
    TickTagAt(s, t, 'B');
    SpacedNumberAt(s, c + 4, b);
  }

  /** A note line written with single spaces decodes to its three numbers. */
  lemma NoteLineOfDigits(t: string, l: string, u: string)
    requires |t| > 0 && AllDigits(t) && |l| > 0 && AllDigits(l) && |u| > 0 && AllDigits(u)
    ensures MatchNote(t + " = N " + l + " " + u)
         == Some(NoteMatch(DigitsValue(t), DigitsValue(l), DigitsValue(u)))
  {
    NoteLineLayout(t, l, u);
    NoteLineAt(t + " = N " + l + " " + u, t, l, u);
  }

  /** Where the pieces of a note line sit. */
  predicate NoteLayout(s: string, t: string, l: string, u: string) {
    var c, e := |t|, |t| + 5 + |l|;
    DigitsAt(s, 0, t) && e < |s| && s[c] == ' ' && s[c + 1] == '=' && s[c + 2] == ' ' && s[c + 3] == 'N'
    && s[c + 4] == ' ' && DigitsAt(s, c + 5, l) && s[e] == ' ' && DigitsAt(s, e + 1, u)
    && e + 1 + |u| == |s|
  }

  lemma NoteLineLayout(t: string, l: string, u: string)
    requires |t| > 0 && AllDigits(t) && |l| > 0 && AllDigits(l) && |u| > 0 && AllDigits(u)
    ensures NoteLayout(t + " = N " + l + " " + u, t, l, u)
  {
    var s := t + " = N " + l + " " + u;
    var c, e := |t|, |t| + 5 + |l|;
    assert s[c] == ' ' && s[c + 1] == '=' && s[c + 2] == ' ' && s[c + 3] == 'N' && s[c + 4] == ' ';
    assert s[e] == ' ';
    assert DigitsAt(s, 0, t);
    assert DigitsAt(s, c + 5, l);
    assert DigitsAt(s, e + 1, u);
  }

  lemma NoteLineAt(s: string, t: string, l: string, u: string)
    requires NoteLayout(s, t, l, u)
    ensures MatchNote(s) == Some(NoteMatch(DigitsValue(t), DigitsValue(l), DigitsValue(u)))
  {
    TickTagAt(s, t, 'N');
    SpacedNumberAt(s, |t| + 4, l);
    SpacedNumberAt(s, |t| + 5 + |l|, u);
  }

  /** `parseInt` reads back the decimal text of a number, with or without a minus sign. */
  lemma ParseIntRoundTrip(n: nat)
    ensures ParseIntPrefix(NatToString(n)) == Some(n)
    ensures ParseIntPrefix("-" + NatToString(n)) == Some(-(n as int))
  {
    var d := NatToString(n);
    NatToStringRoundTrip(n);
    assert DigitsAt(d, 0, d);
    SpanStops(d, 0, Space);
    SpanOverDigits(d, 0, d);
    var m := "-" + d;
    assert DigitsAt(m, 1, d);
    SpanStops(m, 0, Space);
    SpanOverDigits(m, 1, d);
  }

  /** `parseFloat` reads back the decimal text of a whole number. */
  lemma ParseFloatRoundTrip(n: nat)
    ensures ParseFloatPrefix(NatToString(n)) == Some(n as real)
  {
    var d := NatToString(n);
    NatToStringRoundTrip(n);
    assert DigitsAt(d, 0, d);
    SpanStops(d, 0, Space);
    SpanOverDigits(d, 0, d);
  }

  /** A section header decodes to its name. */
  lemma FormatHeaderRoundTrip(name: string)
    requires |name| > 0 && forall k :: 0 <= k < |name| ==> name[k] != ']'
    ensures MatchHeader("[" + name + "]") == Some(name)
  {
    var s := "[" + name + "]";
    assert s[1..|s| - 1] == name;
    assert forall k :: 1 <= k < |s| - 1 ==> s[k] == name[k - 1];
  }

  /** White space then a plain name decodes to the name. */
  lemma SectionNameRoundTrip(name: string)
    requires PlainName(name)
    ensures MatchSectionName(" " + name) == Some(name)
  {
    var rest := " " + name;
    assert rest[1] == name[0];
    SpanOne(rest, 0, Space);
    assert rest[1..] == name;
    assert forall k :: 1 <= k < |rest| ==> rest[k] == name[k - 1];
  }

  /** A section-marker line decodes to its tick and name. */
  lemma FormatEventRoundTrip(tick: nat, name: string)
    requires PlainName(name)
    ensures MatchEvent(FormatEvent(tick, name)) == Some(EventMatch(tick, name))
  {
    NatToStringRoundTrip(tick);
    EventLineOfDigits(NatToString(tick), name);
  }

  lemma EventLineOfDigits(t: string, name: string)
    requires |t| > 0 && AllDigits(t) && PlainName(name)
    ensures MatchEvent(t + " = E \"section " + name + "\"") == Some(EventMatch(DigitsValue(t), name))
  {
    EventLineLayout(t, name);
    EventLineAt(t + " = E \"section " + name + "\"", t, name);
  }

  /** Where the pieces of a section-marker line sit. */
  predicate EventLayout(s: string, t: string, name: string) {
    var c := |t|;
    DigitsAt(s, 0, t) && c + 14 <= |s| && s[c] == ' ' && s[c + 1] == '=' && s[c + 2] == ' '
    && s[c + 3] == 'E' && s[c + 4] == ' ' && s[c + 5] == '"' && s[c + 5..c + 13] == "\"section"
    && s[c + 13..|s| - 1] == " " + name && s[|s| - 1] == '"'
  }

  lemma EventLineLayout(t: string, name: string)
    requires |t| > 0 && AllDigits(t)
    ensures EventLayout(t + " = E \"section " + name + "\"", t, name)
  {
    var s := t + " = E \"section " + name + "\"";
    var c := |t|;
    assert s[c] == ' ' && s[c + 1] == '=' && s[c + 2] == ' ' && s[c + 3] == 'E' && s[c + 4] == ' ';
    assert s[c + 5] == '"';
    assert DigitsAt(s, 0, t);
    assert s[c + 5..c + 13] == "\"section";
    assert s[c + 13..|s| - 1] == " " + name;
  }

  lemma EventLineAt(s: string, t: string, name: string)
    requires EventLayout(s, t, name) && PlainName(name)
    ensures MatchEvent(s) == Some(EventMatch(DigitsValue(t), name))
  {
    var c := |t|;
    TickTagAt(s, t, 'E');
    SpanOne(s, c + 4, Space);
    SectionNameRoundTrip(name);
    EventFromParts(s, DigitsValue(t), c + 4, c + 5, c + 13, name);
  }

  lemma EventFromParts(s: string, tick: nat, i: nat, q: nat, b: nat, name: string)
    requires i < q <= |s| && MatchTickTag(s, 'E') == Some((tick, i)) && Span(s, i, Space) == q
    requires Expect(s, q, "\"section") == Some(b) && b < |s| && s[|s| - 1] == '"'
    requires MatchSectionName(s[b..|s| - 1]) == Some(name)
    ensures MatchEvent(s) == Some(EventMatch(tick, name))
  {
  }

  /** A song-property line decodes to its key and value. */
  lemma FormatMetaRoundTrip(key: string, value: string)
    requires IsKey(key) && NoQuote(value)
    ensures MatchMeta(FormatMeta(key, value)) == Some(MetaMatch(key, value))
  {
    var s := FormatMeta(key, value);
    var c := |key|;
    assert s == key + " = \"" + value + "\"";
    assert s[c] == ' ' && s[c + 1] == '=' && s[c + 2] == ' ' && s[c + 3] == '"' && s[|s| - 1] == '"';
    assert InClass(key[0], Word);
    assert s[0] == key[0];
    SpanStops(s, 0, Space);
    assert forall m :: 0 <= m < c ==> s[m] == key[m];
    SpanOver(s, 0, key, Word);
    SpanOne(s, c, Space);
    SpanOne(s, c + 2, Space);
    assert s[0..c] == key;
    assert s[c + 4..|s| - 1] == value;
  }

  /** Decoding the canonical tempo line gives back its numbers. */
  lemma FormatSyncRoundTrip(tick: nat, milliBpm: nat)
    ensures MatchSync(FormatSync(tick, milliBpm)) == Some(SyncMatch(tick, milliBpm))
  {
    NatToStringRoundTrip(tick);
    NatToStringRoundTrip(milliBpm);
    SyncLineOfDigits(NatToString(tick), NatToString(milliBpm));
  }

  /** Decoding the canonical note line gives back its numbers. */
  lemma FormatNoteRoundTrip(tick: nat, lane: nat, sustain: nat)
    ensures MatchNote(FormatNote(tick, lane, sustain)) == Some(NoteMatch(tick, lane, sustain))
  {
    NatToStringRoundTrip(tick);
    NatToStringRoundTrip(lane);
    NatToStringRoundTrip(sustain);
    NoteLineOfDigits(NatToString(tick), NatToString(lane), NatToString(sustain));
  }

  /** A time-signature line in the tempo section is not a tempo change. */
  lemma TimeSignatureIsNotTempo(tick: nat, rest: string)
    ensures MatchSync(NatToString(tick) + " = TS" + rest) == None
  {
    var t := NatToString(tick);
    var s := t + " = TS" + rest;
    var c := |t|;
    assert s[c] == ' ' && s[c + 1] == '=' && s[c + 2] == ' ' && s[c + 3] == 'T';
    assert DigitsAt(s, 0, t);
    TickTagAt(s, t, 'T');
  }
}
