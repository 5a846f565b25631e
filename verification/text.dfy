/** The string operations the player performs on paths, locale tags and
    labels: Rust's `split(c).next()`, `split(c).last()`, `trim()`,
    `contains`, and the `{:02}:{:02}` duration label. */
module Text {

  /** `s.split(c).next()`: the text before the first `c`, or all of `s`.
      The three ensures determine the result: the longest prefix free of `c`. */
  function BeforeFirst(s: string, c: char): (r: string)
    ensures c !in r
    ensures r <= s
    ensures |r| < |s| ==> s[|r|] == c
  {
    if s == [] then []
    else if s[0] == c then []
    else [s[0]] + BeforeFirst(s[1..], c)
  }

  /** `s.split(c).last()`: the text after the last `c`, or all of `s`.
      The result is the longest suffix free of `c`. */
  function AfterLast(s: string, c: char): (r: string)
    ensures c !in r
    ensures |r| <= |s| && r == s[|s| - |r|..]
    ensures |r| < |s| ==> s[|s| - |r| - 1] == c
  {
    if s == [] then []
    else if s[|s| - 1] == c then []
    else AfterLast(s[..|s| - 1], c) + [s[|s| - 1]]
  }

  lemma {:induction false} BeforeFirstOfJoin(a: string, c: char, b: string)
    requires c !in a
    ensures BeforeFirst(a + [c] + b, c) == a
  {
    if a != [] {
      assert (a + [c] + b)[1..] == a[1..] + [c] + b;
      BeforeFirstOfJoin(a[1..], c, b);
    } else {
      assert (a + [c] + b)[0] == c;
    }
  }

  lemma {:induction false} AfterLastOfJoin(a: string, c: char, b: string)
    requires c !in b
    ensures AfterLast(a + [c] + b, c) == b
  {
    var s := a + [c] + b;
    if b != [] {
      assert s[..|s| - 1] == a + [c] + b[..|b| - 1];
      AfterLastOfJoin(a, c, b[..|b| - 1]);
      assert b[..|b| - 1] + [b[|b| - 1]] == b;
    } else {
      assert s[|s| - 1] == c;
    }
  }

  /** Whether `s` starts with `p`. */
  predicate StartsWith(s: string, p: string) {
    |p| <= |s| && s[..|p|] == p
  }

  /** `s.contains(p)`: `p` occurs in `s` at some offset. */
  predicate Contains(s: string, p: string)
  {
    StartsWith(s, p) || (s != [] && Contains(s[1..], p))
  }

  lemma {:induction false} ContainsAt(s: string, p: string, k: nat)
    requires k + |p| <= |s| && s[k..k + |p|] == p
    ensures Contains(s, p)
  {
    if k > 0 {
      assert s[1..][k - 1..k - 1 + |p|] == s[k..k + |p|];
      ContainsAt(s[1..], p, k - 1);
    }
  }

  /** Rust's `char::is_whitespace`: the Unicode White_Space property. */
  predicate IsWhitespace(c: char) {
    ('\t' <= c <= '\r') || c == ' ' || c == '\U{85}' || c == '\U{A0}' || c == '\U{1680}'
    || ('\U{2000}' <= c <= '\U{200A}') || c == '\U{2028}' || c == '\U{2029}'
    || c == '\U{202F}' || c == '\U{205F}' || c == '\U{3000}'
  }

  /** `s.trim_start()`: drops the leading whitespace. */
  function TrimStart(s: string): (r: string)
    ensures |r| <= |s| && r == s[|s| - |r|..]
    ensures forall i :: 0 <= i < |s| - |r| ==> IsWhitespace(s[i])
    ensures r != [] ==> !IsWhitespace(r[0])
  {
    if s != [] && IsWhitespace(s[0]) then
      var r := TrimStart(s[1..]);
      assert s[1..][|s| - 1 - |r|..] == s[|s| - |r|..];
      r
    else s
  }

  /** `s.trim_end()`: drops the trailing whitespace. */
  function TrimEnd(s: string): (r: string)
    ensures r <= s
    ensures forall i :: |r| <= i < |s| ==> IsWhitespace(s[i])
    ensures r != [] ==> !IsWhitespace(r[|r| - 1])
  {
    if s != [] && IsWhitespace(s[|s| - 1]) then
      var r := TrimEnd(s[..|s| - 1]);
      assert s[..|s| - 1][..|r|] == s[..|r|];
      r
    else s
  }

  /** `s.trim()`: a contiguous part of `s` that neither starts nor ends with
      whitespace, with only whitespace dropped on either side. */
  function Trim(s: string): (r: string)
    ensures exists k :: TrimmedAt(s, r, k)
    ensures r != [] ==> !IsWhitespace(r[0]) && !IsWhitespace(r[|r| - 1])
  {
    TrimBothEnds(s);
    TrimEnd(TrimStart(s))
  }

  lemma TrimBothEnds(s: string)
    ensures TrimmedAt(s, TrimEnd(TrimStart(s)), |s| - |TrimStart(s)|)
  {
    var t := TrimStart(s);
    TrimmedWithin(s, t, TrimEnd(t), |s| - |t|);
  }

  /** Trimming the end of the suffix `t` of `s` that starts at `k`. */
  lemma TrimmedWithin(s: string, t: string, r: string, k: nat)
    requires k + |t| == |s| && t == s[k..] && r <= t
    requires forall i :: 0 <= i < k ==> IsWhitespace(s[i])
    requires forall i :: |r| <= i < |t| ==> IsWhitespace(t[i])
    ensures TrimmedAt(s, r, k)
  {
    assert r == s[k..k + |r|];
    forall i | k + |r| <= i < |s| ensures IsWhitespace(s[i]) {
      assert s[i] == t[i - k];
    }
  }

  /** `r` is the part of `s` starting at `k`, with only whitespace around it. */
  predicate TrimmedAt(s: string, r: string, k: nat) {
    && k + |r| <= |s|
    && r == s[k..k + |r|]
    && (forall i :: 0 <= i < k ==> IsWhitespace(s[i]))
    && (forall i :: k + |r| <= i < |s| ==> IsWhitespace(s[i]))
  }

  function Digit(d: nat): (c: char)
    requires d < 10
    ensures '0' <= c <= '9'
    ensures c == '0' <==> d == 0
  {
    ['0', '1', '2', '3', '4', '5', '6', '7', '8', '9'][d]
  }

  function DigitValue(c: char): (d: nat)
    ensures '0' <= c <= '9' ==> d < 10 && Digit(d) == c
  {
    if '0' <= c <= '9' then (c as int - '0' as int) else 0
  }

  predicate AllDigits(s: string) {
    forall i :: 0 <= i < |s| ==> '0' <= s[i] <= '9'
  }

  /** `format!("{}", n)` for a non-negative integer. */
  function Decimal(n: nat): (s: string)
    ensures s != [] && AllDigits(s)
    ensures n < 10 ==> |s| == 1
    ensures n < 100 ==> |s| <= 2
    ensures n >= 10 ==> s[0] != '0'
  {
    if n < 10 then [Digit(n)] else Decimal(n / 10) + [Digit(n % 10)]
  }

  /** `format!("{:02}", n)`: decimal, zero-padded to at least two digits. */
  function Pad2(n: nat): (s: string)
    ensures |s| >= 2 && AllDigits(s)
    ensures n < 100 ==> |s| == 2
    ensures n < 10 ==> s[0] == '0'
    ensures n >= 10 ==> s[0] != '0'
  {
    if n < 10 then ['0', Digit(n)] else Decimal(n)
  }

  /** The value of a string of decimal digits. */
  function ParseDecimal(s: string): nat {
    if s == [] then 0 else 10 * ParseDecimal(s[..|s| - 1]) + DigitValue(s[|s| - 1])
  }

  lemma {:induction false} ParseDecimalOfDecimal(n: nat)
    ensures ParseDecimal(Decimal(n)) == n
  {
    var s := Decimal(n);
    if n >= 10 {
      var q, d := n / 10, n % 10;
      assert s == Decimal(q) + [Digit(d)];
      assert s[..|s| - 1] == Decimal(q);
      assert DigitValue(s[|s| - 1]) == d;
      ParseDecimalOfDecimal(q);
      assert ParseDecimal(s) == 10 * q + d;
    } else {
      assert s[..0] == [];
    }
  }

  lemma ParseDecimalOfPad2(n: nat)
    ensures ParseDecimal(Pad2(n)) == n
  {
    if n < 10 {
      var s := Pad2(n);
      assert s[..1] == ['0'] && ['0'][..0] == [];
    } else {
      ParseDecimalOfDecimal(n);
    }
  }

  /** The `mm:ss` label of a duration in seconds: `{:02}:{:02}` of the
      minutes and of the remaining seconds. */
  function DurationLabel(secs: nat): (mmss: string)
    ensures |mmss| >= 5 && mmss[|mmss| - 3] == ':'
    ensures AllDigits(mmss[..|mmss| - 3]) && AllDigits(mmss[|mmss| - 2..])
    ensures secs < 6000 ==> |mmss| == 5
    ensures secs < 600 ==> mmss[0] == '0'
    ensures secs >= 600 ==> mmss[0] != '0'
  {
    var m, s := Pad2(secs / 60), Pad2(secs % 60);
    assert m + ":" + s == m + [':'] + s;
    assert (m + [':'] + s)[0] == m[0];
    assert (m + [':'] + s)[..|m|] == m && (m + [':'] + s)[|m| + 1..] == s;
    m + ":" + s
  }

  /** Reads a `mm:ss` label back as (minutes, seconds). */
  function ParseDurationLabel(text: string): (nat, nat) {
    (ParseDecimal(BeforeFirst(text, ':')), ParseDecimal(AfterLast(text, ':')))
  }

  /** The label determines the duration: it reads back as minutes and
      seconds with seconds below 60 and 60 * minutes + seconds == secs, and
      the seconds part is exactly two digits. */
  lemma DurationLabelRoundTrip(secs: nat)
    ensures var (m, s) := ParseDurationLabel(DurationLabel(secs));
      m == secs / 60 && s == secs % 60 && s < 60 && 60 * m + s == secs
    ensures |AfterLast(DurationLabel(secs), ':')| == 2
  {
    var a, b := Pad2(secs / 60), Pad2(secs % 60);
    assert ':' !in a by { assert AllDigits(a); }
    assert ':' !in b by { assert AllDigits(b); }
    assert DurationLabel(secs) == a + [':'] + b;
    BeforeFirstOfJoin(a, ':', b);
    AfterLastOfJoin(a, ':', b);
    ParseDecimalOfPad2(secs / 60);
    ParseDecimalOfPad2(secs % 60);
  }

  /** Rust's ordering of `str`: lexicographic by character (byte-wise UTF-8
      order is code-point order). */
  predicate LexLeq(a: string, b: string) {
    if a == [] then true
    else if b == [] then false
    else if a[0] != b[0] then a[0] < b[0]
    else LexLeq(a[1..], b[1..])
  }

  lemma {:induction false} LexLeqTotal(a: string, b: string)
    ensures LexLeq(a, b) || LexLeq(b, a)
  {
    if a != [] && b != [] && a[0] == b[0] {
      LexLeqTotal(a[1..], b[1..]);
    }
  }

  lemma {:induction false} LexLeqTransitive(a: string, b: string, c: string)
    requires LexLeq(a, b) && LexLeq(b, c)
    ensures LexLeq(a, c)
  {
    if a != [] && b != [] && c != [] && a[0] == b[0] && b[0] == c[0] {
      LexLeqTransitive(a[1..], b[1..], c[1..]);
    }
  }
}
