// The parts of Go's `strings`, `strconv` and `unicode` packages that the handlers rely on.
// A string is its sequence of code points.

module GoStrings {
  import opened Wrappers

  // ---------------------------------------------------------------- white space

  /** unicode.IsSpace: the code points with property White_Space. */
  predicate IsSpace(c: char) {
    || '\t' <= c <= '\r' || c == ' ' || c == '\U{85}' || c == '\U{A0}' || c == '\U{1680}'
    || '\U{2000}' <= c <= '\U{200A}' || c == '\U{2028}' || c == '\U{2029}'
    || c == '\U{202F}' || c == '\U{205F}' || c == '\U{3000}'
  }

  predicate AllSpace(s: string) {
    forall i | 0 <= i < |s| :: IsSpace(s[i])
  }

  predicate NoSpace(s: string) {
    forall i | 0 <= i < |s| :: !IsSpace(s[i])
  }

  function TrimLeft(s: string): (r: string)
    ensures |r| <= |s|
    ensures r != "" ==> !IsSpace(r[0])
  {
    if s != "" && IsSpace(s[0]) then TrimLeft(s[1..]) else s
  }

  function TrimRight(s: string): (r: string)
    ensures r <= s
    ensures r != "" ==> !IsSpace(r[|r| - 1])
  {
    if s != "" && IsSpace(s[|s| - 1]) then TrimRight(s[..|s| - 1]) else s
  }

  /** strings.TrimSpace */
  function TrimSpace(s: string): (r: string)
    ensures |r| <= |s|
    ensures r != "" ==> !IsSpace(r[0]) && !IsSpace(r[|r| - 1])
  {
    TrimRight(TrimLeft(s))
  }

  predicate Trimmed(s: string) {
    s != "" ==> !IsSpace(s[0]) && !IsSpace(s[|s| - 1])
  }

  lemma {:induction false} TrimLeftOf(before: string, rest: string)
    requires AllSpace(before) && (rest == "" || !IsSpace(rest[0]))
    ensures TrimLeft(before + rest) == rest
  {
    if before == "" {
      assert before + rest == rest;
    } else {
      assert (before + rest)[1..] == before[1..] + rest;
      TrimLeftOf(before[1..], rest);
    }
  }

  lemma {:induction false} TrimRightOf(rest: string, after: string)
    requires AllSpace(after) && (rest == "" || !IsSpace(rest[|rest| - 1]))
    ensures TrimRight(rest + after) == rest
  {
    if after == "" {
      assert rest + after == rest;
    } else {
      assert (rest + after)[..|rest + after| - 1] == rest + after[..|after| - 1];
      TrimRightOf(rest, after[..|after| - 1]);
    }
  }

  /** Trimming removes exactly the surrounding white space: whatever is glued around a trimmed,
      non-empty core is gone, and the core stays. */
  lemma TrimSpaceRemovesSurroundings(before: string, core: string, after: string)
    requires AllSpace(before) && AllSpace(after) && Trimmed(core) && core != ""
    ensures TrimSpace(before + core + after) == core
  {
    TrimLeftOf(before, core + after);
    assert before + (core + after) == before + core + after;
    TrimRightOf(core, after);
  }

  lemma {:induction false} TrimLeftSplits(s: string) returns (before: string)
    ensures AllSpace(before) && s == before + TrimLeft(s)
  {
    before := "";
    if s != "" && IsSpace(s[0]) {
      var rest := TrimLeftSplits(s[1..]);
      before := [s[0]] + rest;
    }
  }

  lemma {:induction false} TrimRightSplits(s: string) returns (after: string)
    ensures AllSpace(after) && s == TrimRight(s) + after
  {
    after := "";
    if s != "" && IsSpace(s[|s| - 1]) {
      var rest := TrimRightSplits(s[..|s| - 1]);
      after := rest + [s[|s| - 1]];
    }
  }

  lemma TrimSpaceIsCore(s: string) returns (before: string, after: string)
    ensures AllSpace(before) && AllSpace(after) && s == before + TrimSpace(s) + after
  {
    before := TrimLeftSplits(s);
    after := TrimRightSplits(TrimLeft(s));
  }

  lemma TrimSpaceOfBlank(s: string)
    ensures TrimSpace(s) == "" <==> AllSpace(s)
  {
    var before, after := TrimSpaceIsCore(s);
    var core := TrimSpace(s);
    if core != "" {
      assert s[|before|] == core[0];
    }
  }

  // ---------------------------------------------------------------- substrings

  predicate HasPrefix(s: string, prefix: string) {
    prefix <= s
  }

  predicate HasSuffix(s: string, suffix: string) {
    |suffix| <= |s| && s[|s| - |suffix|..] == suffix
  }

  function TrimPrefix(s: string, prefix: string): string {
    if HasPrefix(s, prefix) then s[|prefix|..] else s
  }

  function TrimSuffix(s: string, suffix: string): string {
    if HasSuffix(s, suffix) then s[..|s| - |suffix|] else s
  }

  predicate OccursAt(s: string, p: string, i: int) {
    0 <= i && i + |p| <= |s| && s[i..i + |p|] == p
  }

  ghost predicate Occurs(s: string, p: string) {
    exists i :: OccursAt(s, p, i)
  }

  /** strings.LastIndex: the last occurrence, or -1. */
  function LastIndex(s: string, p: string): (r: int)
    ensures r == -1 || OccursAt(s, p, r)
    ensures forall i :: OccursAt(s, p, i) ==> i <= r
  {
    LastIndexUpTo(s, p, |s|)
  }

  function LastIndexUpTo(s: string, p: string, hi: nat): (r: int)
    ensures r == -1 || (r <= hi && OccursAt(s, p, r))
    ensures forall i :: i <= hi && OccursAt(s, p, i) ==> i <= r
  {
    if OccursAt(s, p, hi) then hi else if hi == 0 then -1 else LastIndexUpTo(s, p, hi - 1)
  }

  /** strings.Index of a one-character string. */
  function IndexOf(s: string, c: char): (r: int)
    ensures r == -1 <==> c !in s
    ensures r != -1 ==> 0 <= r < |s| && s[r] == c && c !in s[..r]
  {
    if s == "" then -1
    else if s[0] == c then 0
    else var r := IndexOf(s[1..], c); if r == -1 then -1 else r + 1
  }

  /** strings.LastIndex of a one-character string. */
  function LastIndexOf(s: string, c: char): (r: int)
    ensures r == -1 <==> c !in s
    ensures r != -1 ==> 0 <= r < |s| && s[r] == c && c !in s[r + 1..]
  {
    if s == "" then -1
    else if s[|s| - 1] == c then |s| - 1
    else LastIndexOf(s[..|s| - 1], c)
  }

  // ---------------------------------------------------------------- lower case

  /** unicode.ToLower, as far as it can produce an ASCII letter: besides A..Z only the Kelvin sign
      and the dotted capital I have an ASCII lower case. Other capitals are left alone, which no
      comparison with an ASCII name can notice. */
  function LowerChar(c: char): char {
    if 'A' <= c <= 'Z' then c - 'A' + 'a'
    else if c == '\U{212A}' then 'k'
    else if c == '\U{130}' then 'i'
    else c
  }

  function ToLower(s: string): (r: string)
    ensures |r| == |s| && forall i | 0 <= i < |s| :: r[i] == LowerChar(s[i])
  {
    seq(|s|, i requires 0 <= i < |s| => LowerChar(s[i]))
  }

  // ---------------------------------------------------------------- fields

  /** The length of the longest space-free prefix. */
  function TokenLength(s: string): (k: nat)
    ensures k <= |s| && NoSpace(s[..k])
    ensures k < |s| ==> IsSpace(s[k])
  {
    if s == "" || IsSpace(s[0]) then 0 else 1 + TokenLength(s[1..])
  }

  predicate IsToken(t: string) {
    t != "" && NoSpace(t)
  }

  /** strings.Fields */
  function Fields(s: string): (r: seq<string>)
    ensures forall i | 0 <= i < |r| :: IsToken(r[i])
    decreases |s|
  {
    if s == "" then []
    else if IsSpace(s[0]) then Fields(s[1..])
    else [s[..TokenLength(s)]] + Fields(s[TokenLength(s)..])
  }

  /** strings.Join */
  function Join(parts: seq<string>, sep: string): string {
    if parts == [] then ""
    else if |parts| == 1 then parts[0]
    else parts[0] + sep + Join(parts[1..], sep)
  }

  lemma {:induction false} TokenLengthOf(t: string, rest: string)
    requires NoSpace(t) && (rest == "" || IsSpace(rest[0]))
    ensures TokenLength(t + rest) == |t|
  {
    if t != "" {
      assert (t + rest)[1..] == t[1..] + rest;
      TokenLengthOf(t[1..], rest);
    } else {
      assert t + rest == rest;
    }
  }

  /** A list of tokens survives being joined by blanks and split again. */
  lemma {:induction false} FieldsOfJoin(ts: seq<string>)
    requires forall i | 0 <= i < |ts| :: IsToken(ts[i])
    ensures Fields(Join(ts, " ")) == ts
  {
    if ts != [] {
      var rest := if |ts| == 1 then "" else " " + Join(ts[1..], " ");
      var s := ts[0] + rest;
      assert s == Join(ts, " ");
      TokenLengthOf(ts[0], rest);
      assert s[0] == ts[0][0] && s[..|ts[0]|] == ts[0] && s[|ts[0]|..] == rest;
      FieldsOfJoin(ts[1..]);
      if |ts| > 1 {
        assert rest[1..] == Join(ts[1..], " ");
      }
    }
  }

  /** Two tokens are told apart by a character with the Unicode property White_Space, and by no other. */
  lemma SeparatorsAreWhiteSpace(a: string, c: char, b: string)
    requires IsToken(a) && IsToken(b)
    ensures Fields(a + [c] + b) ==
      if c as int in {9, 10, 11, 12, 13, 32, 0x85, 0xA0, 0x1680, 0x2000, 0x2001, 0x2002, 0x2003, 0x2004, 0x2005, 0x2006, 0x2007, 0x2008,
                      0x2009, 0x200A, 0x2028, 0x2029, 0x202F, 0x205F, 0x3000}
      then [a, b] else [a + [c] + b]
  {
    WhiteSpaceCodes(c);
    if IsSpace(c) {
      FieldsOfTwo(a, c, b);
    } else {
      FieldsOfToken(a + [c] + b);
    }
  }

  lemma WhiteSpaceCodes(c: char)
    ensures IsSpace(c) <==>
      c as int in {9, 10, 11, 12, 13, 32, 0x85, 0xA0, 0x1680, 0x2000, 0x2001, 0x2002, 0x2003, 0x2004, 0x2005, 0x2006, 0x2007, 0x2008,
                   0x2009, 0x200A, 0x2028, 0x2029, 0x202F, 0x205F, 0x3000}
  {
  }

  lemma FieldsOfTwo(a: string, c: char, b: string)
    requires IsToken(a) && IsToken(b) && IsSpace(c)
    ensures Fields(a + [c] + b) == [a, b]
  {
    var s, rest := a + [c] + b, [c] + b;
    FieldsOfToken(b);
    assert s == a + rest && rest[1..] == b;
    TokenLengthOf(a, rest);
    assert s[..|a|] == a && s[|a|..] == rest;
  }

  lemma FieldsOfToken(t: string)
    requires IsToken(t)
    ensures Fields(t) == [t]
  {
    assert t + "" == t;
    TokenLengthOf(t, "");
    assert t[..|t|] == t && t[|t|..] == "";
  }

  lemma {:induction false} FieldsIgnoresLeadingSpace(before: string, s: string)
    requires AllSpace(before)
    ensures Fields(before + s) == Fields(s)
  {
    if before == "" {
      assert before + s == s;
    } else {
      assert (before + s)[1..] == before[1..] + s;
      FieldsIgnoresLeadingSpace(before[1..], s);
    }
  }

  lemma {:induction false} FieldsIgnoresTrailingSpace(s: string, after: string)
    requires AllSpace(after)
    ensures Fields(s + after) == Fields(s)
    decreases |s|
  {
    if s == "" {
      FieldsIgnoresLeadingSpace(after, "");
      assert s + after == after + "";
    } else if IsSpace(s[0]) {
      assert (s + after)[1..] == s[1..] + after;
      FieldsIgnoresTrailingSpace(s[1..], after);
    } else {
      var k := TokenLength(s);
      assert s + after == s[..k] + (s[k..] + after);
      TokenLengthOf(s[..k], s[k..] + after);
      assert (s + after)[..k] == s[..k] && (s + after)[k..] == s[k..] + after;
      FieldsIgnoresTrailingSpace(s[k..], after);
    }
  }

  lemma FieldsOfTrimSpace(s: string)
    ensures Fields(TrimSpace(s)) == Fields(s)
  {
    var before, after := TrimSpaceIsCore(s);
    FieldsIgnoresTrailingSpace(before + TrimSpace(s), after);
    FieldsIgnoresLeadingSpace(before, TrimSpace(s));
  }

  // ---------------------------------------------------------------- decimal numbers

  predicate IsDigit(c: char) {
    '0' <= c <= '9'
  }

  predicate AllDigits(s: string) {
    forall i | 0 <= i < |s| :: IsDigit(s[i])
  }

  /** The %d verb and strconv.FormatUint, base 10. */
  function Decimal(n: nat): (r: string)
    ensures r != "" && AllDigits(r)
    ensures |r| > 1 ==> r[0] != '0'
    ensures DigitsValue(r) == n
  {
    var last := ['0' + (n % 10) as char];
    if n < 10 then last else Decimal(n / 10) + last
  }

  function DigitsValue(s: string): nat
    requires AllDigits(s)
  {
    if s == "" then 0
    else DigitsValue(s[..|s| - 1]) * 10 + (s[|s| - 1] as nat - '0' as nat)
  }

  /** strconv.ParseUint(s, 10, 32): digits only, value below 2^32. */
  function ParseUint32(s: string): (r: Option<nat>)
    ensures r.Some? <==> s != "" && AllDigits(s) && DigitsValue(s) < 0x1_0000_0000
  {
    if s != "" && AllDigits(s) && DigitsValue(s) < 0x1_0000_0000 then Some(DigitsValue(s)) else None
  }

  /** A numeral is the one that formatting prints: digits without a leading zero. */
  predicate Canonical(s: string) {
    s != "" && AllDigits(s) && (|s| > 1 ==> s[0] != '0')
  }

  lemma {:induction false} DecimalOfDigits(s: string)
    requires Canonical(s)
    ensures Decimal(DigitsValue(s)) == s
  {
    if |s| == 1 {
      assert s[..0] == "";
      assert ['0' + DigitsValue(s) as char] == s;
    } else {
      var init := s[..|s| - 1];
      assert Canonical(init);
      DecimalOfDigits(init);
      PositiveValue(init);
      assert s == init + [s[|s| - 1]];
      var d := s[|s| - 1] as nat - '0' as nat;
      assert DigitsValue(s) % 10 == d && DigitsValue(s) / 10 == DigitsValue(init);
      assert '0' + d as char == s[|s| - 1];
    }
  }

  lemma {:induction false} PositiveValue(s: string)
    requires Canonical(s) && s[0] != '0'
    ensures DigitsValue(s) > 0
  {
    if |s| == 1 {
      assert s[..0] == "";
    } else {
      PositiveValue(s[..|s| - 1]);
    }
  }

  lemma DecimalInjective(m: nat, n: nat)
    requires Decimal(m) == Decimal(n)
    ensures m == n
  {
  }

  /** Parsing undoes formatting on the whole 32-bit range; formatting undoes parsing exactly on
      canonical numerals. */
  lemma ParseFormatRoundTrip(n: nat, s: string)
    ensures n < 0x1_0000_0000 ==> ParseUint32(Decimal(n)) == Some(n)
    ensures ParseUint32(s).Some? ==> (Decimal(ParseUint32(s).value) == s <==> Canonical(s))
  {
    if Canonical(s) {
      DecimalOfDigits(s);
    }
  }
}
