/**
 * The Kotlin standard-library string operations the inventory app relies on
 * (isBlank, trim, lowercase, contains, endsWith, repeat, replace,
 * Int.toString and String.toIntOrNull), restricted to ASCII.
 */
module Text {
  import opened Wrappers

  /** Bounds of Kotlin's 32-bit `Int`. */
  const MinInt: int := -0x8000_0000
  const MaxInt: int := 0x7FFF_FFFF
  type Int32 = x: int | MinInt <= x <= MaxInt

  // ---------------------------------------------------------------------
  // Whitespace, isBlank and trim
  // ---------------------------------------------------------------------

  /** Char.isWhitespace on the ASCII range: tab, LF, VT, FF, CR, the four
      information separators and space. */
  predicate IsWhitespace(c: char) {
    c == ' ' || '\t' <= c <= '\r' || '\U{1C}' <= c <= '\U{1F}'
  }

  /** String.isBlank: empty or whitespace only. */
  predicate IsBlank(s: string) {
    forall i :: 0 <= i < |s| ==> IsWhitespace(s[i])
  }

  /** Drops the leading whitespace: the result is a suffix of `s`, what was
      dropped is blank, and the result does not start with whitespace. */
  function TrimStart(s: string): (r: string)
    ensures |r| <= |s| && r == s[|s| - |r|..]
    ensures IsBlank(s[..|s| - |r|])
    ensures r == [] || !IsWhitespace(r[0])
  {
    if |s| > 0 && IsWhitespace(s[0]) then TrimStart(s[1..]) else s
  }

  /** Drops the trailing whitespace: the result is a prefix of `s`, what was
      dropped is blank, and the result does not end with whitespace. */
  function TrimEnd(s: string): (r: string)
    ensures |r| <= |s| && r == s[..|r|]
    ensures IsBlank(s[|r|..])
    ensures r == [] || !IsWhitespace(r[|r| - 1])
  {
    if |s| > 0 && IsWhitespace(s[|s| - 1]) then
      var r := TrimEnd(s[..|s| - 1]);
      BlankThenWhitespace(s, |r|);
      r
    else s
  }

  /** A blank stretch followed by a final whitespace character is blank. */
  lemma BlankThenWhitespace(s: string, k: nat)
    requires 0 < |s| && k < |s| && IsWhitespace(s[|s| - 1]) && IsBlank(s[..|s| - 1][k..])
    ensures IsBlank(s[k..])
  {
    var n := |s| - 1;
    forall i | k <= i < |s| ensures IsWhitespace(s[i]) {
      if i < n {
        assert s[..n][k..][i - k] == s[i];
      }
    }
  }

  /** String.trim. */
  function Trim(s: string): string {
    TrimEnd(TrimStart(s))
  }

  /** Trimming leaves nothing exactly when the string is blank. */
  lemma TrimEmptyIffBlank(s: string)
    ensures Trim(s) == [] <==> IsBlank(s)
  {
    var t := TrimStart(s);
    var k := |s| - |t|;
    if Trim(s) == [] {
      assert t == [];
      assert s == s[..k];
    } else if t != [] {
      assert s[k] == t[0];
    }
  }

  /** Trimming twice trims nothing more. */
  lemma TrimIdempotent(s: string)
    ensures Trim(Trim(s)) == Trim(s)
  {
    var u := TrimStart(s);
    var t := Trim(s);
    if t != [] {
      assert t[0] == u[0];
      assert TrimStart(t) == t;
    }
  }

  // ---------------------------------------------------------------------
  // Case folding and searching
  // ---------------------------------------------------------------------

  /** Char.lowercaseChar on ASCII letters. */
  function LowerChar(c: char): char {
    if 'A' <= c <= 'Z' then (c as int + 32) as char else c
  }

  /** String.lowercase, character by character. */
  function Lower(s: string): (r: string)
    ensures |r| == |s|
    ensures forall i :: 0 <= i < |s| ==> r[i] == LowerChar(s[i])
  {
    seq(|s|, i requires 0 <= i < |s| => LowerChar(s[i]))
  }

  /** String.startsWith. */
  predicate StartsWith(s: string, prefix: string) {
    |prefix| <= |s| && s[..|prefix|] == prefix
  }

  lemma StartsWithConcat(prefix: string, rest: string)
    ensures StartsWith(prefix + rest, prefix)
  {
    assert (prefix + rest)[..|prefix|] == prefix;
  }

  /** String.endsWith. */
  predicate EndsWith(s: string, suffix: string) {
    |suffix| <= |s| && s[|s| - |suffix|..] == suffix
  }

  /** String.contains: `pattern` starts at some position of `s`. */
  predicate Contains(s: string, pattern: string)
    decreases |s|
  {
    StartsWith(s, pattern) || (|s| > 0 && Contains(s[1..], pattern))
  }

  /** The independent reading of Contains: some slice of `s` equals the pattern. */
  predicate OccursAt(s: string, pattern: string, i: int) {
    0 <= i && i + |pattern| <= |s| && s[i..i + |pattern|] == pattern
  }

  /** Contains agrees with "the pattern occurs at some position". */
  lemma {:induction false} ContainsIff(s: string, pattern: string)
    ensures Contains(s, pattern) <==> exists i :: OccursAt(s, pattern, i)
    decreases |s|
  {
    if StartsWith(s, pattern) {
      assert OccursAt(s, pattern, 0);
    } else if |s| > 0 {
      ContainsIff(s[1..], pattern);
      forall i | OccursAt(s[1..], pattern, i) ensures OccursAt(s, pattern, i + 1) {
        assert s[i + 1..i + 1 + |pattern|] == s[1..][i..i + |pattern|];
      }
      forall i | OccursAt(s, pattern, i) ensures OccursAt(s[1..], pattern, i - 1) {
        assert s[1..][i - 1..i - 1 + |pattern|] == s[i..i + |pattern|];
      }
    }
  }

  /** The empty pattern is contained in every string. */
  lemma ContainsEmpty(s: string)
    ensures Contains(s, "")
  {
    assert StartsWith(s, "");
  }

  /** A pattern with a character that `s` lacks is not contained in `s`. */
  lemma NotContainsByChar(s: string, pattern: string, k: int)
    requires 0 <= k < |pattern| && pattern[k] !in s
    ensures !Contains(s, pattern)
  {
    ContainsIff(s, pattern);
    forall i | 0 <= i && i + |pattern| <= |s| ensures !OccursAt(s, pattern, i) {
      assert s[i..i + |pattern|][k] == s[i + k];
    }
  }

  /** A string contains itself, wherever it sits. */
  lemma ContainsMiddle(a: string, b: string, c: string)
    ensures Contains(a + b + c, b)
  {
    ContainsIff(a + b + c, b);
    assert (a + b + c)[|a|..|a| + |b|] == b;
    assert OccursAt(a + b + c, b, |a|);
  }

  /** Containment is transitive: an occurrence inside an occurrence. */
  lemma ContainsTrans(s: string, middle: string, pattern: string)
    requires Contains(s, middle) && Contains(middle, pattern)
    ensures Contains(s, pattern)
  {
    ContainsIff(s, middle);
    ContainsIff(middle, pattern);
    var i :| OccursAt(s, middle, i);
    var j :| OccursAt(middle, pattern, j);
    forall k | 0 <= k < |pattern| ensures s[i + j + k] == pattern[k] {
      assert middle[j + k] == middle[j..j + |pattern|][k];
      assert s[i + j + k] == s[i..i + |middle|][j + k];
    }
    assert OccursAt(s, pattern, i + j);
    ContainsIff(s, pattern);
  }

  /** contains(other, ignoreCase = true), for ASCII letters. */
  predicate ContainsIgnoreCase(s: string, pattern: string) {
    Contains(Lower(s), Lower(pattern))
  }

  // ---------------------------------------------------------------------
  // repeat and replace
  // ---------------------------------------------------------------------

  /** String.repeat(n): `n` copies of `s` side by side. */
  function Repeat(s: string, n: nat): (r: string)
    ensures |r| == |s| * n
  {
    if n == 0 then "" else Repeat(s, n - 1) + s
  }

  /** Copy `q` of a repetition holds `s`: character `j` of it is `s[j]`. */
  lemma {:induction false} RepeatAt(s: string, n: nat, q: nat, j: nat)
    requires q < n && j < |s|
    ensures |s| * q + j < |s| * n && Repeat(s, n)[|s| * q + j] == s[j]
  {
    assert |s| * n == |s| * (n - 1) + |s|;
    if q < n - 1 {
      assert |s| * q + |s| == |s| * (q + 1) <= |s| * (n - 1);
      RepeatAt(s, n - 1, q, j);
    }
  }

  /** `c * n` for a one-character string `c` is `n` copies of that character. */
  lemma RepeatChar(c: char, n: nat)
    ensures |Repeat([c], n)| == n
    ensures forall i :: 0 <= i < n ==> Repeat([c], n)[i] == c
  {
    forall i | 0 <= i < n ensures Repeat([c], n)[i] == c {
      RepeatAt([c], n, i, 0);
    }
  }

  /** String.replace(old, new): every non-overlapping occurrence of
      `pattern`, scanning left to right, is replaced by `replacement`. */
  function ReplaceAll(s: string, pattern: string, replacement: string): string
    requires |pattern| > 0
    decreases |s|
  {
    if |s| == 0 then ""
    else if StartsWith(s, pattern) then replacement + ReplaceAll(s[|pattern|..], pattern, replacement)
    else [s[0]] + ReplaceAll(s[1..], pattern, replacement)
  }

  /** A string without the pattern's first character is left as it is. */
  lemma {:induction false} ReplaceAllAbsent(s: string, pattern: string, replacement: string)
    requires |pattern| > 0 && pattern[0] !in s
    ensures ReplaceAll(s, pattern, replacement) == s
    decreases |s|
  {
    if |s| > 0 {
      assert s[0] != pattern[0];
      assert s[1..] + [] == s[1..];
      ReplaceAllAbsent(s[1..], pattern, replacement);
      assert s == [s[0]] + s[1..];
    }
  }

  /** Replacing in `a + pattern + b`, where neither `a` nor `b` holds the
      pattern's first character, splices in the replacement exactly once. */
  lemma {:induction false} ReplaceAllOnce(a: string, pattern: string, b: string, replacement: string)
    requires |pattern| > 0 && pattern[0] !in a && pattern[0] !in b
    ensures ReplaceAll(a + pattern + b, pattern, replacement) == a + replacement + b
    decreases |a|
  {
    var s := a + pattern + b;
    if |a| == 0 {
      assert s == pattern + b;
      assert StartsWith(s, pattern);
      assert s[|pattern|..] == b;
      ReplaceAllAbsent(b, pattern, replacement);
    } else {
      assert s[0] == a[0] && a[0] != pattern[0];
      assert s[1..] == a[1..] + pattern + b;
      ReplaceAllOnce(a[1..], pattern, b, replacement);
      assert a == [a[0]] + a[1..];
    }
  }

  // ---------------------------------------------------------------------
  // Int.toString and String.toIntOrNull
  // ---------------------------------------------------------------------

  predicate IsDigit(c: char) { '0' <= c <= '9' }

  function DigitChar(d: int): (c: char)
    requires 0 <= d <= 9
    ensures IsDigit(c)
  {
    ('0' as int + d) as char
  }

  function DigitValue(c: char): (d: int)
    requires IsDigit(c)
  {
    c as int - '0' as int
  }

  predicate AllDigits(s: string) {
    forall i :: 0 <= i < |s| ==> IsDigit(s[i])
  }

  /** The value of a run of decimal digits, most significant first. */
  function DigitsValue(s: string): (v: nat)
    requires AllDigits(s)
  {
    if |s| == 0 then 0 else DigitsValue(s[..|s| - 1]) * 10 + DigitValue(s[|s| - 1])
  }

  /** The decimal digits of `n`, without leading zeros. */
  function NatToString(n: nat): (r: string)
    ensures |r| > 0 && AllDigits(r)
  {
    if n < 10 then [DigitChar(n)] else NatToString(n / 10) + [DigitChar(n % 10)]
  }

  /** Int.toString: a minus sign for negative numbers, then the digits. */
  function IntToString(n: int): string {
    if n < 0 then "-" + NatToString(-n) else NatToString(n)
  }

  lemma {:induction false} DigitsOfNatToString(n: nat)
    ensures DigitsValue(NatToString(n)) == n
  {
    var r := NatToString(n);
    if n >= 10 {
      DigitsOfNatToString(n / 10);
      assert r[..|r| - 1] == NatToString(n / 10);
    }
  }

  /** String.toIntOrNull in base 10: an optional '+' or '-', at least one
      digit, and a value inside the 32-bit range; anything else is absent. */
  function ParseInt(s: string): Option<Int32> {
    if |s| == 0 then None
    else if s[0] == '-' || s[0] == '+' then
      if |s| == 1 || !AllDigits(s[1..]) then None
      else
        var v: int := if s[0] == '-' then -(DigitsValue(s[1..]) as int) else DigitsValue(s[1..]);
        if MinInt <= v <= MaxInt then Some(v) else None
    else if !AllDigits(s) then None
    else if DigitsValue(s) <= MaxInt then Some(DigitsValue(s))
    else None
  }

  /** Parsing what Int.toString printed gives the number back. */
  lemma ParseIntToString(n: Int32)
    ensures ParseInt(IntToString(n)) == Some(n)
  {
    if n < 0 {
      var s := IntToString(n);
      assert s[1..] == NatToString(-(n as int));
      DigitsOfNatToString(-(n as int));
    } else {
      DigitsOfNatToString(n);
      assert IsDigit(NatToString(n)[0]);
    }
  }
}
