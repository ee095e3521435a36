/**
 * String helpers shared by both front ends: the .NET whitespace tests used by
 * `string.IsNullOrWhiteSpace` and `string.Trim`, ASCII case folding as used by
 * `lowercased()` / `ToLowerInvariant()`, substring search as used by
 * `contains` / `Contains`, and decimal rendering of status codes.
 */
module Text {

  /** .NET `char.IsWhiteSpace`, restricted to the Latin-1 range. */
  predicate IsWhiteSpace(c: char) {
    c == ' ' || ('\t' <= c && c <= '\r') || c == '\U{0085}' || c == '\U{00A0}'
  }

  /** `string.IsNullOrWhiteSpace` on a non-null string: empty or whitespace only. */
  predicate IsBlank(s: string) {
    forall i :: 0 <= i < |s| ==> IsWhiteSpace(s[i])
  }

  /** Removes the leading whitespace of `s`. */
  function TrimStart(s: string): (r: string)
    ensures |r| <= |s| && r == s[|s| - |r|..]
    ensures IsBlank(s[..|s| - |r|])
    ensures r == [] || !IsWhiteSpace(r[0])
  {
    if |s| > 0 && IsWhiteSpace(s[0]) then
      var r := TrimStart(s[1..]);
      assert forall i :: 0 < i < |s| - |r| ==> s[i] == s[1..][i - 1];
      r
    else
      s
  }

  /** Removes the trailing whitespace of `s`. */
  function TrimEnd(s: string): (r: string)
    ensures |r| <= |s| && r == s[..|r|]
    ensures IsBlank(s[|r|..])
    ensures r == [] || !IsWhiteSpace(r[|r| - 1])
  {
    if |s| > 0 && IsWhiteSpace(s[|s| - 1]) then
      var r := TrimEnd(s[..|s| - 1]);
      assert forall i :: |r| <= i < |s| - 1 ==> s[i] == s[..|s| - 1][i];
      r
    else
      s
  }

  /** .NET `string.Trim()`: whitespace removed from both ends. */
  function Trim(s: string): (r: string)
    ensures |r| <= |s|
    ensures r == [] || (!IsWhiteSpace(r[0]) && !IsWhiteSpace(r[|r| - 1]))
  {
    var t := TrimStart(s);
    var r := TrimEnd(t);
    assert r != [] ==> r[0] == t[0];
    r
  }

  /** A suffix of a suffix of `s` is a suffix of `s`. */
  lemma {:induction false} EndsWithTransitive(s: string, t: string, u: string)
    requires EndsWith(s, t) && EndsWith(t, u)
    ensures EndsWith(s, u)
  {
    assert s[|s| - |u|..] == s[|s| - |t|..][|t| - |u|..];
  }

  /**
   * What `Trim` promises: the result is a contiguous piece of the input,
   * what was cut off is whitespace, the result has no whitespace at either
   * end, and it is empty exactly when the input was blank.
   */
  lemma {:induction false} TrimSpec(s: string)
    ensures exists i, j :: 0 <= i <= j <= |s| && Trim(s) == s[i..j]
                          && IsBlank(s[..i]) && IsBlank(s[j..])
    ensures Trim(s) == [] || (!IsWhiteSpace(Trim(s)[0]) && !IsWhiteSpace(Trim(s)[|Trim(s)| - 1]))
    ensures Trim(s) == [] <==> IsBlank(s)
  {
    var i, j := TrimBounds(s);
    TrimEmptyIffBlank(s, i, j);
  }

  /** Where `Trim(s)` sits in `s`: between a blank head and a blank tail. */
  lemma {:induction false} TrimBounds(s: string) returns (i: nat, j: nat)
    ensures i <= j <= |s| && Trim(s) == s[i..j] && IsBlank(s[..i]) && IsBlank(s[j..])
  {
    var t := TrimStart(s);
    var r := TrimEnd(t);
    i := |s| - |t|;
    j := i + |r|;
    assert Trim(s) == r;
    BlankTailShift(s, t, i, |r|);
  }

  /** Cutting a suffix `t` of `s` at `k` cuts `s` at `i + k`, and a blank tail stays blank. */
  lemma {:induction false} BlankTailShift(s: string, t: string, i: nat, k: nat)
    requires i + |t| == |s| && t == s[i..] && k <= |t| && IsBlank(t[k..])
    ensures t[..k] == s[i..i + k] && IsBlank(s[i + k..])
  {
    SuffixSlices(s, i, k);
  }

  /** Slicing a suffix of `s` is slicing `s` itself, shifted. */
  lemma {:induction false} SuffixSlices(s: string, i: nat, n: nat)
    requires i + n <= |s|
    ensures s[i..][..n] == s[i..i + n] && s[i..][n..] == s[i + n..]
  {
  }

  lemma {:induction false} TrimEmptyIffBlank(s: string, i: nat, j: nat)
    requires i <= j <= |s| && Trim(s) == s[i..j] && IsBlank(s[..i]) && IsBlank(s[j..])
    ensures Trim(s) == [] <==> IsBlank(s)
  {
    if IsBlank(s) {
      TrimStartOfBlank(s);
    } else {
      forall m | 0 <= m < i ensures IsWhiteSpace(s[m]) {
        assert s[..i][m] == s[m];
      }
      forall m | j <= m < |s| ensures IsWhiteSpace(s[m]) {
        assert s[j..][m - j] == s[m];
      }
      var k :| 0 <= k < |s| && !IsWhiteSpace(s[k]);
      assert Trim(s)[k - i] == s[k];
    }
  }

  /** Trimming the start of a blank string leaves nothing. */
  lemma {:induction false} TrimStartOfBlank(s: string)
    requires IsBlank(s)
    ensures TrimStart(s) == []
    decreases |s|
  {
    if |s| > 0 {
      assert IsWhiteSpace(s[0]);
      assert IsBlank(s[1..]) by {
        forall m | 0 <= m < |s| - 1 ensures IsWhiteSpace(s[1..][m]) {
          assert s[1..][m] == s[m + 1];
        }
      }
      TrimStartOfBlank(s[1..]);
    }
  }

  /** ASCII case folding of one character (`A`..`Z` to `a`..`z`). */
  function LowerChar(c: char): char {
    if 'A' <= c && c <= 'Z' then (c as int + 32) as char else c
  }

  /** `lowercased()` / `ToLowerInvariant()` over ASCII letters. */
  function Lower(s: string): (r: string)
    ensures |r| == |s|
    ensures forall i :: 0 <= i < |r| ==> !('A' <= r[i] <= 'Z')
    ensures forall i :: 0 <= i < |s| && 'A' <= s[i] <= 'Z' ==> r[i] as int == s[i] as int + 32
    ensures forall i :: 0 <= i < |s| && !('A' <= s[i] <= 'Z') ==> r[i] == s[i]
  {
    seq(|s|, i requires 0 <= i < |s| => LowerChar(s[i]))
  }

  /** Case-insensitive ordinal comparison (`StringComparison.OrdinalIgnoreCase`). */
  predicate EqualsIgnoreCase(a: string, b: string) {
    Lower(a) == Lower(b)
  }

  predicate StartsWith(s: string, prefix: string) {
    |prefix| <= |s| && s[..|prefix|] == prefix
  }

  predicate EndsWith(s: string, suffix: string) {
    |suffix| <= |s| && s[|s| - |suffix|..] == suffix
  }

  /** Substring search, as `String.contains` / `string.Contains`: `sub` starts at some position of `s`. */
  predicate Contains(s: string, sub: string) {
    exists i :: 0 <= i <= |s| && StartsWith(s[i..], sub)
  }

  /** Substring search for a one-character needle is membership. */
  lemma {:induction false} ContainsChar(s: string, c: char)
    ensures Contains(s, [c]) <==> c in s
  {
    if c in s {
      var k :| 0 <= k < |s| && s[k] == c;
      assert s[k..][..1] == [c];
    }
    if Contains(s, [c]) {
      var k :| 0 <= k <= |s| && StartsWith(s[k..], [c]);
      assert s[k..][0] == s[k];
    }
  }

  /** A needle found in `b` is found in `a + b`. */
  lemma {:induction false} ContainsAfterPrefix(a: string, b: string, sub: string)
    requires Contains(b, sub)
    ensures Contains(a + b, sub)
  {
    var k :| 0 <= k <= |b| && StartsWith(b[k..], sub);
    assert (a + b)[|a| + k..] == b[k..];
  }

  /** A string contains each of its prefixes. */
  lemma {:induction false} ContainsPrefix(s: string, prefix: string)
    requires StartsWith(s, prefix)
    ensures Contains(s, prefix)
  {
    assert s[0..] == s;
  }

  /** Every character of a found needle occurs in the haystack. */
  lemma {:induction false} ContainsOnlyChars(s: string, sub: string)
    requires Contains(s, sub)
    ensures forall c :: c in sub ==> c in s
  {
    var k :| 0 <= k <= |s| && StartsWith(s[k..], sub);
    forall c | c in sub ensures c in s {
      var m :| 0 <= m < |sub| && sub[m] == c;
      assert s[k..][..|sub|][m] == s[k + m];
    }
  }

  /** A needle with a character the haystack lacks is not found. */
  lemma {:induction false} NotContainsMissingChar(s: string, sub: string, c: char)
    requires c in sub && c !in s
    ensures !Contains(s, sub)
  {
    if Contains(s, sub) {
      ContainsOnlyChars(s, sub);
    }
  }

  /** A needle whose first character occurs only at the start of `s`, and which is not a prefix of `s`, is not found. */
  lemma {:induction false} NotContainsFirstCharOnlyAtStart(s: string, sub: string)
    requires |sub| > 0 && !StartsWith(s, sub)
    requires forall i :: 0 < i < |s| ==> s[i] != sub[0]
    ensures !Contains(s, sub)
  {
    forall i | 0 <= i <= |s| ensures !StartsWith(s[i..], sub) {
      if i == 0 {
        assert s[0..] == s;
      } else if i < |s| && |sub| <= |s| - i {
        assert s[i..][..|sub|][0] == s[i];
      }
    }
  }

  /** A string without upper-case ASCII letters is its own lower-case form. */
  lemma {:induction false} LowerOfLowercase(s: string)
    requires forall i :: 0 <= i < |s| ==> !('A' <= s[i] <= 'Z')
    ensures Lower(s) == s
  {
  }

  /** Case folding never creates or removes a hyphen. */
  lemma {:induction false} HyphenIgnoresCase(s: string)
    ensures Contains(Lower(s), "-") <==> Contains(s, "-")
  {
    ContainsChar(s, '-');
    ContainsChar(Lower(s), '-');
    if '-' in Lower(s) {
      var i :| 0 <= i < |s| && Lower(s)[i] == '-';
      assert s[i] == '-';
    }
    if '-' in s {
      var i :| 0 <= i < |s| && s[i] == '-';
      assert Lower(s)[i] == '-';
    }
  }

  /** Case folding is idempotent. */
  lemma {:induction false} LowerIdempotent(s: string)
    ensures Lower(Lower(s)) == Lower(s)
  {
  }

  /** The decimal digit character for `d`. */
  function DigitChar(d: nat): char
    requires d < 10
  {
    (d + '0' as int) as char
  }

  /** The value of a string of decimal digits, most significant first. */
  function DigitsValue(s: string): nat
    requires forall i :: 0 <= i < |s| ==> '0' <= s[i] <= '9'
  {
    if s == [] then 0 else DigitsValue(s[..|s| - 1]) * 10 + (s[|s| - 1] as int - '0' as int)
  }

  /** Decimal rendering of a natural number, with no leading zero. */
  function NatToString(n: nat): (r: string)
    ensures |r| > 0
    ensures forall i :: 0 <= i < |r| ==> '0' <= r[i] <= '9'
    ensures r[0] == '0' ==> n == 0
    decreases n
  {
    if n < 10 then [DigitChar(n)] else NatToString(n / 10) + [DigitChar(n % 10)]
  }

  /** Reading the rendered digits back gives the number. */
  lemma {:induction false} NatToStringValue(n: nat)
    ensures DigitsValue(NatToString(n)) == n
    decreases n
  {
    var r := NatToString(n);
    if n >= 10 {
      NatToStringValue(n / 10);
      assert r[..|r| - 1] == NatToString(n / 10);
    }
  }

  /** Decimal rendering of an integer, as string interpolation prints it. */
  function IntToString(n: int): string {
    if n < 0 then "-" + NatToString(-n) else NatToString(n)
  }
}
