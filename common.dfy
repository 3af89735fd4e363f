/** Small shared vocabulary: optional values, bytes, and the string operations
    of the Rust standard library that the proxy relies on (ASCII case mapping,
    substring search, joining, decimal rendering). */
module Common {

  datatype Option<T> = None | Some(value: T)

  /** One octet of an HTTP header value or body. */
  type byte = x: int | 0 <= x < 256

  // ---------------------------------------------------------------------------
  // Sequence algebra used by the proofs
  // ---------------------------------------------------------------------------

  /** Regrouping five concatenated pieces. */
  lemma Regroup<T>(p: seq<T>, q: seq<T>, r: seq<T>, s: seq<T>, u: seq<T>)
    ensures p + q + r + s + u == p + (q + r + s + u)
    ensures p + q + (r + s + u) == p + q + r + s + u
  {
  }

  /** A concatenation splits back into its parts. */
  lemma SplitAt<T>(a: seq<T>, b: seq<T>)
    ensures (a + b)[..|a|] == a && (a + b)[|a|..] == b
  {
  }

  /** A sequence is what lies before element `i`, that element, and what follows. */
  lemma SplitAround<T>(s: seq<T>, i: nat)
    requires i < |s|
    ensures s == s[..i] + ([s[i]] + s[i + 1..])
  {
    assert s[i..] == [s[i]] + s[i + 1..];
    assert s == s[..i] + s[i..];
  }

  /** Indexing into a prefixed sequence. */
  lemma PrefixedShape<T>(p: seq<T>, rest: seq<T>)
    ensures |p + rest| == |p| + |rest|
    ensures p != [] ==> (p + rest)[0] == p[0]
    ensures forall i :: 0 <= i < |rest| ==> (p + rest)[|p| + i] == rest[i]
  {
  }

  /** An empty middle piece can be dropped; the elements of the middle piece
      are elements of the whole. */
  lemma Splice<T>(a: seq<T>, x: seq<T>, b: seq<T>)
    ensures x == [] ==> a + x + b == a + b
    ensures forall f :: f in x ==> f in a + x + b
  {
  }

  // ---------------------------------------------------------------------------
  // ASCII case mapping (`to_lowercase` / `to_uppercase` restricted to ASCII)
  // ---------------------------------------------------------------------------

  predicate IsAsciiUpper(c: char) { 'A' <= c <= 'Z' }
  predicate IsAsciiLower(c: char) { 'a' <= c <= 'z' }

  function UpperChar(c: char): (u: char)
    ensures IsAsciiLower(c) ==> IsAsciiUpper(u)
    ensures !IsAsciiLower(c) ==> u == c
  {
    if IsAsciiLower(c) then (c as int - 32) as char else c
  }

  function LowerChar(c: char): (l: char)
    ensures IsAsciiUpper(c) ==> IsAsciiLower(l)
    ensures !IsAsciiUpper(c) ==> l == c
  {
    if IsAsciiUpper(c) then (c as int + 32) as char else c
  }

  /** `str::to_lowercase`, for ASCII letters. */
  function ToLower(s: string): (r: string)
    ensures |r| == |s|
    ensures forall i :: 0 <= i < |s| ==> r[i] == LowerChar(s[i])
  {
    if s == [] then [] else [LowerChar(s[0])] + ToLower(s[1..])
  }

  // ---------------------------------------------------------------------------
  // Substring search (`str::starts_with`, `str::contains`)
  // ---------------------------------------------------------------------------

  predicate StartsWith(s: string, prefix: string) {
    |prefix| <= |s| && s[..|prefix|] == prefix
  }

  /** `s.contains(pat)`: some window of `s` equals `pat`, searched left to right. */
  predicate Contains(s: string, pat: string)
    decreases |s|
  {
    StartsWith(s, pat) || (|s| > 0 && Contains(s[1..], pat))
  }

  /** The reference meaning of `Contains`: `pat` occurs at some offset of `s`. */
  ghost predicate OccursAt(s: string, pat: string, i: int) {
    0 <= i && i + |pat| <= |s| && s[i..i + |pat|] == pat
  }

  /** A string occurs at the start of itself followed by anything. */
  lemma OccursAtStart(pat: string, rest: string)
    ensures OccursAt(pat + rest, pat, 0)
  {
    assert (pat + rest)[..|pat|] == pat;
  }

  /** An occurrence in `b` is an occurrence in `a + b`, shifted by `|a|`. */
  lemma OccursInSuffix(a: string, b: string, pat: string, j: int)
    requires OccursAt(b, pat, j)
    ensures OccursAt(a + b, pat, |a| + j)
  {
    assert (a + b)[|a| + j..|a| + j + |pat|] == b[j..j + |pat|];
  }

  /** A string occurs between anything before it and anything after it. */
  lemma OccursInMiddle(a: string, pat: string, c: string)
    ensures OccursAt(a + pat + c, pat, |a|)
  {
    OccursAtStart(pat, c);
    OccursInSuffix(a, pat + c, pat, 0);
    assert a + pat + c == a + (pat + c);
  }

  lemma StartsWithTrans(s: string, a: string, b: string)
    requires StartsWith(s, a) && StartsWith(a, b)
    ensures StartsWith(s, b)
  {
    assert s[..|b|] == s[..|a|][..|b|];
  }

  /** An occurrence inside an occurrence is an occurrence. */
  lemma OccursWithin(s: string, mid: string, k: int, pat: string, j: int)
    requires OccursAt(s, mid, k) && OccursAt(mid, pat, j)
    ensures OccursAt(s, pat, k + j)
  {
    forall t | 0 <= t < |pat|
      ensures s[k + j..k + j + |pat|][t] == pat[t]
    {
      assert pat[t] == mid[j + t] == s[k..k + |mid|][j + t];
    }
  }

  /** A window found at offset `i` is found by the left-to-right search. */
  lemma {:induction false} OccursImpliesContains(s: string, pat: string, i: nat)
    requires OccursAt(s, pat, i)
    ensures Contains(s, pat)
    decreases i
  {
    if i > 0 {
      assert s[1..][i - 1..i - 1 + |pat|] == s[i..i + |pat|];
      OccursImpliesContains(s[1..], pat, i - 1);
    }
  }

  /** The left-to-right search succeeds only at a real window. */
  lemma {:induction false} ContainsImpliesOccurs(s: string, pat: string)
    requires Contains(s, pat)
    ensures exists i :: OccursAt(s, pat, i)
    decreases |s|
  {
    if StartsWith(s, pat) {
      assert OccursAt(s, pat, 0);
    } else {
      ContainsImpliesOccurs(s[1..], pat);
      var i :| OccursAt(s[1..], pat, i);
      assert s[1..][i..i + |pat|] == s[i + 1..i + 1 + |pat|];
      assert OccursAt(s, pat, i + 1);
    }
  }

  /** `Contains` agrees with its reference meaning in both directions. */
  lemma ContainsIffOccurs(s: string, pat: string)
    ensures Contains(s, pat) <==> exists i :: OccursAt(s, pat, i)
  {
    if Contains(s, pat) {
      ContainsImpliesOccurs(s, pat);
    }
    if exists i :: OccursAt(s, pat, i) {
      var i :| OccursAt(s, pat, i);
      OccursImpliesContains(s, pat, i);
    }
  }

  // ---------------------------------------------------------------------------
  // Joining (`[String]::join`)
  // ---------------------------------------------------------------------------

  /** `parts.join(sep)`. */
  function Join(parts: seq<string>, sep: string): (r: string)
    ensures parts == [] ==> r == ""
    ensures |parts| == 1 ==> r == parts[0]
  {
    if parts == [] then ""
    else if |parts| == 1 then parts[0]
    else parts[0] + sep + Join(parts[1..], sep)
  }

  /** `s` has no empty line: it does not start or end with a newline and has
      no two newlines in a row. */
  ghost predicate NoBlankLine(s: string) {
    && (|s| > 0 ==> s[0] != '\n' && s[|s| - 1] != '\n')
    && forall i :: 0 <= i < |s| - 1 ==> !(s[i] == '\n' && s[i + 1] == '\n')
  }

  /** Joining non-empty pieces that have no blank line with a newline creates
      no blank line: the separator never lands next to another newline. */
  lemma {:induction false} JoinNoBlankLine(parts: seq<string>)
    requires forall k :: 0 <= k < |parts| ==> parts[k] != "" && NoBlankLine(parts[k])
    ensures NoBlankLine(Join(parts, "\n"))
  {
    if |parts| > 1 {
      var rest := Join(parts[1..], "\n");
      JoinNoBlankLine(parts[1..]);
      var p := parts[0];
      var r := p + "\n" + rest;
      assert rest != "" by { JoinNonEmpty(parts[1..], "\n"); }
      assert r == Join(parts, "\n");
      assert r[0] == p[0];
      assert r[|r| - 1] == rest[|rest| - 1];
      forall i | 0 <= i < |r| - 1 ensures !(r[i] == '\n' && r[i + 1] == '\n') {
        if i < |p| - 1 {
          assert r[i] == p[i] && r[i + 1] == p[i + 1];
        } else if i == |p| - 1 {
          assert r[i] == p[|p| - 1];
        } else if i == |p| {
          assert r[i + 1] == rest[0];
        } else {
          assert r[i] == rest[i - |p| - 1] && r[i + 1] == rest[i - |p|];
        }
      }
    }
  }

  /** Joining a non-empty list of non-empty pieces is non-empty. */
  lemma JoinNonEmpty(parts: seq<string>, sep: string)
    requires parts != [] && parts[0] != ""
    ensures Join(parts, sep) != ""
  {
  }

  // ---------------------------------------------------------------------------
  // Decimal rendering (`u64::to_string`, `format!("{}", n)`)
  // ---------------------------------------------------------------------------

  predicate IsDigit(c: char) { '0' <= c <= '9' }

  function DigitChar(d: nat): (c: char)
    requires d < 10
    ensures IsDigit(c)
  {
    ('0' as int + d) as char
  }

  function DigitValue(c: char): (d: nat)
    requires IsDigit(c)
    ensures d < 10
  {
    c as int - '0' as int
  }

  /** Decimal digits of `n`, most significant first, no leading zeros. */
  function Decimal(n: nat): (s: string)
    ensures |s| >= 1
    ensures forall i :: 0 <= i < |s| ==> IsDigit(s[i])
    ensures |s| > 1 ==> s[0] != '0'
  {
    if n < 10 then [DigitChar(n)] else Decimal(n / 10) + [DigitChar(n % 10)]
  }

  /** Value of a string of decimal digits. */
  function DecimalValue(s: string): nat
    requires forall i :: 0 <= i < |s| ==> IsDigit(s[i])
  {
    if s == [] then 0 else DecimalValue(s[..|s| - 1]) * 10 + DigitValue(s[|s| - 1])
  }

  /** Reading back the rendering of `n` gives `n`. */
  lemma {:induction false} DecimalRoundTrip(n: nat)
    ensures DecimalValue(Decimal(n)) == n
  {
    if n >= 10 {
      DecimalRoundTrip(n / 10);
      var s := Decimal(n);
      assert s[..|s| - 1] == Decimal(n / 10);
    }
  }
}
