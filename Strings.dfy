/**
 * The JavaScript string operations the screens rely on, stated over Dafny
 * strings (sequences of Unicode scalar values): `trim`, `length` (counted in
 * UTF-16 code units), `replace` with a string pattern (first occurrence only),
 * `${n}` for a non-negative integer, and `toLowerCase` on ASCII letters.
 */
module Strings {
  import opened Wrappers

  // ---------------------------------------------------------------------------
  // trim

  /** The ECMAScript WhiteSpace and LineTerminator code points: what `trim` strips. */
  predicate IsJsWhitespace(c: char)
  {
    c == '\t' || c == '\U{000B}' || c == '\U{000C}' || c == ' ' || c == '\U{00A0}'
    || c == '\U{FEFF}' || c == '\n' || c == '\r' || c == '\U{2028}' || c == '\U{2029}'
    || c == '\U{1680}' || ('\U{2000}' <= c <= '\U{200A}') || c == '\U{202F}'
    || c == '\U{205F}' || c == '\U{3000}'
  }

  /** Every character of `s` is whitespace (the empty string included). */
  predicate IsBlank(s: string)
  {
    forall i :: 0 <= i < |s| ==> IsJsWhitespace(s[i])
  }

  /** Drops leading whitespace. */
  function TrimStart(s: string): string
  {
    if s != [] && IsJsWhitespace(s[0]) then TrimStart(s[1..]) else s
  }

  /** Drops trailing whitespace. */
  function TrimEnd(s: string): string
  {
    if s != [] && IsJsWhitespace(s[|s| - 1]) then TrimEnd(s[..|s| - 1]) else s
  }

  /** `s.trim()`. */
  function Trim(s: string): string
  {
    TrimEnd(TrimStart(s))
  }

  /** `TrimStart` leaves the suffix after a blank prefix, and that suffix does not start with whitespace. */
  lemma {:induction false} TrimStartFacts(s: string)
    ensures |TrimStart(s)| <= |s| && TrimStart(s) == s[|s| - |TrimStart(s)|..]
    ensures TrimStart(s) == [] || !IsJsWhitespace(TrimStart(s)[0])
    ensures IsBlank(s[..|s| - |TrimStart(s)|])
  {
    if s != [] && IsJsWhitespace(s[0]) {
      TrimStartFacts(s[1..]);
      var r := TrimStart(s[1..]);
      assert s[1..][|s[1..]| - |r|..] == s[|s| - |r|..];
      assert s[..|s| - |r|] == [s[0]] + s[1..][..|s[1..]| - |r|];
    } else {
      assert s[|s| - |s|..] == s;
    }
  }

  /** `TrimEnd` leaves the prefix before a blank suffix, and that prefix does not end with whitespace. */
  lemma {:induction false} TrimEndFacts(s: string)
    ensures |TrimEnd(s)| <= |s| && TrimEnd(s) == s[..|TrimEnd(s)|]
    ensures TrimEnd(s) == [] || !IsJsWhitespace(TrimEnd(s)[|TrimEnd(s)| - 1])
    ensures IsBlank(s[|TrimEnd(s)|..])
  {
    if s != [] && IsJsWhitespace(s[|s| - 1]) {
      var t := s[..|s| - 1];
      TrimEndFacts(t);
      var r := TrimEnd(t);
      assert t[..|r|] == s[..|r|];
      assert forall i :: 0 <= i < |t| - |r| ==> t[|r|..][i] == s[|r|..][i];
    } else {
      assert s[..|s|] == s;
    }
  }

  /** `trim` leaves nothing exactly when `s` is blank, and what it leaves has no whitespace at either end. */
  lemma TrimFacts(s: string)
    ensures Trim(s) == [] <==> IsBlank(s)
    ensures Trim(s) != [] ==> !IsJsWhitespace(Trim(s)[0]) && !IsJsWhitespace(Trim(s)[|Trim(s)| - 1])
  {
    var t := TrimStart(s);
    TrimStartFacts(s);
    TrimEndFacts(t);
    TrimParts(s, t, TrimEnd(t));
  }

  /**
   * How the two halves of `Trim` combine: nothing is left exactly when
   * everything was blank. `t` and `r` are given by what `TrimStart` and
   * `TrimEnd` promise.
   */
  lemma TrimParts(s: string, t: string, r: string)
    requires |t| <= |s| && t == s[|s| - |t|..] && (t == [] || !IsJsWhitespace(t[0])) && IsBlank(s[..|s| - |t|])
    requires |r| <= |t| && r == t[..|r|] && IsBlank(t[|r|..])
    ensures r == [] <==> IsBlank(s)
    ensures r != [] ==> r[0] == t[0]
  {
    var p := |s| - |t|;
    assert s == s[..p] + t;
    if r == [] {
      assert t[|r|..] == t;
      BlankConcat(s[..p], t);
    } else {
      assert s[p] == t[0];
    }
  }

  lemma BlankConcat(a: string, b: string)
    requires IsBlank(a) && IsBlank(b)
    ensures IsBlank(a + b)
  {
    forall i | 0 <= i < |a + b| ensures IsJsWhitespace((a + b)[i]) {
      if i >= |a| {
        assert (a + b)[i] == b[i - |a|];
      }
    }
  }

  /** Surrounding blanks are exactly what `Trim` removes. */
  lemma {:induction false} TrimStrips(pre: string, core: string, post: string)
    requires IsBlank(pre) && IsBlank(post)
    requires core == [] || (!IsJsWhitespace(core[0]) && !IsJsWhitespace(core[|core| - 1]))
    ensures Trim(pre + core + post) == core
  {
    if core == [] {
      assert pre + core + post == pre + post;
      TrimStartStrips(pre, post);
    } else {
      assert pre + core + post == pre + (core + post);
      assert !IsBlank(core + post) by {
        assert (core + post)[0] == core[0];
      }
      TrimStartStrips(pre, core + post);
      TrimEndStrips(core, post);
    }
  }

  lemma {:induction false} TrimStartStrips(pre: string, rest: string)
    requires IsBlank(pre)
    requires rest == [] || !IsJsWhitespace(rest[0]) || IsBlank(rest)
    ensures TrimStart(pre + rest) == if IsBlank(rest) then [] else rest
  {
    if pre == [] {
      assert pre + rest == rest;
      if rest != [] && IsBlank(rest) {
        assert IsBlank(rest[1..]);
        TrimStartStrips([], rest[1..]);
        assert [] + rest[1..] == rest[1..];
      }
    } else {
      assert (pre + rest)[1..] == pre[1..] + rest;
      TrimStartStrips(pre[1..], rest);
    }
  }

  lemma {:induction false} TrimEndStrips(core: string, post: string)
    requires IsBlank(post)
    requires core == [] || !IsJsWhitespace(core[|core| - 1])
    ensures TrimEnd(core + post) == core
  {
    if post == [] {
      assert core + post == core;
    } else {
      assert (core + post)[..|core + post| - 1] == core + post[..|post| - 1];
      TrimEndStrips(core, post[..|post| - 1]);
    }
  }

  /** A string with no whitespace at either end is its own trim. */
  lemma TrimTrimmed(core: string)
    requires core == [] || (!IsJsWhitespace(core[0]) && !IsJsWhitespace(core[|core| - 1]))
    ensures Trim(core) == core
  {
    TrimStrips([], core, []);
    assert [] + core + [] == core;
  }

  /** Trimming twice is trimming once. */
  lemma TrimIdempotent(s: string)
    ensures Trim(Trim(s)) == Trim(s)
  {
    TrimFacts(s);
    TrimTrimmed(Trim(s));
  }

  // ---------------------------------------------------------------------------
  // length

  /**
   * JavaScript's `length`: the number of UTF-16 code units, so a code point
   * above U+FFFF (an emoji, say) counts twice.
   */
  function Utf16Length(s: string): (n: nat)
    ensures |s| <= n <= 2 * |s|
    ensures n == |s| <==> forall i :: 0 <= i < |s| ==> s[i] as int <= 0xFFFF
  {
    if s == [] then 0
    else
      var rest := Utf16Length(s[1..]);
      assert forall i :: 1 <= i < |s| ==> s[i] == s[1..][i - 1];
      (if s[0] as int > 0xFFFF then 2 else 1) + rest
  }

  // ---------------------------------------------------------------------------
  // replace with a string pattern

  /** `pat` occurs in `s` starting at index `i`. */
  predicate OccursAt(s: string, pat: string, i: nat)
  {
    i + |pat| <= |s| && s[i..i + |pat|] == pat
  }

  /** The first index at or after `k` where `pat` occurs, if any. */
  function FindFrom(s: string, pat: string, k: nat): (r: Option<nat>)
    requires k <= |s|
    ensures r.Some? ==> k <= r.value && OccursAt(s, pat, r.value)
    ensures r.Some? ==> forall j :: k <= j < r.value ==> !OccursAt(s, pat, j)
    ensures r.None? ==> forall j :: k <= j <= |s| ==> !OccursAt(s, pat, j)
    decreases |s| - k
  {
    if OccursAt(s, pat, k) then Some(k)
    else if k == |s| then None
    else FindFrom(s, pat, k + 1)
  }

  /**
   * `s.replace(pat, rep)` with a string pattern and a replacement without
   * `$`: the first occurrence of `pat` is replaced and all others are left
   * alone; without an occurrence `s` is returned unchanged.
   */
  function ReplaceFirst(s: string, pat: string, rep: string): (r: string)
    ensures (forall j :: 0 <= j <= |s| ==> !OccursAt(s, pat, j)) ==> r == s
    ensures forall i: nat :: i <= |s| && OccursAt(s, pat, i)
                && (forall j :: 0 <= j < i ==> !OccursAt(s, pat, j))
                ==> r == s[..i] + rep + s[i + |pat|..]
  {
    match FindFrom(s, pat, 0)
    case None => s
    case Some(i) => s[..i] + rep + s[i + |pat|..]
  }

  /** A pattern does not occur where its first character does not stand. */
  lemma NotOccursAt(s: string, pat: string, j: nat)
    requires pat != [] && (j >= |s| || s[j] != pat[0])
    ensures !OccursAt(s, pat, j)
  {
    if j + |pat| <= |s| {
      assert s[j..j + |pat|][0] == s[j];
    }
  }

  /** A one-character pattern occurs exactly where that character stands. */
  lemma OccursAtChar(s: string, c: char, i: nat)
    ensures OccursAt(s, [c], i) <==> i < |s| && s[i] == c
  {
    if i < |s| && s[i] == c {
      assert s[i..i + 1] == [c];
    }
  }

  /** Without a `c`, removing the first `c` changes nothing. */
  lemma RemoveAbsentChar(s: string, c: char)
    requires c !in s
    ensures ReplaceFirst(s, [c], "") == s
  {
    forall j | 0 <= j <= |s| ensures !OccursAt(s, [c], j) {
      OccursAtChar(s, c, j);
    }
  }

  /** Removing the first `c`, which stands at `i`, cuts out position `i` and keeps the rest in order. */
  lemma RemoveFirstCharAt(s: string, c: char, i: nat)
    requires i < |s| && s[i] == c && c !in s[..i]
    ensures ReplaceFirst(s, [c], "") == s[..i] + s[i + 1..]
  {
    OccursAtChar(s, c, i);
    forall j | 0 <= j < i ensures !OccursAt(s, [c], j) {
      OccursAtChar(s, c, j);
      assert s[..i][j] == s[j];
    }
    assert s[..i] + "" + s[i + 1..] == s[..i] + s[i + 1..];
  }

  /** Where the first `c` stands. */
  lemma FirstIndexOfChar(s: string, c: char) returns (i: nat)
    requires c in s
    ensures i < |s| && s[i] == c && c !in s[..i]
  {
    i := 0;
    while s[i] != c
      invariant i < |s| && c in s[i..] && c !in s[..i]
      decreases |s| - i
    {
      assert s[i..] == [s[i]] + s[i + 1..];
      assert s[..i + 1] == s[..i] + [s[i]];
      i := i + 1;
    }
  }

  /** `r` is `s`, or `s` with one position cut out and the rest in order. */
  predicate DropsAtMostOne(s: string, r: string)
  {
    r == s || exists i :: 0 <= i < |s| && r == s[..i] + s[i + 1..]
  }

  /** Removing the first `c` cuts out at most one position. */
  lemma RemoveFirstCharDropsOne(s: string, c: char)
    ensures DropsAtMostOne(s, ReplaceFirst(s, [c], ""))
  {
    if c in s {
      var i := FirstIndexOfChar(s, c);
      RemoveFirstCharAt(s, c, i);
    } else {
      RemoveAbsentChar(s, c);
    }
  }

  /** Cutting out position `i` takes that one character out of the multiset. */
  lemma MultisetCut(s: string, i: nat)
    requires i < |s|
    ensures multiset(s[..i] + s[i + 1..]) == multiset(s) - multiset{s[i]}
  {
    var a, b := s[..i], s[i + 1..];
    assert s == a + [s[i]] + b;
    var rest := multiset(a) + multiset(b);
    assert multiset(s) == rest + multiset{s[i]};
  }

  /** Removing the first `c` takes exactly one `c` out of the multiset of characters, if there is one. */
  lemma RemoveFirstCharMultiset(s: string, c: char)
    ensures multiset(ReplaceFirst(s, [c], "")) == multiset(s) - multiset{c}
  {
    if c in s {
      var i := FirstIndexOfChar(s, c);
      RemoveFirstCharAt(s, c, i);
      MultisetCut(s, i);
    } else {
      RemoveAbsentChar(s, c);
      assert c !in multiset(s);
    }
  }

  // ---------------------------------------------------------------------------
  // decimal text of a non-negative integer

  predicate IsDigit(c: char)
  {
    '0' <= c <= '9'
  }

  predicate AllDigits(s: string)
  {
    forall i :: 0 <= i < |s| ==> IsDigit(s[i])
  }

  function DigitChar(d: nat): (c: char)
    requires d < 10
    ensures IsDigit(c)
  {
    ('0' as int + d) as char
  }

  function DigitValue(c: char): (d: nat)
    requires IsDigit(c)
    ensures d < 10 && DigitChar(d) == c
  {
    c as int - '0' as int
  }

  /** `${n}` for a non-negative integer: its shortest decimal text. */
  function NatToDecimal(n: nat): (s: string)
    ensures s != [] && AllDigits(s)
    ensures s[0] == '0' ==> n == 0
    decreases n
  {
    if n < 10 then [DigitChar(n)]
    else NatToDecimal(n / 10) + [DigitChar(n % 10)]
  }

  /** The number a string of decimal digits denotes. */
  function DecimalValue(s: string): nat
    requires AllDigits(s)
  {
    if s == [] then 0
    else 10 * DecimalValue(s[..|s| - 1]) + DigitValue(s[|s| - 1])
  }

  /** Reading back the decimal text gives the number printed. */
  lemma {:induction false} DecimalRoundTrip(n: nat)
    ensures DecimalValue(NatToDecimal(n)) == n
    decreases n
  {
    var s := NatToDecimal(n);
    if n >= 10 {
      assert s[..|s| - 1] == NatToDecimal(n / 10);
      DecimalRoundTrip(n / 10);
    }
  }

  /** The longest prefix of `s` made of decimal digits. */
  function LeadingDigits(s: string): (r: string)
    ensures |r| <= |s| && r == s[..|r|] && AllDigits(r)
    ensures |r| == |s| || !IsDigit(s[|r|])
  {
    if s != [] && IsDigit(s[0]) then [s[0]] + LeadingDigits(s[1..]) else []
  }

  /** Digits followed by a non-digit (or nothing): the digits are the leading digits. */
  lemma {:induction false} LeadingDigitsOf(d: string, rest: string)
    requires AllDigits(d)
    requires rest == [] || !IsDigit(rest[0])
    ensures LeadingDigits(d + rest) == d
  {
    if d == [] {
      assert d + rest == rest;
    } else {
      assert (d + rest)[1..] == d[1..] + rest;
      LeadingDigitsOf(d[1..], rest);
    }
  }

  // ---------------------------------------------------------------------------
  // lower case

  /** An upper-case ASCII letter becomes the lower-case letter at the same place in the alphabet; any other character is kept. */
  function LowerAscii(c: char): (r: char)
    ensures !('A' <= r <= 'Z')
    ensures 'A' <= c <= 'Z' ==> 'a' <= r <= 'z' && r as int - 'a' as int == c as int - 'A' as int
    ensures !('A' <= c <= 'Z') ==> r == c
  {
    if 'A' <= c <= 'Z' then (c as int + 32) as char else c
  }

  /** `s.toLowerCase()` restricted to ASCII letters: each character is lower-cased on its own. */
  function ToLowerAscii(s: string): (r: string)
    ensures |r| == |s|
    ensures forall i :: 0 <= i < |s| ==> r[i] == LowerAscii(s[i])
  {
    seq(|s|, i requires 0 <= i < |s| => LowerAscii(s[i]))
  }

  /** `a` and `b` are the same character up to ASCII case. */
  predicate SameUpToCase(a: char, b: char)
  {
    a == b
    || ('A' <= a <= 'Z' && b as int == a as int + 32)
    || ('A' <= b <= 'Z' && a as int == b as int + 32)
  }

  /** Characters that agree up to ASCII case lower-case to the same character. */
  lemma LowerAsciiSameUpToCase(a: char, b: char)
    requires SameUpToCase(a, b)
    ensures LowerAscii(a) == LowerAscii(b)
  {
  }

  /** Two strings that agree up to ASCII case, position by position, have the same lower case. */
  lemma ToLowerAsciiSameUpToCase(s: string, t: string)
    requires |s| == |t| && forall i :: 0 <= i < |s| ==> SameUpToCase(s[i], t[i])
    ensures ToLowerAscii(s) == ToLowerAscii(t)
  {
    forall i | 0 <= i < |s| ensures ToLowerAscii(s)[i] == ToLowerAscii(t)[i] {
      LowerAsciiSameUpToCase(s[i], t[i]);
    }
  }

  /** `s` has no upper-case ASCII letter. */
  predicate IsLowerAscii(s: string)
  {
    forall i :: 0 <= i < |s| ==> !('A' <= s[i] <= 'Z')
  }

  /** Lower-casing leaves no upper-case ASCII letter, and a string without any is a fixed point. */
  lemma LowerAsciiFixes(s: string)
    ensures IsLowerAscii(ToLowerAscii(s))
    ensures IsLowerAscii(s) <==> ToLowerAscii(s) == s
  {
    if IsLowerAscii(s) {
      assert ToLowerAscii(s) == s;
    }
    if ToLowerAscii(s) == s {
      assert forall i :: 0 <= i < |s| ==> s[i] == LowerAscii(s[i]);
    }
  }
}
