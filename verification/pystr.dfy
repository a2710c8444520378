/**
 * The handful of Python `str` operations the monitor code relies on, on
 * `seq<char>`. Case mapping and whitespace are the ASCII subsets of
 * Python's Unicode rules.
 */
module PyStr {
  import opened Wrappers

  /** ASCII whitespace as `str.isspace` classifies it. */
  predicate IsSpace(c: char)
  {
    c == ' ' || c == '\t' || c == '\n' || c == '\r' || c == '\U{000B}' || c == '\U{000C}'
  }

  predicate IsDigit(c: char) { '0' <= c <= '9' }

  predicate IsAsciiLetter(c: char) { 'a' <= c <= 'z' || 'A' <= c <= 'Z' }

  predicate AllDigits(s: string) { forall i :: 0 <= i < |s| ==> IsDigit(s[i]) }

  function LowerChar(c: char): char
  {
    if 'A' <= c <= 'Z' then (c as int + 32) as char else c
  }

  /** `s.lower()` */
  function Lower(s: string): (r: string)
    ensures |r| == |s|
    ensures forall i :: 0 <= i < |s| ==> r[i] == LowerChar(s[i])
  {
    seq(|s|, i requires 0 <= i < |s| => LowerChar(s[i]))
  }

  /** `s.lstrip()` */
  function StripLeft(s: string): (r: string)
    ensures |r| <= |s| && r == s[|s| - |r|..]
    ensures r == [] || !IsSpace(r[0])
  {
    if |s| > 0 && IsSpace(s[0]) then StripLeft(s[1..]) else s
  }

  /** `s.rstrip()` */
  function StripRight(s: string): (r: string)
    ensures |r| <= |s| && r == s[..|r|]
    ensures r == [] || !IsSpace(r[|r| - 1])
  {
    if |s| > 0 && IsSpace(s[|s| - 1]) then StripRight(s[..|s| - 1]) else s
  }

  /** `s.strip()` */
  function Strip(s: string): string
  {
    StripRight(StripLeft(s))
  }

  predicate StartsWith(s: string, prefix: string)
  {
    |prefix| <= |s| && s[..|prefix|] == prefix
  }

  predicate EndsWith(s: string, suffix: string)
  {
    |suffix| <= |s| && s[|s| - |suffix|..] == suffix
  }

  /** Python's `sub in s`; the empty string occurs in every string. */
  predicate Contains(s: string, sub: string)
  {
    exists i :: 0 <= i <= |s| && StartsWith(s[i..], sub)
  }

  lemma ContainsEmpty(s: string)
    ensures Contains(s, "")
  {
    assert StartsWith(s[0..], "");
  }

  lemma ContainsSelf(s: string)
    ensures Contains(s, s)
  {
    assert s[0..] == s;
    assert StartsWith(s[0..], s);
  }

  lemma StartsWithContains(s: string, prefix: string)
    requires StartsWith(s, prefix)
    ensures Contains(s, prefix)
  {
    assert s[0..] == s;
  }

  lemma ContainsLength(s: string, sub: string)
    requires Contains(s, sub)
    ensures |sub| <= |s|
  {
  }

  /** The part of `s` after its last `c`; all of `s` when `c` does not occur: `s.split(c)[-1]`. */
  function LastSegment(s: string, c: char): (r: string)
    ensures |r| <= |s| && r == s[|s| - |r|..]
    ensures c !in r
    ensures c in s ==> |r| < |s| && s[|s| - |r| - 1] == c
    ensures c !in s ==> r == s
  {
    if |s| == 0 then s
    else if s[|s| - 1] == c then []
    else
      var r := LastSegment(s[..|s| - 1], c) + [s[|s| - 1]];
      assert c in s ==> c in s[..|s| - 1];
      r
  }

  /** The part after the last separator of `x + [c] + y` is `y` when `y` has no separator. */
  lemma {:induction false} LastSegmentAfterSeparator(x: string, c: char, y: string)
    requires c !in y
    ensures LastSegment(x + [c] + y, c) == y
  {
    var s := x + [c] + y;
    if y == [] {
      assert s[|s| - 1] == c;
    } else {
      assert s[..|s| - 1] == x + [c] + y[..|y| - 1];
      assert s[|s| - 1] == y[|y| - 1];
      LastSegmentAfterSeparator(x, c, y[..|y| - 1]);
      assert y == y[..|y| - 1] + [y[|y| - 1]];
    }
  }

  /** The leading run of non-space characters. */
  function Word(s: string): (r: string)
    ensures |r| <= |s| && r == s[..|r|]
    ensures forall i :: 0 <= i < |r| ==> !IsSpace(r[i])
    ensures |r| == |s| || IsSpace(s[|r|])
  {
    if |s| == 0 || IsSpace(s[0]) then [] else [s[0]] + Word(s[1..])
  }

  /** `s.split()`: the maximal runs of non-space characters, in order. */
  function SplitWs(s: string): (r: seq<string>)
    decreases |s|
  {
    var t := StripLeft(s);
    if t == [] then []
    else
      var w := Word(t);
      [w] + SplitWs(t[|w|..])
  }

  /** `s.split(c)`: the pieces between occurrences of `c`; always at least one. */
  function SplitOn(s: string, c: char): (r: seq<string>)
    ensures |r| >= 1
    ensures forall k :: 0 <= k < |r| ==> c !in r[k]
    decreases |s|
  {
    if c !in s then [s]
    else
      var i := IndexOf(s, c);
      [s[..i]] + SplitOn(s[i + 1..], c)
  }

  function IndexOf(s: string, c: char): (i: nat)
    requires c in s
    ensures i < |s| && s[i] == c && c !in s[..i]
  {
    if s[0] == c then 0 else 1 + IndexOf(s[1..], c)
  }

  function DigitChar(d: nat): (c: char)
    requires d < 10
    ensures IsDigit(c)
  {
    ('0' as int + d) as char
  }

  function DigitValue(c: char): (d: nat)
    requires IsDigit(c)
    ensures d < 10 && DigitChar(d) == c
  {
    c as int - '0' as int
  }

  /** `str(n)` for a natural number. */
  function NatToString(n: nat): (r: string)
    ensures r != [] && AllDigits(r)
  {
    if n < 10 then [DigitChar(n)] else NatToString(n / 10) + [DigitChar(n % 10)]
  }

  /** `str(i)` for an integer. */
  function IntToString(i: int): (r: string)
    ensures r != [] && (forall k :: 0 <= k < |r| ==> IsDigit(r[k]) || r[k] == '-')
  {
    if i < 0 then "-" + NatToString(-i) else NatToString(i)
  }

  /** The value of a non-empty string of decimal digits. */
  function DecimalValue(s: string): nat
    requires s != [] && AllDigits(s)
  {
    if |s| == 1 then DigitValue(s[0])
    else DecimalValue(s[..|s| - 1]) * 10 + DigitValue(s[|s| - 1])
  }

  /** `int(s)` for ASCII input: optional surrounding whitespace and sign, then digits. */
  function ParseInt(s: string): (r: Option<int>)
  {
    ParseSigned(Strip(s))
  }

  /** `int(t)` once surrounding whitespace is gone: an optional sign, then one or more digits. */
  function ParseSigned(t: string): (r: Option<int>)
  {
    if t == [] then None
    else
      var negative := t[0] == '-';
      var digits := if t[0] == '-' || t[0] == '+' then t[1..] else t;
      if digits == [] || !AllDigits(digits) then None
      else if negative then Some(-(DecimalValue(digits) as int))
      else Some(DecimalValue(digits))
  }

  lemma {:induction false} DecimalOfNatToString(n: nat)
    ensures DecimalValue(NatToString(n)) == n
  {
    if n >= 10 {
      var s := NatToString(n);
      assert s[..|s| - 1] == NatToString(n / 10);
      DecimalOfNatToString(n / 10);
    }
  }

  lemma StripNoEdgeSpace(s: string)
    requires s != [] && !IsSpace(s[0]) && !IsSpace(s[|s| - 1])
    ensures Strip(s) == s
  {
  }

  /** `int(str(i)) == i`: the decimal rendering of an integer reads back as that integer. */
  lemma {:induction false} ParseIntOfIntToString(i: int)
    ensures ParseInt(IntToString(i)) == Some(i)
  {
    if i < 0 {
      ParseIntOfNegative(i);
    } else {
      ParseIntOfNonNegative(i);
    }
  }

  lemma ParseIntOfNonNegative(i: int)
    requires i >= 0
    ensures ParseInt(IntToString(i)) == Some(i)
  {
    var s := NatToString(i);
    assert IsDigit(s[0]) && IsDigit(s[|s| - 1]);
    StripNoEdgeSpace(s);
    DecimalOfNatToString(i);
  }

  lemma ParseIntOfNegative(i: int)
    requires i < 0
    ensures ParseInt(IntToString(i)) == Some(i)
  {
    var n: nat := -i;
    ParseIntOfMinusNat(n);
    NegativeRendering(i, n);
  }

  lemma NegativeRendering(i: int, n: nat)
    requires i < 0 && n == -i
    ensures IntToString(i) == "-" + NatToString(n)
  {
  }

  /** A minus sign followed by the decimal rendering of `n` reads back as `-n`. */
  lemma ParseIntOfMinusNat(n: nat)
    ensures ParseInt("-" + NatToString(n)) == Some(-(n as int))
  {
    var d := NatToString(n);
    DecimalOfNatToString(n);
    ParseIntOfMinusRendering(n, d);
  }

  lemma ParseIntOfMinusRendering(n: nat, d: string)
    requires d == NatToString(n)
    ensures ParseInt("-" + d) == Some(-(DecimalValue(d) as int))
  {
    ParseIntOfMinusDigits(d);
  }

  /** A minus sign followed by digits reads back as the negated digit value. */
  lemma ParseIntOfMinusDigits(d: string)
    requires d != [] && AllDigits(d)
    ensures ParseInt("-" + d) == Some(-(DecimalValue(d) as int))
  {
    var s := "-" + d;
    assert |s| >= 2 && s[0] == '-' && s[1..] == d && !IsSpace(s[|s| - 1]) by {
      assert s[|s| - 1] == d[|d| - 1] && IsDigit(d[|d| - 1]);
    }
    ParseIntOfMinusText(s, d);
  }

  /** A text of a minus sign and digits, with no space at its end, reads back as the negated digit value. */
  lemma ParseIntOfMinusText(s: string, d: string)
    requires |s| >= 2 && s[0] == '-' && s[1..] == d && AllDigits(d) && !IsSpace(s[|s| - 1])
    ensures ParseInt(s) == Some(-(DecimalValue(d) as int))
  {
    ParseIntOfUnpadded(s);
    ParseSignedMinus(s);
  }

  /** Without surrounding whitespace, `int()` reads the text as it is. */
  lemma ParseIntOfUnpadded(s: string)
    requires s != [] && !IsSpace(s[0]) && !IsSpace(s[|s| - 1])
    ensures ParseInt(s) == ParseSigned(s)
  {
    StripNoEdgeSpace(s);
  }

  lemma ParseSignedMinus(t: string)
    requires |t| >= 2 && t[0] == '-' && AllDigits(t[1..])
    ensures ParseSigned(t) == Some(-(DecimalValue(t[1..]) as int))
  {
  }

  /** Distinct integers have distinct decimal renderings. */
  lemma IntToStringInjective(a: int, b: int)
    requires IntToString(a) == IntToString(b)
    ensures a == b
  {
    ParseIntOfIntToString(a);
    ParseIntOfIntToString(b);
  }

  /** `Strip` is idempotent: a stripped string has no whitespace at either end. */
  lemma StripIdempotent(s: string)
    ensures Strip(Strip(s)) == Strip(s)
  {
    var t := Strip(s);
    if t != [] {
      assert !IsSpace(t[|t| - 1]);
      assert StripLeft(s) == [] || !IsSpace(StripLeft(s)[0]);
      assert t == StripLeft(s)[..|t|];
      StripNoEdgeSpace(t);
    }
  }

  /** `sep.join(parts)` */
  function Join(parts: seq<string>, sep: string): (r: string)
    ensures parts == [] ==> r == ""
    ensures |parts| == 1 ==> r == parts[0]
  {
    if parts == [] then ""
    else if |parts| == 1 then parts[0]
    else Join(parts[..|parts| - 1], sep) + sep + parts[|parts| - 1]
  }

  /** A join starts with its first part. */
  lemma {:induction false} JoinStartsWithFirst(parts: seq<string>, sep: string)
    requires parts != []
    ensures StartsWith(Join(parts, sep), parts[0])
    decreases |parts|
  {
    if |parts| > 1 {
      var init := parts[..|parts| - 1];
      JoinStartsWithFirst(init, sep);
      var j := Join(init, sep);
      assert (j + sep + parts[|parts| - 1])[..|parts[0]|] == j[..|parts[0]|];
    }
  }

  /** A join ends with its last part. */
  lemma JoinEndsWithLast(parts: seq<string>, sep: string)
    requires parts != []
    ensures var j := Join(parts, sep); var last := parts[|parts| - 1];
      |last| <= |j| && j[|j| - |last|..] == last
  {
    var j := Join(parts, sep);
    var last := parts[|parts| - 1];
    if |parts| > 1 {
      assert j == Join(parts[..|parts| - 1], sep) + sep + last;
    }
  }

  /** `s.replace(pat, "")`: every non-overlapping occurrence, scanning left to right, is deleted. */
  function RemoveAll(s: string, pat: string): (r: string)
    requires pat != ""
    ensures |r| <= |s|
    ensures !Contains(s, pat) ==> r == s
    decreases |s|
  {
    if |s| < |pat| then
      s
    else if s[..|pat|] == pat then
      assert s[0..] == s && StartsWith(s[0..], pat);
      RemoveAll(s[|pat|..], pat)
    else
      var rest := RemoveAll(s[1..], pat);
      assert !Contains(s, pat) ==> !Contains(s[1..], pat) by {
        if Contains(s[1..], pat) {
          var i :| 0 <= i <= |s[1..]| && StartsWith(s[1..][i..], pat);
          assert s[1..][i..] == s[i + 1..];
        }
      }
      assert !Contains(s, pat) ==> [s[0]] + s[1..] == s;
      [s[0]] + rest
  }

  lemma LowerIdempotent(s: string)
    ensures Lower(Lower(s)) == Lower(s)
  {
  }

  /** Stripping a lowercase string leaves it lowercase. */
  lemma StripKeepsLower(s: string)
    requires Lower(s) == s
    ensures Lower(Strip(s)) == Strip(s)
  {
    var a := StripSlice(s);
    LowerSlice(s, a, a + |Strip(s)|);
  }

  /** The stripped string is a contiguous slice of the original, starting at the returned index. */
  lemma StripSlice(s: string) returns (a: nat)
    ensures a + |Strip(s)| <= |s| && Strip(s) == s[a..a + |Strip(s)|]
  {
    var l := StripLeft(s);
    a := |s| - |l|;
    assert Strip(s) == l[..|Strip(s)|];
  }

  /** A stripped string is empty or ends in a non-space character. */
  lemma StripEndsWithNonSpace(s: string)
    ensures Strip(s) == [] || !IsSpace(Strip(s)[|Strip(s)| - 1])
  {
  }

  /** Lowercasing commutes with slicing. */
  lemma LowerSlice(s: string, a: nat, b: nat)
    requires a <= b <= |s|
    ensures Lower(s[a..b]) == Lower(s)[a..b]
  {
  }

  /** Whatever occurs in a slice occurs in the whole string. */
  lemma ContainsInSlice(s: string, a: nat, b: nat, q: string)
    requires a <= b <= |s| && Contains(s[a..b], q)
    ensures Contains(s, q)
  {
    var w := s[a..b];
    var i :| 0 <= i <= |w| && StartsWith(w[i..], q);
    assert i + |q| <= |w|;
    forall k | 0 <= k < |q| ensures s[a + i + k] == q[k] {
      assert w[i..][..|q|][k] == q[k];
      assert w[i + k] == s[a + i + k];
    }
    assert s[a + i..][..|q|] == q;
  }

  /** Whatever occurs in the stripped text occurs in the text itself, case-insensitively too. */
  lemma ContainsInStripped(t: string, q: string)
    requires Contains(Lower(Strip(t)), q)
    ensures Contains(Lower(t), q)
  {
    var a := StripSlice(t);
    ContainsInLowerSlice(t, a, a + |Strip(t)|, q);
  }

  lemma ContainsInLowerSlice(t: string, a: nat, b: nat, q: string)
    requires a <= b <= |t| && Contains(Lower(t[a..b]), q)
    ensures Contains(Lower(t), q)
  {
    LowerSlice(t, a, b);
    ContainsInSlice(Lower(t), a, b, q);
  }

  /** Lowercasing distributes over concatenation. */
  lemma LowerConcat(a: string, b: string)
    ensures Lower(a + b) == Lower(a) + Lower(b)
  {
    var l := Lower(a + b);
    var r := Lower(a) + Lower(b);
    forall i | 0 <= i < |l| ensures l[i] == r[i] {
      if i < |a| { assert (a + b)[i] == a[i]; } else { assert (a + b)[i] == b[i - |a|]; }
    }
  }

  lemma EndsWithTrans(a: string, b: string, c: string)
    requires EndsWith(b, a) && EndsWith(c, b)
    ensures EndsWith(c, a)
  {
    assert c[|c| - |a|..] == c[|c| - |b|..][|b| - |a|..];
  }

  /** The separator before the last segment, together with it, is a suffix. */
  lemma LastSegmentWithSeparator(s: string, c: char)
    requires c in s
    ensures EndsWith(s, [c] + LastSegment(s, c))
  {
    var seg := LastSegment(s, c);
    var k := |s| - |seg| - 1;
    assert s[k + 1..] == seg;
    assert s[k] == c;
    assert s[k..] == [c] + seg;
  }

  lemma LowerDotPrefix(x: string)
    ensures Lower("." + x) == "." + Lower(x)
  {
    LowerConcat(".", x);
    assert Lower(".")[0] == '.';
  }

  /** An occurrence inside an occurrence is an occurrence. */
  lemma ContainsTrans(s: string, mid: string, sub: string)
    requires Contains(s, mid) && Contains(mid, sub)
    ensures Contains(s, sub)
  {
    var i :| 0 <= i <= |s| && StartsWith(s[i..], mid);
    var j :| 0 <= j <= |mid| && StartsWith(mid[j..], sub);
    assert j + |sub| <= |mid| && i + |mid| <= |s|;
    forall k | 0 <= k < |sub| ensures s[i + j + k] == sub[k] {
      assert mid[j..][..|sub|][k] == mid[j + k];
      assert s[i..][..|mid|][j + k] == s[i + j + k];
    }
    assert s[i + j..][..|sub|] == sub;
  }

  /** The strings of `subs` that occur in `s`, in order: `any(x in s for x in subs)` is `AnyContained`. */
  predicate AnyContained(s: string, subs: seq<string>)
  {
    exists k :: 0 <= k < |subs| && Contains(s, subs[k])
  }
}
