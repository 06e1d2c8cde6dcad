/** Strings as the program sees them: Python's `<` on `str`, decimal rendering
    of numbers, `find`, `startswith`, `replace`, `strip` and `':'.join`. */
module Text {

  predicate IsDigit(c: char) { '0' <= c <= '9' }

  /** The decimal digit character for 0..9. */
  function Digit(d: nat): (c: char)
    requires d < 10
    ensures IsDigit(c) && c as int == '0' as int + d
  {
    (48 + d) as char
  }

  function Pow10(k: nat): (r: nat)
    ensures r >= 1
  {
    if k == 0 then 1 else 10 * Pow10(k - 1)
  }

  /** `n` written with exactly `width` digits, leading zeros included
      (the `%02d` / `%06d` renderings of `str(datetime)`). */
  function Pad(n: nat, width: nat): (s: string)
    ensures |s| == width
    ensures forall i :: 0 <= i < |s| ==> IsDigit(s[i])
  {
    if width == 0 then [] else Pad(n / 10, width - 1) + [Digit(n % 10)]
  }

  /** `str(n)` for a natural number. */
  function NatText(n: nat): (s: string)
    ensures |s| >= 1
  {
    if n < 10 then [Digit(n)] else NatText(n / 10) + [Digit(n % 10)]
  }

  /** `str(i)` for an integer (the `{:00}` format adds no padding). */
  function IntText(i: int): string
  {
    if i < 0 then "-" + NatText(-i) else NatText(i)
  }

  // ---------------------------------------------------------------------------
  // Lexicographic order of strings (Python's `<` on `str`: code point by code
  // point, a proper prefix sorts first).

  predicate StrLt(a: string, b: string)
  {
    if |a| == 0 then |b| > 0
    else |b| > 0 && (if a[0] == b[0] then StrLt(a[1..], b[1..]) else a[0] < b[0])
  }

  lemma {:induction false} StrLtIrreflexive(a: string)
    ensures !StrLt(a, a)
  {
    if |a| > 0 { StrLtIrreflexive(a[1..]); }
  }

  lemma {:induction false} StrLtTransitive(a: string, b: string, c: string)
    requires StrLt(a, b) && StrLt(b, c)
    ensures StrLt(a, c)
  {
    if |a| > 0 && a[0] == b[0] && b[0] == c[0] {
      StrLtTransitive(a[1..], b[1..], c[1..]);
    }
  }

  lemma {:induction false} StrLtTrichotomy(a: string, b: string)
    ensures a == b || StrLt(a, b) || StrLt(b, a)
  {
    if |a| > 0 && |b| > 0 && a[0] == b[0] {
      StrLtTrichotomy(a[1..], b[1..]);
      if a[1..] == b[1..] {
        assert a == [a[0]] + a[1..] && b == [b[0]] + b[1..];
      }
    }
  }

  /** Two strings that agree before position `k` and differ there are
      ordered by their characters at `k`. */
  lemma {:induction false} StrLtAt(a: string, b: string, k: nat)
    requires k < |a| && k < |b| && a[..k] == b[..k] && a[k] < b[k]
    ensures StrLt(a, b)
  {
    if k > 0 {
      assert a[0] == a[..k][0] && b[0] == b[..k][0];
      assert a[1..][..k - 1] == a[1..k] && b[1..][..k - 1] == b[1..k];
      assert a[1..k] == a[..k][1..] && b[1..k] == b[..k][1..];
      StrLtAt(a[1..], b[1..], k - 1);
    }
  }

  /** Comparing two strings that start with blocks of the same length: the
      blocks decide, and only equal blocks hand the decision to the rest. */
  lemma {:induction false} ConcatOrder(p: string, q: string, x: string, y: string)
    requires |p| == |q|
    ensures StrLt(p + x, q + y) <==> StrLt(p, q) || (p == q && StrLt(x, y))
    ensures p + x == q + y <==> p == q && x == y
  {
    if |p| == 0 {
      assert p + x == x && q + y == y;
    } else {
      assert (p + x)[0] == p[0] && (q + y)[0] == q[0];
      assert (p + x)[1..] == p[1..] + x && (q + y)[1..] == q[1..] + y;
      ConcatOrder(p[1..], q[1..], x, y);
      if p[0] == q[0] && p[1..] == q[1..] {
        assert p == q by { assert p == [p[0]] + p[1..] && q == [q[0]] + q[1..]; }
      }
      if p + x == q + y {
        assert p == (p + x)[..|p|] && q == (q + y)[..|q|];
        assert x == (p + x)[|p|..] && y == (q + y)[|q|..];
      }
    }
  }

  /** Quotient and remainder by a positive divisor order like a two-digit number. */
  lemma DivModOrder(a: nat, b: nat, c: nat)
    requires c > 0
    ensures a < b <==> a / c < b / c || (a / c == b / c && a % c < b % c)
    ensures a == b <==> a / c == b / c && a % c == b % c
  {
    var qa, ra, qb, rb := a / c, a % c, b / c, b % c;
    var x, y := c * qa, c * qb;
    assert a == x + ra && b == y + rb && ra < c && rb < c;
    if qa < qb {
      MulStep(c, qa, qb);
      assert x + c <= y;
    } else if qb < qa {
      MulStep(c, qb, qa);
      assert y + c <= x;
    } else {
      assert x == y;
    }
  }

  lemma MulStep(c: nat, p: nat, q: nat)
    requires p < q
    ensures c * p + c <= c * q
  {
    var d := q - p - 1;
    assert q == p + 1 + d;
    assert c * q == c * p + c + c * d;
  }

  /** Fixed-width digit strings order exactly as the numbers they spell. */
  lemma {:induction false} PadOrder(a: nat, b: nat, w: nat)
    requires a < Pow10(w) && b < Pow10(w)
    ensures StrLt(Pad(a, w), Pad(b, w)) <==> a < b
    ensures Pad(a, w) == Pad(b, w) <==> a == b
  {
    if w == 0 {
    } else {
      PadOrder(a / 10, b / 10, w - 1);
      ConcatOrder(Pad(a / 10, w - 1), Pad(b / 10, w - 1), [Digit(a % 10)], [Digit(b % 10)]);
      DivModOrder(a, b, 10);
    }
  }

  // ---------------------------------------------------------------------------
  // Searching and rewriting.

  predicate StartsWith(s: string, prefix: string)
  {
    |prefix| <= |s| && s[..|prefix|] == prefix
  }

  /** `pattern in text`, i.e. `text.find(pattern) > -1`. */
  predicate Contains(text: string, pattern: string)
  {
    StartsWith(text, pattern) || (|text| > 0 && Contains(text[1..], pattern))
  }

  /** `text.find(c)` for a one-character pattern: -1, or the first index of `c`. */
  function FindChar(text: string, c: char): (r: int)
    ensures r == -1 <==> c !in text
    ensures r >= 0 ==> r < |text| && text[r] == c && c !in text[..r]
  {
    if |text| == 0 then -1
    else if text[0] == c then 0
    else
      var k := FindChar(text[1..], c);
      assert text[1..][..if k < 0 then 0 else k] == text[1..1 + if k < 0 then 0 else k];
      assert k < 0 ==> forall i :: 0 <= i < |text| ==> text[i] != c by {
        if k < 0 {
          forall i | 0 <= i < |text| ensures text[i] != c {
            if i > 0 { assert text[i] == text[1..][i - 1]; }
          }
        }
      }
      if k < 0 then -1 else k + 1
  }

  /** `text.replace(search, replace)`: every non-overlapping occurrence, left
      to right. */
  function Replace(text: string, search: string, replace: string): string
    requires |search| > 0
    decreases |text|
  {
    if |text| < |search| then text
    else if text[..|search|] == search then replace + Replace(text[|search|..], search, replace)
    else [text[0]] + Replace(text[1..], search, replace)
  }

  /** A replacement that is no longer than the pattern never lengthens the
      text, shortens it whenever the pattern occurs, and changes nothing
      when it does not. */
  lemma {:induction false} ReplaceLength(text: string, search: string, replace: string)
    requires |search| > 0 && |replace| <= |search|
    ensures |Replace(text, search, replace)| <= |text|
    ensures Contains(text, search) && |replace| < |search| ==> |Replace(text, search, replace)| < |text|
    ensures !Contains(text, search) ==> Replace(text, search, replace) == text
    decreases |text|
  {
    if |text| < |search| {
      NotContainsShort(text, search);
    } else if text[..|search|] == search {
      ReplaceLength(text[|search|..], search, replace);
    } else {
      ReplaceLength(text[1..], search, replace);
    }
  }

  lemma {:induction false} NotContainsShort(text: string, pattern: string)
    requires |text| < |pattern|
    ensures !Contains(text, pattern)
    decreases |text|
  {
    if |text| > 0 { NotContainsShort(text[1..], pattern); }
  }

  // ---------------------------------------------------------------------------
  // Whitespace and `str.strip()`.

  /** The characters Python's `str.isspace` accepts, the set `strip()` removes. */
  predicate IsSpace(c: char)
  {
    ('\U{0009}' <= c <= '\U{000D}') || ('\U{001C}' <= c <= '\U{0020}')
    || c == '\U{0085}' || c == '\U{00A0}' || c == '\U{1680}'
    || ('\U{2000}' <= c <= '\U{200A}') || c == '\U{2028}' || c == '\U{2029}'
    || c == '\U{202F}' || c == '\U{205F}' || c == '\U{3000}'
  }

  function TrimStart(s: string): (r: string)
    ensures |r| <= |s| && r == s[|s| - |r|..]
    ensures forall i :: 0 <= i < |s| - |r| ==> IsSpace(s[i])
    ensures |r| > 0 ==> !IsSpace(r[0])
  {
    if |s| > 0 && IsSpace(s[0]) then
      var r := TrimStart(s[1..]);
      assert forall i :: 1 <= i < |s| - |r| ==> s[i] == s[1..][i - 1];
      r
    else s
  }

  function TrimEnd(s: string): (r: string)
    ensures |r| <= |s| && r == s[..|r|]
    ensures forall i :: |r| <= i < |s| ==> IsSpace(s[i])
    ensures |r| > 0 ==> !IsSpace(r[|r| - 1])
  {
    if |s| > 0 && IsSpace(s[|s| - 1]) then
      var r := TrimEnd(s[..|s| - 1]);
      assert forall i :: |r| <= i < |s| - 1 ==> s[i] == s[..|s| - 1][i];
      r
    else s
  }

  /** `s.strip()`. */
  function Strip(s: string): string
  {
    TrimEnd(TrimStart(s))
  }

  /** `strip()` keeps one contiguous slice of `s`: only whitespace is cut
      from either end, and the slice neither starts nor ends with whitespace. */
  lemma StripSlice(s: string)
    ensures var r := Strip(s);
      exists i, j :: 0 <= i <= j <= |s| && r == s[i..j]
        && (forall k :: 0 <= k < i ==> IsSpace(s[k]))
        && (forall k :: j <= k < |s| ==> IsSpace(s[k]))
    ensures var r := Strip(s); |r| > 0 ==> !IsSpace(r[0]) && !IsSpace(r[|r| - 1])
  {
    var t := TrimStart(s);
    var r := TrimEnd(t);
    var i := |s| - |t|;
    var j := i + |r|;
    assert r == s[i..j];
    forall k | j <= k < |s| ensures IsSpace(s[k]) {
      assert s[k] == t[k - i];
    }
    if |r| > 0 {
      assert r[0] == t[0];
    }
  }

  /** `sep.join(parts)`. */
  function Join(sep: string, parts: seq<string>): string
  {
    if |parts| == 0 then ""
    else if |parts| == 1 then parts[0]
    else parts[0] + sep + Join(sep, parts[1..])
  }
}
