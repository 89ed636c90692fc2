/**
 * String helpers the report generator relies on: `join('')` over a list of
 * fragments, `join(sep)`, the decimal rendering JavaScript uses when a
 * non-negative integer is interpolated into a template literal, and
 * "occurs in" for stating what a rendered fragment shows.
 */
module Text {

  /** `parts.join('')`: the fragments back to back, left to right. */
  function Concat(parts: seq<string>): string
  {
    if parts == [] then [] else Concat(parts[..|parts| - 1]) + parts[|parts| - 1]
  }

  /** Where fragment `k` starts inside `Concat(parts)`. */
  function Offset(parts: seq<string>, k: nat): nat
    requires k <= |parts|
  {
    |Concat(parts[..k])|
  }

  /** `s[i..]` starts with `t`. */
  predicate IsInfixAt(t: string, s: string, i: nat)
  {
    i + |t| <= |s| && forall x :: i <= x < i + |t| ==> s[x] == t[x - i]
  }

  /** `t` occurs somewhere in `s`. */
  predicate Shows(s: string, t: string)
  {
    exists i: nat | i <= |s| :: IsInfixAt(t, s, i)
  }

  lemma {:induction false} ConcatAppend(a: seq<string>, b: seq<string>)
    ensures Concat(a + b) == Concat(a) + Concat(b)
  {
    if b == [] {
      assert a + b == a;
    } else {
      var last := |b| - 1;
      assert (a + b)[..|a + b| - 1] == a + b[..last];
      assert (a + b)[|a + b| - 1] == b[last];
      ConcatAppend(a, b[..last]);
    }
  }

  /** Fragment `k` sits at `Offset(parts, k)` and the next one starts right after it: no separator. */
  lemma {:induction false} ConcatAt(parts: seq<string>, k: nat)
    requires k < |parts|
    ensures Offset(parts, k + 1) == Offset(parts, k) + |parts[k]|
    ensures Offset(parts, k + 1) <= |Concat(parts)|
    ensures IsInfixAt(parts[k], Concat(parts), Offset(parts, k))
  {
    assert parts[..k + 1][..k] == parts[..k];
    assert parts == parts[..k + 1] + parts[k + 1..];
    ConcatAppend(parts[..k + 1], parts[k + 1..]);
  }

  /** `ConcatAt`, for a fragment known by its value. */
  lemma {:induction false} PartAt(parts: seq<string>, k: nat, x: string)
    requires k < |parts| && parts[k] == x
    ensures Offset(parts, k + 1) == Offset(parts, k) + |x|
    ensures IsInfixAt(x, Concat(parts), Offset(parts, k))
  {
    ConcatAt(parts, k);
  }

  lemma {:induction false} Concat3(a: string, b: string, c: string)
    ensures Concat([a, b, c]) == a + b + c
  {
    assert [a][..0] == [];
    assert Concat([a]) == a;
    assert [a, b][..1] == [a];
    assert Concat([a, b]) == a + b;
    assert [a, b, c][..2] == [a, b];
  }

  /** A string with `w` in the middle holds `w` right after the prefix. */
  lemma {:induction false} InfixOfConcat(x: string, w: string, y: string)
    ensures IsInfixAt(w, x + w + y, |x|)
  {
    assert (x + w + y)[|x|..|x| + |w|] == w;
  }

  /** `Concat(parts)` is the fragments back to back, each at its offset, from 0 to the full length. */
  lemma {:induction false} ConcatLayout(parts: seq<string>)
    ensures Offset(parts, 0) == 0 && Offset(parts, |parts|) == |Concat(parts)|
    ensures forall k :: 0 <= k < |parts| ==>
      IsInfixAt(parts[k], Concat(parts), Offset(parts, k)) && Offset(parts, k + 1) == Offset(parts, k) + |parts[k]|
  {
    assert parts[..|parts|] == parts;
    forall k | 0 <= k < |parts|
      ensures IsInfixAt(parts[k], Concat(parts), Offset(parts, k))
      ensures Offset(parts, k + 1) == Offset(parts, k) + |parts[k]|
    {
      ConcatAt(parts, k);
    }
  }

  /** Occurrence is transitive: `t` inside `m` inside `s`. */
  lemma {:induction false} InfixTransitive(t: string, m: string, s: string, i: nat, j: nat)
    requires IsInfixAt(m, s, i) && IsInfixAt(t, m, j)
    ensures IsInfixAt(t, s, i + j)
  {
    forall y | i + j <= y < i + j + |t|
      ensures s[y] == m[y - i]
    {
      assert s[i..i + |m|][y - i] == m[y - i];
    }
    assert s[i + j..i + j + |t|] == m[j..j + |t|];
  }

  /** What a fragment shows, a string holding that fragment shows too. */
  lemma {:induction false} ShowsThrough(s: string, m: string, t: string, i: nat)
    requires IsInfixAt(m, s, i) && Shows(m, t)
    ensures Shows(s, t)
  {
    var j: nat :| j <= |m| && IsInfixAt(t, m, j);
    InfixTransitive(t, m, s, i, j);
  }

  /** Three consecutive fragments occur together, starting at the first one's offset. */
  lemma {:induction false} ConcatWindow3(parts: seq<string>, k: nat)
    requires k + 3 <= |parts|
    ensures IsInfixAt(parts[k] + parts[k + 1] + parts[k + 2], Concat(parts), |Concat(parts[..k])|)
  {
    var w := parts[k..k + 3];
    var x, y := parts[..k], parts[k + 3..];
    var t := parts[k] + parts[k + 1] + parts[k + 2];
    assert Concat(parts) == Concat(x) + t + Concat(y) by {
      assert parts == x + w + y;
      ConcatAppend(x + w, y);
      ConcatAppend(x, w);
      assert w == [parts[k], parts[k + 1], parts[k + 2]];
      Concat3(parts[k], parts[k + 1], parts[k + 2]);
    }
    InfixOfConcat(Concat(x), t, Concat(y));
  }

  /** Three consecutive fragments are shown together by the joined string. */
  lemma {:induction false} WindowShows(parts: seq<string>, k: nat, a: string, b: string, c: string)
    requires k + 3 <= |parts| && parts[k] == a && parts[k + 1] == b && parts[k + 2] == c
    ensures Shows(Concat(parts), a + b + c)
  {
    ConcatWindow3(parts, k);
  }

  /** Consecutive fragments `k` to `m` occur together, starting at fragment `k`'s offset. */
  lemma {:induction false} ConcatWindow(parts: seq<string>, k: nat, m: nat)
    requires k <= m <= |parts|
    ensures IsInfixAt(Concat(parts[k..m]), Concat(parts), Offset(parts, k))
    ensures Offset(parts, m) == Offset(parts, k) + |Concat(parts[k..m])|
  {
    var x, w, y := parts[..k], parts[k..m], parts[m..];
    assert parts[..m] == x + w;
    ConcatAppend(x, w);
    assert Concat(parts) == Concat(x) + Concat(w) + Concat(y) by {
      assert parts == x + w + y;
      ConcatAppend(x + w, y);
      ConcatAppend(x, w);
    }
    InfixOfConcat(Concat(x), Concat(w), Concat(y));
  }

  /** Where the joined fragments occur, fragment `k` occurs at its own offset past that point. */
  lemma {:induction false} InfixOfPart(items: seq<string>, s: string, base: nat, k: nat)
    requires k < |items| && IsInfixAt(Concat(items), s, base)
    ensures IsInfixAt(items[k], s, base + Offset(items, k))
  {
    ConcatAt(items, k);
    InfixTransitive(items[k], Concat(items), s, base, Offset(items, k));
  }

  /** `InfixOfPart`, for a fragment known by its value. */
  lemma {:induction false} InfixOfItem(items: seq<string>, s: string, base: nat, k: nat, x: string)
    requires k < |items| && items[k] == x && IsInfixAt(Concat(items), s, base)
    ensures IsInfixAt(x, s, base + Offset(items, k))
  {
    InfixOfPart(items, s, base, k);
  }

  /**
   * When fragment `j` is itself fragments joined together, the `k`-th of those
   * occurs at fragment `j`'s offset plus its own.
   */
  lemma {:induction false} NestedInfix(parts: seq<string>, j: nat, items: seq<string>, k: nat)
    requires j < |parts| && parts[j] == Concat(items) && k < |items|
    ensures IsInfixAt(items[k], Concat(parts), Offset(parts, j) + Offset(items, k))
  {
    ConcatAt(parts, j);
    InfixOfPart(items, Concat(parts), Offset(parts, j), k);
  }

  /** The offsets of a `Concat` grow with the fragment index. */
  lemma {:induction false} OffsetMonotone(parts: seq<string>, j: nat, k: nat)
    requires j <= k <= |parts|
    ensures Offset(parts, j) <= Offset(parts, k)
    decreases k - j
  {
    if j < k {
      ConcatAt(parts, j);
      OffsetMonotone(parts, j + 1, k);
    }
  }

  /** `xs.join(sep)`. */
  function Join(xs: seq<string>, sep: string): string
  {
    if xs == [] then []
    else if |xs| == 1 then xs[0]
    else xs[0] + sep + Join(xs[1..], sep)
  }

  predicate IsDigit(c: char)
  {
    '0' <= c <= '9'
  }

  predicate IsDecimal(s: string)
  {
    forall i :: 0 <= i < |s| ==> IsDigit(s[i])
  }

  function DigitChar(d: nat): (c: char)
    requires d < 10
    ensures IsDigit(c)
  {
    ('0' as int + d) as char
  }

  function DigitValue(c: char): (d: nat)
    requires IsDigit(c)
    ensures d < 10 && DigitChar(d) == c
  {
    c as int - '0' as int
  }

  /**
   * A non-negative integer as `${n}` renders it: decimal digits, no sign,
   * no leading zero except for 0 itself.
   */
  function Decimal(n: nat): (s: string)
    ensures 1 <= |s| && IsDecimal(s)
    ensures s[0] == '0' ==> n == 0 && s == "0"
  {
    if n < 10 then [DigitChar(n)] else Decimal(n / 10) + [DigitChar(n % 10)]
  }

  /** Reads a string of decimal digits back as a number. */
  function DecimalValue(s: string): nat
    requires IsDecimal(s)
  {
    if s == [] then 0 else DecimalValue(s[..|s| - 1]) * 10 + DigitValue(s[|s| - 1])
  }

  /** Reading the rendered digits gives back the number. */
  lemma {:induction false} DecimalRoundTrip(n: nat)
    ensures DecimalValue(Decimal(n)) == n
  {
    var s := Decimal(n);
    if n >= 10 {
      DecimalRoundTrip(n / 10);
      assert s[..|s| - 1] == Decimal(n / 10);
    }
  }

  /** Distinct numbers render differently. */
  lemma {:induction false} DecimalInjective(m: nat, n: nat)
    requires Decimal(m) == Decimal(n)
    ensures m == n
  {
    DecimalRoundTrip(m);
    DecimalRoundTrip(n);
  }
}
