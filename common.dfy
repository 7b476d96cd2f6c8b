/**
 * Small helpers shared by the dream-journal model: an Option type, the
 * JavaScript string operations the application relies on (`includes`,
 * `trim` for blank checks, number-to-string), and the integer form of
 * `Math.round(c / n * 100)`.
 */
module Common {

  datatype Option<+T> = None | Some(value: T)

  /** `text.includes(keyword)`: keyword occurs as a contiguous substring of text. */
  predicate Contains(text: string, keyword: string)
  {
    exists i | 0 <= i <= |text| - |keyword| :: OccursAt(text, keyword, i)
  }

  /** keyword starts at position i of text. */
  predicate OccursAt(text: string, keyword: string, i: int)
  {
    0 <= i <= |text| - |keyword| && text[i..i + |keyword|] == keyword
  }

  /** The characters JavaScript's `String.prototype.trim` strips:
      WhiteSpace (TAB, VT, FF, SP, NBSP, ZWNBSP, category Zs) and LineTerminator. */
  predicate IsJsWhitespace(c: char)
  {
    c == '\t' || c == '\n' || c == '\U{000B}' || c == '\U{000C}' || c == '\r' ||
    c == ' ' || c == '\U{00A0}' || c == '\U{1680}' ||
    ('\U{2000}' <= c <= '\U{200A}') ||
    c == '\U{2028}' || c == '\U{2029}' || c == '\U{202F}' || c == '\U{205F}' ||
    c == '\U{3000}' || c == '\U{FEFF}'
  }

  /** `!s.trim()`: the string is empty once leading and trailing white space is removed. */
  predicate IsBlank(s: string)
  {
    forall i :: 0 <= i < |s| ==> IsJsWhitespace(s[i])
  }

  function DigitChar(d: nat): (c: char)
    requires d < 10
    ensures '0' <= c <= '9'
  {
    "0123456789"[d]
  }

  /** `String(n)` / template interpolation of a non-negative integer. */
  function NatToString(n: nat): (s: string)
    ensures |s| > 0
    ensures forall i :: 0 <= i < |s| ==> '0' <= s[i] <= '9'
  {
    if n < 10 then [DigitChar(n)] else NatToString(n / 10) + [DigitChar(n % 10)]
  }

  /** `Math.round((count / total) * 100)` computed with exact arithmetic:
      the integer nearest to 100*count/total, halves rounded up. */
  function RoundPercent(count: nat, total: nat): (r: nat)
    requires total > 0
    ensures r * (2 * total) <= 200 * count + total < (r + 1) * (2 * total)
    ensures count <= total ==> r <= 100
  {
    var num := 200 * count + total;
    var den := 2 * total;
    var q := num / den;
    DivisionBounds(num, den);
    assert count <= total ==> q <= 100 by {
      if count <= total && q > 100 {
        MulMonotone(101, q, den);
      }
    }
    q
  }

  lemma DivisionBounds(num: nat, den: nat)
    requires den > 0
    ensures (num / den) * den <= num < (num / den + 1) * den
  {
    assert num == (num / den) * den + num % den;
  }

  lemma MulMonotone(a: nat, b: nat, c: nat)
    requires a <= b
    ensures a * c <= b * c
  {
    assert b * c == a * c + (b - a) * c;
  }

  /** Property lookup on a string-keyed table (`table[key]`): the value of the
      first entry with that key, or None when no entry has it. */
  function Lookup<V>(table: seq<(string, V)>, key: string): (r: Option<V>)
    ensures r.None? <==> forall i :: 0 <= i < |table| ==> table[i].0 != key
    ensures r.Some? ==> exists i :: 0 <= i < |table| && table[i] == (key, r.value) &&
                                    forall j :: 0 <= j < i ==> table[j].0 != key
    decreases |table|
  {
    if table == [] then None
    else if table[0].0 == key then Some(table[0].1)
    else
      var r := Lookup(table[1..], key);
      assert forall i :: 1 <= i < |table| ==> table[i] == table[1..][i - 1];
      r
  }

  /** a occurs in b in the same order, possibly with gaps. */
  predicate IsSubsequence<T(==)>(a: seq<T>, b: seq<T>)
    decreases |b|
  {
    if a == [] then true
    else if b == [] then false
    else (a[|a| - 1] == b[|b| - 1] && IsSubsequence(a[..|a| - 1], b[..|b| - 1]))
         || IsSubsequence(a, b[..|b| - 1])
  }

  /** Every sequence is a subsequence of itself. */
  lemma {:induction false} SubsequenceReflexive<T>(s: seq<T>)
    ensures IsSubsequence(s, s)
    decreases |s|
  {
    if s != [] {
      SubsequenceReflexive(s[..|s| - 1]);
    }
  }

  /** The middle part of a three-way concatenation occurs right after the first. */
  lemma OccursInMiddle(a: string, k: string, b: string)
    ensures OccursAt(a + k + b, k, |a|) && Contains(a + k + b, k)
  {
    assert (a + k + b)[|a|..|a| + |k|] == k;
    assert OccursAt(a + k + b, k, |a|);
  }

  lemma ContainsInSuffix(a: string, b: string, k: string)
    requires Contains(b, k)
    ensures Contains(a + b, k)
  {
    var i :| 0 <= i <= |b| - |k| && OccursAt(b, k, i);
    assert (a + b)[|a| + i..|a| + i + |k|] == b[i..i + |k|];
    assert OccursAt(a + b, k, |a| + i);
  }

  lemma ContainsInPrefix(a: string, b: string, k: string)
    requires Contains(a, k)
    ensures Contains(a + b, k)
  {
    var i :| 0 <= i <= |a| - |k| && OccursAt(a, k, i);
    assert (a + b)[i..i + |k|] == a[i..i + |k|];
    assert OccursAt(a + b, k, i);
  }

  // ---------------------------------------------------------------------------
  // `Array.prototype.filter`.

  /** `xs.filter(keep)`. */
  function KeepIf<T>(xs: seq<T>, keep: T -> bool): (r: seq<T>)
    ensures |r| <= |xs|
    decreases |xs|
  {
    if xs == [] then []
    else KeepIf(xs[..|xs| - 1], keep) + (if keep(xs[|xs| - 1]) then [xs[|xs| - 1]] else [])
  }

  /** An element survives the filter exactly when it is in the list and passes,
      every copy of a passing element survives, and the survivors keep their
      relative order. */
  lemma {:induction false} KeepIfContents<T>(xs: seq<T>, keep: T -> bool)
    ensures forall x :: x in KeepIf(xs, keep) <==> x in xs && keep(x)
    ensures forall x :: multiset(KeepIf(xs, keep))[x] == if keep(x) then multiset(xs)[x] else 0
    ensures IsSubsequence(KeepIf(xs, keep), xs)
    decreases |xs|
  {
    KeepIfMultiset(xs, keep);
    if xs != [] {
      var p := xs[..|xs| - 1];
      var last := xs[|xs| - 1];
      KeepIfContents(p, keep);
      assert xs == p + [last];
      var r := KeepIf(xs, keep);
      assert xs[..|xs| - 1] == p;
      if keep(last) {
        assert r == KeepIf(p, keep) + [last];
        assert r[..|r| - 1] == KeepIf(p, keep);
      } else {
        assert r == KeepIf(p, keep);
        SubsequenceExtend(r, p, last);
      }
    }
  }

  /** The filter keeps all copies of a passing element and none of a failing one. */
  lemma {:induction false} KeepIfMultiset<T>(xs: seq<T>, keep: T -> bool)
    ensures forall x :: multiset(KeepIf(xs, keep))[x] == if keep(x) then multiset(xs)[x] else 0
    decreases |xs|
  {
    if xs != [] {
      var p := xs[..|xs| - 1];
      var last := xs[|xs| - 1];
      KeepIfMultiset(p, keep);
      assert xs == p + [last];
      assert multiset(xs) == multiset(p) + multiset{last};
      if keep(last) {
        assert KeepIf(xs, keep) == KeepIf(p, keep) + [last];
        assert multiset(KeepIf(xs, keep)) == multiset(KeepIf(p, keep)) + multiset{last};
      } else {
        assert KeepIf(xs, keep) == KeepIf(p, keep);
      }
    }
  }

  lemma SubsequenceExtend<T>(a: seq<T>, p: seq<T>, x: T)
    requires IsSubsequence(a, p)
    ensures IsSubsequence(a, p + [x])
  {
    var b := p + [x];
    assert b[..|b| - 1] == p;
  }

  /** Filtering twice by the same test is filtering once. */
  lemma {:induction false} KeepIfIdempotent<T>(xs: seq<T>, keep: T -> bool)
    ensures KeepIf(KeepIf(xs, keep), keep) == KeepIf(xs, keep)
    decreases |xs|
  {
    if xs != [] {
      var p := xs[..|xs| - 1];
      var last := xs[|xs| - 1];
      KeepIfIdempotent(p, keep);
      var r := KeepIf(xs, keep);
      if keep(last) {
        assert r == KeepIf(p, keep) + [last];
        assert r[..|r| - 1] == KeepIf(p, keep);
        assert r[|r| - 1] == last;
        assert KeepIf(r, keep) == KeepIf(KeepIf(p, keep), keep) + [last];
      } else {
        assert r == KeepIf(p, keep);
      }
    }
  }
}
