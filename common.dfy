/** Shared vocabulary: optional values, the JavaScript string and array
    built-ins the views rely on (startsWith, String(n), filter, reduce,
    join, split), and the laws that connect them. */
module Common {

  datatype Option<+T> = None | Some(value: T)

  /** `a || b` on two possibly-null values: the first one that is present. */
  function FirstPresent<T>(a: Option<T>, b: Option<T>): (r: Option<T>)
    ensures r.Some? <==> a.Some? || b.Some?
    ensures a.Some? ==> r == a
    ensures a.None? ==> r == b
  {
    if a.Some? then a else b
  }

  /** `String.prototype.startsWith`. */
  predicate StartsWith(s: string, prefix: string)
  {
    |prefix| <= |s| && s[..|prefix|] == prefix
  }

  lemma StartsWithAppend(prefix: string, rest: string)
    ensures StartsWith(prefix + rest, prefix)
  {
    assert (prefix + rest)[..|prefix|] == prefix;
  }

  predicate IsDigit(c: char)
  {
    '0' <= c <= '9'
  }

  predicate AllDigits(s: string)
  {
    forall i :: 0 <= i < |s| ==> IsDigit(s[i])
  }

  function DigitChar(d: nat): (c: char)
    requires d < 10
    ensures IsDigit(c) && (c as int) - ('0' as int) == d
  {
    ('0' as int + d) as char
  }

  /** The decimal text of a non-negative integer, as a template literal
      renders a JavaScript number such as `Date.now()`. */
  function NatToString(n: nat): (r: string)
    ensures |r| >= 1 && AllDigits(r)
    ensures r[0] == '0' ==> n == 0
  {
    if n < 10 then [DigitChar(n)] else NatToString(n / 10) + [DigitChar(n % 10)]
  }

  /** Reads a string of decimal digits back as a number. */
  function ParseDecimal(s: string): nat
    requires AllDigits(s)
  {
    if s == [] then 0
    else ParseDecimal(s[..|s| - 1]) * 10 + ((s[|s| - 1] as int) - ('0' as int))
  }

  /** Rendering a number and reading it back gives the number. */
  lemma {:induction false} ParseNatToString(n: nat)
    ensures ParseDecimal(NatToString(n)) == n
  {
    if n >= 10 {
      var s := NatToString(n / 10);
      var t := NatToString(n);
      assert t == s + [DigitChar(n % 10)];
      assert t[..|t| - 1] == s;
      ParseNatToString(n / 10);
    }
  }

  /** Different numbers render as different strings. */
  lemma NatToStringInjective(m: nat, n: nat)
    requires NatToString(m) == NatToString(n)
    ensures m == n
  {
    ParseNatToString(m);
    ParseNatToString(n);
  }

  // ---------------------------------------------------------------------
  // Array.prototype.filter and reduce, defined on the last element so
  // that a left-to-right accumulation extends them one step at a time.

  /** `s.filter(p)`. */
  function Filter<T>(s: seq<T>, p: T -> bool): (r: seq<T>)
    ensures |r| <= |s|
    ensures forall x :: x in r ==> x in s && p(x)
    ensures forall i :: 0 <= i < |s| && p(s[i]) ==> s[i] in r
  {
    if s == [] then []
    else Filter(s[..|s| - 1], p) + (if p(s[|s| - 1]) then [s[|s| - 1]] else [])
  }

  /** `s.filter(p).length`. */
  function Count<T>(s: seq<T>, p: T -> bool): nat
  {
    |Filter(s, p)|
  }

  /** `s.reduce((sum, x) => sum + f(x), 0)`. */
  function Sum<T>(s: seq<T>, f: T -> real): real
  {
    if s == [] then 0.0 else Sum(s[..|s| - 1], f) + f(s[|s| - 1])
  }

  lemma {:induction false} FilterAppend<T>(a: seq<T>, b: seq<T>, p: T -> bool)
    ensures Filter(a + b, p) == Filter(a, p) + Filter(b, p)
  {
    if b != [] {
      var b' := b[..|b| - 1];
      assert (a + b)[..|a + b| - 1] == a + b';
      FilterAppend(a, b', p);
    } else {
      assert a + b == a;
    }
  }

  lemma {:induction false} SumAppend<T>(a: seq<T>, b: seq<T>, f: T -> real)
    ensures Sum(a + b, f) == Sum(a, f) + Sum(b, f)
  {
    if b != [] {
      var b' := b[..|b| - 1];
      assert (a + b)[..|a + b| - 1] == a + b';
      SumAppend(a, b', f);
    } else {
      assert a + b == a;
    }
  }

  /** Filtering with a predicate every element meets keeps everything. */
  lemma {:induction false} FilterKeepsAll<T>(s: seq<T>, p: T -> bool)
    requires forall x :: x in s ==> p(x)
    ensures Filter(s, p) == s
  {
    if s != [] {
      assert forall x :: x in s[..|s| - 1] ==> x in s;
      FilterKeepsAll(s[..|s| - 1], p);
    }
  }

  /** Two predicates that agree on every element of `s` filter it alike. */
  lemma {:induction false} FilterCongruent<T>(s: seq<T>, p: T -> bool, q: T -> bool)
    requires forall x :: x in s ==> p(x) == q(x)
    ensures Filter(s, p) == Filter(s, q)
  {
    if s != [] {
      assert forall x :: x in s[..|s| - 1] ==> x in s;
      FilterCongruent(s[..|s| - 1], p, q);
    }
  }

  /** Filtering keeps the elements in their input order: `Filter` is the
      subsequence of the elements that satisfy `p`. */
  lemma {:induction false} FilterOfFilter<T>(s: seq<T>, p: T -> bool, q: T -> bool)
    requires forall x :: p(x) ==> q(x)
    ensures Filter(Filter(s, q), p) == Filter(s, p)
  {
    if s != [] {
      var init, x := s[..|s| - 1], s[|s| - 1];
      FilterOfFilter(init, p, q);
      FilterAppend(Filter(init, q), if q(x) then [x] else [], p);
      if q(x) {
        assert Filter([x], p) == if p(x) then [x] else [] by {
          assert [x][..0] == [];
        }
      }
    }
  }

  /** Two predicates that never hold together select at most `|s|`
      elements between them. */
  lemma {:induction false} CountDisjoint2<T>(s: seq<T>, p: T -> bool, q: T -> bool)
    requires forall x :: !(p(x) && q(x))
    ensures Count(s, p) + Count(s, q) <= |s|
  {
    if s != [] {
      CountDisjoint2(s[..|s| - 1], p, q);
    }
  }

  /** Three pairwise exclusive predicates select at most `|s|` elements. */
  lemma {:induction false} CountDisjoint3<T>(s: seq<T>, p: T -> bool, q: T -> bool, r: T -> bool)
    requires forall x :: !(p(x) && q(x)) && !(p(x) && r(x)) && !(q(x) && r(x))
    ensures Count(s, p) + Count(s, q) + Count(s, r) <= |s|
  {
    if s != [] {
      CountDisjoint3(s[..|s| - 1], p, q, r);
    }
  }

  /** With non-negative terms, a filtered sum never exceeds the full sum. */
  lemma {:induction false} SumFilterAtMost<T>(s: seq<T>, p: T -> bool, f: T -> real)
    requires forall x :: x in s ==> f(x) >= 0.0
    ensures Sum(Filter(s, p), f) <= Sum(s, f)
  {
    if s != [] {
      var init, x := s[..|s| - 1], s[|s| - 1];
      assert forall y :: y in init ==> y in s;
      SumFilterAtMost(init, p, f);
      SumAppend(Filter(init, p), if p(x) then [x] else [], f);
      assert Sum([x], f) == f(x) by { assert [x][..0] == []; }
    }
  }

  /** When `r` is the disjoint union of `p` and `q`, the sum over `r` is the
      sum over `p` plus the sum over `q`. */
  lemma {:induction false} SumFilterUnion<T>(s: seq<T>, p: T -> bool, q: T -> bool, r: T -> bool, f: T -> real)
    requires forall x :: r(x) == (p(x) || q(x))
    requires forall x :: !(p(x) && q(x))
    ensures Sum(Filter(s, r), f) == Sum(Filter(s, p), f) + Sum(Filter(s, q), f)
  {
    if s != [] {
      var init, x := s[..|s| - 1], s[|s| - 1];
      SumFilterUnion(init, p, q, r, f);
      assert Sum([x], f) == f(x) by { assert [x][..0] == []; }
      SumAppend(Filter(init, r), if r(x) then [x] else [], f);
      SumAppend(Filter(init, p), if p(x) then [x] else [], f);
      SumAppend(Filter(init, q), if q(x) then [x] else [], f);
    }
  }

  // ---------------------------------------------------------------------
  // Array.prototype.join and String.prototype.split with a one-character
  // separator.

  /** `xs.join(sep)`. */
  function Join(xs: seq<string>, sep: char): string
  {
    if |xs| == 0 then ""
    else if |xs| == 1 then xs[0]
    else Join(xs[..|xs| - 1], sep) + [sep] + xs[|xs| - 1]
  }

  /** `s.split(sep)`: always at least one piece. */
  function Split(s: string, sep: char): (r: seq<string>)
    ensures |r| >= 1
  {
    if s == [] then [""]
    else
      var pieces := Split(s[..|s| - 1], sep);
      if s[|s| - 1] == sep then pieces + [""]
      else pieces[..|pieces| - 1] + [pieces[|pieces| - 1] + [s[|s| - 1]]]
  }

  predicate Free(s: string, c: char)
  {
    forall i :: 0 <= i < |s| ==> s[i] != c
  }

  lemma {:induction false} SplitFree(s: string, sep: char)
    requires Free(s, sep)
    ensures Split(s, sep) == [s]
  {
    if s != [] {
      SplitFree(s[..|s| - 1], sep);
      assert s[..|s| - 1] + [s[|s| - 1]] == s;
    }
  }

  lemma {:induction false} SplitAfterSeparator(a: string, b: string, sep: char)
    requires Free(b, sep)
    ensures Split(a + [sep] + b, sep) == Split(a, sep) + [b]
  {
    if b == [] {
      assert a + [sep] + b == a + [sep];
      assert (a + [sep])[..|a + [sep]| - 1] == a;
    } else {
      var b' := b[..|b| - 1];
      var s := a + [sep] + b;
      assert s[..|s| - 1] == a + [sep] + b';
      SplitAfterSeparator(a, b', sep);
      assert b' + [b[|b| - 1]] == b;
    }
  }

  /** Splitting a joined list gives the list back, provided no piece holds
      the separator. */
  lemma {:induction false} SplitJoin(xs: seq<string>, sep: char)
    requires |xs| >= 1
    requires forall i :: 0 <= i < |xs| ==> Free(xs[i], sep)
    ensures Split(Join(xs, sep), sep) == xs
  {
    if |xs| == 1 {
      SplitFree(xs[0], sep);
    } else {
      var init := xs[..|xs| - 1];
      SplitJoin(init, sep);
      SplitAfterSeparator(Join(init, sep), xs[|xs| - 1], sep);
      assert init + [xs[|xs| - 1]] == xs;
    }
  }

  /** A joined list holds no character that neither the pieces nor the
      separator hold. */
  lemma {:induction false} JoinFree(xs: seq<string>, sep: char, c: char)
    requires c != sep
    requires forall i :: 0 <= i < |xs| ==> Free(xs[i], c)
    ensures Free(Join(xs, sep), c)
  {
    if |xs| > 1 {
      JoinFree(xs[..|xs| - 1], sep, c);
    }
  }
}
