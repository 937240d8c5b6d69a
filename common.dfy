/** Building blocks shared by every screen of the console: the Option
    wrapper, the string operations the components call on ids and names
    (toLowerCase, includes, substring(0, n), startsWith), and the array
    combinators filter, find and reduce-to-a-sum. */
module Common {

  datatype Option<+T> = None | Some(value: T)

  // ---------------------------------------------------------------- strings

  /** String.prototype.toLowerCase on one character; only ASCII letters are mapped. */
  function LowerChar(c: char): char
  {
    if 'A' <= c <= 'Z' then (c as int + 32) as char else c
  }

  /** String.prototype.toLowerCase, letter by letter. */
  function Lower(s: string): (r: string)
    ensures |r| == |s|
    ensures forall i :: 0 <= i < |s| ==> r[i] == LowerChar(s[i])
  {
    if |s| == 0 then "" else [LowerChar(s[0])] + Lower(s[1..])
  }

  lemma {:induction false} LowerIdempotent(s: string)
    ensures Lower(Lower(s)) == Lower(s)
  {
    if |s| > 0 {
      LowerIdempotent(s[1..]);
      assert Lower(s)[1..] == Lower(s[1..]);
    }
  }

  /** `t` occurs in `s` at some position. */
  ghost predicate IsInfix(t: string, s: string)
  {
    exists i :: 0 <= i <= |s| - |t| && t <= s[i..]
  }

  /** String.prototype.includes: `s.includes(t)`, scanning left to right. */
  function Includes(s: string, t: string): bool
    decreases |s|
  {
    if t <= s then true
    else if |s| == 0 then false
    else Includes(s[1..], t)
  }

  lemma {:induction false} IncludesIsInfix(s: string, t: string)
    ensures Includes(s, t) <==> IsInfix(t, s)
    decreases |s|
  {
    if t <= s {
      assert s[0..] == s;
    } else if |s| == 0 {
    } else {
      IncludesIsInfix(s[1..], t);
      if IsInfix(t, s[1..]) {
        var i :| 0 <= i <= |s[1..]| - |t| && t <= s[1..][i..];
        assert s[1..][i..] == s[i + 1..];
        assert IsInfix(t, s);
      }
      if IsInfix(t, s) {
        var i :| 0 <= i <= |s| - |t| && t <= s[i..];
        assert i != 0 by { assert s[0..] == s; }
        assert s[1..][i - 1..] == s[i..];
        assert IsInfix(t, s[1..]);
      }
    }
  }

  /** Every string includes the empty string, so an empty search term matches everything. */
  lemma IncludesEmpty(s: string)
    ensures Includes(s, "")
  {
  }

  /** The case-insensitive search used by every list screen:
      `text.toLowerCase().includes(term.toLowerCase())`. */
  predicate Matches(text: string, term: string)
  {
    Includes(Lower(text), Lower(term))
  }

  /** String.prototype.substring(0, n): the first n characters, or all of a shorter string. */
  function Take(s: string, n: nat): (r: string)
    ensures r <= s
    ensures |r| == if |s| < n then |s| else n
  {
    if |s| <= n then s else s[..n]
  }

  // ---------------------------------------------------------- array helpers

  /** Array.prototype.filter: keep, in order, the elements satisfying `keep`. */
  function Filter<T>(s: seq<T>, keep: T -> bool): (r: seq<T>)
    ensures |r| <= |s|
    ensures forall i :: 0 <= i < |r| ==> r[i] in s && keep(r[i])
    ensures forall i :: 0 <= i < |s| && keep(s[i]) ==> s[i] in r
  {
    if |s| == 0 then []
    else (if keep(s[0]) then [s[0]] else []) + Filter(s[1..], keep)
  }

  /** `r` is `s` with some elements dropped and the rest kept in order. */
  ghost predicate IsSubsequence<T>(r: seq<T>, s: seq<T>)
    decreases |s|
  {
    if |r| == 0 then true
    else if |s| == 0 then false
    else (r[0] == s[0] && IsSubsequence(r[1..], s[1..])) || IsSubsequence(r, s[1..])
  }

  lemma {:induction false} FilterIsSubsequence<T>(s: seq<T>, keep: T -> bool)
    ensures IsSubsequence(Filter(s, keep), s)
  {
    if |s| > 0 {
      FilterIsSubsequence(s[1..], keep);
      var r := Filter(s, keep);
      if keep(s[0]) {
        assert r[0] == s[0] && r[1..] == Filter(s[1..], keep);
      } else {
        assert r == Filter(s[1..], keep);
      }
    }
  }

  /** The filter removes exactly the rejected elements: every kept value keeps
      all of its occurrences, every rejected value loses all of them. */
  lemma {:induction false} FilterCount<T>(s: seq<T>, keep: T -> bool, x: T)
    ensures multiset(Filter(s, keep))[x] == if keep(x) then multiset(s)[x] else 0
  {
    if |s| > 0 {
      FilterCount(s[1..], keep, x);
      assert s == [s[0]] + s[1..];
    }
  }

  lemma {:induction false} FilterKeepsAll<T>(s: seq<T>, keep: T -> bool)
    requires forall i :: 0 <= i < |s| ==> keep(s[i])
    ensures Filter(s, keep) == s
  {
    if |s| > 0 {
      FilterKeepsAll(s[1..], keep);
    }
  }

  /** Two tests that agree on every element select the same elements. */
  lemma {:induction false} FilterSame<T>(s: seq<T>, keep: T -> bool, keep': T -> bool)
    requires forall i :: 0 <= i < |s| ==> keep(s[i]) == keep'(s[i])
    ensures Filter(s, keep) == Filter(s, keep')
  {
    if |s| > 0 {
      FilterSame(s[1..], keep, keep');
    }
  }

  /** Array.prototype.findIndex: the position of the first element satisfying `p`. */
  function FirstIndex<T>(s: seq<T>, p: T -> bool): (r: Option<nat>)
    ensures r.Some? ==> r.value < |s| && p(s[r.value])
    ensures r.Some? ==> forall j :: 0 <= j < r.value ==> !p(s[j])
    ensures r.None? <==> forall j :: 0 <= j < |s| ==> !p(s[j])
  {
    if |s| == 0 then None
    else if p(s[0]) then Some(0)
    else match FirstIndex(s[1..], p)
         case None => None
         case Some(k) => Some(k + 1)
  }

  /** Array.prototype.find: the first element satisfying `p`, if any. */
  function Find<T>(s: seq<T>, p: T -> bool): (r: Option<T>)
    ensures r.Some? ==> r.value in s && p(r.value)
    ensures r.Some? ==> exists k :: 0 <= k < |s| && s[k] == r.value && forall j :: 0 <= j < k ==> !p(s[j])
    ensures r.None? <==> forall j :: 0 <= j < |s| ==> !p(s[j])
  {
    match FirstIndex(s, p)
    case None => None
    case Some(k) => Some(s[k])
  }

  /** Array.prototype.reduce((sum, x) => sum + f(x), 0) over reals, folded left to right. */
  function SumBy<T>(s: seq<T>, f: T -> real): real
  {
    if |s| == 0 then 0.0 else SumBy(s[..|s| - 1], f) + f(s[|s| - 1])
  }

  lemma {:induction false} SumByAppend<T>(a: seq<T>, b: seq<T>, f: T -> real)
    ensures SumBy(a + b, f) == SumBy(a, f) + SumBy(b, f)
    decreases |b|
  {
    if |b| > 0 {
      SumByAppend(a, b[..|b| - 1], f);
      assert (a + b)[..|a + b| - 1] == a + b[..|b| - 1];
    } else {
      assert a + b == a;
    }
  }

  /** The sum does not depend on the order of the elements. */
  lemma {:induction false} SumByPermutation<T>(a: seq<T>, b: seq<T>, f: T -> real)
    requires multiset(a) == multiset(b)
    ensures SumBy(a, f) == SumBy(b, f)
    decreases |a|
  {
    if |a| == 0 {
      assert |b| == |multiset(b)| == 0;
    } else {
      var n := |a| - 1;
      var x := a[n];
      assert a == a[..n] + [x];
      assert x in multiset(b);
      var j :| 0 <= j < |b| && b[j] == x;
      var rest := b[..j] + b[j + 1..];
      assert b == b[..j] + [x] + b[j + 1..];
      assert multiset(a) == multiset(a[..n]) + multiset{x};
      assert multiset(b) == multiset(b[..j]) + multiset{x} + multiset(b[j + 1..]);
      assert multiset(rest) == multiset(b[..j]) + multiset(b[j + 1..]);
      calc {
        multiset(a[..n]);
        multiset(a) - multiset{x};
        multiset(b) - multiset{x};
        multiset(rest);
      }
      SumByPermutation(a[..n], rest, f);
      SumByAppend(b[..j] + [x], b[j + 1..], f);
      SumByAppend(b[..j], [x], f);
      SumByAppend(b[..j], b[j + 1..], f);
      assert SumBy([x], f) == f(x) by {
        assert [x][..0] == [];
      }
    }
  }

  /** Two sequences of equal length whose elements contribute equal amounts have equal sums. */
  lemma {:induction false} SumByPointwise<T, U>(a: seq<T>, f: T -> real, b: seq<U>, g: U -> real)
    requires |a| == |b|
    requires forall i :: 0 <= i < |a| ==> f(a[i]) == g(b[i])
    ensures SumBy(a, f) == SumBy(b, g)
  {
    if |a| > 0 {
      SumByPointwise(a[..|a| - 1], f, b[..|b| - 1], g);
    }
  }

  /** Array.prototype.reduce((sum, x) => sum + f(x), 0) over integers. */
  function SumInt<T>(s: seq<T>, f: T -> int): int
  {
    if |s| == 0 then 0 else SumInt(s[..|s| - 1], f) + f(s[|s| - 1])
  }

  lemma {:induction false} SumIntAppend<T>(a: seq<T>, b: seq<T>, f: T -> int)
    ensures SumInt(a + b, f) == SumInt(a, f) + SumInt(b, f)
    decreases |b|
  {
    if |b| > 0 {
      SumIntAppend(a, b[..|b| - 1], f);
      assert (a + b)[..|a + b| - 1] == a + b[..|b| - 1];
    } else {
      assert a + b == a;
    }
  }

  /** Dropping only elements that contribute nothing leaves an integer sum unchanged. */
  lemma {:induction false} FilterSumInt<T>(s: seq<T>, keep: T -> bool, f: T -> int)
    requires forall i :: 0 <= i < |s| && !keep(s[i]) ==> f(s[i]) == 0
    ensures SumInt(Filter(s, keep), f) == SumInt(s, f)
  {
    if |s| > 0 {
      FilterSumInt(s[1..], keep, f);
      assert s == [s[0]] + s[1..];
      assert SumInt([s[0]], f) == f(s[0]) by {
        assert [s[0]][..0] == [];
      }
      SumIntAppend([s[0]], s[1..], f);
      var head := if keep(s[0]) then [s[0]] else [];
      SumIntAppend(head, Filter(s[1..], keep), f);
    }
  }
}
