/** Shared vocabulary: optional values, the list operations the screens apply to
    fetched rows (filter, count, sum, newest-first), and the string operations
    of the search boxes (lower-casing and substring search). */
module Common {

  /** A value that may be absent: JavaScript's `null` / `undefined`. */
  datatype Option<+T> = None | Some(value: T) {
    /** `x || default` and `x ?? default` on an optional value. */
    function GetOr(default: T): T {
      if Some? then value else default
    }
  }

  // ---------------------------------------------------------------------------
  // Filtering, the WHERE clause of a query and JavaScript's Array.filter
  // ---------------------------------------------------------------------------

  /** `a` can be obtained from `b` by deleting elements: same order, nothing new. */
  predicate IsSubsequence<T(==)>(a: seq<T>, b: seq<T>)
    decreases |b|
  {
    a == [] || (b != [] && ((a[0] == b[0] && IsSubsequence(a[1..], b[1..])) || IsSubsequence(a, b[1..])))
  }

  /** The elements of `s` that satisfy `p`, in their original order. */
  function Filter<T(==)>(s: seq<T>, p: T -> bool): (r: seq<T>)
    ensures |r| <= |s|
    ensures forall i :: 0 <= i < |r| ==> r[i] in s && p(r[i])
    ensures forall i :: 0 <= i < |s| && p(s[i]) ==> s[i] in r
    ensures IsSubsequence(r, s)
  {
    if s == [] then []
    else
      var rest := Filter(s[1..], p);
      assert IsSubsequence(rest, s) by {
        assert IsSubsequence(rest, s[1..]);
      }
      assert p(s[0]) ==> ([s[0]] + rest)[1..] == rest;
      assert !p(s[0]) ==> [] + rest == rest;
      (if p(s[0]) then [s[0]] else []) + rest
  }

  /** Filtering keeps every passing element as many times as it occurs, and nothing
      else. */
  lemma {:induction false} FilterMultiplicity<T>(s: seq<T>, p: T -> bool)
    ensures forall x :: multiset(Filter(s, p))[x] == if p(x) then multiset(s)[x] else 0
  {
    if s != [] {
      FilterMultiplicity(s[1..], p);
      assert s == [s[0]] + s[1..];
    }
  }

  /** A filter whose predicate holds everywhere keeps every element. */
  lemma {:induction false} FilterKeepsAll<T>(s: seq<T>, p: T -> bool)
    requires forall i :: 0 <= i < |s| ==> p(s[i])
    ensures Filter(s, p) == s
  {
    if s != [] {
      FilterKeepsAll(s[1..], p);
      assert [s[0]] + s[1..] == s;
    }
  }

  /** Filtering distributes over concatenation. */
  lemma {:induction false} FilterAppend<T>(s: seq<T>, t: seq<T>, p: T -> bool)
    ensures Filter(s + t, p) == Filter(s, p) + Filter(t, p)
  {
    if s == [] {
      assert s + t == t;
    } else {
      var head := if p(s[0]) then [s[0]] else [];
      assert (s + t)[0] == s[0];
      assert (s + t)[1..] == s[1..] + t;
      calc {
        Filter(s + t, p);
        head + Filter(s[1..] + t, p);
        { FilterAppend(s[1..], t, p); }
        head + (Filter(s[1..], p) + Filter(t, p));
        (head + Filter(s[1..], p)) + Filter(t, p);
      }
    }
  }

  /** The rows a listing shows newest first: the matching rows of a table kept in
      creation order, read from the end (`.order("created_at", { ascending: false })`). */
  function NewestFirst<T(==)>(table: seq<T>, p: T -> bool): (r: seq<T>)
    ensures forall i :: 0 <= i < |r| ==> r[i] in table && p(r[i])
    ensures forall i :: 0 <= i < |table| && p(table[i]) ==> table[i] in r
    ensures IsSubsequence(Reverse(r), table)
  {
    var kept := Filter(table, p);
    ReverseReverse(kept);
    ReverseSameElements(kept);
    Reverse(kept)
  }

  /** A newest-first listing holds every matching row as many times as the table
      does, and nothing else. */
  lemma NewestFirstMultiplicity<T>(table: seq<T>, p: T -> bool)
    ensures forall x :: multiset(NewestFirst(table, p))[x] == if p(x) then multiset(table)[x] else 0
  {
    FilterMultiplicity(table, p);
    ReverseMultiset(Filter(table, p));
  }

  /** A row appended to a table heads the newest-first listing when it matches, and
      leaves the listing as it was when it does not. */
  lemma NewestFirstAppend<T>(table: seq<T>, x: T, p: T -> bool)
    ensures NewestFirst(table + [x], p) == (if p(x) then [x] else []) + NewestFirst(table, p)
  {
    FilterAppend(table, [x], p);
    var head := if p(x) then [x] else [];
    assert Filter([x], p) == head by {
      assert [x][1..] == [];
    }
    ReverseAppend(Filter(table, p), head);
    assert Reverse(head) == head;
  }

  /** Reversing a concatenation reverses the order of the parts. */
  lemma ReverseAppend<T>(s: seq<T>, t: seq<T>)
    ensures Reverse(s + t) == Reverse(t) + Reverse(s)
  {
    assert forall i :: 0 <= i < |s| + |t| ==> Reverse(s + t)[i] == (Reverse(t) + Reverse(s))[i];
  }

  /** Reading a reversed list backwards gives the list. */
  lemma ReverseReverse<T>(s: seq<T>)
    ensures Reverse(Reverse(s)) == s
  {
    assert forall i :: 0 <= i < |s| ==> Reverse(Reverse(s))[i] == s[i];
  }

  /** `rows.map(r => hit(r) ? f(r) : r)`, and an `.update(...).eq(...)` on a table:
      the rows that match are rewritten, every other row is kept, in place. */
  function UpdateWhere<T>(rows: seq<T>, hit: T -> bool, f: T -> T): (r: seq<T>)
    ensures |r| == |rows|
    ensures forall i :: 0 <= i < |rows| && hit(rows[i]) ==> r[i] == f(rows[i])
    ensures forall i :: 0 <= i < |rows| && !hit(rows[i]) ==> r[i] == rows[i]
  {
    if rows == [] then [] else [if hit(rows[0]) then f(rows[0]) else rows[0]] + UpdateWhere(rows[1..], hit, f)
  }

  // ---------------------------------------------------------------------------
  // Counting: a `count: "exact"` query and `array.filter(...).length`
  // ---------------------------------------------------------------------------

  /** Number of elements of `s` satisfying `p`. */
  function Count<T(==)>(s: seq<T>, p: T -> bool): (n: nat)
    ensures n == |Filter(s, p)|
    ensures n <= |s|
  {
    if s == [] then 0 else (if p(s[0]) then 1 else 0) + Count(s[1..], p)
  }

  /** When exactly one element satisfies `p`, every element satisfying it is that one. */
  lemma OnlyHit<T>(s: seq<T>, p: T -> bool, x: T)
    requires Count(s, p) == 1 && x in s && p(x)
    ensures x == Filter(s, p)[0]
  {
    assert x in Filter(s, p);
  }

  /** No element satisfies `p`: the count is 0. */
  lemma {:induction false} CountNone<T>(s: seq<T>, p: T -> bool)
    requires forall i :: 0 <= i < |s| ==> !p(s[i])
    ensures Count(s, p) == 0
  {
    if s != [] {
      CountNone(s[1..], p);
    }
  }

  /** Changing one position of a list changes its count by what changed at that position. */
  lemma {:induction false} CountChangeOne<T>(s: seq<T>, t: seq<T>, p: T -> bool, i: int)
    requires |s| == |t| && 0 <= i < |s|
    requires forall j :: 0 <= j < |s| && j != i ==> p(s[j]) == p(t[j])
    ensures Count(t, p) == Count(s, p) - (if p(s[i]) then 1 else 0) + (if p(t[i]) then 1 else 0)
  {
    if i == 0 {
      CountPointwise(s[1..], t[1..], p);
    } else {
      CountChangeOne(s[1..], t[1..], p, i - 1);
    }
  }

  /** Two lists that agree position by position on `p` have as many elements satisfying it. */
  lemma {:induction false} CountPointwise<T>(s: seq<T>, t: seq<T>, p: T -> bool)
    requires |s| == |t|
    requires forall i :: 0 <= i < |s| ==> p(s[i]) == p(t[i])
    ensures Count(s, p) == Count(t, p)
  {
    if s != [] {
      CountPointwise(s[1..], t[1..], p);
    }
  }

  // ---------------------------------------------------------------------------
  // Sums: `rows.reduce((sum, row) => sum + f(row), 0)`, a left fold
  // ---------------------------------------------------------------------------

  /** Left-to-right sum of `f` over `s`, as `reduce` computes it. */
  function Sum<T>(s: seq<T>, f: T -> int): int
  {
    if s == [] then 0 else Sum(s[..|s| - 1], f) + f(s[|s| - 1])
  }

  /** The sum of a concatenation is the sum of the parts. */
  lemma {:induction false} SumAppend<T>(s: seq<T>, t: seq<T>, f: T -> int)
    ensures Sum(s + t, f) == Sum(s, f) + Sum(t, f)
    decreases |t|
  {
    if t == [] {
      assert s + t == s;
    } else {
      var t' := t[..|t| - 1];
      SumAppend(s, t', f);
      assert (s + t)[..|s + t| - 1] == s + t';
    }
  }

  /** Sum over the first element and the rest. */
  lemma SumCons<T>(x: T, s: seq<T>, f: T -> int)
    ensures Sum([x] + s, f) == f(x) + Sum(s, f)
  {
    SumAppend([x], s, f);
    assert [x][..0] == [];
  }

  /** A sum of non-negative terms is non-negative. */
  lemma {:induction false} SumNonNegative<T>(s: seq<T>, f: T -> int)
    requires forall i :: 0 <= i < |s| ==> f(s[i]) >= 0
    ensures Sum(s, f) >= 0
  {
    if s != [] {
      SumNonNegative(s[..|s| - 1], f);
    }
  }

  /** `f` where `p` holds and 0 elsewhere. */
  function Masked<T>(p: T -> bool, f: T -> int): T -> int
  {
    x => if p(x) then f(x) else 0
  }

  /** Summing over a filter is summing `f` where `p` holds and 0 elsewhere. */
  lemma {:induction false} SumFilter<T>(s: seq<T>, p: T -> bool, f: T -> int)
    ensures Sum(Filter(s, p), f) == Sum(s, Masked(p, f))
  {
    if s != [] {
      var g := Masked(p, f);
      var rest := Filter(s[1..], p);
      SumFilter(s[1..], p, f);
      assert Sum(rest, f) == Sum(s[1..], g);
      SumCons(s[0], s[1..], g);
      assert [s[0]] + s[1..] == s;
      assert Sum(s, g) == g(s[0]) + Sum(s[1..], g);
      if p(s[0]) {
        SumCons(s[0], rest, f);
        assert Filter(s, p) == [s[0]] + rest;
      } else {
        assert Filter(s, p) == rest;
      }
    }
  }

  /** Lists whose elements agree position by position on `f` have the same sum. */
  lemma {:induction false} SumPointwise<T>(s: seq<T>, t: seq<T>, f: T -> int)
    requires |s| == |t|
    requires forall j :: 0 <= j < |s| ==> f(s[j]) == f(t[j])
    ensures Sum(s, f) == Sum(t, f)
    decreases |s|
  {
    if s != [] {
      SumPointwise(s[..|s| - 1], t[..|t| - 1], f);
    }
  }

  /** Changing one position of a list changes its sum by the difference at that position. */
  lemma {:induction false} SumChangeOne<T>(s: seq<T>, t: seq<T>, f: T -> int, i: int)
    requires |s| == |t| && 0 <= i < |s|
    requires forall j :: 0 <= j < |s| && j != i ==> f(s[j]) == f(t[j])
    ensures Sum(t, f) == Sum(s, f) - f(s[i]) + f(t[i])
    decreases |s|
  {
    var n := |s| - 1;
    if i == n {
      SumPointwise(s[..n], t[..n], f);
    } else {
      SumChangeOne(s[..n], t[..n], f, i);
    }
  }


  // ---------------------------------------------------------------------------
  // Ordering: `.order("created_at", { ascending: false })` over a table kept in
  // creation order
  // ---------------------------------------------------------------------------

  /** The elements of `s`, last first. */
  function Reverse<T>(s: seq<T>): (r: seq<T>)
    ensures |r| == |s|
    ensures forall i :: 0 <= i < |s| ==> r[i] == s[|s| - 1 - i]
  {
    if s == [] then [] else Reverse(s[1..]) + [s[0]]
  }

  /** Reversal keeps every element with its number of occurrences. */
  lemma {:induction false} ReverseMultiset<T>(s: seq<T>)
    ensures multiset(Reverse(s)) == multiset(s)
  {
    if s != [] {
      ReverseMultiset(s[1..]);
      assert s == [s[0]] + s[1..];
    }
  }

  /** Reversal keeps exactly the same elements. */
  lemma ReverseSameElements<T>(s: seq<T>)
    ensures forall x :: x in Reverse(s) <==> x in s
  {
    var r := Reverse(s);
    forall x | x in s ensures x in r {
      var i :| 0 <= i < |s| && s[i] == x;
      assert r[|s| - 1 - i] == x;
    }
  }

  /** The first `n` elements, or all of them when there are fewer: `.limit(n)`. */
  function Take<T>(s: seq<T>, n: nat): (r: seq<T>)
    ensures |r| == if |s| < n then |s| else n
    ensures forall i :: 0 <= i < |r| ==> r[i] == s[i]
  {
    if |s| <= n then s else s[..n]
  }

  // ---------------------------------------------------------------------------
  // Strings: `toLowerCase()` and `includes()`
  // ---------------------------------------------------------------------------

  /** Lower-casing of one character (ASCII letters; every other character is kept). */
  function LowerChar(c: char): char
  {
    if 'A' <= c <= 'Z' then (c as int + 32) as char else c
  }

  /** `s.toLowerCase()`, restricted to ASCII letters. */
  function Lower(s: string): (r: string)
    ensures |r| == |s|
    ensures forall i :: 0 <= i < |s| ==> r[i] == LowerChar(s[i])
    ensures forall i :: 0 <= i < |r| ==> !('A' <= r[i] <= 'Z')
  {
    if s == [] then [] else [LowerChar(s[0])] + Lower(s[1..])
  }

  predicate StartsWith(s: string, prefix: string)
  {
    |prefix| <= |s| && s[..|prefix|] == prefix
  }

  /** `s.includes(t)`: `t` occurs somewhere in `s` as a contiguous piece. */
  predicate Includes(s: string, t: string)
    decreases |s|
  {
    StartsWith(s, t) || (|s| > 0 && Includes(s[1..], t))
  }

  /** Every string includes the empty string. */
  lemma IncludesEmpty(s: string)
    ensures Includes(s, "")
  {
  }

  /** `t` sits in `s` starting at position `i`. */
  predicate OccursAt(s: string, t: string, i: int)
  {
    0 <= i <= |s| - |t| && s[i..i + |t|] == t
  }

  /** `Includes` finds `t` exactly when `t` sits at some position of `s`. */
  lemma {:induction false} IncludesIffOccurs(s: string, t: string)
    ensures Includes(s, t) <==> exists i :: OccursAt(s, t, i)
  {
    if |s| > 0 {
      IncludesIffOccurs(s[1..], t);
      if StartsWith(s, t) {
        assert OccursAt(s, t, 0);
      }
      if Includes(s[1..], t) {
        var i :| OccursAt(s[1..], t, i);
        assert s[i + 1..i + 1 + |t|] == s[1..][i..i + |t|];
        assert OccursAt(s, t, i + 1);
      }
      if exists i :: OccursAt(s, t, i) {
        var i :| OccursAt(s, t, i);
        if i > 0 {
          assert s[1..][i - 1..i - 1 + |t|] == s[i..i + |t|];
          assert OccursAt(s[1..], t, i - 1);
        } else {
          assert StartsWith(s, t);
        }
      }
    } else {
      if exists i :: OccursAt(s, t, i) {
        var i :| OccursAt(s, t, i);
        assert StartsWith(s, t);
      }
      if Includes(s, t) {
        assert OccursAt(s, t, 0);
      }
    }
  }

  /** The case-insensitive containment used by every search box:
      `haystack.toLowerCase().includes(term.toLowerCase())`. */
  predicate Matches(haystack: string, term: string)
  {
    Includes(Lower(haystack), Lower(term))
  }

  /** An empty search term matches every string. */
  lemma MatchesEmptyTerm(haystack: string)
    ensures Matches(haystack, "")
  {
    assert Lower("") == "";
    IncludesEmpty(Lower(haystack));
  }
}
