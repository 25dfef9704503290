/**
 Sorted lists of distinct values: what `[...new Set(values)].sort()` gives.  The orders used are the order of
 code units and given priorities.  A strictly ascending list is determined by its set of elements, so it does
 not matter how a sort goes about it.
 */
module OrderedText {

  type Order<!T> = (T, T) -> bool

  function Elements<T(==)>(s: seq<T>): set<T> {
    set x | x in s
  }

  predicate NoRepeats<T(==)>(s: seq<T>) {
    forall i, j :: 0 <= i < j < |s| ==> s[i] != s[j]
  }

  /** `[...new Set(values)]`: each element once, where it first occurs. */
  function Distinct<T(==, !new)>(s: seq<T>): (r: seq<T>)
    ensures NoRepeats(r) && forall x :: x in r <==> x in s
  {
    if s == [] then []
    else
      var front, last := Distinct(s[..|s| - 1]), s[|s| - 1];
      assert s == s[..|s| - 1] + [last];
      if last in front then front else front + [last]
  }

  lemma {:induction false} DistinctOfDistinct<T(!new)>(s: seq<T>)
    requires NoRepeats(s)
    ensures Distinct(s) == s
  {
    if s != [] {
      var front, last := s[..|s| - 1], s[|s| - 1];
      assert s == front + [last];
      DistinctOfDistinct(front);
    }
  }

  predicate Ascending<T(==)>(s: seq<T>, less: Order<T>) {
    forall i, j :: 0 <= i < j < |s| ==> less(s[i], s[j])
  }

  /** Irreflexive, transitive and total on some values. */
  ghost predicate StrictOrderOn<T>(less: Order<T>, d: set<T>) {
    && (forall x :: x in d ==> !less(x, x))
    && (forall x, y :: x in d && y in d && x != y ==> less(x, y) || less(y, x))
    && (forall x, y, z :: x in d && y in d && z in d && less(x, y) && less(y, z) ==> less(x, z))
  }

  function Insert<T(==)>(x: T, s: seq<T>, less: Order<T>): seq<T> {
    if s == [] then [x]
    else if x == s[0] then s
    else if less(x, s[0]) then [x] + s
    else [s[0]] + Insert(x, s[1..], less)
  }

  /** Each element once, in ascending order. */
  function SortDistinct<T(==)>(s: seq<T>, less: Order<T>): seq<T> {
    if s == [] then [] else Insert(s[|s| - 1], SortDistinct(s[..|s| - 1], less), less)
  }

  lemma {:induction false} InsertMembers<T>(x: T, s: seq<T>, less: Order<T>, y: T)
    ensures y in Insert(x, s, less) <==> y in s || y == x
  {
    if s == [] || x == s[0] {
    } else if less(x, s[0]) {
      assert y in [x] + s <==> y in s || y == x;
    } else {
      InsertMembers(x, s[1..], less, y);
      assert y in s <==> y == s[0] || y in s[1..];
    }
  }

  lemma InsertElements<T>(x: T, s: seq<T>, less: Order<T>)
    ensures Elements(Insert(x, s, less)) == Elements(s) + {x}
  {
    var before, after := Elements(s), Elements(Insert(x, s, less));
    forall y | y in after ensures y in before + {x} {
      InsertMembers(x, s, less, y);
    }
    forall y | y in before ensures y in after {
      InsertMembers(x, s, less, y);
    }
    InsertMembers(x, s, less, x);
    assert x in after;
  }

  lemma {:induction false} InsertAscending<T>(x: T, s: seq<T>, less: Order<T>)
    requires StrictOrderOn(less, Elements(s) + {x}) && Ascending(s, less)
    ensures Ascending(Insert(x, s, less), less)
  {
    if s == [] || x == s[0] {
    } else if less(x, s[0]) {
      var r := [x] + s;
      forall i, j | 0 <= i < j < |r| ensures less(r[i], r[j]) {
        if i > 0 {
          assert r[i] == s[i - 1] && r[j] == s[j - 1];
        } else if j > 1 {
          assert less(s[0], s[j - 1]) && s[0] in Elements(s) && s[j - 1] in Elements(s);
        }
      }
    } else {
      var rest := s[1..];
      assert Elements(rest) <= Elements(s);
      assert Ascending(rest, less);
      InsertAscending(x, rest, less);
      InsertElements(x, rest, less);
      var t := Insert(x, rest, less);
      forall y | y in t ensures less(s[0], y) {
        assert y in Elements(t);
        if y != x {
          var k :| 0 <= k < |rest| && rest[k] == y;
          assert y == s[k + 1];
        } else {
          assert s[0] in Elements(s);
        }
      }
    }
  }

  /** Sorting keeps exactly the elements and puts them in strictly ascending order. */
  lemma {:induction false} SortDistinctSorts<T>(s: seq<T>, less: Order<T>)
    requires StrictOrderOn(less, Elements(s))
    ensures Ascending(SortDistinct(s, less), less)
    ensures Elements(SortDistinct(s, less)) == Elements(s)
  {
    if s != [] {
      var front, x := s[..|s| - 1], s[|s| - 1];
      assert s == front + [x];
      assert Elements(s) == Elements(front) + {x};
      SortDistinctSorts(front, less);
      InsertElements(x, SortDistinct(front, less), less);
      InsertAscending(x, SortDistinct(front, less), less);
    }
  }

  /** A strictly ascending list is determined by its elements. */
  lemma {:induction false} AscendingUnique<T>(a: seq<T>, b: seq<T>, less: Order<T>)
    requires StrictOrderOn(less, Elements(a)) && Elements(a) == Elements(b)
    requires Ascending(a, less) && Ascending(b, less)
    ensures a == b
    decreases |a|
  {
    assert b != [] ==> b[0] in Elements(b);
    if a != [] {
      assert a[0] in Elements(b);
      var k :| 0 <= k < |b| && b[k] == a[0];
      assert b[0] in Elements(a);
      var j :| 0 <= j < |a| && a[j] == b[0];
      TailElements(a, less);
      TailElements(b, less);
      AscendingUnique(a[1..], b[1..], less);
      assert a == [a[0]] + a[1..] && b == [b[0]] + b[1..];
    }
  }

  lemma TailElements<T>(a: seq<T>, less: Order<T>)
    requires a != [] && Ascending(a, less) && StrictOrderOn(less, Elements(a))
    ensures Elements(a[1..]) == Elements(a) - {a[0]}
    ensures Ascending(a[1..], less)
    ensures StrictOrderOn(less, Elements(a[1..]))
  {
    assert a[0] in Elements(a);
    forall x ensures x in Elements(a[1..]) <==> x in Elements(a) - {a[0]} {
      if x in Elements(a[1..]) {
        var k :| 0 <= k < |a| - 1 && a[1..][k] == x;
        assert a[k + 1] == x && less(a[0], x);
      }
      if x in Elements(a) && x != a[0] {
        var k :| 0 <= k < |a| && a[k] == x;
        assert a[1..][k - 1] == x;
      }
    }
  }

  lemma {:induction false} SortDistinctCanonical<T>(a: seq<T>, b: seq<T>, less: Order<T>)
    requires StrictOrderOn(less, Elements(a)) && StrictOrderOn(less, Elements(b))
    ensures SortDistinct(a, less) == SortDistinct(b, less) <==> Elements(a) == Elements(b)
  {
    SortDistinctSorts(a, less);
    SortDistinctSorts(b, less);
    if Elements(a) == Elements(b) {
      AscendingUnique(SortDistinct(a, less), SortDistinct(b, less), less);
    }
  }

  /** The elements of a finite set, listed in ascending order. */
  ghost function InOrder<T>(s: set<T>, less: Order<T>): (r: seq<T>)
    requires StrictOrderOn(less, s)
    ensures Elements(r) == s && Ascending(r, less)
    decreases |s|
  {
    if s == {} then []
    else
      LeastExists(s, less);
      var m :| m in s && IsLeast(m, s, less);
      var rest := InOrder(s - {m}, less);
      LeastFirst(m, s, less, rest);
      [m] + rest
  }

  ghost predicate IsLeast<T>(m: T, s: set<T>, less: Order<T>) {
    forall x :: x in s && x != m ==> less(m, x)
  }

  lemma {:induction false} LeastExists<T>(s: set<T>, less: Order<T>)
    requires s != {} && StrictOrderOn(less, s)
    ensures exists m :: m in s && IsLeast(m, s, less)
    decreases |s|
  {
    var x :| x in s;
    if s - {x} == {} {
      assert forall y :: y in s ==> y == x || y in s - {x};
      assert IsLeast(x, s, less);
    } else {
      LeastExists(s - {x}, less);
      var m :| m in s - {x} && IsLeast(m, s - {x}, less);
      if less(x, m) {
        assert IsLeast(x, s, less);
      } else {
        assert IsLeast(m, s, less);
      }
    }
  }

  lemma LeastFirst<T>(m: T, s: set<T>, less: Order<T>, rest: seq<T>)
    requires m in s && IsLeast(m, s, less) && Elements(rest) == s - {m} && Ascending(rest, less)
    ensures Elements([m] + rest) == s && Ascending([m] + rest, less)
  {
    var r := [m] + rest;
    assert forall x :: x in r <==> x == m || x in Elements(rest);
    forall i, j | 0 <= i < j < |r| ensures less(r[i], r[j]) {
      assert r[j] == rest[j - 1] && r[j] in Elements(rest);
      if i > 0 {
        assert r[i] == rest[i - 1];
      }
    }
  }

  /** Sorting the distinct values of a list is listing its elements in order. */
  lemma SortDistinctIsInOrder<T>(s: seq<T>, less: Order<T>)
    requires StrictOrderOn(less, Elements(s))
    ensures SortDistinct(s, less) == InOrder(Elements(s), less)
  {
    SortDistinctSorts(s, less);
    AscendingUnique(SortDistinct(s, less), InOrder(Elements(s), less), less);
  }

  /** `[...values]`: the elements of a set, in no particular order. */
  method Spread<T(==)>(s: set<T>) returns (r: seq<T>)
    ensures Elements(r) == s && NoRepeats(r)
  {
    var rest := s;
    r := [];
    while rest != {}
      invariant Elements(r) == s - rest && rest <= s && NoRepeats(r)
      decreases |rest|
    {
      var x :| x in rest;
      assert x !in Elements(r);
      assert forall y :: y in r + [x] <==> y in Elements(r) || y == x;
      r, rest := r + [x], rest - {x};
    }
  }

  /** Orders that agree on the values sort alike. */
  lemma SortAgrees<T>(s: seq<T>, f: Order<T>, g: Order<T>)
    requires forall x, y :: x in s && y in s ==> f(x, y) == g(x, y)
    requires StrictOrderOn(f, Elements(s))
    ensures SortDistinct(s, f) == SortDistinct(s, g)
    ensures StrictOrderOn(g, Elements(s))
  {
    SortDistinctSorts(s, f);
    assert forall x, y :: x in Elements(s) && y in Elements(s) ==> f(x, y) == g(x, y);
    SortDistinctSorts(s, g);
    var t := SortDistinct(s, f);
    forall i, j | 0 <= i < j < |t| ensures g(t[i], t[j]) {
      assert t[i] in Elements(t) && t[j] in Elements(t);
    }
    AscendingUnique(t, SortDistinct(s, g), g);
  }

  // ----- the order of code units ----------------------------------------------------------------

  predicate LexLess(a: string, b: string) {
    b != "" && (a == "" || a[0] < b[0] || (a[0] == b[0] && LexLess(a[1..], b[1..])))
  }

  const LEX: Order<string> := (a, b) => LexLess(a, b)

  lemma {:induction false} LexIrreflexive(a: string)
    ensures !LexLess(a, a)
  {
    if a != "" {
      LexIrreflexive(a[1..]);
    }
  }

  lemma {:induction false} LexTotal(a: string, b: string)
    ensures a == b || LexLess(a, b) || LexLess(b, a)
  {
    if a != "" && b != "" && a[0] == b[0] {
      LexTotal(a[1..], b[1..]);
      assert a == [a[0]] + a[1..] && b == [b[0]] + b[1..];
    }
  }

  lemma {:induction false} LexTransitive(a: string, b: string, c: string)
    requires LexLess(a, b) && LexLess(b, c)
    ensures LexLess(a, c)
  {
    if a != "" && a[0] == b[0] && b[0] == c[0] {
      LexTransitive(a[1..], b[1..], c[1..]);
    }
  }

  lemma LexIsStrictOrder(d: set<string>)
    ensures StrictOrderOn(LEX, d)
  {
    forall x | x in d ensures !LEX(x, x) {
      LexIrreflexive(x);
    }
    forall x, y | x in d && y in d && x != y ensures LEX(x, y) || LEX(y, x) {
      LexTotal(x, y);
    }
    forall x, y, z | x in d && y in d && z in d && LEX(x, y) && LEX(y, z) ensures LEX(x, z) {
      LexTransitive(x, y, z);
    }
  }
}
