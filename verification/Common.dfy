/** Small shared vocabulary: optional values, results, and strict total orders with the one
    sorted arrangement they allow. */
module Common {

  datatype Option<+T> = None | Some(value: T) {
    /** The value, or `default` when there is none. */
    function GetOr(default: T): T {
      match this case Some(v) => v case None => default
    }
  }

  datatype Result<+T> = Ok(value: T) | Err

  function Min(a: int, b: int): int { if a < b then a else b }

  ghost predicate Distinct<T>(s: seq<T>) {
    forall i, j | 0 <= i < j < |s| :: s[i] != s[j]
  }

  lemma DistinctCountsOnce<T>(s: seq<T>)
    requires Distinct(s)
    ensures |multiset(s)| == |set x | x in s| == |s|
  {
    if s != [] {
      var rest := s[..|s| - 1];
      DistinctCountsOnce(rest);
      assert s == rest + [s[|s| - 1]];
      assert (set x | x in s) == (set x | x in rest) + {s[|s| - 1]};
    }
  }

  // ── Strict orders ──────────────────────────────────────────────────────

  /** `less` is a strict total order on the members of `s`. */
  ghost predicate TotalOn<T(!new)>(less: (T, T) -> bool, s: set<T>) {
    && (forall x | x in s :: !less(x, x))
    && (forall x, y, z | x in s && y in s && z in s && less(x, y) && less(y, z) :: less(x, z))
    && (forall x, y | x in s && y in s && x != y :: less(x, y) || less(y, x))
  }

  ghost predicate Sorted<T>(less: (T, T) -> bool, s: seq<T>) {
    forall i, j | 0 <= i < j < |s| :: less(s[i], s[j])
  }

  ghost function Elements<T>(s: seq<T>): set<T> { set x | x in s }

  /** A set has only one sorted arrangement: this is what makes a sorted output independent
      of the order in which its input arrived. */
  lemma {:induction false} SortedUnique<T(!new)>(less: (T, T) -> bool, a: seq<T>, b: seq<T>)
    requires TotalOn(less, Elements(a))
    requires Elements(a) == Elements(b)
    requires Sorted(less, a) && Sorted(less, b)
    ensures a == b
  {
    if a == [] {
      HeadIsElement(b);
    } else {
      assert a[0] in Elements(a);
      assert b != [];
      assert b[0] in Elements(b);
      HeadsAgree(less, a, b);
      assert Elements(a[1..]) == Elements(a) - {a[0]} by { TailElements(less, a); }
      assert Elements(b[1..]) == Elements(b) - {b[0]} by { TailElements(less, b); }
      SortedUnique(less, a[1..], b[1..]);
      assert a == [a[0]] + a[1..] && b == [b[0]] + b[1..];
    }
  }

  lemma HeadIsElement<T>(s: seq<T>)
    ensures s != [] ==> s[0] in Elements(s)
  {}

  lemma HeadsAgree<T(!new)>(less: (T, T) -> bool, a: seq<T>, b: seq<T>)
    requires TotalOn(less, Elements(a)) && Elements(a) == Elements(b)
    requires Sorted(less, a) && Sorted(less, b) && a != [] && b != []
    ensures a[0] == b[0]
  {
    assert a[0] in Elements(b) && b[0] in Elements(a);
    var i :| 0 <= i < |b| && b[i] == a[0];
    var j :| 0 <= j < |a| && a[j] == b[0];
  }

  lemma TailElements<T(!new)>(less: (T, T) -> bool, a: seq<T>)
    requires a != [] && TotalOn(less, Elements(a)) && Sorted(less, a)
    ensures Elements(a[1..]) == Elements(a) - {a[0]}
  {
    forall x | x in a[1..] ensures x != a[0] && x in Elements(a) {
      var i :| 0 <= i < |a[1..]| && a[1..][i] == x;
      assert a[i + 1] == x && less(a[0], a[i + 1]) && a[0] in Elements(a);
    }
    forall x | x in Elements(a) && x != a[0] ensures x in a[1..] {
      var i :| 0 <= i < |a| && a[i] == x;
      assert a[1..][i - 1] == x;
    }
  }

  /** Stand-in for the library sort: insertion into an already sorted prefix. */
  method Sort<T(!new)>(less: (T, T) -> bool, s: seq<T>) returns (r: seq<T>)
    requires TotalOn(less, Elements(s)) && Distinct(s)
    ensures Sorted(less, r)
    ensures multiset(r) == multiset(s) && Elements(r) == Elements(s)
  {
    r := [];
    for n := 0 to |s|
      invariant Sorted(less, r) && multiset(r) == multiset(s[..n])
    {
      assert s[..n + 1] == s[..n] + [s[n]];
      SameElements(r, s[..n]);
      assert s[n] !in s[..n];
      assert forall x :: x in r <==> x in Elements(r);
      r := Insert(less, r, s[n], s);
    }
    assert s[..|s|] == s;
    SameElements(r, s);
  }

  method Insert<T(!new)>(less: (T, T) -> bool, r: seq<T>, x: T, ghost universe: seq<T>) returns (q: seq<T>)
    requires TotalOn(less, Elements(universe)) && Elements(r) <= Elements(universe) && x in universe
    requires Sorted(less, r) && x !in r
    ensures Sorted(less, q) && multiset(q) == multiset(r) + multiset{x}
  {
    var k := 0;
    while k < |r| && less(r[k], x)
      invariant 0 <= k <= |r|
      invariant forall i | 0 <= i < k :: less(r[i], x)
    {
      k := k + 1;
    }
    forall i | k <= i < |r| ensures less(x, r[i]) {
      assert r[i] in Elements(r) && r[k] in Elements(r);
      assert r[k] != x;
    }
    assert r == r[..k] + r[k..];
    q := r[..k] + [x] + r[k..];
  }

  lemma SameElements<T>(a: seq<T>, b: seq<T>)
    requires multiset(a) == multiset(b)
    ensures Elements(a) == Elements(b) && |a| == |b|
  {
    forall x ensures x in a <==> x in b {
      assert x in a <==> x in multiset(a);
    }
    assert |multiset(a)| == |a|;
  }

  // ── Ids sorted without repeats ─────────────────────────────────────────

  ghost predicate Increasing(s: seq<int>) { forall i, j | 0 <= i < j < |s| :: s[i] < s[j] }

  function InsertId(s: seq<int>, x: int): seq<int> {
    if s == [] then [x]
    else
      var n := |s| - 1;
      if s[n] < x then s + [x]
      else if s[n] == x then s
      else InsertId(s[..n], x) + [s[n]]
  }

  /** Sorted without repeats. */
  function SortIds(ids: seq<int>): seq<int> {
    if ids == [] then [] else InsertId(SortIds(ids[..|ids| - 1]), ids[|ids| - 1])
  }

  lemma {:induction false} InsertIdMembers(s: seq<int>, x: int, y: int)
    ensures y in InsertId(s, x) <==> y in s || y == x
  {
    if s != [] {
      InsertIdMembers(s[..|s| - 1], x, y);
      assert s == s[..|s| - 1] + [s[|s| - 1]];
    }
  }

  lemma {:induction false} InsertIdSorts(s: seq<int>, x: int)
    requires Increasing(s)
    ensures Increasing(InsertId(s, x))
  {
    if s != [] && s[|s| - 1] > x {
      var n := |s| - 1;
      var front := InsertId(s[..n], x);
      InsertIdSorts(s[..n], x);
      forall i | 0 <= i < |front| ensures front[i] < s[n] {
        InsertIdMembers(s[..n], x, front[i]);
      }
    }
  }

  lemma {:induction false} SortIdsSorts(ids: seq<int>)
    ensures Increasing(SortIds(ids)) && forall y :: y in SortIds(ids) <==> y in ids
  {
    if ids != [] {
      var n := |ids| - 1;
      SortIdsSorts(ids[..n]);
      InsertIdSorts(SortIds(ids[..n]), ids[n]);
      forall y ensures y in SortIds(ids) <==> y in ids {
        InsertIdMembers(SortIds(ids[..n]), ids[n], y);
        assert ids == ids[..n] + [ids[n]];
      }
    }
  }

  lemma SortIdsCount(ids: seq<int>)
    ensures Increasing(SortIds(ids)) && Elements(SortIds(ids)) == Elements(ids) && |SortIds(ids)| == |Elements(ids)|
  {
    SortIdsSorts(ids);
    SortedOnce(SortIds(ids), ids);
  }

  lemma SortedOnce(r: seq<int>, ids: seq<int>)
    requires Increasing(r) && forall y :: y in r <==> y in ids
    ensures Elements(r) == Elements(ids) && |r| == |Elements(ids)|
  {
    forall y ensures y in Elements(r) <==> y in Elements(ids) { assert y in r <==> y in ids; }
    DistinctCountsOnce(r);
  }

  /** A list in order is its own sorted form. */
  lemma {:induction false} SortIdsFixes(ids: seq<int>)
    requires Increasing(ids)
    ensures SortIds(ids) == ids
  {
    if ids != [] {
      var n := |ids| - 1;
      SortIdsFixes(ids[..n]);
      assert ids == ids[..n] + [ids[n]];
    }
  }

  /** Two increasing lists of the same ids are the same list. */
  lemma IncreasingUnique(a: seq<int>, b: seq<int>)
    requires Increasing(a) && Increasing(b) && forall y :: y in a <==> y in b
    ensures a == b
  {
    var less: (int, int) -> bool := (x: int, y: int) => x < y;
    forall y ensures y in Elements(a) <==> y in Elements(b) { assert y in a <==> y in b; }
    SortedUnique(less, a, b);
  }

  // ── Strings in dictionary order ────────────────────────────────────────

  /** Dictionary order on strings: the order of the program's sorted maps and of its ties. */
  predicate Before(a: string, b: string) {
    if b == [] then false
    else if a == [] then true
    else a[0] < b[0] || (a[0] == b[0] && Before(a[1..], b[1..]))
  }

  /** Dictionary order: a proper prefix comes first, and otherwise the first difference decides. */
  lemma {:induction false} BeforeIff(a: string, b: string)
    ensures Before(a, b) <==> (|a| < |b| && a == b[..|a|]) || exists k :: DiffersAt(a, b, k) && a[k] < b[k]
  {
    if a != [] && b != [] {
      BeforeIff(a[1..], b[1..]);
      if a[0] == b[0] {
        PrefixTail(a, b);
        if k :| DiffersAt(a[1..], b[1..], k) && a[1..][k] < b[1..][k] { TailDiffers(a, b, k); }
        if k :| DiffersAt(a, b, k) && a[k] < b[k] { TailDiffers(a, b, k - 1); }
      } else {
        assert DiffersAt(a, b, 0);
        assert forall k :: DiffersAt(a, b, k) ==> k == 0;
      }
    }
  }

  /** The first place where the two differ. */
  ghost predicate DiffersAt(a: string, b: string, k: int) {
    0 <= k < |a| && k < |b| && a[k] != b[k] && forall i | 0 <= i < k :: a[i] == b[i]
  }

  lemma TailDiffers(a: string, b: string, k: int)
    requires a != [] && b != [] && a[0] == b[0]
    ensures DiffersAt(a[1..], b[1..], k) <==> k >= 0 && DiffersAt(a, b, k + 1)
  {
    if 0 <= k < |a| - 1 && k < |b| - 1 {
      assert a[1..][k] == a[k + 1] && b[1..][k] == b[k + 1];
      if forall i | 0 <= i < k :: a[1..][i] == b[1..][i] {
        forall i | 0 <= i < k + 1 ensures a[i] == b[i] { if i > 0 { assert a[1..][i - 1] == b[1..][i - 1]; } }
      }
    }
  }

  lemma PrefixTail(a: string, b: string)
    requires a != [] && b != [] && a[0] == b[0]
    ensures |a| <= |b| ==> (a[1..] == b[1..][..|a| - 1] <==> a == b[..|a|])
  {
    if |a| <= |b| {
      assert b[1..][..|a| - 1] == b[..|a|][1..];
      assert a == [a[0]] + a[1..] && b[..|a|] == [b[0]] + b[..|a|][1..];
    }
  }

  lemma {:induction false} BeforeTransitive(a: string, b: string, c: string)
    requires Before(a, b) && Before(b, c)
    ensures Before(a, c)
  {
    if a != [] && a[0] == b[0] && b[0] == c[0] {
      BeforeTransitive(a[1..], b[1..], c[1..]);
    }
  }

  lemma {:induction false} BeforeConnected(a: string, b: string)
    ensures !Before(a, a)
    ensures a == b || Before(a, b) || Before(b, a)
    ensures !(Before(a, b) && Before(b, a))
  {
    if a != [] {
      BeforeConnected(a[1..], if b == [] then [] else b[1..]);
      if b != [] && a[0] == b[0] {
        assert a == [a[0]] + a[1..] && b == [b[0]] + b[1..];
      }
    }
  }

  lemma BeforeIsTotal(s: set<string>)
    ensures TotalOn(Before, s)
  {
    forall x, y ensures !Before(x, x) && (x == y || Before(x, y) || Before(y, x)) { BeforeConnected(x, y); }
    forall x, y, z | Before(x, y) && Before(y, z) ensures Before(x, z) { BeforeTransitive(x, y, z); }
  }
}
