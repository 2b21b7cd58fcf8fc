/** Small building blocks shared by the components: an optional value, and the
    list operations the components use (Array.prototype.filter, Array.prototype.find
    and Array.prototype.some) together with the facts proved about them. */
module Common {

  datatype Option<T> = None | Some(value: T)

  /** `s.filter(p)`: the elements of `s` satisfying `p`, in their original order. */
  function Filter<T>(s: seq<T>, p: T -> bool): (r: seq<T>)
    ensures |r| <= |s|
    ensures forall x :: x in r ==> x in s && p(x)
    ensures forall x :: x in s && p(x) ==> x in r
  {
    if s == [] then []
    else if p(s[0]) then [s[0]] + Filter(s[1..], p)
    else Filter(s[1..], p)
  }

  /** `sub` is an order-preserving sub-list of `s`: it is obtained from `s` by
      deleting elements, without reordering the ones that remain. */
  predicate SubSeq<T(==)>(sub: seq<T>, s: seq<T>)
    decreases |s|
  {
    if sub == [] then true
    else if s == [] then false
    else if sub[0] == s[0] then SubSeq(sub[1..], s[1..])
    else SubSeq(sub, s[1..])
  }

  /** `s.some(p)`: true iff some element of `s` satisfies `p`. */
  predicate Any<T>(s: seq<T>, p: T -> bool)
    ensures Any(s, p) ==> exists i :: 0 <= i < |s| && p(s[i])
  {
    if s == [] then false
    else if p(s[0]) then true
    else
      var rest := Any(s[1..], p);
      assert rest ==> exists i :: 0 <= i < |s| && p(s[i]) by {
        if rest {
          var i :| 0 <= i < |s[1..]| && p(s[1..][i]);
          assert p(s[i + 1]);
        }
      }
      rest
  }

  /** `s.find(p)`: the first element of `s` satisfying `p`, or None. */
  function Find<T>(s: seq<T>, p: T -> bool): (r: Option<T>)
    ensures r.Some? ==> r.value in s && p(r.value)
  {
    if s == [] then None
    else if p(s[0]) then Some(s[0])
    else Find(s[1..], p)
  }

  /** `filter` keeps the relative order of what it keeps. */
  lemma {:induction false} FilterIsSubSeq<T>(s: seq<T>, p: T -> bool)
    ensures SubSeq(Filter(s, p), s)
  {
    if s != [] {
      FilterIsSubSeq(s[1..], p);
      var r := Filter(s, p);
      if p(s[0]) {
        assert r[1..] == Filter(s[1..], p);
      } else if r != [] {
        assert r[0] in r;
      }
    }
  }

  /** Filtering a list whose every element passes returns the list unchanged. */
  lemma {:induction false} FilterKeepsAll<T>(s: seq<T>, p: T -> bool)
    requires forall i :: 0 <= i < |s| ==> p(s[i])
    ensures Filter(s, p) == s
  {
    if s != [] {
      FilterKeepsAll(s[1..], p);
      assert [s[0]] + s[1..] == s;
    }
  }

  /** Filtering a list that holds a failing element makes it strictly shorter. */
  lemma {:induction false} FilterDropsFailing<T>(s: seq<T>, p: T -> bool, k: nat)
    requires k < |s| && !p(s[k])
    ensures |Filter(s, p)| < |s|
  {
    if k > 0 {
      FilterDropsFailing(s[1..], p, k - 1);
    }
  }

  /** Filtering a list whose every element fails gives the empty list. */
  lemma {:induction false} FilterKeepsNone<T>(s: seq<T>, p: T -> bool)
    requires forall i :: 0 <= i < |s| ==> !p(s[i])
    ensures Filter(s, p) == []
  {
    if s != [] {
      FilterKeepsNone(s[1..], p);
    }
  }

  /** Filtering a list in which exactly one position passes leaves that element alone. */
  lemma {:induction false} FilterUnique<T>(s: seq<T>, p: T -> bool, j: nat)
    requires j < |s|
    requires forall i :: 0 <= i < |s| ==> (p(s[i]) <==> i == j)
    ensures Filter(s, p) == [s[j]]
  {
    if j > 0 {
      FilterUnique(s[1..], p, j - 1);
    } else {
      forall i | 0 <= i < |s[1..]| ensures !p(s[1..][i]) {
        assert s[1..][i] == s[i + 1];
      }
      FilterKeepsNone(s[1..], p);
    }
  }

  /** Filtering distributes over concatenation. */
  lemma {:induction false} FilterAppend<T>(a: seq<T>, b: seq<T>, p: T -> bool)
    ensures Filter(a + b, p) == Filter(a, p) + Filter(b, p)
  {
    if a == [] {
      assert a + b == b;
    } else {
      var ab := a + b;
      assert ab[0] == a[0] && ab[1..] == a[1..] + b;
      FilterAppend(a[1..], b, p);
      if p(a[0]) {
        assert Filter(ab, p) == [a[0]] + Filter(a[1..] + b, p);
        assert Filter(a, p) == [a[0]] + Filter(a[1..], p);
      } else {
        assert Filter(ab, p) == Filter(a[1..] + b, p);
        assert Filter(a, p) == Filter(a[1..], p);
      }
    }
  }

  /** `filter` keeps every passing element as often as it occurs, and no
      failing one. */
  lemma {:induction false} FilterMultiset<T>(s: seq<T>, p: T -> bool)
    ensures forall x :: multiset(Filter(s, p))[x] == if p(x) then multiset(s)[x] else 0
  {
    if s != [] {
      FilterMultiset(s[1..], p);
      assert s == [s[0]] + s[1..];
      assert multiset(s) == multiset{s[0]} + multiset(s[1..]);
      if p(s[0]) {
        assert multiset(Filter(s, p)) == multiset{s[0]} + multiset(Filter(s[1..], p));
      }
    }
  }

  /** `some` holds exactly when a witness exists. */
  lemma {:induction false} AnyIffExists<T>(s: seq<T>, p: T -> bool)
    ensures Any(s, p) <==> exists i :: 0 <= i < |s| && p(s[i])
  {
    if s != [] {
      AnyIffExists(s[1..], p);
      if Any(s[1..], p) {
        var i :| 0 <= i < |s[1..]| && p(s[1..][i]);
        assert p(s[i + 1]);
      }
      if exists i :: 0 <= i < |s| && p(s[i]) {
        var i :| 0 <= i < |s| && p(s[i]);
        if i > 0 {
          assert p(s[1..][i - 1]);
        }
      }
    }
  }

  /** `find` returns the first element satisfying the predicate, or None
      exactly when no element satisfies it. */
  lemma {:induction false} FindIsFirst<T>(s: seq<T>, p: T -> bool)
    ensures Find(s, p).None? <==> forall i :: 0 <= i < |s| ==> !p(s[i])
    ensures Find(s, p).Some? ==>
              exists k :: 0 <= k < |s| && s[k] == Find(s, p).value && p(s[k])
                          && forall i :: 0 <= i < k ==> !p(s[i])
  {
    if s != [] {
      FindIsFirst(s[1..], p);
      if !p(s[0]) {
        if Find(s, p).Some? {
          var k :| 0 <= k < |s[1..]| && s[1..][k] == Find(s, p).value && p(s[1..][k])
                   && forall i :: 0 <= i < k ==> !p(s[1..][i]);
          assert s[k + 1] == Find(s, p).value;
          forall i | 0 <= i < k + 1 ensures !p(s[i]) {
            if i > 0 { assert s[i] == s[1..][i - 1]; }
          }
        } else {
          forall i | 0 <= i < |s| ensures !p(s[i]) {
            if i > 0 { assert s[i] == s[1..][i - 1]; }
          }
        }
      }
    }
  }
}
