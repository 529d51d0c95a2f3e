/** Sequence helpers shared by the dispatchers: `Array.prototype.filter` and
    the uniqueness of the keys of a JavaScript object. */
module Seqs {

  /** No element occurs twice (the keys of an object, the names of a batch). */
  ghost predicate Distinct<T>(s: seq<T>) {
    forall i, j :: 0 <= i < j < |s| ==> s[i] != s[j]
  }

  /** `s.filter(p)`: the elements of `s` that satisfy `p`, in their order. */
  function Filter<T(!new)>(s: seq<T>, p: T -> bool): (r: seq<T>)
    ensures |r| <= |s|
    ensures forall x :: x in r <==> x in s && p(x)
  {
    if s == [] then []
    else
      var n := |s| - 1;
      assert s == s[..n] + [s[n]];
      Filter(s[..n], p) + (if p(s[n]) then [s[n]] else [])
  }

  /** Filtering nothing gives nothing, and filtering one element keeps it
      exactly when it satisfies the predicate. */
  lemma FilterSingle<T(!new)>(x: T, p: T -> bool)
    ensures Filter([], p) == []
    ensures Filter([x], p) == if p(x) then [x] else []
  {
    assert [x][..0] == [];
  }

  /** Filtering distributes over concatenation. With `FilterSingle` this
      fixes the result completely: every element that satisfies the
      predicate is kept, once per occurrence, in input order. */
  lemma {:induction false} FilterConcat<T(!new)>(s: seq<T>, t: seq<T>, p: T -> bool)
    ensures Filter(s + t, p) == Filter(s, p) + Filter(t, p)
  {
    if t == [] {
      assert s + t == s;
    } else {
      var n := |t| - 1;
      var u, m := s + t, |s + t| - 1;
      var last := if p(t[n]) then [t[n]] else [];
      assert u[..m] == s + t[..n] && u[m] == t[n];
      FilterConcat(s, t[..n], p);
      calc {
        Filter(u, p);
        Filter(s + t[..n], p) + last;
        (Filter(s, p) + Filter(t[..n], p)) + last;
        Filter(s, p) + (Filter(t[..n], p) + last);
        Filter(s, p) + Filter(t, p);
      }
    }
  }

  /** Filtering keeps each element at most as often as it occurs. */
  lemma {:induction false} FilterSubmultiset<T(!new)>(s: seq<T>, p: T -> bool)
    ensures multiset(Filter(s, p)) <= multiset(s)
  {
    if s != [] {
      var n := |s| - 1;
      FilterSubmultiset(s[..n], p);
      assert s == s[..n] + [s[n]];
    }
  }

  /** Filtering a list without repetitions yields a list without repetitions. */
  lemma {:induction false} FilterDistinct<T(!new)>(s: seq<T>, p: T -> bool)
    requires Distinct(s)
    ensures Distinct(Filter(s, p))
  {
    if s != [] {
      var n := |s| - 1;
      FilterDistinct(s[..n], p);
      assert s[n] !in s[..n];
    }
  }

  /** Filtering a longer prefix extends the filtered shorter prefix. */
  lemma FilterSnoc<T(!new)>(s: seq<T>, i: nat, p: T -> bool)
    requires i < |s|
    ensures Filter(s[..i + 1], p) == Filter(s[..i], p) + (if p(s[i]) then [s[i]] else [])
  {
    assert s[..i + 1][..i] == s[..i];
  }
}
