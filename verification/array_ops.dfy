/**
  The three `Array.prototype` methods the store and its consumers are written
  with: `findIndex`, `find` and `filter`, over immutable sequences.
 */
module ArrayOps {
  import opened Js

  /** `s.findIndex(p)`: the first index whose element satisfies `p`, or -1. */
  function FindIndex<T>(s: seq<T>, p: T -> bool): (r: int)
    ensures -1 <= r < |s|
    ensures r == -1 <==> forall i :: 0 <= i < |s| ==> !p(s[i])
    ensures r != -1 ==> p(s[r]) && forall i :: 0 <= i < r ==> !p(s[i])
  {
    if |s| == 0 then -1
    else if p(s[0]) then 0
    else
      var i := FindIndex(s[1..], p);
      if i == -1 then -1 else i + 1
  }

  /** `s.find(p)`: the first element satisfying `p`, or `undefined`. */
  function Find<T>(s: seq<T>, p: T -> bool): (r: Option<T>)
    ensures r.None? <==> forall i :: 0 <= i < |s| ==> !p(s[i])
    ensures r.Some? ==> exists i :: 0 <= i < |s| && s[i] == r.value && p(s[i]) &&
                                    forall j :: 0 <= j < i ==> !p(s[j])
  {
    var i := FindIndex(s, p);
    if i == -1 then None else Some(s[i])
  }

  /** `s.filter(p)`: the elements satisfying `p`, in their original order. */
  function Filter<T>(s: seq<T>, p: T -> bool): (r: seq<T>)
    ensures |r| <= |s|
    ensures forall i :: 0 <= i < |r| ==> r[i] in s && p(r[i])
    ensures forall i :: 0 <= i < |s| && p(s[i]) ==> s[i] in r
  {
    if |s| == 0 then []
    else if p(s[0]) then [s[0]] + Filter(s[1..], p)
    else Filter(s[1..], p)
  }

  /** Membership in a filtered sequence. */
  lemma FilterMembers<T>(s: seq<T>, p: T -> bool)
    ensures forall x :: x in Filter(s, p) <==> x in s && p(x)
  {
    forall x | x in s && p(x) ensures x in Filter(s, p) {
      var i :| 0 <= i < |s| && s[i] == x;
    }
  }

  /** The first match is unique: any index that satisfies `p` with no earlier
      match is the one `Find` returns. */
  lemma FindIsFirst<T>(s: seq<T>, p: T -> bool, i: int)
    requires 0 <= i < |s| && p(s[i])
    requires forall j :: 0 <= j < i ==> !p(s[j])
    ensures Find(s, p) == Some(s[i])
    ensures FindIndex(s, p) == i
  {
  }

  /** Elements that cannot match do not change what `find` finds, wherever
      they are inserted. */
  lemma FindSkipsNonMatching<T>(a: seq<T>, x: seq<T>, b: seq<T>, p: T -> bool)
    requires forall i :: 0 <= i < |x| ==> !p(x[i])
    ensures Find(a + x + b, p) == Find(a + b, p)
  {
    var s, t := a + x + b, a + b;
    var i := FindIndex(t, p);
    if i != -1 {
      if i < |a| {
        assert s[i] == t[i];
        forall j | 0 <= j < i ensures !p(s[j]) {
          assert s[j] == t[j];
        }
        FindIsFirst(s, p, i);
        FindIsFirst(t, p, i);
      } else {
        var k := i + |x|;
        assert s[k] == t[i];
        forall j | 0 <= j < k ensures !p(s[j]) {
          if j < |a| {
            assert s[j] == t[j];
          } else if j < |a| + |x| {
            assert s[j] == x[j - |a|];
          } else {
            assert s[j] == t[j - |x|];
          }
        }
        FindIsFirst(s, p, k);
        FindIsFirst(t, p, i);
      }
    } else {
      forall i | 0 <= i < |s| ensures !p(s[i]) {
        if i < |a| {
          assert s[i] == t[i];
        } else if i < |a| + |x| {
          assert s[i] == x[i - |a|];
        } else {
          assert s[i] == t[i - |x|];
        }
      }
    }
  }

  /** `filter` distributes over concatenation, so it keeps relative order. */
  lemma {:induction false} FilterAppend<T>(a: seq<T>, b: seq<T>, p: T -> bool)
    ensures Filter(a + b, p) == Filter(a, p) + Filter(b, p)
  {
    if |a| == 0 {
      assert a + b == b;
    } else {
      assert (a + b)[1..] == a[1..] + b;
      FilterAppend(a[1..], b, p);
    }
  }

  /** Two predicates that agree on the elements of `s` filter it alike. */
  lemma {:induction false} FilterCongruent<T>(s: seq<T>, p: T -> bool, q: T -> bool)
    requires forall i :: 0 <= i < |s| ==> p(s[i]) == q(s[i])
    ensures Filter(s, p) == Filter(s, q)
  {
    if |s| > 0 {
      FilterCongruent(s[1..], p, q);
    }
  }

  /** Filtering by `p` and then by `q` is filtering once by their
      conjunction `both`. */
  lemma {:induction false} FilterFuse<T>(s: seq<T>, p: T -> bool, q: T -> bool, both: T -> bool)
    requires forall i :: 0 <= i < |s| ==> both(s[i]) == (p(s[i]) && q(s[i]))
    ensures Filter(Filter(s, p), q) == Filter(s, both)
  {
    if |s| > 0 {
      FilterFuse(s[1..], p, q, both);
      if p(s[0]) {
        var rest := Filter(s[1..], p);
        assert ([s[0]] + rest)[1..] == rest;
      }
    }
  }

  /** Filtering by a predicate every element satisfies changes nothing. */
  lemma {:induction false} FilterKeepsAll<T>(s: seq<T>, p: T -> bool)
    requires forall i :: 0 <= i < |s| ==> p(s[i])
    ensures Filter(s, p) == s
  {
    if |s| > 0 {
      FilterKeepsAll(s[1..], p);
    }
  }

  /** A predicate `p` and its negation `notP` split `s` into two parts that
      together hold exactly the elements of `s`, each as often as `s` does. */
  lemma {:induction false} FilterPartition<T>(s: seq<T>, p: T -> bool, notP: T -> bool)
    requires forall i :: 0 <= i < |s| ==> notP(s[i]) == !p(s[i])
    ensures multiset(Filter(s, p)) + multiset(Filter(s, notP)) == multiset(s)
  {
    if |s| > 0 {
      var rest := s[1..];
      FilterPartition(rest, p, notP);
      assert s == [s[0]] + rest;
      if p(s[0]) {
        assert Filter(s, p) == [s[0]] + Filter(rest, p);
      } else {
        assert Filter(s, notP) == [s[0]] + Filter(rest, notP);
      }
    }
  }

  /** The two parts of a partition have as many elements as `s`. */
  lemma FilterPartitionSize<T>(s: seq<T>, p: T -> bool, notP: T -> bool)
    requires forall i :: 0 <= i < |s| ==> notP(s[i]) == !p(s[i])
    ensures |Filter(s, p)| + |Filter(s, notP)| == |s|
  {
    FilterPartition(s, p, notP);
    assert |multiset(Filter(s, p)) + multiset(Filter(s, notP))| == |multiset(s)|;
  }
}
