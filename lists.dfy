/**
 * Sequence helpers the tables and queries share: element-wise mapping
 * (`Array.prototype.map`) and selecting or dropping the elements whose key
 * equals a value (`filter`, and a `where: { key }` delete).
 */
module Lists {

  function Map<A, B>(f: A -> B, s: seq<A>): (r: seq<B>)
    ensures |r| == |s|
    ensures forall i :: 0 <= i < |s| ==> r[i] == f(s[i])
  {
    if |s| == 0 then [] else [f(s[0])] + Map(f, s[1..])
  }

  /** Mapping distributes over concatenation: the order of the input is the order of the output. */
  lemma {:induction false} MapAppend<A, B>(f: A -> B, a: seq<A>, b: seq<A>)
    ensures Map(f, a + b) == Map(f, a) + Map(f, b)
  {
    if |a| > 0 {
      assert (a + b)[1..] == a[1..] + b;
      MapAppend(f, a[1..], b);
    } else {
      assert a + b == b;
    }
  }

  /** The elements whose key is `k`, in order. */
  function Matching<T(!new), K(==)>(key: T -> K, k: K, s: seq<T>): (r: seq<T>)
    ensures |r| <= |s|
  {
    if |s| == 0 then []
    else
      assert s == [s[0]] + s[1..];
      (if key(s[0]) == k then [s[0]] else []) + Matching(key, k, s[1..])
  }

  /** The elements whose key is not `k`, in order: what a delete of key `k` leaves. */
  function Excluding<T(!new), K(==)>(key: T -> K, k: K, s: seq<T>): (r: seq<T>)
    ensures |r| <= |s|
  {
    if |s| == 0 then []
    else
      assert s == [s[0]] + s[1..];
      (if key(s[0]) != k then [s[0]] else []) + Excluding(key, k, s[1..])
  }

  /** The selection holds exactly the elements with key `k`. */
  lemma {:induction false} MatchingMembers<T(!new), K>(key: T -> K, k: K, s: seq<T>)
    ensures forall x :: x in Matching(key, k, s) <==> x in s && key(x) == k
  {
    if |s| > 0 {
      MatchingMembers(key, k, s[1..]);
      assert s == [s[0]] + s[1..];
    }
  }

  /** A delete of key `k` keeps exactly the elements with another key. */
  lemma {:induction false} ExcludingMembers<T(!new), K>(key: T -> K, k: K, s: seq<T>)
    ensures forall x :: x in Excluding(key, k, s) <==> x in s && key(x) != k
  {
    if |s| > 0 {
      ExcludingMembers(key, k, s[1..]);
      assert s == [s[0]] + s[1..];
    }
  }

  lemma {:induction false} MatchingAppend<T(!new), K>(key: T -> K, k: K, a: seq<T>, b: seq<T>)
    ensures Matching(key, k, a + b) == Matching(key, k, a) + Matching(key, k, b)
  {
    if |a| > 0 {
      assert (a + b)[1..] == a[1..] + b;
      MatchingAppend(key, k, a[1..], b);
    } else {
      assert a + b == b;
    }
  }

  lemma {:induction false} ExcludingAppend<T(!new), K>(key: T -> K, k: K, a: seq<T>, b: seq<T>)
    ensures Excluding(key, k, a + b) == Excluding(key, k, a) + Excluding(key, k, b)
  {
    if |a| > 0 {
      assert (a + b)[1..] == a[1..] + b;
      ExcludingAppend(key, k, a[1..], b);
    } else {
      assert a + b == b;
    }
  }

  /** A sequence whose every key is `k` is all match and no remainder. */
  lemma AllMatching<T(!new), K>(key: T -> K, k: K, s: seq<T>)
    requires forall i :: 0 <= i < |s| ==> key(s[i]) == k
    ensures Matching(key, k, s) == s
    ensures Excluding(key, k, s) == []
  {
    AllSelected(key, k, s);
    SplitLength(key, k, s);
  }

  lemma {:induction false} AllSelected<T(!new), K>(key: T -> K, k: K, s: seq<T>)
    requires forall i :: 0 <= i < |s| ==> key(s[i]) == k
    ensures Matching(key, k, s) == s
  {
    if |s| > 0 {
      var rest := s[1..];
      assert forall i :: 0 <= i < |rest| ==> key(rest[i]) == k by {
        forall i | 0 <= i < |rest| ensures key(rest[i]) == k {
          assert rest[i] == s[i + 1];
        }
      }
      AllSelected(key, k, rest);
      assert key(s[0]) == k;
      assert s == [s[0]] + rest;
    }
  }

  /** A sequence with no key `k` has no match and loses nothing to the delete. */
  lemma NoneMatching<T(!new), K>(key: T -> K, k: K, s: seq<T>)
    requires forall i :: 0 <= i < |s| ==> key(s[i]) != k
    ensures Matching(key, k, s) == []
    ensures Excluding(key, k, s) == s
  {
    NoneExcluded(key, k, s);
    SplitLength(key, k, s);
  }

  /** Every element is either selected or deleted. */
  lemma {:induction false} SplitLength<T(!new), K>(key: T -> K, k: K, s: seq<T>)
    ensures |Matching(key, k, s)| + |Excluding(key, k, s)| == |s|
  {
    if |s| > 0 {
      SplitLength(key, k, s[1..]);
    }
  }

  lemma {:induction false} NoneExcluded<T(!new), K>(key: T -> K, k: K, s: seq<T>)
    requires forall i :: 0 <= i < |s| ==> key(s[i]) != k
    ensures Excluding(key, k, s) == s
  {
    if |s| > 0 {
      var rest := s[1..];
      assert forall i :: 0 <= i < |rest| ==> key(rest[i]) != k by {
        forall i | 0 <= i < |rest| ensures key(rest[i]) != k {
          assert rest[i] == s[i + 1];
        }
      }
      NoneExcluded(key, k, rest);
      assert key(s[0]) != k;
      assert s == [s[0]] + rest;
    }
  }

  /** After deleting key `k`, selecting key `j` sees nothing when `j == k` and the original selection otherwise. */
  lemma {:induction false} MatchingAfterExcluding<T(!new), K>(key: T -> K, k: K, j: K, s: seq<T>)
    ensures Matching(key, j, Excluding(key, k, s)) == if j == k then [] else Matching(key, j, s)
  {
    if |s| > 0 {
      MatchingAfterExcluding(key, k, j, s[1..]);
      var e := Excluding(key, k, s[1..]);
      if key(s[0]) != k {
        assert Excluding(key, k, s) == [s[0]] + e;
        assert ([s[0]] + e)[1..] == e;
      } else {
        assert Excluding(key, k, s) == e;
      }
    }
  }

  /**
   * Delete-then-insert of the rows of key `k`: afterwards the rows of `k` are
   * exactly the inserted ones, and every other key keeps its rows.
   */
  lemma ReplaceMatching<T(!new), K>(key: T -> K, k: K, s: seq<T>, inserted: seq<T>)
    requires forall i :: 0 <= i < |inserted| ==> key(inserted[i]) == k
    ensures Matching(key, k, Excluding(key, k, s) + inserted) == inserted
    ensures forall j :: j != k ==> Matching(key, j, Excluding(key, k, s) + inserted) == Matching(key, j, s)
  {
    var e := Excluding(key, k, s);
    MatchingAppend(key, k, e, inserted);
    MatchingAfterExcluding(key, k, k, s);
    AllMatching(key, k, inserted);
    forall j | j != k
      ensures Matching(key, j, e + inserted) == Matching(key, j, s)
    {
      MatchingAppend(key, j, e, inserted);
      MatchingAfterExcluding(key, k, j, s);
      NoneMatching(key, j, inserted);
    }
  }
}
