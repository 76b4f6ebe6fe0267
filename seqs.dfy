/** Sequence operations shared by the model: Ruby's `select`/`reject`/`partition`,
    `uniq` and `sort_by` over arrays, stated once with the facts the rest of the
    model relies on. */
module Seqs {
  import opened Wrappers

  /** The elements of `s` that satisfy `p`, in their original order (`select`). */
  function Filter<T(!new)>(s: seq<T>, p: T -> bool): (r: seq<T>)
    ensures |r| <= |s|
  {
    if s == [] then [] else (if p(s[0]) then [s[0]] else []) + Filter(s[1..], p)
  }

  /** The selected elements are exactly the elements of `s` satisfying `p`. */
  lemma {:induction false} FilterMembership<T(!new)>(s: seq<T>, p: T -> bool)
    ensures forall x :: x in Filter(s, p) <==> x in s && p(x)
  {
    if s != [] {
      FilterMembership(s[1..], p);
      assert s == [s[0]] + s[1..];
    }
  }

  /** The elements of `s` that do not satisfy `p`, in their original order (`reject`). */
  function Reject<T(!new)>(s: seq<T>, p: T -> bool): (r: seq<T>)
    ensures |r| <= |s|
  {
    if s == [] then [] else (if p(s[0]) then [] else [s[0]]) + Reject(s[1..], p)
  }

  /** The rejected elements are exactly the elements of `s` failing `p`. */
  lemma {:induction false} RejectMembership<T(!new)>(s: seq<T>, p: T -> bool)
    ensures forall x :: x in Reject(s, p) <==> x in s && !p(x)
  {
    if s != [] {
      RejectMembership(s[1..], p);
      assert s == [s[0]] + s[1..];
    }
  }

  /** Selecting distributes over concatenation: relative order is kept. */
  lemma {:induction false} FilterConcat<T(!new)>(a: seq<T>, b: seq<T>, p: T -> bool)
    ensures Filter(a + b, p) == Filter(a, p) + Filter(b, p)
  {
    if a != [] {
      assert (a + b)[0] == a[0] && (a + b)[1..] == a[1..] + b;
      FilterConcat(a[1..], b, p);
      var h := if p(a[0]) then [a[0]] else [];
      calc {
        Filter(a + b, p);
        h + Filter(a[1..] + b, p);
        h + (Filter(a[1..], p) + Filter(b, p));
        (h + Filter(a[1..], p)) + Filter(b, p);
      }
    } else {
      assert a + b == b;
    }
  }

  /** Rejecting distributes over concatenation: relative order is kept. */
  lemma {:induction false} RejectConcat<T(!new)>(a: seq<T>, b: seq<T>, p: T -> bool)
    ensures Reject(a + b, p) == Reject(a, p) + Reject(b, p)
  {
    if a != [] {
      assert (a + b)[0] == a[0] && (a + b)[1..] == a[1..] + b;
      RejectConcat(a[1..], b, p);
      var h := if p(a[0]) then [] else [a[0]];
      calc {
        Reject(a + b, p);
        h + Reject(a[1..] + b, p);
        h + (Reject(a[1..], p) + Reject(b, p));
        (h + Reject(a[1..], p)) + Reject(b, p);
      }
    } else {
      assert a + b == b;
    }
  }

  /** `partition` loses and duplicates nothing: the selected and the rejected
      elements together are exactly the elements of `s`. */
  lemma {:induction false} PartitionIsPermutation<T(!new)>(s: seq<T>, p: T -> bool)
    ensures multiset(Filter(s, p)) + multiset(Reject(s, p)) == multiset(s)
    ensures |Filter(s, p)| + |Reject(s, p)| == |s|
  {
    if s != [] {
      PartitionIsPermutation(s[1..], p);
      assert s == [s[0]] + s[1..];
    }
  }

  /** No element occurs twice. */
  predicate NoDuplicates<T(==)>(s: seq<T>)
  {
    forall i, j :: 0 <= i < j < |s| ==> s[i] != s[j]
  }

  /** Ruby's `uniq`: the first occurrence of every element, in order. */
  function Uniq<T(==,!new)>(s: seq<T>): (r: seq<T>)
    ensures forall x :: x in r <==> x in s
    ensures NoDuplicates(r)
    ensures |r| <= |s|
  {
    if s == [] then []
    else
      var u := Uniq(s[..|s| - 1]);
      assert s == s[..|s| - 1] + [s[|s| - 1]];
      if s[|s| - 1] in u then u else u + [s[|s| - 1]]
  }

  /** `uniq` leaves a sequence without duplicates as it is. */
  lemma {:induction false} UniqOfDistinct<T(!new)>(s: seq<T>)
    requires NoDuplicates(s)
    ensures Uniq(s) == s
  {
    if s != [] {
      var init := s[..|s| - 1];
      assert NoDuplicates(init);
      UniqOfDistinct(init);
      assert s[|s| - 1] !in init;
      assert s == init + [s[|s| - 1]];
    }
  }

  /** Every later element has a key no larger than every earlier one. */
  predicate NonIncreasing<T>(s: seq<T>, key: T -> int)
  {
    forall i, j :: 0 <= i < j < |s| ==> key(s[i]) >= key(s[j])
  }

  /** Places `x` before the first element whose key is not larger than its own. */
  function InsertDesc<T>(x: T, s: seq<T>, key: T -> int): (r: seq<T>)
    ensures multiset(r) == multiset(s) + multiset{x}
    ensures |r| == |s| + 1
    ensures r[0] == x || (s != [] && r[0] == s[0])
  {
    if s == [] || key(x) >= key(s[0]) then [x] + s
    else
      var rest := InsertDesc(x, s[1..], key);
      assert s == [s[0]] + s[1..];
      [s[0]] + rest
  }

  /** Inserting into a non-increasing list keeps it non-increasing. */
  lemma {:induction false} InsertDescSorted<T>(x: T, s: seq<T>, key: T -> int)
    ensures NonIncreasing(s, key) ==> NonIncreasing(InsertDesc(x, s, key), key)
  {
    if s != [] && key(x) < key(s[0]) && NonIncreasing(s, key) {
      var rest := InsertDesc(x, s[1..], key);
      assert NonIncreasing(s[1..], key) && (|s| > 1 ==> key(s[1]) <= key(s[0]));
      InsertDescSorted(x, s[1..], key);
      ConsNonIncreasing(s[0], rest, key);
    } else if s == [] || key(x) >= key(s[0]) {
      ConsNonIncreasing(x, s, key);
    }
  }

  /** An element keeps a list non-increasing in front of it when its key is
      at least the first one's. */
  lemma ConsNonIncreasing<T>(y: T, rest: seq<T>, key: T -> int)
    ensures NonIncreasing(rest, key) && (rest != [] ==> key(rest[0]) <= key(y)) ==> NonIncreasing([y] + rest, key)
  {
    if NonIncreasing(rest, key) && (rest != [] ==> key(rest[0]) <= key(y)) {
      var r := [y] + rest;
      forall i, j | 0 <= i < j < |r| ensures key(r[i]) >= key(r[j]) {
        if i == 0 && j > 1 {
          assert r[j] == rest[j - 1];
          assert key(rest[0]) >= key(rest[j - 1]);
        }
      }
    }
  }

  /** `sort_by(key).reverse`: largest key first. Ties are left in an order this
      model does not promise anything about. */
  function SortDesc<T>(s: seq<T>, key: T -> int): (r: seq<T>)
    ensures multiset(r) == multiset(s)
    ensures |r| == |s|
    ensures NonIncreasing(r, key)
  {
    if s == [] then []
    else
      assert s == [s[0]] + s[1..];
      InsertDescSorted(s[0], SortDesc(s[1..], key), key);
      InsertDesc(s[0], SortDesc(s[1..], key), key)
  }

  /** Applies `f` to every element, in order (`map`). */
  function Map<T, U>(s: seq<T>, f: T -> U): (r: seq<U>)
    ensures |r| == |s|
    ensures forall i :: 0 <= i < |s| ==> r[i] == f(s[i])
  {
    seq(|s|, i requires 0 <= i < |s| => f(s[i]))
  }

  /** Every element's image is in the mapped sequence. */
  lemma MapMembership<T, U>(s: seq<T>, f: T -> U)
    ensures forall x :: x in s ==> f(x) in Map(s, f)
  {
    forall x | x in s ensures f(x) in Map(s, f) {
      var i :| 0 <= i < |s| && s[i] == x;
      assert Map(s, f)[i] == f(x);
    }
  }

  /** Wraps every element in `Some`, in order. */
  function Somes<T>(s: seq<T>): (r: seq<Option<T>>)
    ensures |r| == |s|
    ensures forall i :: 0 <= i < |s| ==> r[i] == Some(s[i])
  {
    seq(|s|, i requires 0 <= i < |s| => Some(s[i]))
  }

  /** `Some(x)` occurs in `Somes(s)` exactly when `x` occurs in `s`. */
  lemma SomesMembership<T(!new)>(s: seq<T>)
    ensures forall x :: Some(x) in Somes(s) <==> x in s
  {
    forall x | x in s ensures Some(x) in Somes(s) {
      var i :| 0 <= i < |s| && s[i] == x;
      assert Somes(s)[i] == Some(x);
    }
  }

  /** Concatenates a sequence of sequences (`flatten`). */
  function Flatten<T>(ss: seq<seq<T>>): seq<T>
  {
    if ss == [] then [] else ss[0] + Flatten(ss[1..])
  }

  /** An element is in the concatenation exactly when it is in one of the parts. */
  lemma {:induction false} FlattenMembership<T(!new)>(ss: seq<seq<T>>)
    ensures forall x :: x in Flatten(ss) <==> exists i :: 0 <= i < |ss| && x in ss[i]
  {
    if ss != [] {
      FlattenMembership(ss[1..]);
      assert forall i :: 0 <= i < |ss[1..]| ==> ss[1..][i] == ss[i + 1];
    }
  }

  /** Concatenating parts of length `m` each gives `|ss| * m` elements. */
  lemma {:induction false} FlattenUniformLength<T>(ss: seq<seq<T>>, m: nat)
    requires forall i :: 0 <= i < |ss| ==> |ss[i]| == m
    ensures |Flatten(ss)| == |ss| * m
  {
    if ss != [] {
      assert forall i :: 0 <= i < |ss[1..]| ==> ss[1..][i] == ss[i + 1];
      FlattenUniformLength(ss[1..], m);
    }
  }

  /** The first element of `s` that satisfies `p` (`find`/`detect`), or None. */
  function Find<T>(s: seq<T>, p: T -> bool): (r: Option<T>)
    ensures r.None? <==> forall i :: 0 <= i < |s| ==> !p(s[i])
    ensures r.Some? ==> exists i :: 0 <= i < |s| && s[i] == r.value && p(s[i]) && forall j :: 0 <= j < i ==> !p(s[j])
  {
    if s == [] then None
    else if p(s[0]) then Some(s[0])
    else
      var r := Find(s[1..], p);
      assert forall i :: 1 <= i < |s| ==> s[i] == s[1..][i - 1];
      r
  }

  /** The first element (`first`), or None for an empty sequence. */
  function First<T>(s: seq<T>): (r: Option<T>)
    ensures r.None? <==> s == []
    ensures r.Some? ==> r.value == s[0]
  {
    if s == [] then None else Some(s[0])
  }

  /** Ruby's `partition` followed by concatenation: the elements satisfying `p`
      first, then the others. */
  function SelectedFirst<T(!new)>(s: seq<T>, p: T -> bool): seq<T>
  {
    Filter(s, p) + Reject(s, p)
  }

  /** `SelectedFirst` is a permutation of `s` whose first elements, as many as
      satisfy `p`, do, and whose remaining elements do not. */
  lemma SelectedFirstSpec<T(!new)>(s: seq<T>, p: T -> bool)
    ensures multiset(SelectedFirst(s, p)) == multiset(s)
    ensures |SelectedFirst(s, p)| == |s|
    ensures forall i :: 0 <= i < |Filter(s, p)| ==> p(SelectedFirst(s, p)[i])
    ensures forall i :: |Filter(s, p)| <= i < |s| ==> !p(SelectedFirst(s, p)[i])
  {
    PartitionIsPermutation(s, p);
    FilterMembership(s, p);
    RejectMembership(s, p);
    var r := SelectedFirst(s, p);
    assert forall i :: 0 <= i < |Filter(s, p)| ==> r[i] in Filter(s, p);
    assert forall i :: |Filter(s, p)| <= i < |r| ==> r[i] in Reject(s, p);
  }

  /** Selecting twice is selecting once. */
  lemma {:induction false} FilterIdempotent<T(!new)>(s: seq<T>, p: T -> bool)
    ensures Filter(Filter(s, p), p) == Filter(s, p)
  {
    if s != [] {
      FilterIdempotent(s[1..], p);
      var h := if p(s[0]) then [s[0]] else [];
      FilterConcat(h, Filter(s[1..], p), p);
    }
  }

  /** Rejecting twice is rejecting once. */
  lemma {:induction false} RejectIdempotent<T(!new)>(s: seq<T>, p: T -> bool)
    ensures Reject(Reject(s, p), p) == Reject(s, p)
  {
    if s != [] {
      RejectIdempotent(s[1..], p);
      var h := if p(s[0]) then [] else [s[0]];
      RejectConcat(h, Reject(s[1..], p), p);
    }
  }

  /** No rejected element is selected. */
  lemma {:induction false} NoRejectedSelected<T(!new)>(s: seq<T>, p: T -> bool)
    ensures Filter(Reject(s, p), p) == []
  {
    if s != [] {
      NoRejectedSelected(s[1..], p);
      var rest := Reject(s[1..], p);
      if !p(s[0]) {
        assert Reject(s, p) == [s[0]] + rest;
        assert ([s[0]] + rest)[0] == s[0] && ([s[0]] + rest)[1..] == rest;
        assert Filter([s[0]] + rest, p) == Filter(rest, p);
      } else {
        assert Reject(s, p) == [] + rest == rest;
      }
    }
  }

  /** No selected element is rejected. */
  lemma {:induction false} NoSelectedRejected<T(!new)>(s: seq<T>, p: T -> bool)
    ensures Reject(Filter(s, p), p) == []
  {
    if s != [] {
      NoSelectedRejected(s[1..], p);
      var rest := Filter(s[1..], p);
      if p(s[0]) {
        assert Filter(s, p) == [s[0]] + rest;
        assert ([s[0]] + rest)[0] == s[0] && ([s[0]] + rest)[1..] == rest;
        assert Reject([s[0]] + rest, p) == Reject(rest, p);
      } else {
        assert Filter(s, p) == [] + rest == rest;
      }
    }
  }

  /** Inside each of the two groups the original relative order is kept: the
      group of elements satisfying `p` reads, in order, exactly as in `s`, and
      so does the group of the others. */
  lemma SelectedFirstKeepsOrder<T(!new)>(s: seq<T>, p: T -> bool)
    ensures Filter(SelectedFirst(s, p), p) == Filter(s, p)
    ensures Reject(SelectedFirst(s, p), p) == Reject(s, p)
  {
    FilterConcat(Filter(s, p), Reject(s, p), p);
    RejectConcat(Filter(s, p), Reject(s, p), p);
    FilterIdempotent(s, p);
    RejectIdempotent(s, p);
    NoRejectedSelected(s, p);
    NoSelectedRejected(s, p);
  }
}
