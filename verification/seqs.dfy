/** Sequence helpers shared by the list operations of the model: the array `filter`
    and `find` of the source, and the predicates that state what they keep. */
module Seqs {
  import opened Wrappers

  /** `r` is obtained from `s` by deleting elements: order kept, nothing added. */
  ghost predicate Subseq<T>(r: seq<T>, s: seq<T>)
    decreases |s|
  {
    if r == [] then true
    else if s == [] then false
    else (r[0] == s[0] && Subseq(r[1..], s[1..])) || Subseq(r, s[1..])
  }

  /** No value occurs twice. */
  ghost predicate NoDup<T>(s: seq<T>) {
    forall i, j :: 0 <= i < j < |s| ==> s[i] != s[j]
  }

  lemma {:induction false} SubseqTrans<T>(a: seq<T>, b: seq<T>, c: seq<T>)
    requires Subseq(a, b) && Subseq(b, c)
    ensures Subseq(a, c)
    decreases |c|
  {
    if a != [] {
      if b[0] == c[0] && Subseq(b[1..], c[1..]) {
        if a[0] == b[0] && Subseq(a[1..], b[1..]) {
          SubseqTrans(a[1..], b[1..], c[1..]);
        } else {
          SubseqTrans(a, b[1..], c[1..]);
        }
      } else {
        SubseqTrans(a, b, c[1..]);
      }
    }
  }

  /** A non-empty sequence holds its head once more than its tail does. */
  lemma SplitHead<T>(s: seq<T>)
    requires s != []
    ensures multiset(s) == multiset{s[0]} + multiset(s[1..])
  {
    assert s == [s[0]] + s[1..];
  }

  /** The array `filter` method: the elements of `s` that satisfy `p`, in their order. */
  function Filter<T(!new)>(s: seq<T>, p: T -> bool): (r: seq<T>)
    ensures Subseq(r, s)
    ensures forall i :: 0 <= i < |r| ==> p(r[i])
    ensures forall x :: x in r <==> x in s && p(x)
    ensures (forall i :: 0 <= i < |s| ==> p(s[i])) ==> r == s
    ensures forall x :: multiset(r)[x] == if p(x) then multiset(s)[x] else 0
  {
    if s == [] then []
    else
      var rest := Filter(s[1..], p);
      FilterStep(s, p, rest);
      if p(s[0]) then [s[0]] + rest else rest
  }

  /** One step of `Filter`, for order: keeping or dropping the head of `s` turns a
      filtered tail into a filtered whole. */
  lemma FilterStep<T>(s: seq<T>, p: T -> bool, rest: seq<T>)
    requires s != []
    requires Subseq(rest, s[1..])
    requires forall i :: 0 <= i < |rest| ==> p(rest[i])
    requires (forall i :: 0 <= i < |s[1..]| ==> p(s[1..][i])) ==> rest == s[1..]
    requires forall x :: multiset(rest)[x] == if p(x) then multiset(s[1..])[x] else 0
    ensures var r := if p(s[0]) then [s[0]] + rest else rest;
      && Subseq(r, s)
      && (forall i :: 0 <= i < |r| ==> p(r[i]))
      && ((forall i :: 0 <= i < |s| ==> p(s[i])) ==> r == s)
      && (forall x :: x in r <==> x in s && p(x))
      && (forall x :: multiset(r)[x] == if p(x) then multiset(s)[x] else 0)
  {
    if p(s[0]) {
      var r := [s[0]] + rest;
      assert r[1..] == rest;
      if forall i :: 0 <= i < |s| ==> p(s[i]) {
        assert forall i :: 0 <= i < |s[1..]| ==> p(s[1..][i]);
      }
    }
    FilterStepCount(s, p, rest);
  }

  /** One step of `Filter`, for counts: each value occurs in the result as often as
      in `s` when it passes, and not at all otherwise. */
  lemma FilterStepCount<T>(s: seq<T>, p: T -> bool, rest: seq<T>)
    requires s != []
    requires forall x :: multiset(rest)[x] == if p(x) then multiset(s[1..])[x] else 0
    ensures var r := if p(s[0]) then [s[0]] + rest else rest;
      && (forall x :: multiset(r)[x] == if p(x) then multiset(s)[x] else 0)
      && (forall x :: x in r <==> x in s && p(x))
  {
    var r := if p(s[0]) then [s[0]] + rest else rest;
    SplitHead(s);
    if p(s[0]) {
      assert multiset(r) == multiset{s[0]} + multiset(rest);
    }
    forall x ensures x in r <==> x in s && p(x) {
      assert x in r <==> multiset(r)[x] > 0;
      assert x in s <==> multiset(s)[x] > 0;
    }
  }

  /** Filtering a list without duplicates gives a list without duplicates. */
  lemma {:induction false} FilterKeepsNoDup<T(!new)>(s: seq<T>, p: T -> bool)
    ensures NoDup(s) ==> NoDup(Filter(s, p))
  {
    if s != [] && NoDup(s) {
      FilterKeepsNoDup(s[1..], p);
      if p(s[0]) {
        NoDupCons(s[0], Filter(s[1..], p));
      }
    }
  }

  /** Putting a new element in front of a list without duplicates keeps it so. */
  lemma NoDupCons<T>(x: T, t: seq<T>)
    requires x !in t && NoDup(t)
    ensures NoDup([x] + t)
  {
    var r := [x] + t;
    forall i, j | 0 <= i < j < |r| ensures r[i] != r[j] {
      assert r[j] == t[j - 1];
      if i > 0 {
        assert r[i] == t[i - 1];
      }
    }
  }

  /** Filtering a rejected element appended at the end leaves the result as it was. */
  lemma {:induction false} FilterSnocRejected<T(!new)>(s: seq<T>, x: T, p: T -> bool)
    requires !p(x)
    ensures Filter(s + [x], p) == Filter(s, p)
  {
    if s == [] {
      assert s + [x] == [x];
      assert [x][1..] == [];
    } else {
      assert (s + [x])[0] == s[0];
      assert (s + [x])[1..] == s[1..] + [x];
      FilterSnocRejected(s[1..], x, p);
    }
  }

  /** The array `find` method: the first element of `s` that satisfies `p`, if any. */
  function Find<T(==)>(s: seq<T>, p: T -> bool): (r: Option<T>)
    ensures r.None? <==> forall i :: 0 <= i < |s| ==> !p(s[i])
    ensures r.Some? ==> exists i :: 0 <= i < |s| && s[i] == r.value && p(s[i]) &&
                                    forall j :: 0 <= j < i ==> !p(s[j])
  {
    if s == [] then None
    else if p(s[0]) then Some(s[0])
    else
      var r := Find(s[1..], p);
      if r.Some? then
        var i :| 0 <= i < |s[1..]| && s[1..][i] == r.value && p(s[1..][i]) &&
                 forall j :: 0 <= j < i ==> !p(s[1..][j]);
        assert s[i + 1] == r.value && forall j :: 0 <= j < i + 1 ==> !p(s[j]);
        r
      else
        r
  }
}
