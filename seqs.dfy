/** Sequence helpers shared by the dict, deque and table models: optional values,
    duplicate-freedom, the newest entries of a bounded buffer, and order-keeping filtering. */
module Seqs {

  datatype Option<T> = None | Some(value: T)

  /** No element occurs twice. */
  predicate NoDup<K(==)>(s: seq<K>) {
    forall i, j :: 0 <= i < j < |s| ==> s[i] != s[j]
  }

  /** The newest `n` entries of `s` (all of them when there are fewer): what
      `deque(s, maxlen = n)` keeps and what `iloc[-n:]` selects. */
  function Newest<T>(s: seq<T>, n: nat): (r: seq<T>)
    ensures |r| == if |s| <= n then |s| else n
    ensures r == s[|s| - |r|..]
  {
    if |s| <= n then s else s[|s| - n..]
  }

  /** The elements of `s` that satisfy `p`, in their original order. */
  function Filter<K(==,!new)>(s: seq<K>, p: K -> bool): (r: seq<K>)
    ensures |r| <= |s|
    ensures forall x :: x in r <==> x in s && p(x)
    ensures NoDup(s) ==> NoDup(r)
  {
    if s == [] then []
    else
      var rest := Filter(s[1..], p);
      assert NoDup(s) ==> s[0] !in s[1..];
      if p(s[0]) then [s[0]] + rest else rest
  }

  /** Filtering a sequence extended by one element extends the filtered sequence by that element, if it passes. */
  lemma {:induction false} FilterSnoc<K(!new)>(s: seq<K>, x: K, p: K -> bool)
    ensures Filter(s + [x], p) == Filter(s, p) + (if p(x) then [x] else [])
  {
    if s != [] {
      assert (s + [x])[1..] == s[1..] + [x];
      FilterSnoc(s[1..], x, p);
    }
  }

  /** Extending a prefix by one element extends its filtered sequence by that element, if it passes. */
  lemma FilterPrefixStep<K(!new)>(s: seq<K>, i: nat, p: K -> bool)
    requires i < |s|
    ensures Filter(s[..i + 1], p) == Filter(s[..i], p) + (if p(s[i]) then [s[i]] else [])
  {
    assert s[..i + 1] == s[..i] + [s[i]];
    FilterSnoc(s[..i], s[i], p);
  }

  /** Two predicates that agree on every element of `s` keep the same elements of it. */
  lemma {:induction false} FilterAgree<K(!new)>(s: seq<K>, p: K -> bool, q: K -> bool)
    requires forall x :: x in s ==> p(x) == q(x)
    ensures Filter(s, p) == Filter(s, q)
  {
    if s != [] {
      FilterAgree(s[1..], p, q);
    }
  }

  lemma NoDupConcat<K>(a: seq<K>, b: seq<K>)
    requires NoDup(a) && NoDup(b)
    requires forall x :: x in b ==> x !in a
    ensures NoDup(a + b)
  {
    forall i, j | 0 <= i < j < |a + b| ensures (a + b)[i] != (a + b)[j] {
      if j >= |a| && i < |a| {
        assert (a + b)[j] in b;
        assert (a + b)[i] in a;
      }
    }
  }
}
