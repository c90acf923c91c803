/** What several components do to a list: keep the first of each key, in order. */
module Sequences {

  ghost predicate NoRepeats<T>(s: seq<T>) {
    forall i, j :: 0 <= i < j < |s| ==> s[i] != s[j]
  }

  function Keys<T, K>(key: T -> K, s: seq<T>): seq<K> {
    seq(|s|, i requires 0 <= i < |s| => key(s[i]))
  }

  /** The parts, one after the other. */
  function Flat<T>(parts: seq<seq<T>>): seq<T> {
    if parts == [] then [] else Flat(parts[..|parts| - 1]) + parts[|parts| - 1]
  }

  lemma {:induction false} FlatFirst<T>(part: seq<T>, parts: seq<seq<T>>)
    ensures Flat([part] + parts) == part + Flat(parts)
  {
    if parts == [] {
      assert [part][..0] == [];
      assert Flat([part]) == [] + part;
      assert [part] + parts == [part] && part + [] == part;
    } else {
      var less, last := parts[..|parts| - 1], parts[|parts| - 1];
      assert ([part] + parts)[..|parts|] == [part] + less;
      FlatFirst(part, less);
      assert (part + Flat(less)) + last == part + (Flat(less) + last);
    }
  }

  lemma KeysJoin<T, K>(key: T -> K, a: seq<T>, b: seq<T>)
    ensures Keys(key, a + b) == Keys(key, a) + Keys(key, b)
  {
  }

  /** What `f` makes of each element, one after the other. */
  function FlatMap<T, U>(f: T -> seq<U>, s: seq<T>): seq<U> {
    Flat(Keys(f, s))
  }

  lemma FlatMapFirst<T, U>(f: T -> seq<U>, x: T, rest: seq<T>)
    ensures FlatMap(f, [x] + rest) == f(x) + FlatMap(f, rest)
  {
    KeysJoin(f, [x], rest);
    assert Keys(f, [x]) == [f(x)];
    FlatFirst(f(x), Keys(f, rest));
  }

  lemma FlatMapLast<T, U>(f: T -> seq<U>, s: seq<T>)
    requires s != []
    ensures FlatMap(f, s) == FlatMap(f, s[..|s| - 1]) + f(s[|s| - 1])
  {
    var n := |s| - 1;
    assert Keys(f, s)[..n] == Keys(f, s[..n]) && Keys(f, s)[n] == f(s[n]);
  }

  /** `s` without the elements whose key an earlier element has. */
  function FirstOfEach<T, K(==)>(key: T -> K, s: seq<T>): seq<T> {
    if s == [] then []
    else
      var first := FirstOfEach(key, s[..|s| - 1]);
      var last := s[|s| - 1];
      if key(last) in Keys(key, first) then first else first + [last]
  }

  lemma FirstOfEachSnoc<T, K>(key: T -> K, s: seq<T>, x: T)
    ensures FirstOfEach(key, s + [x])
            == var first := FirstOfEach(key, s); if key(x) in Keys(key, first) then first else first + [x]
  {
    assert (s + [x])[..|s + [x]| - 1] == s;
  }

  /** Every key of `s` is there once; each element is the first in `s` with its key, and they stay in order. */
  lemma {:induction false} FirstOfEachHas<T, K>(key: T -> K, s: seq<T>)
    ensures NoRepeats(Keys(key, FirstOfEach(key, s)))
    ensures forall k :: k in Keys(key, s) <==> k in Keys(key, FirstOfEach(key, s))
    ensures Subsequence(FirstOfEach(key, s), s)
  {
    if s != [] {
      var less, last := s[..|s| - 1], s[|s| - 1];
      var first := FirstOfEach(key, less);
      FirstOfEachHas(key, less);
      assert s == less + [last];
      assert Keys(key, s) == Keys(key, less) + [key(last)];
      SubsequenceGrows(first, less, last);
      if key(last) !in Keys(key, first) {
        assert Keys(key, first + [last]) == Keys(key, first) + [key(last)];
      }
    }
  }

  /** `a` is `b` with elements left out. */
  predicate Subsequence<T(==)>(a: seq<T>, b: seq<T>) {
    if b == [] then a == []
    else
      var less := b[..|b| - 1];
      Subsequence(a, less) || (a != [] && a[|a| - 1] == b[|b| - 1] && Subsequence(a[..|a| - 1], less))
  }

  lemma SubsequenceGrows<T>(a: seq<T>, b: seq<T>, x: T)
    requires Subsequence(a, b)
    ensures Subsequence(a, b + [x]) && Subsequence(a + [x], b + [x])
  {
    assert (b + [x])[..|b + [x]| - 1] == b && (a + [x])[..|a + [x]| - 1] == a;
  }
}
