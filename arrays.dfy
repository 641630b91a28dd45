/** The JavaScript array operations the estimator relies on (`find`, `filter`,
    `includes`), stated over Dafny sequences. `includes` is Dafny's `in`. */
module Arrays {

  /** `Some(v)` for a found element, `None` for JavaScript's `undefined`. */
  datatype Option<T> = None | Some(value: T)

  /** `s.find(e => key(e) === id)`: the first element of `s` whose key is `id`. */
  function Find<E>(s: seq<E>, key: E -> string, id: string): (r: Option<E>)
    ensures r.Some? ==> r.value in s && key(r.value) == id
    ensures r.None? <==> forall i :: 0 <= i < |s| ==> key(s[i]) != id
  {
    if s == [] then None
    else if key(s[0]) == id then Some(s[0])
    else
      var r := Find(s[1..], key, id);
      assert forall i :: 1 <= i < |s| ==> s[i] == s[1..][i - 1];
      r
  }

  /** `Find` returns the element at the first position with that key, not just any such element. */
  lemma {:induction false} FindFirst<E>(s: seq<E>, key: E -> string, id: string, i: nat)
    requires i < |s| && key(s[i]) == id
    requires forall j :: 0 <= j < i ==> key(s[j]) != id
    ensures Find(s, key, id) == Some(s[i])
  {
    if i > 0 {
      assert key(s[0]) != id;
      assert forall j :: 0 <= j < i - 1 ==> s[1..][j] == s[j + 1];
      FindFirst(s[1..], key, id, i - 1);
    }
  }

  /** No value occurs twice in `s`. */
  predicate NoDup<E(==)>(s: seq<E>)
  {
    forall i, j :: 0 <= i < j < |s| ==> s[i] != s[j]
  }

  /** `s.filter(e => e !== x)`: `s` with every occurrence of `x` dropped, order kept. */
  function Without<E(==)>(s: seq<E>, x: E): (r: seq<E>)
    ensures multiset(r) == multiset(s)[x := 0]
    ensures |r| <= |s|
  {
    if s == [] then []
    else
      assert s == [s[0]] + s[1..];
      if s[0] == x then Without(s[1..], x)
      else [s[0]] + Without(s[1..], x)
  }

  /** Filtering out a value that does not occur returns the sequence unchanged. */
  lemma {:induction false} WithoutAbsent<E>(s: seq<E>, x: E)
    requires x !in s
    ensures Without(s, x) == s
  {
    if s != [] {
      WithoutAbsent(s[1..], x);
      assert [s[0]] + s[1..] == s;
    }
  }

  /** Filtering out the one occurrence just appended gives back the original sequence. */
  lemma {:induction false} WithoutAppended<E>(s: seq<E>, x: E)
    requires x !in s
    ensures Without(s + [x], x) == s
  {
    if s == [] {
      assert [x][1..] == [];
    } else {
      assert (s + [x])[1..] == s[1..] + [x];
      WithoutAppended(s[1..], x);
      assert [s[0]] + s[1..] == s;
    }
  }

  /** Cutting the element at position `k` out of `s` removes one occurrence of it. */
  lemma RemoveAtMultiset<E>(s: seq<E>, k: nat)
    requires k < |s|
    ensures multiset(s[..k] + s[k + 1..]) == multiset(s) - multiset{s[k]}
  {
    assert s == s[..k] + [s[k]] + s[k + 1..];
  }

  /** Prepending keeps `NoDup` exactly when the new head is not already present. */
  lemma NoDupCons<E>(a: E, s: seq<E>)
    ensures NoDup([a] + s) <==> a !in s && NoDup(s)
  {
    var t := [a] + s;
    if a !in s && NoDup(s) {
      forall i, j | 0 <= i < j < |t| ensures t[i] != t[j] {
        if i > 0 {
          assert t[i] == s[i - 1] && t[j] == s[j - 1];
        } else {
          assert t[j] == s[j - 1];
        }
      }
    }
    if NoDup(t) {
      assert forall i, j :: 0 <= i < j < |s| ==> s[i] == t[i + 1] && s[j] == t[j + 1];
      assert forall k :: 0 <= k < |s| ==> s[k] == t[k + 1];
      forall k | 0 <= k < |s| ensures s[k] != a {
        assert t[0] != t[k + 1];
      }
    }
  }

  /** Filtering a duplicate-free sequence leaves it duplicate-free. */
  lemma {:induction false} WithoutNoDup<E>(s: seq<E>, x: E)
    requires NoDup(s)
    ensures NoDup(Without(s, x))
  {
    if s != [] {
      assert s == [s[0]] + s[1..];
      NoDupCons(s[0], s[1..]);
      WithoutNoDup(s[1..], x);
      if s[0] != x {
        var w := Without(s[1..], x);
        assert s[0] !in multiset(s[1..]);
        assert s[0] !in multiset(w);
        assert Without(s, x) == [s[0]] + w;
        NoDupCons(s[0], w);
      }
    }
  }

  /** In a duplicate-free sequence every present value occurs exactly once. */
  lemma {:induction false} NoDupOccursOnce<E>(s: seq<E>, x: E)
    requires NoDup(s) && x in s
    ensures multiset(s)[x] == 1
  {
    assert s == [s[0]] + s[1..];
    NoDupCons(s[0], s[1..]);
    assert multiset(s) == multiset([s[0]]) + multiset(s[1..]);
    if s[0] == x {
      assert x !in multiset(s[1..]);
    } else {
      NoDupOccursOnce(s[1..], x);
    }
  }

  /** `NoDup` says exactly that no value is counted more than once. */
  lemma NoDupCounts<E>(s: seq<E>)
    ensures NoDup(s) <==> forall x :: multiset(s)[x] <= 1
  {
    if NoDup(s) {
      forall x ensures multiset(s)[x] <= 1 {
        if x in s {
          NoDupOccursOnce(s, x);
        }
      }
    } else {
      var i, j :| 0 <= i < j < |s| && s[i] == s[j];
      var a, b, c := s[..i], s[i + 1..j], s[j + 1..];
      assert s == a + [s[i]] + b + [s[j]] + c;
      assert multiset(s) == multiset(a) + multiset{s[i]} + multiset(b) + multiset{s[j]} + multiset(c);
      assert multiset(s)[s[i]] >= 2;
    }
  }
}
