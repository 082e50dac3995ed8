/** The survey-record listener list: `add` appends, `remove(Object)` removes
    the first equal element and keeps the others in order. */
module Listeners {

  /** Listeners are compared by identity; an id stands for each one. */
  type ListenerId = nat

  /** The index of the first occurrence of `x`. */
  function FirstIndex<T(==)>(s: seq<T>, x: T): (k: nat)
    requires x in s
    ensures k < |s| && s[k] == x && x !in s[..k]
  {
    if s[0] == x then 0
    else
      var k := FirstIndex(s[1..], x);
      assert s[..k + 1] == [s[0]] + s[1..][..k];
      k + 1
  }

  /** `List.remove(Object)`. */
  function RemoveFirst<T(==)>(s: seq<T>, x: T): (r: seq<T>)
    ensures x !in s ==> r == s
    ensures x in s ==> r == s[..FirstIndex(s, x)] + s[FirstIndex(s, x) + 1..]
  {
    if s == [] then []
    else if s[0] == x then s[1..]
    else
      var rest := RemoveFirst(s[1..], x);
      RemoveFirstStep(s, x, rest);
      [s[0]] + rest
  }

  /** The step case of `RemoveFirst`: skipping a head that is not `x`. */
  lemma RemoveFirstStep<T>(s: seq<T>, x: T, rest: seq<T>)
    requires s != [] && s[0] != x
    requires x !in s[1..] ==> rest == s[1..]
    requires x in s[1..] ==> rest == s[1..][..FirstIndex(s[1..], x)] + s[1..][FirstIndex(s[1..], x) + 1..]
    ensures x !in s ==> [s[0]] + rest == s
    ensures x in s ==> [s[0]] + rest == s[..FirstIndex(s, x)] + s[FirstIndex(s, x) + 1..]
  {
    assert s == [s[0]] + s[1..];
    if x in s {
      var k := FirstIndex(s[1..], x);
      assert FirstIndex(s, x) == k + 1;
      assert s[..k + 1] == [s[0]] + s[1..][..k];
      assert s[k + 2..] == s[1..][k + 1..];
    }
  }

  /** Removal takes out exactly one copy of `x` when there is one and leaves
      every other listener registered as often as before. */
  lemma {:induction false} RemoveFirstMultiset<T>(s: seq<T>, x: T)
    ensures multiset(RemoveFirst(s, x)) == multiset(s) - multiset{x}
  {
    if x in s {
      var k := FirstIndex(s, x);
      assert s == s[..k] + [x] + s[k + 1..];
      assert multiset(s) == multiset(s[..k]) + multiset{x} + multiset(s[k + 1..]);
    } else {
      assert multiset(s)[x] == 0;
    }
  }

  /** Unregistering a listener that was just registered gives back the list
      as it was when that listener was not registered before. */
  lemma {:induction false} RemoveAfterAppend<T>(s: seq<T>, x: T)
    requires x !in s
    ensures RemoveFirst(s + [x], x) == s
  {
    assert (s + [x])[..|s|] == s;
  }

  /** Registration order survives removal: the listener at each position of
      the result is the one at the same position before the removed copy, and
      at the next position after it. */
  lemma {:induction false} RemoveKeepsOrder<T>(s: seq<T>, x: T)
    ensures x !in s ==> RemoveFirst(s, x) == s
    ensures x in s ==> |RemoveFirst(s, x)| == |s| - 1
    ensures x in s ==> forall i | 0 <= i < |RemoveFirst(s, x)| ::
                         RemoveFirst(s, x)[i] == s[if i < FirstIndex(s, x) then i else i + 1]
  {
    if x in s {
      var k, r := FirstIndex(s, x), RemoveFirst(s, x);
      assert r == s[..k] + s[k + 1..];
      forall i | 0 <= i < |r|
        ensures r[i] == s[if i < k then i else i + 1]
      {
        if i < k {
          assert r[i] == s[..k][i];
        } else {
          assert r[i] == s[k + 1..][i - k];
        }
      }
    }
  }

}
