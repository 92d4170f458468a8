/** Failure-carrying values and the few facts about sequences that every other module needs. */
module Wrappers {

  datatype Option<+T> = None | Some(value: T)

  datatype Result<+T, +E> = Ok(value: T) | Err(error: E)

  ghost predicate NoDup<T>(s: seq<T>) {
    forall i, j | 0 <= i < j < |s| :: s[i] != s[j]
  }

  function SeqToSet<T>(s: seq<T>): set<T> {
    set x | x in s
  }

  /** `Array.prototype.filter` with the test "is not x". */
  function Without<T(==, !new)>(s: seq<T>, x: T): (r: seq<T>)
    ensures forall y :: y in r <==> y in s && y != x
    ensures |r| <= |s|
  {
    if s == [] then []
    else (if s[0] == x then [] else [s[0]]) + Without(s[1..], x)
  }

  lemma NoDupPrepend<T>(x: T, s: seq<T>)
    requires NoDup(s) && x !in s
    ensures NoDup([x] + s)
  {
  }

  lemma WithoutNoDup<T(!new)>(s: seq<T>, x: T)
    requires NoDup(s)
    ensures NoDup(Without(s, x))
    ensures x in s ==> |Without(s, x)| == |s| - 1
    ensures x !in s ==> Without(s, x) == s
  {
    if s != [] {
      var first, rest := s[0], s[1..];
      assert s == [first] + rest && first !in rest && NoDup(rest);
      WithoutNoDup(rest, x);
      var kept := Without(rest, x);
      assert Without(s, x) == if first == x then kept else [first] + kept;
      hide Without;
      if first != x {
        NoDupPrepend(first, kept);
      }
    }
  }

  lemma NoDupAppend<T>(s: seq<T>, x: T)
    requires NoDup(s) && x !in s
    ensures NoDup(s + [x])
  {
  }
}
