/** Addresses, and the few facts about sequences that the other modules share. */
module Basics {

  /** An address; 0 is the null pointer. */
  type Ptr = nat

  predicate NoRepeats<T(==)>(s: seq<T>) {
    forall i, j :: 0 <= i < j < |s| ==> s[i] != s[j]
  }

  /** The sequence without its first occurrence of x; itself when there is none. */
  function RemoveFirst<T(==)>(s: seq<T>, x: T): seq<T> {
    if s == [] then []
    else if s[0] == x then s[1..]
    else [s[0]] + RemoveFirst(s[1..], x)
  }

  lemma {:induction false} RemoveFirstKeeps<T>(s: seq<T>, x: T)
    requires NoRepeats(s)
    ensures NoRepeats(RemoveFirst(s, x)) && x !in RemoveFirst(s, x)
    ensures forall y :: y != x ==> (y in RemoveFirst(s, x) <==> y in s)
  {
    if s != [] && s[0] != x {
      assert NoRepeats(s[1..]);
      RemoveFirstKeeps(s[1..], x);
      assert s[0] !in s[1..];
    }
  }

  lemma {:induction false} RemoveFirstShrinks<T>(s: seq<T>, x: T)
    ensures forall y :: y in RemoveFirst(s, x) ==> y in s
    ensures |RemoveFirst(s, x)| == if x in s then |s| - 1 else |s|
  {
    if s != [] { RemoveFirstShrinks(s[1..], x); }
  }

  function SetOf(ids: seq<nat>): set<nat> {
    set id | id in ids
  }
}
