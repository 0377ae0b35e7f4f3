/** The lock tokens themselves (concurrency_ReaderLockToken.cpp, concurrency_WriterLockToken.cpp): what a
    token calls on its objects while it is made and destroyed. A set of objects is its addresses in
    increasing order; 0 is the null pointer. Which objects refuse to be locked or to be unlocked is an
    input. */
module LockTokens {
  import opened Basics
  import opened LockThreads

  /** A call of lock or unlock on an object, shared or exclusive, and whether it succeeded. */
  datatype Call = Call(lock: bool, obj: Ptr, mode: Mode, ok: bool)

  /** How often the object is held in the mode after these calls. */
  function Balance(calls: seq<Call>, obj: Ptr, mode: Mode): int {
    if calls == [] then 0
    else
      var c := calls[|calls| - 1];
      Balance(calls[..|calls| - 1], obj, mode)
      + (if c.obj != obj || c.mode != mode || !c.ok then 0 else if c.lock then 1 else -1)
  }

  /** How often unlock was called on the object, successfully or not. */
  function Unlocks(calls: seq<Call>, obj: Ptr): nat {
    if calls == [] then 0
    else
      var c := calls[|calls| - 1];
      Unlocks(calls[..|calls| - 1], obj) + (if c.obj == obj && !c.lock then 1 else 0)
  }

  /** The first object that refuses to be locked, or the length. Null pointers are passed over. */
  function FirstRefusal(objs: seq<Ptr>, refuses: set<Ptr>): (f: nat)
    ensures f <= |objs|
    ensures forall i :: 0 <= i < f ==> objs[i] == 0 || objs[i] !in refuses
    ensures f < |objs| ==> objs[f] != 0 && objs[f] in refuses
  {
    if objs == [] then 0
    else if objs[0] != 0 && objs[0] in refuses then 0
    else 1 + FirstRefusal(objs[1..], refuses)
  }

  /** One pass of lock calls. */
  function LockCalls(objs: seq<Ptr>, refuses: set<Ptr>, mode: Mode): seq<Call> {
    if objs == [] then []
    else
      var last := objs[|objs| - 1];
      LockCalls(objs[..|objs| - 1], refuses, mode)
      + (if last == 0 then [] else [Call(true, last, mode, last !in refuses)])
  }

  /** The rollback: backwards, and without a check for null. */
  function UndoCalls(objs: seq<Ptr>, stuck: set<Ptr>, mode: Mode): seq<Call> {
    if objs == [] then []
    else
      var last := objs[|objs| - 1];
      [Call(false, last, mode, last !in stuck)] + UndoCalls(objs[..|objs| - 1], stuck, mode)
  }

  /** `do_multilock`: everything up to the first refusal, and the way back. */
  function MultilockCalls(objs: seq<Ptr>, refuses: set<Ptr>, stuck: set<Ptr>, mode: Mode): seq<Call> {
    var f := FirstRefusal(objs, refuses);
    if f == |objs| then LockCalls(objs, refuses, mode)
    else LockCalls(objs[..f + 1], refuses, mode) + UndoCalls(objs[..f], stuck, mode)
  }

  /** `do_multiunlock` */
  function UnlockCalls(objs: seq<Ptr>, stuck: set<Ptr>, mode: Mode): seq<Call> {
    if objs == [] then []
    else
      var last := objs[|objs| - 1];
      UnlockCalls(objs[..|objs| - 1], stuck, mode) + (if last == 0 then [] else [Call(false, last, mode, last !in stuck)])
  }

  class LockToken {
    const lockedObject: Ptr
    const writer: bool
    var dispatch: Mode
    var locked: bool
    var multiLock: seq<Ptr>
    var nullDereferenced: bool
    ghost var calls: seq<Call>

    /** Which `do_lock` and `do_unlock` a call reaches: the derived ones while that part is alive. */
    constructor Single(target: Ptr, writer: bool, refuses: set<Ptr>)
      requires target != 0
      ensures calls == [Call(true, target, dispatch, target !in refuses)]
      ensures locked == (target !in refuses) && lockedObject == target && multiLock == [] && !nullDereferenced
      ensures this.writer == writer && dispatch == if writer then Exclusive else Shared
    {
      lockedObject, this.writer := target, writer;
      dispatch := if writer then Exclusive else Shared;
      locked, multiLock, nullDereferenced, calls := false, [], false, [];
      new;
      locked := DoLock(target, refuses);
    }

    constructor Multi(objects: seq<Ptr>, writer: bool, refuses: set<Ptr>, stuck: set<Ptr>)
      requires Ordered(objects)
      ensures calls == MultilockCalls(objects, refuses, stuck, dispatch)
      ensures locked == (FirstRefusal(objects, refuses) == |objects|) && lockedObject == 0 && multiLock == objects
      ensures nullDereferenced <==> 0 in objects && FirstRefusal(objects, refuses) < |objects|
      ensures this.writer == writer && dispatch == if writer then Exclusive else Shared
      ensures 0 !in objects && stuck == {} ==> forall o :: HasLock(o) <==> Balance(calls, o, dispatch) == 1
    {
      hide Balance, MultilockCalls, FirstRefusal, Ordered;
      lockedObject, this.writer := 0, writer;
      dispatch := if writer then Exclusive else Shared;
      locked, multiLock, nullDereferenced, calls := false, objects, false, [];
      new;
      locked := DoMultilock(refuses, stuck);
      assert [] + MultilockCalls(objects, refuses, stuck, dispatch) == MultilockCalls(objects, refuses, stuck, dispatch);
      NullComesFirst(objects, FirstRefusal(objects, refuses), refuses);
      if 0 !in objects && stuck == {} {
        forall o ensures HasLock(o) <==> Balance(calls, o, dispatch) == 1 {
          MultilockHolds(objects, refuses, stuck, dispatch, o, dispatch);
        }
      }
    }

    method DoLock(target: Ptr, refuses: set<Ptr>) returns (ok: bool)
      modifies this`calls
      ensures ok == (target !in refuses) && calls == old(calls) + [Call(true, target, dispatch, ok)]
    {
      ok := target !in refuses;
      calls := calls + [Call(true, target, dispatch, ok)];
    }

    /** Taking a null reference is undefined behaviour, which is noted. */
    method DoUnlock(target: Ptr, stuck: set<Ptr>) returns (ok: bool)
      modifies this`calls, this`nullDereferenced
      ensures ok == (target !in stuck) && calls == old(calls) + [Call(false, target, dispatch, ok)]
      ensures nullDereferenced == (old(nullDereferenced) || target == 0)
    {
      nullDereferenced := nullDereferenced || target == 0;
      ok := target !in stuck;
      calls := calls + [Call(false, target, dispatch, ok)];
    }

    method DoMultilock(refuses: set<Ptr>, stuck: set<Ptr>) returns (ok: bool)
      modifies this`calls, this`nullDereferenced
      ensures ok == (FirstRefusal(multiLock, refuses) == |multiLock|)
      ensures calls == old(calls) + MultilockCalls(multiLock, refuses, stuck, dispatch)
      ensures nullDereferenced == (old(nullDereferenced) || (!ok && 0 in multiLock[..FirstRefusal(multiLock, refuses)]))
    {
      ok := true;
      var i := 0;
      while i < |multiLock| && ok
        invariant i <= |multiLock| && nullDereferenced == old(nullDereferenced)
        invariant ok ==> i <= FirstRefusal(multiLock, refuses)
        invariant !ok ==> i == FirstRefusal(multiLock, refuses) + 1
        invariant calls == old(calls) + LockCalls(multiLock[..i], refuses, dispatch)
        decreases |multiLock| - i
      {
        assert multiLock[..i + 1][..i] == multiLock[..i];
        if multiLock[i] != 0 {
          var isLocked := DoLock(multiLock[i], refuses);
          ok := isLocked && ok;
        }
        i := i + 1;
      }
      assert multiLock[..|multiLock|] == multiLock;
      if !ok {
        RollBack(i - 1, stuck);
      }
    }

    /** Backwards from the object that refused, which itself is left out. */
    method RollBack(failed: nat, stuck: set<Ptr>)
      requires failed <= |multiLock|
      modifies this`calls, this`nullDereferenced
      ensures calls == old(calls) + UndoCalls(multiLock[..failed], stuck, dispatch)
      ensures nullDereferenced == (old(nullDereferenced) || 0 in multiLock[..failed])
    {
      var i := failed;
      while i != 0
        invariant 0 <= i <= failed
        invariant calls + UndoCalls(multiLock[..i], stuck, dispatch)
          == old(calls) + UndoCalls(multiLock[..failed], stuck, dispatch)
        invariant nullDereferenced == (old(nullDereferenced) || 0 in multiLock[i..failed])
      {
        ghost var before := calls;
        i := i - 1;
        assert multiLock[..i + 1][..i] == multiLock[..i];
        var unlocked := DoUnlock(multiLock[i], stuck);
        assert calls + UndoCalls(multiLock[..i], stuck, dispatch)
          == before + ([Call(false, multiLock[i], dispatch, unlocked)] + UndoCalls(multiLock[..i], stuck, dispatch));
      }
    }

    method DoMultiunlock(stuck: set<Ptr>)
      modifies this`calls, this`nullDereferenced, this`multiLock
      ensures calls == old(calls) + UnlockCalls(old(multiLock), stuck, dispatch) && multiLock == []
      ensures nullDereferenced == old(nullDereferenced)
    {
      var i := 0;
      while i < |multiLock|
        invariant i <= |multiLock| && multiLock == old(multiLock) && nullDereferenced == old(nullDereferenced)
        invariant calls == old(calls) + UnlockCalls(multiLock[..i], stuck, dispatch)
      {
        assert multiLock[..i + 1][..i] == multiLock[..i];
        if multiLock[i] != 0 {
          var _ := DoUnlock(multiLock[i], stuck);
        }
        i := i + 1;
      }
      assert multiLock[..|multiLock|] == multiLock;
      multiLock := [];
    }

    method Unlock(stuck: set<Ptr>)
      modifies this`calls, this`nullDereferenced, this`multiLock, this`locked
      ensures calls == old(calls) + (
        if !old(locked) then []
        else if lockedObject != 0 then [Call(false, lockedObject, dispatch, lockedObject !in stuck)]
        else UnlockCalls(old(multiLock), stuck, dispatch))
      ensures locked == (old(locked) && lockedObject != 0 && lockedObject in stuck)
      ensures nullDereferenced == old(nullDereferenced)
    {
      if locked {
        if lockedObject != 0 {
          var unlocked := DoUnlock(lockedObject, stuck);
          locked := !unlocked;
        } else {
          DoMultiunlock(stuck);
          locked := false;
        }
      }
    }

    /** The destructors, the derived one first; after it, calls reach the base class's methods. */
    method Destroy(stuck: set<Ptr>)
      modifies this
      ensures calls == old(calls) + LifeEnd(old(locked), lockedObject, old(multiLock), writer, stuck, old(dispatch))
      ensures nullDereferenced == old(nullDereferenced)
    {
      if writer {
        Unlock(stuck);
        dispatch := Shared;
      }
      Unlock(stuck);
    }

    predicate HasLock(target: Ptr)
      reads this
    {
      locked && if lockedObject != 0 then target == lockedObject else target in multiLock
    }
  }

  /** What a token calls while it is destroyed. */
  function LifeEnd(locked: bool, target: Ptr, objs: seq<Ptr>, writer: bool, stuck: set<Ptr>, mode: Mode): seq<Call> {
    if !locked then []
    else if target == 0 then UnlockCalls(objs, stuck, mode)
    else if writer && target in stuck then [Call(false, target, mode, false), Call(false, target, Shared, false)]
    else [Call(false, target, mode, target !in stuck)]
  }

  /** In address order a null pointer comes first, so it is always reached before any object that can refuse. */
  lemma NullComesFirst(objs: seq<Ptr>, f: nat, refuses: set<Ptr>)
    requires Ordered(objs) && f == FirstRefusal(objs, refuses)
    ensures f < |objs| ==> (0 in objs[..f] <==> 0 in objs)
  {
  }

  // ----- What a token leaves held -----

  lemma {:induction false} BalanceAppend(a: seq<Call>, b: seq<Call>, o: Ptr, mode: Mode)
    ensures Balance(a + b, o, mode) == Balance(a, o, mode) + Balance(b, o, mode)
    ensures Unlocks(a + b, o) == Unlocks(a, o) + Unlocks(b, o)
    decreases |b|
  {
    if b == [] {
      assert a + b == a;
    } else {
      assert (a + b)[..|a + b| - 1] == a + b[..|b| - 1];
      BalanceAppend(a, b[..|b| - 1], o, mode);
    }
  }

  /** Each object but null is locked once, up to a refusal. */
  lemma {:induction false} LockBalance(objs: seq<Ptr>, refuses: set<Ptr>, mode: Mode, o: Ptr, m: Mode)
    requires Ordered(objs)
    ensures Balance(LockCalls(objs, refuses, mode), o, m)
      == if m == mode && o != 0 && o in objs && o !in refuses then 1 else 0
    ensures Unlocks(LockCalls(objs, refuses, mode), o) == 0
  {
    if objs != [] {
      var n := |objs| - 1;
      var last, front := objs[n], objs[..n];
      LockBalance(front, refuses, mode, o, m);
      var one := if last == 0 then [] else [Call(true, last, mode, last !in refuses)];
      BalanceAppend(LockCalls(front, refuses, mode), one, o, m);
      assert last !in front;
      assert o in objs <==> o in front || o == last;
      assert one == [] || one[..0] == [];
    }
  }

  lemma {:induction false} UndoBalance(objs: seq<Ptr>, stuck: set<Ptr>, mode: Mode, o: Ptr, m: Mode)
    requires Ordered(objs)
    ensures Balance(UndoCalls(objs, stuck, mode), o, m) == if m == mode && o in objs && o !in stuck then -1 else 0
    ensures Unlocks(UndoCalls(objs, stuck, mode), o) == if o in objs then 1 else 0
  {
    if objs != [] {
      var n := |objs| - 1;
      var last, front := objs[n], objs[..n];
      UndoBalance(front, stuck, mode, o, m);
      BalanceAppend([Call(false, last, mode, last !in stuck)], UndoCalls(front, stuck, mode), o, m);
      assert last !in front;
      assert o in objs <==> o in front || o == last;
      assert [Call(false, last, mode, last !in stuck)][..0] == [];
    }
  }

  lemma {:induction false} UnlockBalance(objs: seq<Ptr>, stuck: set<Ptr>, mode: Mode, o: Ptr, m: Mode)
    requires Ordered(objs)
    ensures Balance(UnlockCalls(objs, stuck, mode), o, m)
      == if m == mode && o != 0 && o in objs && o !in stuck then -1 else 0
    ensures Unlocks(UnlockCalls(objs, stuck, mode), o) == if o != 0 && o in objs then 1 else 0
  {
    if objs != [] {
      var n := |objs| - 1;
      var last, front := objs[n], objs[..n];
      UnlockBalance(front, stuck, mode, o, m);
      var one := if last == 0 then [] else [Call(false, last, mode, last !in stuck)];
      BalanceAppend(UnlockCalls(front, stuck, mode), one, o, m);
      assert last !in front;
      assert o in objs <==> o in front || o == last;
      assert one == [] || one[..0] == [];
    }
  }

  /** A multi-lock that succeeds holds each of its objects once; one that fails holds nothing, except what
      refuses to be unlocked again on the way back. Sets without a null pointer. */
  lemma MultilockHolds(objs: seq<Ptr>, refuses: set<Ptr>, stuck: set<Ptr>, mode: Mode, o: Ptr, m: Mode)
    requires Ordered(objs) && 0 !in objs
    ensures var f := FirstRefusal(objs, refuses);
      Balance(MultilockCalls(objs, refuses, stuck, mode), o, m)
      == if m == mode && o in objs[..f] && (f == |objs| || o in stuck) then 1 else 0
  {
    hide Balance, LockCalls, UndoCalls;
    var f := FirstRefusal(objs, refuses);
    if f == |objs| {
      assert objs[..f] == objs;
      LockBalance(objs, refuses, mode, o, m);
    } else {
      var tried := objs[..f + 1];
      assert o in tried <==> o in objs[..f] || o == objs[f];
      LockBalance(tried, refuses, mode, o, m);
      UndoBalance(objs[..f], stuck, mode, o, m);
      BalanceAppend(LockCalls(tried, refuses, mode), UndoCalls(objs[..f], stuck, mode), o, m);
    }
  }

  ghost predicate HoldsNothing(calls: seq<Call>) {
    forall o, m :: Balance(calls, o, m) == 0
  }

  /** So a failed multi-lock holds nothing exactly when nothing it had locked refuses to be unlocked. */
  lemma FailedHoldsNothing(objs: seq<Ptr>, refuses: set<Ptr>, stuck: set<Ptr>, mode: Mode)
    requires Ordered(objs) && 0 !in objs && FirstRefusal(objs, refuses) < |objs|
    ensures HoldsNothing(MultilockCalls(objs, refuses, stuck, mode))
      <==> forall o :: o in objs[..FirstRefusal(objs, refuses)] ==> o !in stuck
  {
    hide MultilockCalls, Balance;
    var calls, had := MultilockCalls(objs, refuses, stuck, mode), objs[..FirstRefusal(objs, refuses)];
    if o :| o in had && o in stuck {
      MultilockHolds(objs, refuses, stuck, mode, o, mode);
      assert Balance(calls, o, mode) == 1;
    } else {
      forall o, m ensures Balance(calls, o, m) == 0 {
        MultilockHolds(objs, refuses, stuck, mode, o, m);
      }
    }
  }

  /** Everything a token on a set calls, from its constructor to its destructors. */
  function Life(objs: seq<Ptr>, refuses: set<Ptr>, stuck: set<Ptr>, writer: bool, mode: Mode): seq<Call> {
    MultilockCalls(objs, refuses, stuck, mode)
    + LifeEnd(FirstRefusal(objs, refuses) == |objs|, 0, objs, writer, stuck, mode)
  }

  lemma NoCallsNoBalance(o: Ptr, mode: Mode)
    ensures Balance([], o, mode) == 0 && Unlocks([], o) == 0
  {
  }

  /** Over the life of a token on a set, every object it locked is unlocked exactly once, in the mode it was
      locked in. */
  lemma MultiTokenReleasesOnce(objs: seq<Ptr>, refuses: set<Ptr>, stuck: set<Ptr>, writer: bool, mode: Mode, o: Ptr)
    requires Ordered(objs) && 0 !in objs
    ensures var f := FirstRefusal(objs, refuses);
      var life := Life(objs, refuses, stuck, writer, mode);
      && Unlocks(life, o) == (if o in objs[..f] then 1 else 0)
      && forall m :: Balance(life, o, m) == if m == mode && o in objs[..f] && o in stuck then 1 else 0
  {
    hide Balance, Unlocks, MultilockCalls, UnlockCalls, FirstRefusal, Ordered;
    var f := FirstRefusal(objs, refuses);
    var made := MultilockCalls(objs, refuses, stuck, mode);
    var gone := LifeEnd(f == |objs|, 0, objs, writer, stuck, mode);
    NoCallsNoBalance(o, mode);
    forall m
      ensures Balance(Life(objs, refuses, stuck, writer, mode), o, m) == if m == mode && o in objs[..f] && o in stuck then 1 else 0 {
      BalanceAppend(made, gone, o, m);
      MultilockHolds(objs, refuses, stuck, mode, o, m);
      UnlockBalance(objs, stuck, mode, o, m);
      NoCallsNoBalance(o, m);
      if f == |objs| { assert objs[..f] == objs; }
    }
    BalanceAppend(made, gone, o, mode);
    MultilockUnlocks(objs, refuses, stuck, mode, o);
    UnlockBalance(objs, stuck, mode, o, mode);
    if f == |objs| { assert objs[..f] == objs; }
  }

  lemma MultilockUnlocks(objs: seq<Ptr>, refuses: set<Ptr>, stuck: set<Ptr>, mode: Mode, o: Ptr)
    requires Ordered(objs)
    ensures var f := FirstRefusal(objs, refuses);
      Unlocks(MultilockCalls(objs, refuses, stuck, mode), o) == if f < |objs| && o in objs[..f] then 1 else 0
  {
    hide Unlocks, Balance, LockCalls, UndoCalls;
    var f := FirstRefusal(objs, refuses);
    if f == |objs| {
      LockBalance(objs, refuses, mode, o, mode);
    } else {
      LockBalance(objs[..f + 1], refuses, mode, o, mode);
      UndoBalance(objs[..f], stuck, mode, o, mode);
      BalanceAppend(LockCalls(objs[..f + 1], refuses, mode), UndoCalls(objs[..f], stuck, mode), o, mode);
    }
  }

  /** Everything a token on one object calls. */
  function SingleLife(target: Ptr, refuses: set<Ptr>, stuck: set<Ptr>, writer: bool, mode: Mode): seq<Call> {
    [Call(true, target, mode, target !in refuses)] + LifeEnd(target !in refuses, target, [], writer, stuck, mode)
  }

  lemma BalanceOfOne(c: Call, o: Ptr, mode: Mode)
    ensures Balance([c], o, mode) == if c.obj != o || c.mode != mode || !c.ok then 0 else if c.lock then 1 else -1
    ensures Unlocks([c], o) == if c.obj == o && !c.lock then 1 else 0
  {
  }

  /** A token on one object unlocks it exactly once if and only if it is not a writer's whose object refuses to
      be unlocked: that one is unlocked a second time, in the wrong mode, by the base class's destructor. */
  lemma SingleTokenReleasesOnce(target: Ptr, refuses: set<Ptr>, stuck: set<Ptr>, writer: bool, mode: Mode)
    requires target != 0 && (writer <==> mode.Exclusive?)
    ensures target in refuses ==> Unlocks(SingleLife(target, refuses, stuck, writer, mode), target) == 0
    ensures target !in refuses ==>
      (Unlocks(SingleLife(target, refuses, stuck, writer, mode), target) == 1 <==> !(writer && target in stuck))
    ensures Balance(SingleLife(target, refuses, stuck, writer, mode), target, mode)
      == if target !in refuses && target in stuck then 1 else 0
  {
    var first := Call(true, target, mode, target !in refuses);
    var gone := LifeEnd(target !in refuses, target, [], writer, stuck, mode);
    BalanceAppend([first], gone, target, mode);
    BalanceOfOne(first, target, mode);
    if |gone| > 0 { BalanceOfOne(gone[0], target, mode); }
    if |gone| == 2 {
      assert gone == [gone[0]] + [gone[1]];
      BalanceAppend([gone[0]], [gone[1]], target, mode);
      BalanceOfOne(gone[1], target, mode);
    }
  }

  // ----- Tokens and threads -----

  lemma {:induction false} LockCallAt(objs: seq<Ptr>, refuses: set<Ptr>, mode: Mode, i: nat)
    requires 0 !in objs && i < |objs|
    ensures |LockCalls(objs, refuses, mode)| == |objs|
    ensures LockCalls(objs, refuses, mode)[i] == Call(true, objs[i], mode, objs[i] !in refuses)
    decreases |objs|
  {
    var last := |objs| - 1;
    if last > 0 { LockCallAt(objs[..last], refuses, mode, if i < last then i else 0); }
  }

  lemma {:induction false} UnlockCallAt(objs: seq<Ptr>, stuck: set<Ptr>, mode: Mode, i: nat)
    requires 0 !in objs && i < |objs|
    ensures |UnlockCalls(objs, stuck, mode)| == |objs|
    ensures UnlockCalls(objs, stuck, mode)[i] == Call(false, objs[i], mode, objs[i] !in stuck)
    decreases |objs|
  {
    var last := |objs| - 1;
    if last > 0 { UnlockCallAt(objs[..last], stuck, mode, if i < last then i else 0); }
  }

  lemma {:induction false} UndoCallAt(objs: seq<Ptr>, stuck: set<Ptr>, mode: Mode, i: nat)
    requires i < |objs|
    ensures |UndoCalls(objs, stuck, mode)| == |objs|
    ensures var o := objs[|objs| - 1 - i]; UndoCalls(objs, stuck, mode)[i] == Call(false, o, mode, o !in stuck)
    decreases |objs|
  {
    var last := |objs| - 1;
    if last > 0 { UndoCallAt(objs[..last], stuck, mode, if i > 0 then i - 1 else 0); }
  }

  lemma LockStepGains(objs: seq<Ptr>, mode: Mode, i: nat, o: Ptr)
    requires Ordered(objs) && i < |objs|
    ensures Holds(Acquired(objs, mode, i + 1), o) && !Holds(Locking(objs, mode, i), o) <==> o == objs[i]
  {
  }

  lemma ReleaseStepLoses(objs: seq<Ptr>, mode: Mode, i: nat, o: Ptr)
    requires Ordered(objs) && i < |objs|
    ensures Holds(Releasing(objs, mode, i), o) && !Holds(Returned(objs, mode, i + 1), o) <==> o == objs[i]
  {
  }

  lemma UndoStepLoses(objs: seq<Ptr>, mode: Mode, left: nat, o: Ptr)
    requires Ordered(objs) && 0 < left <= |objs|
    ensures Holds(Undoing(objs, mode, left), o) && !Holds(Undone(objs, mode, left - 1), o) <==> o == objs[left - 1]
  {
  }

  /** Call by call a token does what a thread of `LockThreads` does step by step: the i-th lock call takes, the
      i-th unlock call of the destructor gives back, and the i-th unlock call of the rollback gives back just the
      object the thread gains or loses in its i-th step. */
  lemma CallsAreSteps(objs: seq<Ptr>, refuses: set<Ptr>, stuck: set<Ptr>, mode: Mode, i: nat, o: Ptr)
    requires Ordered(objs) && 0 !in objs && i < |objs|
    ensures |LockCalls(objs, refuses, mode)| == |UnlockCalls(objs, stuck, mode)| == |UndoCalls(objs, stuck, mode)| == |objs|
    ensures Holds(Acquired(objs, mode, i + 1), o) && !Holds(Locking(objs, mode, i), o)
      <==> o == LockCalls(objs, refuses, mode)[i].obj
    ensures Holds(Releasing(objs, mode, i), o) && !Holds(Returned(objs, mode, i + 1), o)
      <==> o == UnlockCalls(objs, stuck, mode)[i].obj
    ensures Holds(Undoing(objs, mode, |objs| - i), o) && !Holds(Undone(objs, mode, |objs| - i - 1), o)
      <==> o == UndoCalls(objs, stuck, mode)[i].obj
  {
    hide Holds, Ordered, LockCalls, UnlockCalls, UndoCalls;
    LockCallAt(objs, refuses, mode, i);
    UnlockCallAt(objs, stuck, mode, i);
    UndoCallAt(objs, stuck, mode, i);
    LockStepGains(objs, mode, i, o);
    ReleaseStepLoses(objs, mode, i, o);
    UndoStepLoses(objs, mode, |objs| - i, o);
  }
}
