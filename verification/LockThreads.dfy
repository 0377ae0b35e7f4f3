/** Threads taking multi-object lock tokens (concurrency_ReaderLockToken.cpp): each acquires its objects in
    address order, keeps them while the token lives, and gives them back one by one; a lock that fails
    makes it give back what it has. Any number of threads, any sets, shared and exclusive tokens. */
module LockThreads {
  import opened Basics

  datatype Mode = Shared | Exclusive

  /** `done` objects have been given back already, from the front; `left` are still to be given back after a
      failure, from the back. */
  datatype Thread =
    | Idle
    | Locking(objs: seq<Ptr>, mode: Mode, got: nat)
    | Holding(objs: seq<Ptr>, mode: Mode)
    | Releasing(objs: seq<Ptr>, mode: Mode, done: nat)
    | Undoing(objs: seq<Ptr>, mode: Mode, left: nat)

  type System = seq<Thread>

  /** Whether a reader lets a waiting writer go first, and whether a token takes its objects in address order, as a
      set of addresses does. */
  datatype Rules = Rules(writersFirst: bool, inOrder: bool)

  /** The order of a set of addresses. */
  ghost predicate Ordered(objs: seq<Ptr>) {
    forall i, j :: 0 <= i < j < |objs| ==> objs[i] < objs[j]
  }

  ghost predicate Sound(t: Thread) {
    match t
    case Idle => true
    case Locking(objs, _, got) => Ordered(objs) && got < |objs|
    case Holding(objs, _) => Ordered(objs)
    case Releasing(objs, _, done) => Ordered(objs) && done < |objs|
    case Undoing(objs, _, left) => Ordered(objs) && 0 < left <= |objs|
  }

  ghost predicate Holds(t: Thread, o: Ptr) {
    match t
    case Idle => false
    case Locking(objs, _, got) => exists i :: 0 <= i < got && i < |objs| && objs[i] == o
    case Holding(objs, _) => exists i :: 0 <= i < |objs| && objs[i] == o
    case Releasing(objs, _, done) => exists i :: done <= i < |objs| && objs[i] == o
    case Undoing(objs, _, left) => exists i :: 0 <= i < left && i < |objs| && objs[i] == o
  }

  /** Two threads have an object at the same time only as readers. */
  ghost predicate Exclusion(s: System) {
    forall t, u, o :: 0 <= t < |s| && 0 <= u < |s| && t != u && Holds(s[t], o) && Holds(s[u], o) ==>
      s[t].mode.Shared? && s[u].mode.Shared?
  }

  ghost predicate Inv(s: System) {
    (forall t :: 0 <= t < |s| ==> Sound(s[t])) && Exclusion(s)
  }

  predicate Waits(s: System, t: nat) {
    t < |s| && s[t].Locking? && s[t].got < |s[t].objs|
  }

  function Want(s: System, t: nat): Ptr
    requires Waits(s, t)
  {
    s[t].objs[s[t].got]
  }

  /** The lock is granted when no other holder is in the way; and, if writers go first, no reader overtakes a
      waiting writer. */
  ghost predicate CanLock(s: System, t: nat, rules: Rules) {
    && Waits(s, t)
    && (forall u: nat :: u < |s| && u != t && Holds(s[u], Want(s, t)) ==> s[u].mode.Shared? && s[t].mode.Shared?)
    && (rules.writersFirst && s[t].mode.Shared? ==>
          forall u: nat :: Waits(s, u) && u != t && s[u].mode.Exclusive? ==> Want(s, u) != Want(s, t))
  }

  datatype Step =
    | Begin(t: nat, objs: seq<Ptr>, mode: Mode)
    | Lock(t: nat)
    | Fail(t: nat)
    | Drop(t: nat)
    | Release(t: nat)
    | Undo(t: nat)

  ghost predicate Enabled(s: System, step: Step, rules: Rules) {
    && step.t < |s|
    && match step
       case Begin(t, objs, _) => s[t].Idle? && (rules.inOrder ==> Ordered(objs))
       case Lock(t) => CanLock(s, t, rules)
       case Fail(t) => s[t].Locking?
       case Drop(t) => s[t].Holding?
       case Release(t) => s[t].Releasing?
       case Undo(t) => s[t].Undoing?
  }

  function Acquired(objs: seq<Ptr>, mode: Mode, got: nat): Thread {
    if got < |objs| then Locking(objs, mode, got) else Holding(objs, mode)
  }

  function Returned(objs: seq<Ptr>, mode: Mode, done: nat): Thread {
    if done < |objs| then Releasing(objs, mode, done) else Idle
  }

  function Undone(objs: seq<Ptr>, mode: Mode, left: nat): Thread {
    if 0 < left then Undoing(objs, mode, left) else Idle
  }

  ghost function NextThread(s: System, step: Step, rules: Rules): Thread
    requires Enabled(s, step, rules)
  {
    var th := s[step.t];
    match step
    case Begin(_, objs, mode) => Acquired(objs, mode, 0)
    case Lock(_) => Acquired(th.objs, th.mode, th.got + 1)
    case Fail(_) => Undone(th.objs, th.mode, th.got)
    case Drop(_) => Returned(th.objs, th.mode, 0)
    case Release(_) => Returned(th.objs, th.mode, th.done + 1)
    case Undo(_) => Undone(th.objs, th.mode, if th.left > 0 then th.left - 1 else 0)
  }

  ghost function Next(s: System, step: Step, rules: Rules): System
    requires Enabled(s, step, rules)
  {
    s[step.t := NextThread(s, step, rules)]
  }

  ghost predicate Legal(s: System, steps: seq<Step>, rules: Rules)
    decreases steps
  {
    steps == [] ||
    (Enabled(s, steps[0], rules) && Legal(Next(s, steps[0], rules), steps[1..], rules))
  }

  ghost function Run(s: System, steps: seq<Step>, rules: Rules): System
    requires Legal(s, steps, rules)
    decreases steps
  {
    if steps == [] then s else Run(Next(s, steps[0], rules), steps[1..], rules)
  }

  ghost predicate AllIdle(s: System) {
    forall t :: 0 <= t < |s| ==> s[t].Idle?
  }

  // ----- The invariant -----

  /** A thread gains at most the object it was waiting for, and nothing else. */
  lemma NextHolds(s: System, step: Step, rules: Rules)
    requires rules.inOrder && Inv(s) && Enabled(s, step, rules)
    ensures var th := NextThread(s, step, rules);
      && Sound(th)
      && forall o :: Holds(th, o) ==>
        || (Holds(s[step.t], o) && th.mode == s[step.t].mode)
        || (step.Lock? && o == Want(s, step.t) && th.mode == s[step.t].mode)
  {
  }

  lemma StepKeeps(s: System, step: Step, rules: Rules)
    requires rules.inOrder && Inv(s) && Enabled(s, step, rules)
    ensures Inv(Next(s, step, rules)) && |Next(s, step, rules)| == |s|
  {
    hide Holds, Sound, NextThread;
    NextHolds(s, step, rules);
    HolderHasMode(s[step.t]);
    HolderHasMode(NextThread(s, step, rules));
  }

  lemma HolderHasMode(t: Thread)
    ensures (exists o :: Holds(t, o)) ==> !t.Idle?
  {
  }

  lemma {:induction false} RunKeeps(s: System, steps: seq<Step>, rules: Rules)
    requires rules.inOrder && Inv(s) && Legal(s, steps, rules)
    ensures Inv(Run(s, steps, rules)) && |Run(s, steps, rules)| == |s|
    decreases steps
  {
    hide Inv, Enabled;
    if steps != [] {
      StepKeeps(s, steps[0], rules);
      RunKeeps(Next(s, steps[0], rules), steps[1..], rules);
    }
  }

  // ----- Deadlock freedom -----

  /** The waiting thread that wants the largest object. */
  lemma {:induction false} LargestWant(s: System, n: nat) returns (t: nat)
    requires n <= |s| && exists u: nat :: u < n && Waits(s, u)
    ensures t < n && Waits(s, t) && forall u: nat :: u < n && Waits(s, u) ==> Want(s, u) <= Want(s, t)
    decreases n
  {
    if exists u: nat :: u < n - 1 && Waits(s, u) {
      t := LargestWant(s, n - 1);
      if Waits(s, n - 1) && Want(s, n - 1) > Want(s, t) { t := n - 1; }
    } else {
      t := n - 1;
    }
  }

  /** A step that moves a token on: not a new one, and no failure. */
  predicate MovesOn(step: Step) {
    step.Lock? || step.Drop? || step.Release? || step.Undo?
  }

  /** Whoever holds the largest wanted object waits for nothing: it would have to want a larger one. */
  lemma HolderMovesOn(s: System, u: nat, o: Ptr, rules: Rules) returns (step: Step)
    requires Inv(s) && u < |s| && Holds(s[u], o)
    requires Waits(s, u) ==> Want(s, u) <= o
    ensures Enabled(s, step, rules) && MovesOn(step)
  {
    assert Sound(s[u]);
    match s[u]
    case Locking(_, _, _) =>
      assert false;
      step := Lock(u);
    case Holding(_, _) => step := Drop(u);
    case Releasing(_, _, _) => step := Release(u);
    case Undoing(_, _, _) => step := Undo(u);
  }

  /** Deadlock freedom: in every reachable state in which a thread waits for a lock, some thread can move on,
      whether or not writers go first. */
  lemma SomeThreadMovesOn(s: System, rules: Rules) returns (step: Step)
    requires Inv(s) && exists t: nat :: Waits(s, t)
    ensures Enabled(s, step, rules) && MovesOn(step)
  {
    hide Holds;
    assert exists u: nat :: u < |s| && Waits(s, u);
    var t := LargestWant(s, |s|);
    if u: nat :| Waits(s, u) && s[u].mode.Exclusive? && Want(s, u) == Want(s, t) {
      if v: nat :| v < |s| && v != u && Holds(s[v], Want(s, u)) {
        step := HolderMovesOn(s, v, Want(s, u), rules);
      } else {
        step := Lock(u);
      }
    } else if v: nat :| v < |s| && v != t && Holds(s[v], Want(s, t)) {
      step := HolderMovesOn(s, v, Want(s, t), rules);
    } else {
      step := Lock(t);
    }
  }

  /** Starting with no tokens, in every state of every run: a waiting thread means that some thread can move on,
      and two threads share an object only as readers. */
  lemma RunsNeverDeadlock(s: System, steps: seq<Step>, rules: Rules)
    requires rules.inOrder && AllIdle(s) && Legal(s, steps, rules)
    ensures var r := Run(s, steps, rules);
      && Exclusion(r)
      && ((exists t: nat :: Waits(r, t)) ==> exists step :: Enabled(r, step, rules) && MovesOn(step))
  {
    RunKeeps(s, steps, rules);
    var r := Run(s, steps, rules);
    if exists t: nat :: Waits(r, t) {
      var step := SomeThreadMovesOn(r, rules);
    }
  }

  // ----- Every token is acquired and given back -----

  /** What a thread has left to do. */
  function Work(t: Thread): nat {
    match t
    case Idle => 0
    case Locking(objs, _, got) => 2 * |objs| + 2 - (if got < |objs| then got else |objs|)
    case Holding(objs, _) => |objs| + 1
    case Releasing(objs, _, done) => if done < |objs| then |objs| - done else 0
    case Undoing(_, _, left) => left
  }

  function AllWork(s: System): nat {
    if s == [] then 0 else Work(s[0]) + AllWork(s[1..])
  }

  lemma {:induction false} WorkOfUpdate(s: System, t: nat, th: Thread)
    requires t < |s|
    ensures AllWork(s[t := th]) + Work(s[t]) == AllWork(s) + Work(th)
  {
    if t == 0 {
      assert s[t := th][1..] == s[1..];
    } else {
      assert s[t := th][1..] == s[1..][t - 1 := th];
      WorkOfUpdate(s[1..], t - 1, th);
    }
  }

  lemma MovingOnIsLessWork(s: System, step: Step, rules: Rules)
    requires Inv(s) && Enabled(s, step, rules) && MovesOn(step)
    ensures AllWork(Next(s, step, rules)) < AllWork(s)
  {
    assert Sound(s[step.t]);
    WorkOfUpdate(s, step.t, NextThread(s, step, rules));
  }

  /** From every reachable state all threads can finish without a failure and without new tokens: every
      object wanted is acquired and everything is given back. */
  lemma {:induction false} AllCanFinish(s: System, rules: Rules) returns (steps: seq<Step>)
    requires rules.inOrder && Inv(s)
    ensures Legal(s, steps, rules) && forall i :: 0 <= i < |steps| ==> MovesOn(steps[i])
    ensures AllIdle(Run(s, steps, rules))
    decreases AllWork(s)
  {
    if AllIdle(s) {
      steps := [];
    } else {
      var step;
      if t: nat :| Waits(s, t) {
        step := SomeThreadMovesOn(s, rules);
      } else {
        var t: nat :| t < |s| && !s[t].Idle?;
        assert Sound(s[t]) && !Waits(s, t);
        step := match s[t] case Holding(_, _) => Drop(t) case Releasing(_, _, _) => Release(t) case _ => Undo(t);
      }
      StepKeeps(s, step, rules);
      MovingOnIsLessWork(s, step, rules);
      var rest := AllCanFinish(Next(s, step, rules), rules);
      steps := [step] + rest;
      assert steps[1..] == rest;
    }
  }

  /** Two threads take the same two objects in opposite orders, as they could with one token for each object. */
  const OPPOSITE := [Begin(0, [1, 2], Exclusive), Begin(1, [2, 1], Exclusive), Lock(0), Lock(1)]
  const STUCK: System := [Locking([1, 2], Exclusive, 1), Locking([2, 1], Exclusive, 1)]

  lemma OppositeIsStuck(rules: Rules)
    requires !rules.inOrder
    ensures Legal([Idle, Idle], OPPOSITE, rules) && Run([Idle, Idle], OPPOSITE, rules) == STUCK
  {
    var s0: System := [Idle, Idle];
    var s1: System := [Locking([1, 2], Exclusive, 0), Idle];
    var s2: System := [Locking([1, 2], Exclusive, 0), Locking([2, 1], Exclusive, 0)];
    var s3: System := [Locking([1, 2], Exclusive, 1), Locking([2, 1], Exclusive, 0)];
    assert forall o :: !Holds(s2[0], o) && !Holds(s2[1], o) && !Holds(s3[1], o);
    assert Want(s2, 0) == 1 && Want(s3, 1) == 2;
    assert forall o :: Holds(s3[0], o) ==> o == 1;
    assert CanLock(s2, 0, rules) && CanLock(s3, 1, rules);
    assert s1 == Next(s0, OPPOSITE[0], rules) && s2 == Next(s1, OPPOSITE[1], rules);
    assert s3 == Next(s2, OPPOSITE[2], rules) && STUCK == Next(s3, OPPOSITE[3], rules);
    FourSteps(s0, s1, s2, s3, STUCK, OPPOSITE, rules);
  }

  lemma FourSteps(s0: System, s1: System, s2: System, s3: System, s4: System, steps: seq<Step>, rules: Rules)
    requires |steps| == 4
    requires Enabled(s0, steps[0], rules) && s1 == Next(s0, steps[0], rules)
    requires Enabled(s1, steps[1], rules) && s2 == Next(s1, steps[1], rules)
    requires Enabled(s2, steps[2], rules) && s3 == Next(s2, steps[2], rules)
    requires Enabled(s3, steps[3], rules) && s4 == Next(s3, steps[3], rules)
    ensures Legal(s0, steps, rules) && Run(s0, steps, rules) == s4
  {
    hide Enabled, Next;
    assert Legal(s4, steps[4..], rules) && Run(s4, steps[4..], rules) == s4;
    assert steps[3..][1..] == steps[4..] && Legal(s3, steps[3..], rules) && Run(s3, steps[3..], rules) == s4;
    assert steps[2..][1..] == steps[3..] && Legal(s2, steps[2..], rules) && Run(s2, steps[2..], rules) == s4;
    assert steps[1..][1..] == steps[2..] && Legal(s1, steps[1..], rules) && Run(s1, steps[1..], rules) == s4;
  }

  /** The order matters: without it two threads without tokens get, in four steps, to where each waits for the
      other and neither can move on, whether or not writers go first. */
  lemma UnorderedDeadlocks(rules: Rules)
    requires !rules.inOrder
    ensures Legal([Idle, Idle], OPPOSITE, rules)
    ensures var s := Run([Idle, Idle], OPPOSITE, rules);
      Waits(s, 0) && Waits(s, 1) && forall step :: MovesOn(step) ==> !Enabled(s, step, rules)
  {
    hide Legal, Run;
    OppositeIsStuck(rules);
    assert STUCK[0].objs[0] == 1 && STUCK[1].objs[0] == 2;
    assert Holds(STUCK[1], 2) && Holds(STUCK[0], 1);
    assert Want(STUCK, 0) == 2 && Want(STUCK, 1) == 1;
  }
}
