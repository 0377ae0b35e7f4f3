/** Channel ids go round: over every run an id is not given to another channel before every other id has been in use
    since. */
module IdRounds {
  import opened Basics
  import opened RouterEvents
  import opened Delivery
  import opened DeliveryProtocol
  import opened Channels
  import opened ChannelIds
  import opened Sessions
  import opened SessionInvariant
  import opened SessionSteps
  import opened SessionHosting
  import opened SessionEffects
  import opened SessionRuns
  import opened StepEffects
  import opened OutboundItems

  /** The ids that are in use in some state of the run. */
  ghost function SeenIn(f: Full, steps: seq<FullStep>, maxWindow: nat): set<nat>
    requires FullLegal(f, steps, maxWindow)
    decreases steps
  {
    f.w.s.active.Keys + if steps == [] then {} else SeenIn(FullNext(f, steps[0], maxWindow), steps[1..], maxWindow)
  }

  /** How far ahead of `id` another one is on the circle 1 .. maxChannels - 1. */
  function Ahead(id: nat, other: nat, maxChannels: nat): int {
    if id <= other then other - id else other - id + maxChannels - 1
  }

  /** The ids up to `last` on the circle from `id` on have been seen. */
  predicate SeenUpTo(id: nat, last: nat, seen: set<nat>, maxChannels: nat) {
    forall other: nat :: 1 <= other < maxChannels && Ahead(id, other, maxChannels) <= Ahead(id, last, maxChannels) ==>
      other in seen
  }

  predicate AllSeen(seen: set<nat>, maxChannels: nat) {
    forall other: nat :: 1 <= other < maxChannels ==> other in seen
  }

  /** The scan goes from `last` to `next` over ids in use; it passes `id` or not. */
  lemma ScanSees(id: nat, last: nat, next: nat, used: set<nat>, seen: set<nat>, maxChannels: nat)
    requires 1 <= id < maxChannels && 1 <= last < maxChannels && SeenUpTo(id, last, seen, maxChannels)
    requires IsFree(next, used, maxChannels) && used <= seen
    requires forall other: nat :: IsFree(other, used, maxChannels) ==>
      Turns(last, next, maxChannels) <= Turns(last, other, maxChannels)
    ensures SeenUpTo(id, next, seen + {next}, maxChannels)
    ensures Ahead(id, next, maxChannels) <= Ahead(id, last, maxChannels) ==> AllSeen(seen + {next}, maxChannels)
  {
    forall other: nat | 1 <= other < maxChannels && other != next
      && Ahead(id, last, maxChannels) < Ahead(id, other, maxChannels)
      && (Ahead(id, other, maxChannels) <= Ahead(id, next, maxChannels)
          || Ahead(id, next, maxChannels) <= Ahead(id, last, maxChannels))
      ensures other in seen
    {
      assert Turns(last, other, maxChannels) < Turns(last, next, maxChannels);
      assert !IsFree(other, used, maxChannels);
    }
  }

  /** The id the session gave last, and what has been seen since it gave `id`. */
  ghost predicate Goes(s: Session, id: nat, seen: set<nat>) {
    && 1 <= s.lastChannelId < s.maxChannels && s.active.Keys <= seen
    && (AllSeen(seen, s.maxChannels) || SeenUpTo(id, s.lastChannelId, seen, s.maxChannels))
  }

  /** The id that is given is the nearest free one ahead. */
  lemma AddingScans(f: Full, ptr: Ptr, out: bool, maxWindow: nat)
    requires FullInv(f, maxWindow) && FullEnabled(f, ChannelAdded(ptr, out), maxWindow) && Known(f.w)
    ensures var s, given := f.w.s, FullNext(f, ChannelAdded(ptr, out), maxWindow).w.s.lastChannelId;
      && IsFree(given, s.active.Keys, s.maxChannels)
      && forall other: nat :: IsFree(other, s.active.Keys, s.maxChannels) ==>
        Turns(s.lastChannelId, given, s.maxChannels) <= Turns(s.lastChannelId, other, s.maxChannels)
  {
    hide FullInv, Announce, Register, IdOf, Turns, IsFree;
    FreeIdExists(f.w.s.active.Keys, f.w.s.maxChannels);
  }

  lemma StepGoes(f: Full, step: FullStep, maxWindow: nat, id: nat, seen: set<nat>)
    requires FullInv(f, maxWindow) && FullEnabled(f, step, maxWindow) && Known(f.w)
    requires 1 <= id < f.w.s.maxChannels && Goes(f.w.s, id, seen)
    ensures var t := FullNext(f, step, maxWindow).w.s; Goes(t, id, seen + t.active.Keys) && t.maxChannels == f.w.s.maxChannels
    ensures Gives(f, step, maxWindow, id) ==> AllSeen(seen + FullNext(f, step, maxWindow).w.s.active.Keys, f.w.s.maxChannels)
  {
    hide FullInv, FullNext, FullEnabled, Known, SeenUpTo, AllSeen, IsFree, Turns, TellsFlow;
    var s, t := f.w.s, FullNext(f, step, maxWindow).w.s;
    if step.ChannelAdded? {
      AddingAdds(f, step.ptr, step.out, maxWindow);
      AddingScans(f, step.ptr, step.out, maxWindow);
      assert t.active.Keys == s.active.Keys + {t.lastChannelId};
      assert seen + t.active.Keys == seen + {t.lastChannelId};
      if SeenUpTo(id, s.lastChannelId, seen, s.maxChannels) {
        ScanSees(id, s.lastChannelId, t.lastChannelId, s.active.Keys, seen, s.maxChannels);
        BackAgain(id, s.lastChannelId, t.lastChannelId, s.maxChannels);
      }
      SeenGrows(id, s.lastChannelId, seen, seen + t.active.Keys, s.maxChannels);
    } else {
      if Serves(f, step) {
        ServingRemains(f, step, maxWindow);
      } else {
        StepStays(f, step, maxWindow);
      }
      assert t.active.Keys <= s.active.Keys;
      assert seen + t.active.Keys == seen;
    }
  }

  lemma BackAgain(id: nat, last: nat, next: nat, maxChannels: nat)
    requires 1 <= id < maxChannels && 1 <= last < maxChannels
    ensures next == id ==> Ahead(id, next, maxChannels) <= Ahead(id, last, maxChannels)
  {
  }

  lemma SeenGrows(id: nat, last: nat, seen: set<nat>, more: set<nat>, maxChannels: nat)
    requires seen <= more
    ensures AllSeen(seen, maxChannels) ==> AllSeen(more, maxChannels)
    ensures SeenUpTo(id, last, seen, maxChannels) ==> SeenUpTo(id, last, more, maxChannels)
  {
  }

  lemma {:induction false} RunGoes(f: Full, steps: seq<FullStep>, maxWindow: nat, id: nat, seen: set<nat>)
    requires FullInv(f, maxWindow) && FullLegal(f, steps, maxWindow)
    requires 1 <= id < f.w.s.maxChannels && Goes(f.w.s, id, seen)
    ensures var last := FullRun(f, steps, maxWindow);
      && FullInv(last, maxWindow) && Goes(last.w.s, id, seen + SeenIn(f, steps, maxWindow))
      && last.w.s.maxChannels == f.w.s.maxChannels
    decreases steps
  {
    hide FullInv, FullNext, FullEnabled, Known, SeenUpTo, AllSeen;
    if steps == [] {
      assert seen + SeenIn(f, steps, maxWindow) == seen;
    } else {
      var next := FullNext(f, steps[0], maxWindow);
      FullStepKeeps(f, steps[0], maxWindow);
      StepGoes(f, steps[0], maxWindow, id, seen);
      RunGoes(next, steps[1..], maxWindow, id, seen + next.w.s.active.Keys);
      assert next.w.s.active.Keys <= SeenIn(next, steps[1..], maxWindow);
      assert seen + SeenIn(f, steps, maxWindow)
        == seen + next.w.s.active.Keys + SeenIn(next, steps[1..], maxWindow);
    }
  }

  /** A step gives an id, and after any run the next step gives it again: then every other id has been in use in some
      state in between. */
  lemma IdsGoRound(f: Full, first: FullStep, given: Full, steps: seq<FullStep>, last: Full, again: FullStep, id: nat,
                   maxWindow: nat)
    requires FullInv(f, maxWindow) && Known(f.w) && FullEnabled(f, first, maxWindow) && Gives(f, first, maxWindow, id)
    requires given == FullNext(f, first, maxWindow)
    requires FullLegal(given, steps, maxWindow) && last == FullRun(given, steps, maxWindow)
    requires Known(last.w) && FullEnabled(last, again, maxWindow) && Gives(last, again, maxWindow, id)
    ensures forall other: nat :: 1 <= other < f.w.s.maxChannels ==> other in SeenIn(given, steps, maxWindow)
  {
    hide FullInv, FullNext, FullEnabled, Known, FullLegal, FullRun, Goes, SeenIn;
    FullStepKeeps(f, first, maxWindow);
    GivingGoes(f, first, maxWindow, id);
    var seen := given.w.s.active.Keys + SeenIn(given, steps, maxWindow);
    SeenFirst(given, steps, maxWindow);
    assert seen == SeenIn(given, steps, maxWindow);
    RunGoes(given, steps, maxWindow, id, given.w.s.active.Keys);
    StepGoes(last, again, maxWindow, id, seen);
    LastIsGiven(last, again, maxWindow, id);
    GoesIsSeen(last.w.s, id, seen);
    var next := FullNext(last, again, maxWindow);
    assert next.w.s.active.Keys == last.w.s.active.Keys + {id};
    assert seen + next.w.s.active.Keys == seen;
  }

  lemma SeenFirst(f: Full, steps: seq<FullStep>, maxWindow: nat)
    requires FullLegal(f, steps, maxWindow)
    ensures f.w.s.active.Keys <= SeenIn(f, steps, maxWindow)
  {
  }

  lemma GoesIsSeen(s: Session, id: nat, seen: set<nat>)
    requires Goes(s, id, seen)
    ensures s.active.Keys <= seen
  {
  }

  /** Giving an id makes it the last one. */
  lemma LastIsGiven(f: Full, step: FullStep, maxWindow: nat, id: nat)
    requires FullInv(f, maxWindow) && FullEnabled(f, step, maxWindow) && Known(f.w) && Gives(f, step, maxWindow, id)
    ensures var t := FullNext(f, step, maxWindow).w.s;
      && t.lastChannelId == id && 0 < id < t.maxChannels && t.maxChannels == f.w.s.maxChannels
      && t.active.Keys == f.w.s.active.Keys + {id}
  {
    hide FullInv, FullNext, FullEnabled, Known, TellsFlow;
    if step.ChannelAdded? {
      AddingAdds(f, step.ptr, step.out, maxWindow);
    } else if Serves(f, step) {
      ServingRemains(f, step, maxWindow);
    } else {
      StepStays(f, step, maxWindow);
    }
  }

  lemma GivingGoes(f: Full, step: FullStep, maxWindow: nat, id: nat)
    requires FullInv(f, maxWindow) && FullEnabled(f, step, maxWindow) && Known(f.w) && Gives(f, step, maxWindow, id)
    ensures var t := FullNext(f, step, maxWindow).w.s;
      1 <= id < t.maxChannels && t.maxChannels == f.w.s.maxChannels && Goes(t, id, t.active.Keys) && id in t.active
  {
    hide FullInv, FullNext, FullEnabled, Known;
    LastIsGiven(f, step, maxWindow, id);
  }
}
