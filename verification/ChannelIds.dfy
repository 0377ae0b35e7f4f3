/** Channel ids: a wrapping scan for an id no active channel uses
    (comm_ClientSession.cpp, get_next_channel_id). Usable ids are 1 .. maxChannels - 1. */
module ChannelIds {

  /** One turn of the scan: increment, and wrap to 1 at the maximum. */
  function NextCandidate(last: nat, maxChannels: nat): nat {
    if last + 1 >= maxChannels then 1 else last + 1
  }

  predicate IsFree(id: nat, used: set<nat>, maxChannels: nat) {
    1 <= id < maxChannels && id !in used
  }

  /** How many turns the scan needs to get from `last` to `id`. */
  function Turns(last: nat, id: nat, maxChannels: nat): int {
    if last < id then id - last else id - last + maxChannels - 1
  }

  /** Some free id, when there is one. */
  ghost function SomeFree(used: set<nat>, maxChannels: nat): (id: nat)
    requires exists id: nat :: IsFree(id, used, maxChannels)
    ensures IsFree(id, used, maxChannels)
  {
    var id: nat :| IsFree(id, used, maxChannels);
    id
  }

  /** The first free id the scan meets: the free id the fewest turns ahead. */
  function FirstFree(last: nat, used: set<nat>, maxChannels: nat): (id: nat)
    requires last < maxChannels
    requires exists id: nat :: IsFree(id, used, maxChannels)
    ensures IsFree(id, used, maxChannels)
    ensures forall other: nat :: IsFree(other, used, maxChannels) ==>
      Turns(last, id, maxChannels) <= Turns(last, other, maxChannels)
    decreases Turns(last, SomeFree(used, maxChannels), maxChannels)
  {
    var candidate := NextCandidate(last, maxChannels);
    if candidate !in used then candidate else FirstFree(candidate, used, maxChannels)
  }

  /** One turn of the scan comes nearer to a free id. */
  lemma FirstFreeTurn(last: nat, used: set<nat>, maxChannels: nat)
    requires last < maxChannels
    requires exists id: nat :: IsFree(id, used, maxChannels)
    ensures var candidate := NextCandidate(last, maxChannels);
      && candidate < maxChannels
      && FirstFree(last, used, maxChannels)
        == (if candidate !in used then candidate else FirstFree(candidate, used, maxChannels))
      && (candidate in used ==>
        0 <= Turns(candidate, SomeFree(used, maxChannels), maxChannels) < Turns(last, SomeFree(used, maxChannels), maxChannels))
  {
  }

  /** The ids 1 .. n. */
  ghost function Range(n: nat): (ids: set<nat>)
    ensures |ids| == n
    ensures forall id :: id in ids <==> 1 <= id <= n
  {
    if n == 0 then {} else Range(n - 1) + {n}
  }

  /** Pigeonhole: fewer than maxChannels - 1 ids in use leave one free. */
  lemma FreeIdExists(used: set<nat>, maxChannels: nat)
    requires |used| + 1 < maxChannels
    ensures exists id: nat :: IsFree(id, used, maxChannels)
  {
    var all := Range(maxChannels - 1);
    if all <= used {
      Subset(all, used);
    } else {
      var id :| id in all && id !in used;
      assert IsFree(id, used, maxChannels);
    }
  }

  lemma {:induction false} Subset(a: set<nat>, b: set<nat>)
    requires a <= b
    ensures |a| <= |b|
  {
    if a != {} {
      var x :| x in a;
      Subset(a - {x}, b - {x});
    }
  }

  // ----- When the scan ends -----

  /** The id the scan looks at in its k-th turn. */
  function Candidate(last: nat, maxChannels: nat, k: nat): nat {
    if k == 0 then last else NextCandidate(Candidate(last, maxChannels, k - 1), maxChannels)
  }

  /** Some turn of the scan meets an id that is not in use. */
  ghost predicate ScanEnds(last: nat, used: set<nat>, maxChannels: nat) {
    exists k: nat :: 0 < k && Candidate(last, maxChannels, k) !in used
  }

  lemma {:induction false} CandidateIsUsable(last: nat, maxChannels: nat, k: nat)
    requires last < maxChannels && 2 <= maxChannels && 0 < k
    ensures 1 <= Candidate(last, maxChannels, k) < maxChannels
  {
    if k > 1 { CandidateIsUsable(last, maxChannels, k - 1); }
  }

  /** Before it comes back to where it began the scan has wrapped at most once. */
  lemma {:induction false} CandidateAhead(last: nat, maxChannels: nat, k: nat)
    requires last < maxChannels && 1 <= k < maxChannels
    ensures Candidate(last, maxChannels, k) == if last + k < maxChannels then last + k else last + k - maxChannels + 1
  {
    if k > 1 { CandidateAhead(last, maxChannels, k - 1); }
  }

  /** The scan meets every usable id. */
  lemma ScanMeets(last: nat, id: nat, maxChannels: nat)
    requires last < maxChannels && 1 <= id < maxChannels
    ensures exists k: nat :: 0 < k && Candidate(last, maxChannels, k) == id
  {
    CandidateAhead(last, maxChannels, Turns(last, id, maxChannels));
  }

  /** The exact condition, for ids in use as sessions have them: there is a free id, and so the scan ends,
      if and only if fewer than maxChannels - 1 are in use. With maxChannels - 1 in use every candidate is
      taken, for any number of turns; yet the guard of the code, maxChannels or more in use, never fails. */
  lemma ScanEndsUnlessFull(last: nat, used: set<nat>, maxChannels: nat)
    requires last < maxChannels && 2 <= maxChannels && used <= Range(maxChannels - 1)
    ensures (exists id: nat :: IsFree(id, used, maxChannels)) <==> |used| + 1 < maxChannels
    ensures ScanEnds(last, used, maxChannels) <==> |used| + 1 < maxChannels
    ensures |used| + 1 == maxChannels ==> forall k: nat :: 0 < k ==> Candidate(last, maxChannels, k) in used
    ensures |used| < maxChannels
  {
    var all := Range(maxChannels - 1);
    Subset(used, all);
    if |used| + 1 < maxChannels {
      FreeIdExists(used, maxChannels);
      var id: nat :| IsFree(id, used, maxChannels);
      ScanMeets(last, id, maxChannels);
    } else {
      if id :| id in all && id !in used { Subset(used, all - {id}); }
      forall k: nat | 0 < k ensures Candidate(last, maxChannels, k) in used {
        CandidateIsUsable(last, maxChannels, k);
      }
    }
  }
}
