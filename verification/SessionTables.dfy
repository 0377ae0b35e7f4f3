/** The vectors a session keeps its channels and its held-back messages in, and the maps they stand for. */
module SessionTables {
  import opened Basics
  import opened RouterEvents
  import opened Channels
  import opened Sessions

  datatype ActiveChannel = ActiveChannel(id: nat, info: ChannelInfo)

  /** The entry a linear search for the id finds, or the length when there is none. */
  function IndexOf(entries: seq<ActiveChannel>, id: nat): (index: nat)
    ensures index <= |entries|
    ensures forall i :: 0 <= i < index ==> entries[i].id != id
    ensures index < |entries| ==> entries[index].id == id
  {
    if entries == [] || entries[0].id == id then 0 else 1 + IndexOf(entries[1..], id)
  }

  ghost predicate Distinct(entries: seq<ActiveChannel>) {
    forall i, j :: 0 <= i < j < |entries| ==> entries[i].id != entries[j].id
  }

  function Ids(entries: seq<ActiveChannel>): set<nat> {
    set i | 0 <= i < |entries| :: entries[i].id
  }

  function ActiveMap(entries: seq<ActiveChannel>): map<nat, ChannelInfo> {
    map id | id in Ids(entries) :: entries[IndexOf(entries, id)].info
  }

  lemma NotFound(entries: seq<ActiveChannel>, id: nat)
    ensures IndexOf(entries, id) == |entries| <==> id !in ActiveMap(entries)
    ensures id in ActiveMap(entries) ==> ActiveMap(entries)[id] == entries[IndexOf(entries, id)].info
  {
  }

  lemma IndexIs(entries: seq<ActiveChannel>, i: nat)
    requires Distinct(entries) && i < |entries|
    ensures IndexOf(entries, entries[i].id) == i
  {
  }

  lemma {:induction false} AsManyIds(entries: seq<ActiveChannel>)
    requires Distinct(entries)
    ensures |Ids(entries)| == |entries|
  {
    if entries != [] {
      var last := |entries| - 1;
      AsManyIds(entries[..last]);
      assert entries[last].id !in Ids(entries[..last]);
      forall id ensures id in Ids(entries) <==> id in Ids(entries[..last]) + {entries[last].id} {
        if i: nat :| i < last && entries[i].id == id { assert entries[..last][i].id == id; }
      }
      assert Ids(entries) == Ids(entries[..last]) + {entries[last].id};
    }
  }

  lemma MapSize(entries: seq<ActiveChannel>)
    requires Distinct(entries)
    ensures |ActiveMap(entries)| == |entries|
  {
    AsManyIds(entries);
    assert ActiveMap(entries).Keys == Ids(entries);
  }

  /** A vector that finds for every id what a map says stands for that map. */
  lemma SameEntriesSameMap(entries: seq<ActiveChannel>, expected: map<nat, ChannelInfo>)
    requires forall id :: id in expected <==> IndexOf(entries, id) < |entries|
    requires forall id :: id in expected ==> expected[id] == entries[IndexOf(entries, id)].info
    ensures ActiveMap(entries) == expected
  {
  }

  lemma AppendIsUpdate(entries: seq<ActiveChannel>, entry: ActiveChannel)
    requires Distinct(entries) && IndexOf(entries, entry.id) == |entries|
    ensures Distinct(entries + [entry])
    ensures ActiveMap(entries + [entry]) == ActiveMap(entries)[entry.id := entry.info]
  {
    hide ActiveMap;
    var more, expected := entries + [entry], ActiveMap(entries)[entry.id := entry.info];
    forall id
      ensures id in expected <==> IndexOf(more, id) < |more|
      ensures id in expected ==> expected[id] == more[IndexOf(more, id)].info
    {
      NotFound(entries, id);
      if IndexOf(entries, id) < |entries| {
        IndexIs(more, IndexOf(entries, id));
      } else if id == entry.id {
        IndexIs(more, |entries|);
      }
    }
    SameEntriesSameMap(more, expected);
  }

  lemma WriteIsUpdate(entries: seq<ActiveChannel>, i: nat, info: ChannelInfo)
    requires Distinct(entries) && i < |entries|
    ensures var written := entries[i := ActiveChannel(entries[i].id, info)];
      Distinct(written) && ActiveMap(written) == ActiveMap(entries)[entries[i].id := info]
  {
    hide ActiveMap;
    var written := entries[i := ActiveChannel(entries[i].id, info)];
    var expected := ActiveMap(entries)[entries[i].id := info];
    IndexIs(entries, i);
    forall id
      ensures id in expected <==> IndexOf(written, id) < |written|
      ensures id in expected ==> expected[id] == written[IndexOf(written, id)].info
    {
      NotFound(entries, id);
      if IndexOf(entries, id) < |entries| { IndexIs(written, IndexOf(entries, id)); }
    }
    SameEntriesSameMap(written, expected);
  }

  /** Swap-removal: the last entry takes the place of the removed one. */
  function SwapRemove(entries: seq<ActiveChannel>, i: nat): seq<ActiveChannel>
    requires i < |entries|
  {
    entries[i := entries[|entries| - 1]][..|entries| - 1]
  }

  lemma SwapRemoveAt(entries: seq<ActiveChannel>, i: nat)
    requires Distinct(entries) && i < |entries|
    ensures var rest, last := SwapRemove(entries, i), |entries| - 1;
      && |rest| == last && Distinct(rest)
      && (forall k :: 0 <= k < last ==> rest[k] == if k == i then entries[last] else entries[k])
      && (forall k :: 0 <= k < |entries| && k != i ==> entries[k].id != entries[i].id)
  {
  }

  lemma SwapRemoves(entries: seq<ActiveChannel>, i: nat)
    requires Distinct(entries) && i < |entries|
    ensures Distinct(SwapRemove(entries, i))
    ensures ActiveMap(SwapRemove(entries, i)) == ActiveMap(entries) - {entries[i].id}
  {
    hide ActiveMap, SwapRemove, Distinct, IndexOf;
    SwapRemoveAt(entries, i);
    var rest, last := SwapRemove(entries, i), |entries| - 1;
    var expected := ActiveMap(entries) - {entries[i].id};
    forall id
      ensures id in expected <==> IndexOf(rest, id) < |rest|
      ensures id in expected ==> expected[id] == rest[IndexOf(rest, id)].info
    {
      NotFound(entries, id);
      var k := IndexOf(entries, id);
      if k < |entries| && id != entries[i].id {
        IndexIs(rest, if k == last then i else k);
      }
    }
    SameEntriesSameMap(rest, expected);
  }

  /** Which entry holds a channel. */
  function IndexOfPtr(entries: seq<ActiveChannel>, ptr: Ptr): (index: nat)
    ensures index <= |entries|
    ensures forall i :: 0 <= i < index ==> entries[i].info.ptr != ptr
    ensures index < |entries| ==> entries[index].info.ptr == ptr
  {
    if entries == [] || entries[0].info.ptr == ptr then 0 else 1 + IndexOfPtr(entries[1..], ptr)
  }

  // ----- Held-back messages -----

  type HeldQueue = (nat, seq<RouterEvent>)

  function QueueIndex(queues: seq<HeldQueue>, id: nat): (index: nat)
    ensures index <= |queues|
    ensures forall i :: 0 <= i < index ==> queues[i].0 != id
    ensures index < |queues| ==> queues[index].0 == id
  {
    if queues == [] || queues[0].0 == id then 0 else 1 + QueueIndex(queues[1..], id)
  }

  ghost predicate DistinctQueues(queues: seq<HeldQueue>) {
    forall i, j :: 0 <= i < j < |queues| ==> queues[i].0 != queues[j].0
  }

  function BusyIds(queues: seq<HeldQueue>): set<nat> {
    set i | 0 <= i < |queues| && queues[i].1 != [] :: queues[i].0
  }

  /** An empty queue stands for no entry. */
  function HeldOf(queues: seq<HeldQueue>, id: nat): seq<RouterEvent> {
    if QueueIndex(queues, id) < |queues| then queues[QueueIndex(queues, id)].1 else []
  }

  function QueueMap(queues: seq<HeldQueue>): map<nat, seq<RouterEvent>> {
    map id | id in BusyIds(queues) :: HeldOf(queues, id)
  }

  lemma QueueIndexIsUnique(queues: seq<HeldQueue>, i: nat)
    requires DistinctQueues(queues) && i < |queues|
    ensures QueueIndex(queues, queues[i].0) == i
  {
  }

  /** The vector holds for each id what the map says, or nothing. */
  lemma HeldIsMapped(queues: seq<HeldQueue>, id: nat)
    requires DistinctQueues(queues)
    ensures id in QueueMap(queues) <==> HeldOf(queues, id) != []
    ensures id in QueueMap(queues) ==> QueueMap(queues)[id] == HeldOf(queues, id)
  {
  }

  /** Vectors that hold the same for every id stand for the same map. */
  lemma SameHeldSameMap(more: seq<HeldQueue>, expected: map<nat, seq<RouterEvent>>)
    requires DistinctQueues(more)
    requires forall id :: id in expected <==> HeldOf(more, id) != []
    requires forall id :: id in expected ==> expected[id] == HeldOf(more, id)
    ensures QueueMap(more) == expected
  {
    forall id ensures id in QueueMap(more) <==> id in expected {
      HeldIsMapped(more, id);
    }
    forall id | id in expected ensures QueueMap(more)[id] == expected[id] {
      HeldIsMapped(more, id);
    }
  }

  lemma WrittenStaysDistinct(queues: seq<HeldQueue>, i: nat, queue: seq<RouterEvent>)
    requires DistinctQueues(queues) && i < |queues|
    ensures DistinctQueues(queues[i := (queues[i].0, queue)])
  {
  }

  lemma HeldOfWritten(queues: seq<HeldQueue>, i: nat, queue: seq<RouterEvent>, other: nat)
    requires DistinctQueues(queues) && i < |queues|
    ensures HeldOf(queues[i := (queues[i].0, queue)], other) == (if other == queues[i].0 then queue else HeldOf(queues, other))
  {
    hide DistinctQueues;
    var written := queues[i := (queues[i].0, queue)];
    WrittenStaysDistinct(queues, i, queue);
    QueueIndexIsUnique(queues, i);
    var k := QueueIndex(queues, other);
    if k < |queues| { QueueIndexIsUnique(written, k); }
  }

  lemma WriteHeld(queues: seq<HeldQueue>, i: nat, queue: seq<RouterEvent>)
    requires DistinctQueues(queues) && i < |queues|
    ensures var id := queues[i].0;
      var written := queues[i := (id, queue)];
      && DistinctQueues(written)
      && QueueMap(written) == (if queue == [] then QueueMap(queues) - {id} else QueueMap(queues)[id := queue])
  {
    hide QueueMap, HeldOf, DistinctQueues;
    var id := queues[i].0;
    var written := queues[i := (id, queue)];
    WrittenStaysDistinct(queues, i, queue);
    forall other ensures HeldOf(written, other) == (if other == id then queue else HeldOf(queues, other)) {
      HeldOfWritten(queues, i, queue, other);
    }
    forall other ensures other in QueueMap(queues) <==> HeldOf(queues, other) != [] {
      HeldIsMapped(queues, other);
    }
    forall other | other in QueueMap(queues) ensures QueueMap(queues)[other] == HeldOf(queues, other) {
      HeldIsMapped(queues, other);
    }
    SameHeldSameMap(written, if queue == [] then QueueMap(queues) - {id} else QueueMap(queues)[id := queue]);
  }

  /** Empty queues at the end stand for nothing. */
  lemma TrimHeld(queues: seq<HeldQueue>, n: nat)
    requires DistinctQueues(queues) && n <= |queues| && forall k :: n <= k < |queues| ==> queues[k].1 == []
    ensures DistinctQueues(queues[..n]) && QueueMap(queues[..n]) == QueueMap(queues)
  {
    hide QueueMap;
    forall id ensures HeldOf(queues[..n], id) == HeldOf(queues, id) {
      var k := QueueIndex(queues, id);
      if k < n { QueueIndexIsUnique(queues[..n], k); }
    }
    forall id ensures id in QueueMap(queues) <==> HeldOf(queues[..n], id) != [] {
      HeldIsMapped(queues, id);
    }
    forall id | id in QueueMap(queues) ensures QueueMap(queues)[id] == HeldOf(queues[..n], id) {
      HeldIsMapped(queues, id);
    }
    SameHeldSameMap(queues[..n], QueueMap(queues));
  }

  lemma GrowHeld(queues: seq<HeldQueue>, id: nat)
    requires DistinctQueues(queues) && QueueIndex(queues, id) == |queues|
    ensures DistinctQueues(queues + [(id, [])]) && QueueMap(queues + [(id, [])]) == QueueMap(queues)
  {
    var grown := queues + [(id, [])];
    TrimHeld(grown, |queues|);
    assert grown[..|queues|] == queues;
  }

  /** Vectors that stand for the same map hold the same. */
  lemma HeldSame(queues: seq<HeldQueue>, more: seq<HeldQueue>, id: nat)
    requires DistinctQueues(queues) && DistinctQueues(more) && QueueMap(queues) == QueueMap(more)
    ensures HeldOf(queues, id) == HeldOf(more, id)
  {
    hide QueueMap;
    HeldIsMapped(queues, id);
    HeldIsMapped(more, id);
  }
}
