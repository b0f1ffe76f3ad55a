/** The priority queue in front of the scheduler (scheduler/request_queue.py): a heap whose keys
    are fixed when a request arrives, standing in for re-scoring every waiting request at every pop. */
module RequestQueue {
  import opened Common
  import opened Heapq
  import opened Requests

  /** One heap entry: the static key, the arrival number, the request. */
  datatype Entry = Entry(score: real, arrival: nat, request: InferenceRequest)

  function EntryKey(e: Entry): Key {
    (e.score, e.arrival)
  }

  /** The key computed once, at push time. */
  function SortKey(r: InferenceRequest, agingSeconds: real): real {
    if agingSeconds <= 0.0 then r.priorityClass as real
    else r.priorityClass as real + r.enqueueTime / agingSeconds
  }

  /** The priority the aging rule describes: class, minus time waited over the aging time. */
  ghost function AgedPriority(r: InferenceRequest, agingSeconds: real, now: real): real {
    if agingSeconds <= 0.0 then r.priorityClass as real
    else r.priorityClass as real - (now - r.enqueueTime) / agingSeconds
  }

  lemma DivideDifference(a: real, b: real, d: real)
    requires d > 0.0
    ensures (a - b) / d == a / d - b / d
  {
  }

  /** At any one instant, the fixed key and the aged priority differ by the same amount for every request. */
  lemma KeyIsShiftedPriority(r: InferenceRequest, agingSeconds: real, now: real)
    ensures SortKey(r, agingSeconds)
            == AgedPriority(r, agingSeconds, now) + if agingSeconds <= 0.0 then 0.0 else now / agingSeconds
  {
    if agingSeconds > 0.0 {
      DivideDifference(now, r.enqueueTime, agingSeconds);
    }
  }

  /** The simple queue: requests in arrival order, all scored again at every pop. The winner has the
      least priority now, and among equals arrived first. */
  ghost function BestIndex(waiting: seq<Entry>, agingSeconds: real, now: real): (best: nat)
    requires waiting != []
    ensures best < |waiting|
    ensures forall j :: 0 <= j < |waiting| ==>
              AgedPriority(waiting[best].request, agingSeconds, now) <= AgedPriority(waiting[j].request, agingSeconds,
                    now)
    ensures forall j :: 0 <= j < best ==>
              AgedPriority(waiting[best].request, agingSeconds, now) < AgedPriority(waiting[j].request, agingSeconds,
                    now)
  {
    var last := |waiting| - 1;
    if last == 0 then 0
    else
      var best := BestIndex(waiting[..last], agingSeconds, now);
      if AgedPriority(waiting[last].request, agingSeconds, now) < AgedPriority(waiting[best].request, agingSeconds, now)
      then last else best
  }

  ghost function Without<T>(s: seq<T>, i: nat): (r: seq<T>)
    requires i < |s|
    ensures |r| == |s| - 1
  {
    s[..i] + s[i + 1..]
  }

  lemma WithoutElements<T>(s: seq<T>, i: nat)
    requires i < |s|
    ensures multiset(s) == multiset(Without(s, i)) + multiset{s[i]}
  {
    assert s == s[..i] + [s[i]] + s[i + 1..];
  }

  ghost predicate ArrivalOrder(waiting: seq<Entry>) {
    forall i, j :: 0 <= i < j < |waiting| ==> waiting[i].arrival < waiting[j].arrival
  }

  class PriorityRequestQueue {
    const agingSeconds: real
    var heap: seq<Entry>
    var counter: nat
    ghost var waiting: seq<Entry>      // the same entries, in arrival order

    ghost predicate Valid()
      reads this
    {
      && IsHeap(EntryKey, heap)
      && multiset(heap) == multiset(waiting)
      && ArrivalOrder(waiting)
      && (forall i :: 0 <= i < |waiting| ==>
            waiting[i].arrival < counter && waiting[i].score == SortKey(waiting[i].request, agingSeconds))
    }

    constructor (agingSeconds: real)
      ensures Valid() && waiting == [] && counter == 0 && this.agingSeconds == agingSeconds
    {
      this.agingSeconds := agingSeconds;
      heap, counter, waiting := [], 0, [];
    }

    function Empty(): (empty: bool)
      requires Valid()
      reads this
      ensures empty <==> waiting == []
    {
      SameSize(heap, waiting);
      heap == []
    }

    method Put(request: InferenceRequest)
      requires Valid()
      modifies this
      ensures Valid()
      ensures counter == old(counter) + 1
      ensures waiting == old(waiting) + [Entry(SortKey(request, agingSeconds), old(counter), request)]
    {
      var entry := Entry(SortKey(request, agingSeconds), counter, request);
      heap := HeapPush(EntryKey, heap, entry);
      counter := counter + 1;
      waiting := waiting + [entry];
    }

    /** Pops the first request, or None when there is none to wait for. The winner is the one that
        re-scoring would pick, whatever the time is. */
    method Get() returns (request: Option<InferenceRequest>)
      requires Valid()
      modifies this
      ensures Valid() && counter == old(counter)
      ensures request.None? <==> old(waiting) == []
      ensures request.None? ==> waiting == []
      ensures request.Some? ==> forall now ::
                var best := BestIndex(old(waiting), agingSeconds, now);
                request.value == old(waiting)[best].request && waiting == Without(old(waiting), best)
    {
      SameSize(heap, waiting);
      if heap == [] {
        return None;
      }
      var entry, rest := HeapPop(EntryKey, heap);
      ghost var i := WinnerIsBest(heap, entry, rest, waiting, agingSeconds);
      heap := rest;
      waiting := Without(waiting, i);
      request := Some(entry.request);
    }
  }

  lemma SameSize<T>(a: seq<T>, b: seq<T>)
    requires multiset(a) == multiset(b)
    ensures |a| == |b|
  {
    assert |multiset(a)| == |a| && |multiset(b)| == |b|;
  }

  /** The entry with the least key is the one re-scoring picks, at every instant. */
  lemma WinnerIsBest(heap: seq<Entry>, entry: Entry, rest: seq<Entry>, waiting: seq<Entry>, agingSeconds: real)
      returns (i: nat)
    requires multiset(heap) == multiset(waiting) && multiset(heap) == multiset(rest) + multiset{entry}
    requires forall e :: e in heap ==> Leq(EntryKey(entry), EntryKey(e))
    requires ArrivalOrder(waiting)
    requires forall j :: 0 <= j < |waiting| ==> waiting[j].score == SortKey(waiting[j].request, agingSeconds)
    ensures i < |waiting| && waiting[i] == entry
    ensures multiset(rest) == multiset(Without(waiting, i))
    ensures forall now :: BestIndex(waiting, agingSeconds, now) == i
  {
    assert entry in multiset(waiting);
    i :| 0 <= i < |waiting| && waiting[i] == entry;
    WithoutElements(waiting, i);
    assert multiset(rest) == multiset(heap) - multiset{entry};
    forall j | 0 <= j < |waiting|
      ensures Leq(EntryKey(entry), EntryKey(waiting[j]))
    {
      assert waiting[j] in multiset(heap);
    }
    forall now
      ensures BestIndex(waiting, agingSeconds, now) == i
    {
      LeastKeyIsBest(waiting, agingSeconds, now, i);
    }
  }

  lemma LeastKeyIsBest(waiting: seq<Entry>, agingSeconds: real, now: real, i: nat)
    requires i < |waiting| && ArrivalOrder(waiting)
    requires forall j :: 0 <= j < |waiting| ==> waiting[j].score == SortKey(waiting[j].request, agingSeconds)
    requires forall j :: 0 <= j < |waiting| ==> Leq(EntryKey(waiting[i]), EntryKey(waiting[j]))
    ensures BestIndex(waiting, agingSeconds, now) == i
  {
    var best := BestIndex(waiting, agingSeconds, now);
    KeyIsShiftedPriority(waiting[i].request, agingSeconds, now);
    KeyIsShiftedPriority(waiting[best].request, agingSeconds, now);
  }

  /** Aging: a general request is never passed over for a short one that arrived more than
      `agingSeconds` after it. */
  lemma AgingPromotes(waiting: seq<Entry>, agingSeconds: real, now: real, general: nat, short: nat)
    requires general < |waiting| && short < |waiting| && agingSeconds > 0.0
    requires waiting[general].request.priorityClass == GENERAL_REQUEST_CLASS
    requires waiting[short].request.priorityClass == SHORT_REQUEST_CLASS
    requires waiting[short].request.enqueueTime > waiting[general].request.enqueueTime + agingSeconds
    ensures BestIndex(waiting, agingSeconds, now) != short
  {
    var (g, s) := (waiting[general].request, waiting[short].request);
    KeyIsShiftedPriority(g, agingSeconds, now);
    KeyIsShiftedPriority(s, agingSeconds, now);
    DivideDifference(s.enqueueTime, g.enqueueTime, agingSeconds);
    assert (s.enqueueTime - g.enqueueTime) / agingSeconds > 1.0;
  }

  lemma Scaled(c: real, e: real, c': real, e': real, a: real)
    requires a > 0.0
    ensures c + e / a <= c' + e' / a <==> c * a + e <= c' * a + e'
    ensures c + e / a < c' + e' / a <==> c * a + e < c' * a + e'
  {
    var (x, y) := (e / a, e' / a);
    assert x * a == e && y * a == e';
    Scaling(c + x, c' + y, a);
    assert (c + x) * a == c * a + e && (c' + y) * a == c' * a + e';
  }

  lemma Scaling(x: real, y: real, a: real)
    requires a > 0.0
    ensures x <= y <==> x * a <= y * a
    ensures x < y <==> x * a < y * a
  {
    if x < y {
      assert (y - x) * a > 0.0;
    } else if y < x {
      assert (x - y) * a > 0.0;
    }
  }

  /** Who is served next, whatever the time is: a request of class c counts as if it had come c aging
      times later than it did; whoever comes first by that reckoning is first, and of two that come
      together the one that was put on the queue before. Without aging, only the class counts. */
  lemma FirstIsServed(waiting: seq<Entry>, agingSeconds: real, now: real, j: nat)
    requires waiting != [] && j < |waiting| && j != BestIndex(waiting, agingSeconds, now)
    ensures var best := BestIndex(waiting, agingSeconds, now);
            var (r, q) := (waiting[best].request, waiting[j].request);
            var due := if agingSeconds > 0.0 then r.enqueueTime + r.priorityClass as real * agingSeconds
                       else r.priorityClass as real;
            var due' := if agingSeconds > 0.0 then q.enqueueTime + q.priorityClass as real * agingSeconds
                        else q.priorityClass as real;
            due < due' || (due == due' && best < j)
  {
    hide AgedPriority;
    var best := BestIndex(waiting, agingSeconds, now);
    DueOrder(waiting[best].request, waiting[j].request, agingSeconds, now);
  }

  lemma DueOrder(r: InferenceRequest, q: InferenceRequest, agingSeconds: real, now: real)
    ensures var due := if agingSeconds > 0.0 then r.enqueueTime + r.priorityClass as real * agingSeconds
                       else r.priorityClass as real;
            var due' := if agingSeconds > 0.0 then q.enqueueTime + q.priorityClass as real * agingSeconds
                        else q.priorityClass as real;
            && (AgedPriority(r, agingSeconds, now) <= AgedPriority(q, agingSeconds, now) <==> due <= due')
            && (AgedPriority(r, agingSeconds, now) < AgedPriority(q, agingSeconds, now) <==> due < due')
  {
    if agingSeconds > 0.0 {
      KeyIsShiftedPriority(r, agingSeconds, now);
      KeyIsShiftedPriority(q, agingSeconds, now);
      Scaled(r.priorityClass as real, r.enqueueTime, q.priorityClass as real, q.enqueueTime, agingSeconds);
    }
  }

  // ---------------------------------------------------------------- whole runs

  datatype QueueOp = PutOp(request: InferenceRequest) | GetOp(now: real)

  datatype Reference = Reference(waiting: seq<Entry>, counter: nat, served: seq<Option<InferenceRequest>>)

  /** One operation on the reference: arrival order kept, everything scored again at every pop. */
  ghost function ReferenceStep(before: Reference, op: QueueOp, agingSeconds: real): Reference {
    match op
    case PutOp(r) =>
      Reference(before.waiting + [Entry(SortKey(r, agingSeconds), before.counter, r)], before.counter + 1,
                before.served)
    case GetOp(now) =>
      if before.waiting == [] then before.(served := before.served + [None])
      else
        var best := BestIndex(before.waiting, agingSeconds, now);
        before.(waiting := Without(before.waiting, best),
                served := before.served + [Some(before.waiting[best].request)])
  }

  ghost function Replay(ops: seq<QueueOp>, agingSeconds: real): Reference {
    if ops == [] then Reference([], 0, [])
    else ReferenceStep(Replay(ops[..|ops| - 1], agingSeconds), ops[|ops| - 1], agingSeconds)
  }

  method Apply(q: PriorityRequestQueue, op: QueueOp, served: seq<Option<InferenceRequest>>)
      returns (served': seq<Option<InferenceRequest>>)
    requires q.Valid()
    modifies q
    ensures q.Valid()
    ensures Reference(q.waiting, q.counter, served')
            == ReferenceStep(Reference(old(q.waiting), old(q.counter), served), op, q.agingSeconds)
  {
    match op
    case PutOp(r) =>
      q.Put(r);
      served' := served;
    case GetOp(now) =>
      ghost var best := if q.waiting == [] then 0 else BestIndex(q.waiting, q.agingSeconds, now);
      var r := q.Get();
      served' := served + [r];
  }

  /** For every interleaving of puts and gets, at any times, the heap serves what the reference serves. */
  method Run(ops: seq<QueueOp>, agingSeconds: real) returns (served: seq<Option<InferenceRequest>>)
    ensures served == Replay(ops, agingSeconds).served
  {
    var q := new PriorityRequestQueue(agingSeconds);
    served := [];
    for i := 0 to |ops|
      invariant q.Valid() && fresh(q) && q.agingSeconds == agingSeconds
      invariant Reference(q.waiting, q.counter, served) == Replay(ops[..i], agingSeconds)
    {
      assert ops[..i + 1][..i] == ops[..i];
      served := Apply(q, ops[i], served);
    }
    assert ops[..|ops|] == ops;
  }
}
