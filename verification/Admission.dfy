/** Moving requests from the queue into the running batch
    (scheduler/continuous_scheduler.py:216-317): capped, greedy, and in key order. */
module Admission {
  import opened Common
  import opened Heapq
  import opened PagedCache
  import opened Requests
  import opened RequestQueue
  import opened Scheduler

  // ---------------------------------------------------------------- the order of the queue

  ghost predicate KeyLess(a: Entry, b: Entry) {
    a.score < b.score || (a.score == b.score && a.arrival < b.arrival)
  }

  ghost predicate Ascending(s: seq<Entry>) {
    forall i, j :: 0 <= i < j < |s| ==> KeyLess(s[i], s[j])
  }

  /** Arrival numbers rise, and every score is the request's own key. */
  ghost predicate Filed(waiting: seq<Entry>, agingSeconds: real) {
    && ArrivalOrder(waiting)
    && forall i :: 0 <= i < |waiting| ==> waiting[i].score == SortKey(waiting[i].request, agingSeconds)
  }

  /** The waiting entries in the order in which they would be popped. */
  ghost function InOrder(waiting: seq<Entry>, agingSeconds: real): (r: seq<Entry>)
    ensures |r| == |waiting|
    decreases |waiting|
  {
    if waiting == [] then []
    else
      var best := BestIndex(waiting, agingSeconds, 0.0);
      [waiting[best]] + InOrder(Without(waiting, best), agingSeconds)
  }

  lemma BestIsLess(waiting: seq<Entry>, agingSeconds: real, j: nat)
    requires Filed(waiting, agingSeconds) && waiting != [] && j < |waiting|
    ensures var best := BestIndex(waiting, agingSeconds, 0.0);
            j != best ==> KeyLess(waiting[best], waiting[j])
  {
    var best := BestIndex(waiting, agingSeconds, 0.0);
    KeyIsShiftedPriority(waiting[best].request, agingSeconds, 0.0);
    KeyIsShiftedPriority(waiting[j].request, agingSeconds, 0.0);
  }

  lemma FiledWithout(waiting: seq<Entry>, agingSeconds: real, i: nat)
    requires Filed(waiting, agingSeconds) && i < |waiting|
    ensures Filed(Without(waiting, i), agingSeconds)
  {
  }

  lemma {:induction false} InOrderHasAll(waiting: seq<Entry>, agingSeconds: real)
    ensures multiset(InOrder(waiting, agingSeconds)) == multiset(waiting)
    decreases |waiting|
  {
    if waiting != [] {
      var best := BestIndex(waiting, agingSeconds, 0.0);
      InOrderHasAll(Without(waiting, best), agingSeconds);
      WithoutElements(waiting, best);
      AddFirst(waiting[best], InOrder(Without(waiting, best), agingSeconds), Without(waiting, best), waiting);
    }
  }

  lemma AddFirst<T>(x: T, a: seq<T>, b: seq<T>, c: seq<T>)
    requires multiset(a) == multiset(b) && multiset(c) == multiset(b) + multiset{x}
    ensures multiset([x] + a) == multiset(c)
  {
  }

  /** Popping everything gives everything, in ascending key order. */
  lemma {:induction false} InOrderIsSorted(waiting: seq<Entry>, agingSeconds: real)
    requires Filed(waiting, agingSeconds)
    ensures Ascending(InOrder(waiting, agingSeconds))
    ensures multiset(InOrder(waiting, agingSeconds)) == multiset(waiting)
    decreases |waiting|
  {
    InOrderHasAll(waiting, agingSeconds);
    if waiting != [] {
      var best := BestIndex(waiting, agingSeconds, 0.0);
      var rest := Without(waiting, best);
      FiledWithout(waiting, agingSeconds, best);
      InOrderIsSorted(rest, agingSeconds);
      hide KeyLess, Filed, BestIndex;
      BestIsFirst(waiting, agingSeconds, InOrder(rest, agingSeconds));
    }
  }

  lemma BestIsFirst(waiting: seq<Entry>, agingSeconds: real, tail: seq<Entry>)
    requires Filed(waiting, agingSeconds) && waiting != []
    requires multiset(tail) == multiset(Without(waiting, BestIndex(waiting, agingSeconds, 0.0)))
    ensures forall j :: 0 <= j < |tail| ==> KeyLess(waiting[BestIndex(waiting, agingSeconds, 0.0)], tail[j])
  {
    hide Filed, KeyLess, BestIndex;
    var best := BestIndex(waiting, agingSeconds, 0.0);
    var rest := Without(waiting, best);
    forall j | 0 <= j < |tail| ensures KeyLess(waiting[best], tail[j]) {
      assert tail[j] in multiset(tail);
      var k :| 0 <= k < |rest| && rest[k] == tail[j];
      BestIsLess(waiting, agingSeconds, if k < best then k else k + 1);
    }
  }

  lemma SameFirst(a: seq<Entry>, b: seq<Entry>)
    requires Ascending(a) && Ascending(b) && multiset(a) == multiset(b) && a != [] && b != []
    ensures a[0] == b[0]
  {
    assert a[0] in multiset(a) && b[0] in multiset(b);
    var i :| 0 <= i < |b| && b[i] == a[0];
    var j :| 0 <= j < |a| && a[j] == b[0];
  }

  /** There is only one ascending order. */
  lemma {:induction false} AscendingIsUnique(a: seq<Entry>, b: seq<Entry>)
    requires Ascending(a) && Ascending(b) && multiset(a) == multiset(b)
    ensures a == b
  {
    hide Ascending;
    SameSize(a, b);
    if a != [] {
      SameFirst(a, b);
      TailsAgree(a, b);
      AscendingTail(a);
      AscendingTail(b);
      AscendingIsUnique(a[1..], b[1..]);
      assert a == [a[0]] + a[1..] && b == [b[0]] + b[1..];
    }
  }

  lemma TailsAgree<T>(a: seq<T>, b: seq<T>)
    requires multiset(a) == multiset(b) && a != [] && b != [] && a[0] == b[0]
    ensures multiset(a[1..]) == multiset(b[1..])
  {
    assert a == [a[0]] + a[1..] && b == [b[0]] + b[1..];
    assert multiset(a[1..]) == multiset(a) - multiset{a[0]};
    assert multiset(b[1..]) == multiset(b) - multiset{b[0]};
  }

  lemma AscendingTail(a: seq<Entry>)
    requires Ascending(a) && a != []
    ensures Ascending(a[1..])
  {
    hide KeyLess;
  }

  function RequestsOf(entries: seq<Entry>): (r: seq<InferenceRequest>)
    ensures |r| == |entries| && forall i :: 0 <= i < |entries| ==> r[i] == entries[i].request
  {
    seq(|entries|, i requires 0 <= i < |entries| => entries[i].request)
  }

  // ---------------------------------------------------------------- what admission decides

  predicate IsShort(r: InferenceRequest) {
    r.priorityClass == SHORT_REQUEST_CLASS
  }

  /** Slots the general lane may use: all but the reserved ones, and always at least one. */
  function GeneralLimit(settings: Settings): (r: nat)
    ensures 1 <= r
    ensures settings.shortLaneReservedSlots > 0 && settings.maxBatchSize > settings.shortLaneReservedSlots ==>
              r == settings.maxBatchSize - settings.shortLaneReservedSlots
    ensures settings.shortLaneReservedSlots <= 0 && settings.maxBatchSize > 0 ==> r == settings.maxBatchSize
    ensures settings.shortLaneReservedSlots >= settings.maxBatchSize ==> r == 1
  {
    Max(1, settings.maxBatchSize - Max(0, settings.shortLaneReservedSlots))
  }

  function AdmissionLimitFor(settings: Settings, r: InferenceRequest): nat {
    if IsShort(r) then settings.maxBatchSize else GeneralLimit(settings)
  }

  function ActiveCountFor(active: nat, general: nat, r: InferenceRequest): nat {
    if IsShort(r) then active else general
  }

  /** Who is taken (admitted, or closed because it is already too late) and who is put aside, in the
      order in which they are popped; and who is never looked at. */
  datatype Plan = Plan(taken: seq<InferenceRequest>, deferred: seq<InferenceRequest>, left: seq<Entry>)

  /** The whole call, as a walk along the queue's order. `clock(r)` is the time when `r` is looked at. */
  ghost function PlanFor(order: seq<Entry>, active: nat, general: nat, settings: Settings,
                         clock: InferenceRequest -> real): Plan {
    if order == [] || active >= settings.maxBatchSize then Plan([], [], order)
    else
      var r := order[0].request;
      if ActiveCountFor(active, general, r) >= AdmissionLimitFor(settings, r) then
        var p := PlanFor(order[1..], active, general, settings, clock);
        p.(deferred := [r] + p.deferred)
      else
        var (a, g) := if PastDeadline(r, clock(r)) then (0, 0) else (1, if IsShort(r) then 0 else 1);
        var p := PlanFor(order[1..], active + a, general + g, settings, clock);
        p.(taken := [r] + p.taken)
  }

  /** One request of the walk: held back, or taken; and what it adds to the batch. */
  ghost predicate Held(r: InferenceRequest, active: nat, general: nat, settings: Settings) {
    ActiveCountFor(active, general, r) >= AdmissionLimitFor(settings, r)
  }

  ghost function Added(r: InferenceRequest, active: nat, general: nat, settings: Settings,
                       clock: InferenceRequest -> real): (nat, nat) {
    if Held(r, active, general, settings) || PastDeadline(r, clock(r)) then (0, 0) else (1, if IsShort(r) then 0 else 1)
  }

  lemma PlanStep(order: seq<Entry>, active: nat, general: nat, settings: Settings, clock: InferenceRequest -> real)
      returns (rest: Plan)
    requires order != [] && active < settings.maxBatchSize
    ensures var (r, p) := (order[0].request, PlanFor(order, active, general, settings, clock));
            var (a, g) := Added(r, active, general, settings, clock);
            && rest == PlanFor(order[1..], active + a, general + g, settings, clock)
            && p == if Held(r, active, general, settings) then rest.(deferred := [r] + rest.deferred)
                    else rest.(taken := [r] + rest.taken)
  {
    var (a, g) := Added(order[0].request, active, general, settings, clock);
    rest := PlanFor(order[1..], active + a, general + g, settings, clock);
  }

  lemma PlanEnds(order: seq<Entry>, active: nat, general: nat, settings: Settings, clock: InferenceRequest -> real)
    requires order == [] || active >= settings.maxBatchSize
    ensures PlanFor(order, active, general, settings, clock) == Plan([], [], order)
  {
  }

  lemma Regroup<T>(x: multiset<T>, t: multiset<T>, d: multiset<T>, l: multiset<T>)
    ensures x + (t + d + l) == x + t + d + l
    ensures x + (t + d + l) == t + (x + d) + l
  {
  }

  lemma CountFirst<T>(x: T, s: seq<T>)
    ensures multiset([x] + s) == multiset{x} + multiset(s)
  {
  }

  lemma Unshift<T>(x: T, s: seq<T>)
    ensures ([x] + s)[0] == x && ([x] + s)[1..] == s
  {
  }

  /** Those of `rs` that are still in time, in order. */
  function InTimeOf(rs: seq<InferenceRequest>, clock: InferenceRequest -> real): seq<InferenceRequest> {
    if rs == [] then []
    else if PastDeadline(rs[0], clock(rs[0])) then InTimeOf(rs[1..], clock)
    else [rs[0]] + InTimeOf(rs[1..], clock)
  }

  function GeneralOf(rs: seq<InferenceRequest>): seq<InferenceRequest> {
    if rs == [] then [] else if IsShort(rs[0]) then GeneralOf(rs[1..]) else [rs[0]] + GeneralOf(rs[1..])
  }

  function ShortOf(rs: seq<InferenceRequest>): seq<InferenceRequest> {
    if rs == [] then [] else if IsShort(rs[0]) then [rs[0]] + ShortOf(rs[1..]) else ShortOf(rs[1..])
  }

  ghost function Everyone(p: Plan): multiset<InferenceRequest> {
    multiset(p.taken) + multiset(p.deferred) + multiset(RequestsOf(p.left))
  }

  lemma OneMore(order: seq<Entry>, rest: Plan, p: Plan)
    requires order != [] && multiset(RequestsOf(order[1..])) == Everyone(rest)
    requires || p == rest.(taken := [order[0].request] + rest.taken)
             || p == rest.(deferred := [order[0].request] + rest.deferred)
    ensures multiset(RequestsOf(order)) == Everyone(p)
  {
    var r := order[0].request;
    assert RequestsOf(order) == [r] + RequestsOf(order[1..]);
    CountFirst(r, RequestsOf(order[1..]));
    CountFirst(r, rest.taken);
    CountFirst(r, rest.deferred);
    Regroup(multiset{r}, multiset(rest.taken), multiset(rest.deferred), multiset(RequestsOf(rest.left)));
  }

  /** Nothing is lost and nothing is made up. */
  lemma {:induction false} AdmissionConserves(order: seq<Entry>, active: nat, general: nat, settings: Settings,
                                              clock: InferenceRequest -> real)
    ensures multiset(RequestsOf(order)) == Everyone(PlanFor(order, active, general, settings, clock))
    decreases |order|
  {
    hide Everyone, RequestsOf;
    if order == [] || active >= settings.maxBatchSize {
      NobodyMoved(order);
    } else {
      hide PlanFor, Held, Added;
      var (a, g) := Added(order[0].request, active, general, settings, clock);
      var rest := PlanStep(order, active, general, settings, clock);
      AdmissionConserves(order[1..], active + a, general + g, settings, clock);
      OneMore(order, rest, PlanFor(order, active, general, settings, clock));
    }
  }

  lemma NobodyMoved(order: seq<Entry>)
    ensures Everyone(Plan([], [], order)) == multiset(RequestsOf(order))
  {
  }

  /** The caps hold, and admission is greedy: it stops only when the batch is full, or when nothing
      is left but general requests and their lane is full. */
  lemma {:induction false} AdmissionIsCappedAndGreedy(order: seq<Entry>, active: nat, general: nat, settings: Settings,
                                                      clock: InferenceRequest -> real)
    requires active <= settings.maxBatchSize && general <= GeneralLimit(settings)
    ensures var p := PlanFor(order, active, general, settings, clock);
            var (active', general') := (active + |InTimeOf(p.taken, clock)|,
                                        general + |GeneralOf(InTimeOf(p.taken, clock))|);
            && active' <= settings.maxBatchSize && general' <= GeneralLimit(settings)
            && (active' < settings.maxBatchSize ==> p.left == [])
            && (p.deferred != [] ==> general' == GeneralLimit(settings))
            && ShortOf(p.deferred) == []
    decreases |order|
  {
    hide PlanFor, GeneralLimit, PastDeadline;
    if order == [] || active >= settings.maxBatchSize {
      PlanEnds(order, active, general, settings, clock);
    } else {
      var r := order[0].request;
      var (a, g) := Added(r, active, general, settings, clock);
      var rest := PlanStep(order, active, general, settings, clock);
      AdmissionIsCappedAndGreedy(order[1..], active + a, general + g, settings, clock);
      Unshift(r, rest.taken);
      Unshift(r, rest.deferred);
      Unshift(r, InTimeOf(rest.taken, clock));
    }
  }

  /** Once the general lane is full, no more general requests are taken. */
  lemma {:induction false} FullLaneTakesNone(order: seq<Entry>, active: nat, general: nat, settings: Settings,
                                             clock: InferenceRequest -> real)
    requires general >= GeneralLimit(settings)
    ensures GeneralOf(PlanFor(order, active, general, settings, clock).taken) == []
    decreases |order|
  {
    hide PlanFor, GeneralLimit, PastDeadline;
    if order == [] || active >= settings.maxBatchSize {
      PlanEnds(order, active, general, settings, clock);
    } else {
      var (a, g) := Added(order[0].request, active, general, settings, clock);
      var rest := PlanStep(order, active, general, settings, clock);
      FullLaneTakesNone(order[1..], active + a, general + g, settings, clock);
      Unshift(order[0].request, rest.taken);
    }
  }

  /** Within each class, whoever is taken comes before whoever is not. */
  ghost predicate ClassesInOrder(order: seq<Entry>, p: Plan) {
    && GeneralOf(RequestsOf(order)) == GeneralOf(p.taken) + p.deferred + GeneralOf(RequestsOf(p.left))
    && ShortOf(RequestsOf(order)) == ShortOf(p.taken) + ShortOf(RequestsOf(p.left))
  }

  lemma NoneMoved(order: seq<Entry>)
    ensures ClassesInOrder(order, Plan([], [], order))
  {
  }

  lemma ClassesStep(order: seq<Entry>, rest: Plan, held: bool)
    requires order != [] && ClassesInOrder(order[1..], rest)
    requires held ==> !IsShort(order[0].request) && GeneralOf(rest.taken) == []
    ensures var r := order[0].request;
            ClassesInOrder(order, if held then rest.(deferred := [r] + rest.deferred)
                           else rest.(taken := [r] + rest.taken))
  {
    var r := order[0].request;
    assert RequestsOf(order)[1..] == RequestsOf(order[1..]);
    Unshift(r, rest.taken);
  }

  /** Within each class the queue's order is kept: whoever is taken comes before whoever is not. */
  lemma {:induction false} ClassesKeepTheirOrder(order: seq<Entry>, active: nat, general: nat, settings: Settings,
                                                 clock: InferenceRequest -> real)
    ensures ClassesInOrder(order, PlanFor(order, active, general, settings, clock))
    decreases |order|
  {
    hide PlanFor, GeneralLimit, PastDeadline, ClassesInOrder, GeneralOf;
    if order == [] || active >= settings.maxBatchSize {
      PlanEnds(order, active, general, settings, clock);
      NoneMoved(order);
    } else {
      var r := order[0].request;
      var (a, g) := Added(r, active, general, settings, clock);
      var rest := PlanStep(order, active, general, settings, clock);
      ClassesKeepTheirOrder(order[1..], active + a, general + g, settings, clock);
      if Held(r, active, general, settings) {
        FullLaneTakesNone(order[1..], active, general, settings, clock);
      }
      ClassesStep(order, rest, Held(r, active, general, settings));
    }
  }

  // ---------------------------------------------------------------- the scheduler's own loop

  /** Entries for requests put back on the queue, with the next arrival numbers. */
  function Arrivals(rs: seq<InferenceRequest>, counter: nat, agingSeconds: real): (r: seq<Entry>)
    ensures |r| == |rs|
    ensures forall i :: 0 <= i < |rs| ==> r[i] == Entry(SortKey(rs[i], agingSeconds), counter + i, rs[i])
  {
    seq(|rs|, i requires 0 <= i < |rs| => Entry(SortKey(rs[i], agingSeconds), counter + i, rs[i]))
  }

  /** What admission does to the state of a request it takes, at time `now`. */
  ghost function Looked(r: InferenceRequest, s: RequestState, now: real): RequestState {
    if PastDeadline(r, now) then Failure(s, TIMEOUT_ERROR, TIMEOUT_MESSAGE) else s.(inputIds := r.promptIds)
  }

  /** Which requests have been taken so far shows in the states of all that were waiting. */
  ghost predicate Marked(ws: seq<InferenceRequest>, before: seq<RequestState>, now: seq<RequestState>,
                         taken: seq<InferenceRequest>, clock: InferenceRequest -> real) {
    && |before| == |now| == |ws|
    && forall i :: 0 <= i < |ws| ==>
          now[i] == if ws[i] in taken then Looked(ws[i], before[i], clock(ws[i])) else before[i]
  }

  /** Fresh requests that are allowed to generate something. */
  ghost predicate Admissible(rs: seq<InferenceRequest>)
    reads rs, Tables(rs)
  {
    forall i :: 0 <= i < |rs| ==> assert rs[i].table in Tables(rs); rs[i].Unstarted() && rs[i].maxTokens >= 1
  }

  lemma {:induction false} Permuted(xs: seq<InferenceRequest>, ys: seq<InferenceRequest>)
    requires NoAlias(xs) && multiset(ys) <= multiset(xs)
    ensures NoAlias(ys)
  {
    DistinctCounts(xs);
    DistinctCounts(ys);
    assert forall x :: multiset(ys)[x] <= multiset(xs)[x];
    forall i, j | 0 <= i < j < |ys|
      ensures ys[i] != ys[j] && ys[i].table != ys[j].table
    {
      assert ys[i] in multiset(ys) && ys[j] in multiset(ys);
      var k :| 0 <= k < |xs| && xs[k] == ys[i];
      var l :| 0 <= l < |xs| && xs[l] == ys[j];
    }
  }

  /** Admits a request that is in time; closes one that is not. */
  method Look(s: ContinuousScheduler, r: InferenceRequest, now: real)
    requires s.Valid() && NoAlias(s.active + [r]) && r.Unstarted() && r.maxTokens >= 1
    modifies s`active, r
    ensures s.Valid()
    ensures s.active == old(s.active) + if PastDeadline(r, now) then [] else [r]
    ensures r.State() == Looked(r, old(r.State()), now)
  {
    hide CellsMatch, NoAlias, InferenceRequest.Unstarted;
    assert (s.active + [r])[|s.active|] == r;
    if PastDeadline(r, now) {
      Outsider(s.active, r);
      FailRequest(r, TIMEOUT_ERROR, TIMEOUT_MESSAGE);
    } else {
      Admit(s, r);
    }
  }

  lemma Outsider(rs: seq<InferenceRequest>, r: InferenceRequest)
    requires NoAlias(rs + [r])
    ensures r !in rs && r.table !in Tables(rs) && NoAlias(rs)
  {
    forall i | 0 <= i < |rs| ensures rs[i] != r && rs[i].table != r.table {
      assert (rs + [r])[i] == rs[i] && (rs + [r])[|rs|] == r;
    }
    forall i, j | 0 <= i < j < |rs| ensures rs[i] != rs[j] && rs[i].table != rs[j].table {
      assert (rs + [r])[i] == rs[i] && (rs + [r])[j] == rs[j];
    }
  }

  method Admit(s: ContinuousScheduler, r: InferenceRequest)
    requires s.Valid() && NoAlias(s.active + [r]) && r.Unstarted() && r.maxTokens >= 1
    modifies s`active, r`inputIds
    ensures s.Valid() && s.active == old(s.active) + [r]
    ensures r.State() == old(r.State()).(inputIds := r.promptIds)
  {
    hide InProgress;
    Outsider(s.active, r);
    AdmittedIsInProgress(s.model, s.settings, r, r.State());
    r.inputIds := r.promptIds;
    forall q | q in s.active + [r] ensures s.Cached(q) && InProgress(s.model, s.settings, q, q.State()) {
      if q == r {
        assert r.table !in s.Stored();
      }
    }
    s.SetActive(s.active + [r]);
  }

  /** Everyone the call is about: the batch as it was, then the taken, the put-aside and the waiting. */
  ghost function Cast(batch: seq<InferenceRequest>, taken: seq<InferenceRequest>, deferred: seq<InferenceRequest>,
                      waiting: seq<Entry>): seq<InferenceRequest> {
    batch + taken + deferred + RequestsOf(waiting)
  }

  /** The walk so far, followed by the plan for the rest, is the plan for the whole queue. */
  ghost predicate OnPlan(full: Plan, taken: seq<InferenceRequest>, deferred: seq<InferenceRequest>, rest: Plan) {
    full == Plan(taken + rest.taken, deferred + rest.deferred, rest.left)
  }

  /** One popped request: put aside, or looked at. */
  method TakeTurn(s: ContinuousScheduler, r: InferenceRequest, taken: seq<InferenceRequest>,
                  deferred: seq<InferenceRequest>, clock: InferenceRequest -> real)
                      returns (taken': seq<InferenceRequest>, deferred': seq<InferenceRequest>)
    requires s.Valid() && NoAlias(s.active + [r]) && r.Unstarted() && r.maxTokens >= 1
    modifies s`active, r
    ensures s.Valid()
    ensures Held(r, |old(s.active)|, GeneralCount(old(s.active)), s.settings) ==>
              taken' == taken && deferred' == deferred + [r] && s.active == old(s.active)
                  && r.State() == old(r.State()) && r.Unstarted()
    ensures !Held(r, |old(s.active)|, GeneralCount(old(s.active)), s.settings) ==>
              && taken' == taken + [r] && deferred' == deferred
              && s.active == old(s.active) + (if PastDeadline(r, clock(r)) then [] else [r])
              && r.State() == Looked(r, old(r.State()), clock(r))
  {
    taken', deferred' := taken, deferred;
    if ActiveCountFor(|s.active|, GeneralCount(s.active), r) >= AdmissionLimitFor(s.settings, r) {
      deferred' := deferred + [r];
    } else {
      Look(s, r, clock(r));
      taken' := taken + [r];
    }
  }

  /** Where the walk stands, as values. */
  ghost predicate Going(full: Plan, batch: seq<InferenceRequest>, ws: seq<InferenceRequest>, before: seq<RequestState>,
                        now: seq<RequestState>, taken: seq<InferenceRequest>, deferred: seq<InferenceRequest>,
                        waiting: seq<Entry>, active: seq<InferenceRequest>,
                        settings: Settings, agingSeconds: real, clock: InferenceRequest -> real) {
    && OnPlan(full, taken, deferred, PlanFor(InOrder(waiting, agingSeconds), |active|, GeneralCount(active), settings,
                                             clock))
    && active == batch + InTimeOf(taken, clock)
    && NoAlias(Cast(batch, taken, deferred, waiting))
    && Marked(ws, before, now, taken, clock)
  }

  lemma {:induction false} InTimeOfMore(taken: seq<InferenceRequest>, r: InferenceRequest,
                                        clock: InferenceRequest -> real)
    ensures InTimeOf(taken + [r], clock) == InTimeOf(taken, clock) + if PastDeadline(r, clock(r)) then [] else [r]
  {
    if taken == [] {
      assert taken + [r] == [r] && [r][1..] == [];
    } else {
      InTimeOfMore(taken[1..], r, clock);
      assert (taken + [r])[1..] == taken[1..] + [r];
    }
  }

  lemma {:induction false} InTimeOfSome(taken: seq<InferenceRequest>, clock: InferenceRequest -> real)
    ensures multiset(InTimeOf(taken, clock)) <= multiset(taken)
  {
    if taken != [] {
      InTimeOfSome(taken[1..], clock);
      assert taken == [taken[0]] + taken[1..];
    }
  }

  lemma RequestsWithout(waiting: seq<Entry>, i: nat)
    requires i < |waiting|
    ensures multiset(RequestsOf(waiting)) == multiset(RequestsOf(Without(waiting, i))) + multiset{waiting[i].request}
  {
    assert RequestsOf(Without(waiting, i)) == Without(RequestsOf(waiting), i);
    WithoutElements(RequestsOf(waiting), i);
  }

  lemma Parts(batch: seq<InferenceRequest>, taken: seq<InferenceRequest>, deferred: seq<InferenceRequest>,
              waiting: seq<Entry>)
    ensures multiset(Cast(batch, taken, deferred, waiting))
            == multiset(batch) + multiset(taken) + multiset(deferred) + multiset(RequestsOf(waiting))
  {
  }

  /** Whoever is popped has no second place anywhere. */
  lemma StillApart(batch: seq<InferenceRequest>, taken: seq<InferenceRequest>, deferred: seq<InferenceRequest>,
                   waiting: seq<Entry>, i: nat, clock: InferenceRequest -> real)
    requires NoAlias(Cast(batch, taken, deferred, waiting)) && i < |waiting|
    ensures var r := waiting[i].request;
            && NoAlias(Cast(batch, taken + [r], deferred, Without(waiting, i)))
            && NoAlias(Cast(batch, taken, deferred + [r], Without(waiting, i)))
            && NoAlias(batch + InTimeOf(taken, clock) + [r])
            && r !in taken && r !in deferred && r !in RequestsOf(Without(waiting, i))
  {
    hide NoAlias, RequestsOf, Cast, InTimeOf;
    var r, rest := waiting[i].request, Without(waiting, i);
    RequestsWithout(waiting, i);
    Parts(batch, taken, deferred, waiting);
    Parts(batch, taken + [r], deferred, rest);
    Parts(batch, taken, deferred + [r], rest);
    InTimeOfSome(taken, clock);
    Permuted(Cast(batch, taken, deferred, waiting), Cast(batch, taken + [r], deferred, rest));
    Permuted(Cast(batch, taken, deferred, waiting), Cast(batch, taken, deferred + [r], rest));
    assert multiset(batch + InTimeOf(taken, clock) + [r]) == multiset(batch) + multiset(InTimeOf(taken, clock))
           + multiset{r};
    Permuted(Cast(batch, taken, deferred, waiting), batch + InTimeOf(taken, clock) + [r]);
    OnlyOnce(Cast(batch, taken, deferred, waiting),
             multiset(batch) + multiset(taken) + multiset(deferred) + multiset(RequestsOf(rest)), r);
  }

  lemma OnlyOnce(xs: seq<InferenceRequest>, others: multiset<InferenceRequest>, r: InferenceRequest)
    requires NoAlias(xs) && multiset(xs) == others + multiset{r}
    ensures r !in others
  {
    DistinctCounts(xs);
    assert multiset(xs)[r] <= 1;
  }

  lemma GeneralCountMore(rs: seq<InferenceRequest>, r: InferenceRequest)
    ensures GeneralCount(rs + [r]) == GeneralCount(rs) + if IsShort(r) then 0 else 1
  {
    assert (rs + [r])[..|rs|] == rs;
  }

  lemma PlanGoesOn(full: Plan, taken: seq<InferenceRequest>, deferred: seq<InferenceRequest>, waiting: seq<Entry>,
                   i: nat, active: seq<InferenceRequest>, settings: Settings, agingSeconds: real,
                   clock: InferenceRequest -> real)
    requires waiting != [] && i == BestIndex(waiting, agingSeconds, 0.0) && |active| < settings.maxBatchSize
    requires OnPlan(full, taken, deferred, PlanFor(InOrder(waiting, agingSeconds), |active|, GeneralCount(active),
                                                   settings, clock))
    ensures var r := waiting[i].request;
            var rest := InOrder(Without(waiting, i), agingSeconds);
            var active' := active + if PastDeadline(r, clock(r)) then [] else [r];
            if Held(r, |active|, GeneralCount(active), settings)
            then OnPlan(full, taken, deferred + [r], PlanFor(rest, |active|, GeneralCount(active), settings, clock))
            else OnPlan(full, taken + [r], deferred, PlanFor(rest, |active'|, GeneralCount(active'), settings, clock))
  {
    hide PlanFor, GeneralCount, InOrder, PastDeadline, Held, OnPlan, BestIndex;
    var r := waiting[i].request;
    GeneralCountMore(active, r);
    assert active + [] == active;
    FirstInOrder(waiting, agingSeconds);
    var rest := PlanStep(InOrder(waiting, agingSeconds), |active|, GeneralCount(active), settings, clock);
    OnPlanNext(full, taken, deferred, r, rest);
  }

  lemma FirstInOrder(waiting: seq<Entry>, agingSeconds: real)
    requires waiting != []
    ensures var (i, order) := (BestIndex(waiting, agingSeconds, 0.0), InOrder(waiting, agingSeconds));
            order[0] == waiting[i] && order[1..] == InOrder(Without(waiting, i), agingSeconds)
  {
  }

  lemma OnPlanNext(full: Plan, taken: seq<InferenceRequest>, deferred: seq<InferenceRequest>, r: InferenceRequest,
                   rest: Plan)
    ensures OnPlan(full, taken, deferred, rest.(taken := [r] + rest.taken)) ==>
              OnPlan(full, taken + [r], deferred, rest)
    ensures OnPlan(full, taken, deferred, rest.(deferred := [r] + rest.deferred)) ==>
              OnPlan(full, taken, deferred + [r], rest)
  {
    assert taken + ([r] + rest.taken) == taken + [r] + rest.taken;
    assert deferred + ([r] + rest.deferred) == deferred + [r] + rest.deferred;
  }

  /** One popped request further, as values. */
  lemma GoesOn(full: Plan, batch: seq<InferenceRequest>, ws: seq<InferenceRequest>, before: seq<RequestState>,
               now: seq<RequestState>, now': seq<RequestState>, taken: seq<InferenceRequest>,
               taken': seq<InferenceRequest>,
               deferred: seq<InferenceRequest>, deferred': seq<InferenceRequest>, waiting: seq<Entry>, i: nat,
               active: seq<InferenceRequest>, active': seq<InferenceRequest>,
               settings: Settings, agingSeconds: real, clock: InferenceRequest -> real)
    requires Going(full, batch, ws, before, now, taken, deferred, waiting, active, settings, agingSeconds, clock)
    requires waiting != [] && i == BestIndex(waiting, agingSeconds, 0.0) && |active| < settings.maxBatchSize
    requires |now'| == |ws| && forall j :: 0 <= j < |ws| && ws[j] != waiting[i].request ==> now'[j] == now[j]
    requires var r := waiting[i].request;
             if Held(r, |active|, GeneralCount(active), settings)
             then taken' == taken && deferred' == deferred + [r] && active' == active && now' == now
             else taken' == taken + [r] && deferred' == deferred
                  && active' == active + (if PastDeadline(r, clock(r)) then [] else [r])
                  && forall j :: 0 <= j < |ws| && ws[j] == r ==> now'[j] == Looked(r, now[j], clock(r))
    ensures Going(full, batch, ws, before, now', taken', deferred', Without(waiting, i), active', settings,
                  agingSeconds, clock)
  {
    hide OnPlan, NoAlias, Looked, PastDeadline, Held, PlanFor, InOrder, GeneralCount, BestIndex, InTimeOf, Cast;
    var r := waiting[i].request;
    PlanGoesOn(full, taken, deferred, waiting, i, active, settings, agingSeconds, clock);
    StillApart(batch, taken, deferred, waiting, i, clock);
    InTimeOfMore(taken, r, clock);
    if !Held(r, |active|, GeneralCount(active), settings) {
      assert batch + InTimeOf(taken, clock) + (if PastDeadline(r, clock(r)) then [] else [r])
          == batch + (InTimeOf(taken, clock) + (if PastDeadline(r, clock(r)) then [] else [r]));
    }
  }

  /** `TakeTurn`, with what it leaves alone. */
  method TakeBeside(s: ContinuousScheduler, r: InferenceRequest, taken: seq<InferenceRequest>,
                    deferred: seq<InferenceRequest>,
                    clock: InferenceRequest -> real, ghost ws: seq<InferenceRequest>, ghost rest: seq<InferenceRequest>)
      returns (taken': seq<InferenceRequest>, deferred': seq<InferenceRequest>)
    requires s.Valid() && NoAlias(s.active + [r]) && r.Unstarted() && r.maxTokens >= 1
    requires Admissible(deferred) && Admissible(rest) && r !in deferred && r !in rest
    modifies s`active, r
    ensures s.Valid() && Admissible(deferred') && Admissible(rest)
    ensures forall j :: 0 <= j < |ws| && ws[j] != r ==> States(ws)[j] == old(States(ws))[j]
    ensures if Held(r, |old(s.active)|, GeneralCount(old(s.active)), s.settings)
            then taken' == taken && deferred' == deferred + [r] && s.active == old(s.active)
                && States(ws) == old(States(ws))
            else taken' == taken + [r] && deferred' == deferred
                 && s.active == old(s.active) + (if PastDeadline(r, clock(r)) then [] else [r])
                 && forall j :: 0 <= j < |ws| && ws[j] == r ==> States(ws)[j] == Looked(r, old(States(ws))[j], clock(r))
  {
    hide InProgress, CellsMatch, Looked, Held, GeneralCount, PastDeadline, InferenceRequest.Unstarted;
    taken', deferred' := TakeTurn(s, r, taken, deferred, clock);
  }

  lemma GoingApart(full: Plan, batch: seq<InferenceRequest>, ws: seq<InferenceRequest>, before: seq<RequestState>,
                   now: seq<RequestState>, taken: seq<InferenceRequest>, deferred: seq<InferenceRequest>,
                   waiting: seq<Entry>, i: nat, active: seq<InferenceRequest>, settings: Settings, agingSeconds: real,
                   clock: InferenceRequest -> real)
    requires Going(full, batch, ws, before, now, taken, deferred, waiting, active, settings, agingSeconds, clock)
             && i < |waiting|
    ensures var r := waiting[i].request;
            NoAlias(active + [r]) && r !in deferred && r !in RequestsOf(Without(waiting, i))
    ensures forall q :: q in RequestsOf(Without(waiting, i)) ==> q in RequestsOf(waiting)
  {
    hide NoAlias, OnPlan, Cast, Marked;
    StillApart(batch, taken, deferred, waiting, i, clock);
    assert RequestsOf(Without(waiting, i)) == Without(RequestsOf(waiting), i);
  }

  /** Takes the winner off the queue; `i` is where it was. */
  method PopNext(q: PriorityRequestQueue) returns (popped: Option<InferenceRequest>, ghost i: nat)
    requires q.Valid()
    modifies q
    ensures q.Valid() && q.counter == old(q.counter)
    ensures if old(q.waiting) == [] then popped.None? && q.waiting == []
            else popped.Some? && i < |old(q.waiting)| && i == BestIndex(old(q.waiting), q.agingSeconds, 0.0)
                 && popped.value == RequestsOf(old(q.waiting))[i] && q.waiting == Without(old(q.waiting), i)
  {
    hide BestIndex;
    i := if q.waiting == [] then 0 else BestIndex(q.waiting, q.agingSeconds, 0.0);
    popped := q.Get();
  }

  /** One turn of the loop: pops a request, and puts it aside or looks at it. */
  method Turn(s: ContinuousScheduler, q: PriorityRequestQueue, taken: seq<InferenceRequest>,
              deferred: seq<InferenceRequest>,
              clock: InferenceRequest -> real, ghost full: Plan, ghost batch: seq<InferenceRequest>,
              ghost ws: seq<InferenceRequest>, ghost before: seq<RequestState>)
      returns (more: bool, taken': seq<InferenceRequest>, deferred': seq<InferenceRequest>)
    requires s.Valid() && q.Valid() && |s.active| < s.settings.maxBatchSize
    requires Going(full, batch, ws, before, States(ws), taken, deferred, q.waiting, s.active, s.settings,
                   q.agingSeconds, clock)
    requires Admissible(deferred) && Admissible(RequestsOf(q.waiting))
    modifies s`active, q, RequestsOf(q.waiting)
    ensures s.Valid() && q.Valid() && q.counter == old(q.counter)
    ensures Going(full, batch, ws, before, States(ws), taken', deferred', q.waiting, s.active, s.settings,
                  q.agingSeconds, clock)
    ensures Admissible(deferred') && Admissible(RequestsOf(q.waiting))
    ensures more <==> old(q.waiting) != []
    ensures if more then |q.waiting| == |old(q.waiting)| - 1 && forall r :: r in RequestsOf(q.waiting) ==>
              r in RequestsOf(old(q.waiting))
            else q.waiting == old(q.waiting)
  {
    hide Going, InProgress, CellsMatch, Looked, Held, GeneralCount, BestIndex, PastDeadline, NoAlias, Tables,
      InferenceRequest.Unstarted, ContinuousScheduler.Running, PriorityRequestQueue.Valid;
    ghost var waiting, active, now := q.waiting, s.active, States(ws);
    ghost var i;
    var popped;
    popped, i := PopNext(q);
    more, taken', deferred' := popped.Some?, taken, deferred;
    if more {
      var r := popped.value;
      GoingApart(full, batch, ws, before, now, taken, deferred, waiting, i, active, s.settings, q.agingSeconds, clock);
      taken', deferred' := TakeBeside(s, r, taken, deferred, clock, ws, RequestsOf(q.waiting));
      GoesOn(full, batch, ws, before, now, States(ws), taken, taken', deferred, deferred', waiting, i, active, s.active,
             s.settings, q.agingSeconds, clock);
    }
  }

  /** Who may be waiting: fresh requests, none of them in two places. */
  ghost predicate Queued(batch: seq<InferenceRequest>, waiting: seq<Entry>)
    reads RequestsOf(waiting), Tables(RequestsOf(waiting))
  {
    NoAlias(batch + RequestsOf(waiting)) && Admissible(RequestsOf(waiting))
  }

  lemma Setting(batch: seq<InferenceRequest>, waiting: seq<Entry>, states: seq<RequestState>, settings: Settings,
                agingSeconds: real, clock: InferenceRequest -> real)
    requires NoAlias(batch + RequestsOf(waiting)) && |states| == |waiting|
    ensures var full := PlanFor(InOrder(waiting, agingSeconds), |batch|, GeneralCount(batch), settings, clock);
            Going(full, batch, RequestsOf(waiting), states, states, [], [], waiting, batch, settings, agingSeconds,
                  clock)
  {
    hide PlanFor, InOrder, NoAlias;
    assert batch + [] + [] + RequestsOf(waiting) == batch + RequestsOf(waiting);
  }

  /** The walk has ended: what was taken and put aside is the plan, and the rest is still waiting. */
  lemma Arrived(full: Plan, batch: seq<InferenceRequest>, ws: seq<InferenceRequest>, before: seq<RequestState>,
                now: seq<RequestState>,
                taken: seq<InferenceRequest>, deferred: seq<InferenceRequest>, waiting: seq<Entry>,
                active: seq<InferenceRequest>, settings: Settings, agingSeconds: real, clock: InferenceRequest -> real)
    requires Going(full, batch, ws, before, now, taken, deferred, waiting, active, settings, agingSeconds, clock)
    requires waiting == [] || |active| >= settings.maxBatchSize
    ensures full == Plan(taken, deferred, InOrder(waiting, agingSeconds))
    ensures active == batch + InTimeOf(taken, clock) && Marked(ws, before, now, taken, clock)
    ensures NoAlias(active + RequestsOf(waiting) + deferred)
  {
    hide NoAlias, RequestsOf, Cast, InTimeOf, Marked;
    Parts(batch, taken, deferred, waiting);
    InTimeOfSome(taken, clock);
    assert multiset(active + RequestsOf(waiting) + deferred)
        == multiset(batch) + multiset(InTimeOf(taken, clock)) + multiset(RequestsOf(waiting)) + multiset(deferred);
    Permuted(Cast(batch, taken, deferred, waiting), active + RequestsOf(waiting) + deferred);
  }

  lemma BackInQueue(rest: seq<Entry>, deferred: seq<InferenceRequest>, counter: nat, agingSeconds: real, i: nat)
    requires i < |deferred|
    ensures rest + Arrivals(deferred[..i + 1], counter, agingSeconds)
            == rest + Arrivals(deferred[..i], counter, agingSeconds)
                + [Entry(SortKey(deferred[i], agingSeconds), counter + i, deferred[i])]
  {
    assert Arrivals(deferred[..i + 1], counter, agingSeconds)
        == Arrivals(deferred[..i], counter, agingSeconds)
            + [Entry(SortKey(deferred[i], agingSeconds), counter + i, deferred[i])];
  }

  /** Puts the deferred requests back, in the order in which they were popped. */
  method PutBack(q: PriorityRequestQueue, deferred: seq<InferenceRequest>)
    requires q.Valid()
    modifies q
    ensures q.Valid() && q.waiting == old(q.waiting) + Arrivals(deferred, old(q.counter), q.agingSeconds)
  {
    ghost var rest, counter := q.waiting, q.counter;
    for i := 0 to |deferred|
      invariant q.Valid() && q.counter == counter + i
      invariant q.waiting == rest + Arrivals(deferred[..i], counter, q.agingSeconds)
    {
      BackInQueue(rest, deferred, counter, q.agingSeconds, i);
      q.Put(deferred[i]);
    }
    assert deferred[..|deferred|] == deferred;
  }

  /** Pops until the batch is full or the queue is empty. */
  method Walk(s: ContinuousScheduler, q: PriorityRequestQueue, clock: InferenceRequest -> real, ghost full: Plan)
      returns (taken: seq<InferenceRequest>, deferred: seq<InferenceRequest>)
    requires s.Valid() && q.Valid() && Queued(s.active, q.waiting)
    requires full == PlanFor(InOrder(q.waiting, q.agingSeconds), |s.active|, GeneralCount(s.active), s.settings, clock)
    modifies s`active, q, RequestsOf(q.waiting)
    ensures s.Valid() && q.Valid() && q.counter == old(q.counter)
    ensures full == Plan(taken, deferred, InOrder(q.waiting, q.agingSeconds))
    ensures s.active == old(s.active) + InTimeOf(taken, clock)
    ensures Marked(RequestsOf(old(q.waiting)), old(States(RequestsOf(q.waiting))), States(RequestsOf(old(q.waiting))),
                   taken, clock)
    ensures NoAlias(s.active + RequestsOf(q.waiting) + deferred)
    ensures Admissible(deferred) && Admissible(RequestsOf(q.waiting))
  {
    hide Going, PlanFor, InOrder, InTimeOf, Marked, NoAlias, CellsMatch, InProgress;
    ghost var batch, ws, before := s.active, RequestsOf(q.waiting), States(RequestsOf(q.waiting));
    Setting(batch, q.waiting, before, s.settings, q.agingSeconds, clock);
    taken, deferred := [], [];
    var more := true;
    while more && |s.active| < s.settings.maxBatchSize
      invariant s.Valid() && q.Valid() && q.counter == old(q.counter)
      invariant Going(full, batch, ws, before, States(ws), taken, deferred, q.waiting, s.active, s.settings,
                      q.agingSeconds, clock)
      invariant Admissible(deferred) && Admissible(RequestsOf(q.waiting))
      invariant !more ==> q.waiting == []
      invariant forall r :: r in RequestsOf(q.waiting) ==> r in ws
      decreases |q.waiting|, more
    {
      assert forall i :: 0 <= i < |q.waiting| ==> RequestsOf(q.waiting)[i] in ws;
      more, taken, deferred := Turn(s, q, taken, deferred, clock, full, batch, ws, before);
    }
    Arrived(full, batch, ws, before, States(ws), taken, deferred, q.waiting, s.active, s.settings, q.agingSeconds,
            clock);
  }

  lemma PartsApart(a: seq<InferenceRequest>, b: seq<InferenceRequest>, c: seq<InferenceRequest>)
    requires NoAlias(a + b + c)
    ensures forall r :: r in c ==> r !in b
  {
    forall i, j | 0 <= i < |b| && 0 <= j < |c| ensures b[i] != c[j] {
      assert (a + b + c)[|a| + i] == b[i] && (a + b + c)[|a| + |b| + j] == c[j];
    }
  }

  lemma RequestsBack(batch: seq<InferenceRequest>, rest: seq<Entry>, deferred: seq<InferenceRequest>, counter: nat,
                     agingSeconds: real)
    requires NoAlias(batch + RequestsOf(rest) + deferred) && Admissible(RequestsOf(rest)) && Admissible(deferred)
    ensures Queued(batch, rest + Arrivals(deferred, counter, agingSeconds))
  {
    assert RequestsOf(rest + Arrivals(deferred, counter, agingSeconds)) == RequestsOf(rest) + deferred;
    assert batch + (RequestsOf(rest) + deferred) == batch + RequestsOf(rest) + deferred;
  }

  // ---------------------------------------------------------------- putting requests back

  ghost predicate ScoresRise(rs: seq<InferenceRequest>, agingSeconds: real) {
    forall i, j :: 0 <= i < j < |rs| ==> SortKey(rs[i], agingSeconds) <= SortKey(rs[j], agingSeconds)
  }

  /** No request that was put aside has the same key as one that was never looked at. */
  ghost predicate NoTies(deferred: seq<InferenceRequest>, left: seq<InferenceRequest>, agingSeconds: real) {
    forall i, j :: 0 <= i < |deferred| && 0 <= j < |left| ==>
          SortKey(deferred[i], agingSeconds) != SortKey(left[j], agingSeconds)
  }

  /** Whoever is not taken, in order. */
  ghost function NotTaken(p: Plan): seq<InferenceRequest> {
    p.deferred + RequestsOf(p.left)
  }

  ghost predicate Among(part: seq<InferenceRequest>, whole: seq<InferenceRequest>) {
    forall r :: r in part ==> r in whole
  }

  lemma RiseStep(order: seq<Entry>, rest: Plan, p: Plan, agingSeconds: real)
    requires order != [] && ScoresRise(RequestsOf(order), agingSeconds)
    requires ScoresRise(NotTaken(rest), agingSeconds) && Among(NotTaken(rest), RequestsOf(order[1..]))
    requires || p == rest.(taken := [order[0].request] + rest.taken)
             || p == rest.(deferred := [order[0].request] + rest.deferred)
    ensures ScoresRise(NotTaken(p), agingSeconds) && Among(NotTaken(p), RequestsOf(order))
  {
    var r := order[0].request;
    assert RequestsOf(order) == [r] + RequestsOf(order[1..]);
    RiseFirst(r, NotTaken(rest), RequestsOf(order[1..]), agingSeconds);
    assert [r] + rest.deferred + RequestsOf(rest.left) == [r] + NotTaken(rest);
  }

  lemma RiseTail(order: seq<Entry>, agingSeconds: real)
    requires order != [] && ScoresRise(RequestsOf(order), agingSeconds)
    ensures ScoresRise(RequestsOf(order[1..]), agingSeconds)
  {
  }

  lemma NobodyTaken(order: seq<Entry>)
    ensures NotTaken(Plan([], [], order)) == RequestsOf(order) && Among(RequestsOf(order), RequestsOf(order))
  {
    assert [] + RequestsOf(order) == RequestsOf(order);
  }

  lemma {:induction false} PlanScoresRise(order: seq<Entry>, active: nat, general: nat, settings: Settings,
                                          agingSeconds: real, clock: InferenceRequest -> real)
    requires ScoresRise(RequestsOf(order), agingSeconds)
    ensures ScoresRise(NotTaken(PlanFor(order, active, general, settings, clock)), agingSeconds)
    ensures Among(NotTaken(PlanFor(order, active, general, settings, clock)), RequestsOf(order))
    decreases |order|
  {
    hide Held, Added, ScoresRise, NotTaken, Among, RequestsOf;
    if order == [] || active >= settings.maxBatchSize {
      NobodyTaken(order);
    } else {
      var (a, g) := Added(order[0].request, active, general, settings, clock);
      var rest := PlanStep(order, active, general, settings, clock);
      RiseTail(order, agingSeconds);
      PlanScoresRise(order[1..], active + a, general + g, settings, agingSeconds, clock);
      RiseStep(order, rest, PlanFor(order, active, general, settings, clock), agingSeconds);
    }
  }

  lemma RiseFirst(r: InferenceRequest, part: seq<InferenceRequest>, whole: seq<InferenceRequest>, agingSeconds: real)
    requires ScoresRise([r] + whole, agingSeconds) && ScoresRise(part, agingSeconds)
    requires forall q :: q in part ==> q in whole
    ensures ScoresRise([r] + part, agingSeconds)
  {
    forall i, j | 0 <= i < j < |[r] + part|
      ensures SortKey(([r] + part)[i], agingSeconds) <= SortKey(([r] + part)[j], agingSeconds)
    {
      if i == 0 {
        assert part[j - 1] in whole;
        var k :| 0 <= k < |whole| && whole[k] == part[j - 1];
        assert ([r] + whole)[0] == r && ([r] + whole)[k + 1] == whole[k];
      } else {
        assert ([r] + part)[i] == part[i - 1] && ([r] + part)[j] == part[j - 1];
      }
    }
  }

  /** The queue after the put-back, in the order in which it would now be popped. */
  ghost function PoppedAfter(rest: seq<Entry>, deferred: seq<InferenceRequest>, counter: nat,
                             agingSeconds: real): seq<Entry> {
    InOrder(rest + Arrivals(deferred, counter, agingSeconds), agingSeconds)
  }

  lemma FiledAfter(rest: seq<Entry>, deferred: seq<InferenceRequest>, counter: nat, agingSeconds: real)
    requires Filed(rest, agingSeconds) && forall i :: 0 <= i < |rest| ==> rest[i].arrival < counter
    ensures Filed(rest + Arrivals(deferred, counter, agingSeconds), agingSeconds)
  {
  }

  /** Without ties, putting back changes nothing: who was put aside still comes first, in order. */
  lemma NoTiesKeepsOrder(rest: seq<Entry>, deferred: seq<InferenceRequest>, counter: nat, agingSeconds: real)
    requires Filed(rest, agingSeconds) && forall i :: 0 <= i < |rest| ==> rest[i].arrival < counter
    requires ScoresRise(deferred + RequestsOf(InOrder(rest, agingSeconds)), agingSeconds)
    requires NoTies(deferred, RequestsOf(InOrder(rest, agingSeconds)), agingSeconds)
    ensures PoppedAfter(rest, deferred, counter, agingSeconds) == Arrivals(deferred, counter, agingSeconds)
            + InOrder(rest, agingSeconds)
  {
    var back, left := Arrivals(deferred, counter, agingSeconds), InOrder(rest, agingSeconds);
    FiledAfter(rest, deferred, counter, agingSeconds);
    InOrderIsSorted(rest, agingSeconds);
    InOrderIsSorted(rest + back, agingSeconds);
    BackThenLeftAscends(rest, deferred, counter, agingSeconds);
    BothWays(back, left, rest);
    hide Filed, KeyLess, InOrder, Arrivals, ScoresRise, NoTies;
    AscendingIsUnique(InOrder(rest + back, agingSeconds), back + left);
  }

  lemma BothWays(a: seq<Entry>, b: seq<Entry>, c: seq<Entry>)
    requires multiset(b) == multiset(c)
    ensures multiset(c + a) == multiset(a + b)
  {
  }

  lemma BackThenLeftAscends(rest: seq<Entry>, deferred: seq<InferenceRequest>, counter: nat, agingSeconds: real)
    requires Filed(rest, agingSeconds) && forall i :: 0 <= i < |rest| ==> rest[i].arrival < counter
    requires ScoresRise(deferred + RequestsOf(InOrder(rest, agingSeconds)), agingSeconds)
    requires NoTies(deferred, RequestsOf(InOrder(rest, agingSeconds)), agingSeconds)
    ensures Ascending(Arrivals(deferred, counter, agingSeconds) + InOrder(rest, agingSeconds))
  {
    var back, left := Arrivals(deferred, counter, agingSeconds), InOrder(rest, agingSeconds);
    InOrderIsSorted(rest, agingSeconds);
    ScoresInOrder(rest, agingSeconds);
    forall i, j | 0 <= i < j < |back + left|
      ensures KeyLess((back + left)[i], (back + left)[j])
    {
      var all := deferred + RequestsOf(left);
      assert SortKey(all[i], agingSeconds) <= SortKey(all[j], agingSeconds);
      if i < |back| <= j {
        assert SortKey(deferred[i], agingSeconds) != SortKey(RequestsOf(left)[j - |back|], agingSeconds);
      }
    }
  }

  /** What is popped has the key it was filed under, and an arrival number that was given out. */
  lemma ScoresInOrder(waiting: seq<Entry>, agingSeconds: real)
    requires Filed(waiting, agingSeconds)
    ensures forall e :: e in InOrder(waiting, agingSeconds) ==> e in waiting
    ensures forall j :: 0 <= j < |waiting| ==>
              InOrder(waiting, agingSeconds)[j].score
                  == SortKey(InOrder(waiting, agingSeconds)[j].request, agingSeconds)
  {
    InOrderHasAll(waiting, agingSeconds);
    var order := InOrder(waiting, agingSeconds);
    forall e | e in order ensures e in waiting {
      assert e in multiset(order);
    }
    forall j | 0 <= j < |waiting| ensures order[j].score == SortKey(order[j].request, agingSeconds) {
      assert order[j] in order;
    }
  }

  /** A tie puts the never-looked-at request first: the other one came back with a later number. */
  lemma TieReorders(rest: seq<Entry>, deferred: seq<InferenceRequest>, counter: nat, agingSeconds: real, i: nat, j: nat)
    requires Filed(rest, agingSeconds) && forall i :: 0 <= i < |rest| ==> rest[i].arrival < counter
    requires forall r :: r in deferred ==> r !in RequestsOf(rest)
    requires i < |deferred| && j < |rest|
    requires SortKey(deferred[i], agingSeconds) == SortKey(InOrder(rest, agingSeconds)[j].request, agingSeconds)
    ensures RequestsOf(PoppedAfter(rest, deferred, counter, agingSeconds)) != deferred
            + RequestsOf(InOrder(rest, agingSeconds))
  {
    var left, after := InOrder(rest, agingSeconds), PoppedAfter(rest, deferred, counter, agingSeconds);
    FiledAfter(rest, deferred, counter, agingSeconds);
    ScoresInOrder(rest, agingSeconds);
    InOrderIsSorted(rest + Arrivals(deferred, counter, agingSeconds), agingSeconds);
    ScoresInOrder(rest + Arrivals(deferred, counter, agingSeconds), agingSeconds);
    if RequestsOf(after) == deferred + RequestsOf(left) {
      hide Filed, InOrder, SortKey, PoppedAfter;
      var (d, l) := (after[i], after[|deferred| + j]);
      assert RequestsOf(after)[i] == deferred[i] && RequestsOf(after)[|deferred| + j] == left[j].request;
      assert left[j] in left;
      WhoseEntry(rest, deferred, counter, agingSeconds, d);
      WhoseEntry(rest, deferred, counter, agingSeconds, l);
      assert false;
    }
  }

  lemma WhoseEntry(rest: seq<Entry>, deferred: seq<InferenceRequest>, counter: nat, agingSeconds: real, e: Entry)
    requires e in rest + Arrivals(deferred, counter, agingSeconds)
    requires forall i :: 0 <= i < |rest| ==> rest[i].arrival < counter
    requires forall r :: r in deferred ==> r !in RequestsOf(rest)
    ensures e.request in deferred ==> e.arrival >= counter
    ensures e.request in RequestsOf(rest) ==> e.arrival < counter
  {
    var i :| 0 <= i < |rest + Arrivals(deferred, counter, agingSeconds)|
        && (rest + Arrivals(deferred, counter, agingSeconds))[i] == e;
    if i < |rest| {
      assert RequestsOf(rest)[i] == e.request;
    } else {
      assert deferred[i - |rest|] == e.request;
    }
  }

  lemma ArrivalsFirst(deferred: seq<InferenceRequest>, counter: nat, agingSeconds: real, left: seq<Entry>)
    ensures RequestsOf(Arrivals(deferred, counter, agingSeconds) + left) == deferred + RequestsOf(left)
  {
  }

  /** Putting requests back leaves the order of the queue unchanged exactly when no request that was
      put aside ties with one that was never looked at. */
  lemma PutBackKeepsOrder(rest: seq<Entry>, deferred: seq<InferenceRequest>, counter: nat, agingSeconds: real)
    requires Filed(rest, agingSeconds) && forall i :: 0 <= i < |rest| ==> rest[i].arrival < counter
    requires forall r :: r in deferred ==> r !in RequestsOf(rest)
    requires ScoresRise(deferred + RequestsOf(InOrder(rest, agingSeconds)), agingSeconds)
    ensures RequestsOf(PoppedAfter(rest, deferred, counter, agingSeconds)) == deferred
            + RequestsOf(InOrder(rest, agingSeconds))
            <==> NoTies(deferred, RequestsOf(InOrder(rest, agingSeconds)), agingSeconds)
  {
    hide ScoresRise, Filed, PoppedAfter, InOrder, SortKey, Arrivals;
    var left := InOrder(rest, agingSeconds);
    if NoTies(deferred, RequestsOf(left), agingSeconds) {
      NoTiesKeepsOrder(rest, deferred, counter, agingSeconds);
      ArrivalsFirst(deferred, counter, agingSeconds, left);
    } else {
      var i, j :| 0 <= i < |deferred| && 0 <= j < |RequestsOf(left)|
          && SortKey(deferred[i], agingSeconds) == SortKey(RequestsOf(left)[j], agingSeconds);
      TieReorders(rest, deferred, counter, agingSeconds, i, j);
    }
  }

  // ---------------------------------------------------------------- the whole call

  lemma TakeFirst<T>(a: seq<T>, b: seq<T>, rest: seq<T>)
    requires a != [] && multiset(a) == multiset(b) == multiset(rest) + multiset{a[0]}
    ensures multiset(a[1..]) == multiset(rest)
  {
    assert a == [a[0]] + a[1..];
    assert multiset(a[1..]) == multiset(a) - multiset{a[0]};
  }

  lemma {:induction false} PermutedRequests(a: seq<Entry>, b: seq<Entry>)
    requires multiset(a) == multiset(b)
    ensures multiset(RequestsOf(a)) == multiset(RequestsOf(b))
  {
    SameSize(a, b);
    if a != [] {
      assert a[0] in multiset(b);
      var i :| 0 <= i < |b| && b[i] == a[0];
      WithoutElements(b, i);
      TakeFirst(a, b, Without(b, i));
      PermutedRequests(a[1..], Without(b, i));
      RequestsWithout(b, i);
      assert RequestsOf(a) == [a[0].request] + RequestsOf(a[1..]);
    }
  }

  lemma {:induction false} GeneralCountAdds(a: seq<InferenceRequest>, b: seq<InferenceRequest>)
    ensures GeneralCount(a + b) == GeneralCount(a) + |GeneralOf(b)|
    decreases |b|
  {
    if b == [] {
      assert a + b == a;
    } else {
      GeneralCountAdds(a + [b[0]], b[1..]);
      GeneralCountMore(a, b[0]);
      assert a + [b[0]] + b[1..] == a + b;
    }
  }

  /** What admission promises: the caps; that it stops only at a full batch, or when just general
      requests are left and their lane is full; that every request is taken or still waiting; and,
      exactly when there is no tie, that the rest of the queue keeps its order. */
  ghost predicate Kept(waiting: seq<Entry>, batch: seq<InferenceRequest>, batch': seq<InferenceRequest>,
                       waiting': seq<Entry>, plan: Plan, settings: Settings, agingSeconds: real) {
    && (|batch| <= settings.maxBatchSize && GeneralCount(batch) <= GeneralLimit(settings) ==>
          && |batch'| <= settings.maxBatchSize && GeneralCount(batch') <= GeneralLimit(settings)
          && (|batch'| < settings.maxBatchSize && waiting' != [] ==>
                GeneralCount(batch') == GeneralLimit(settings) && ShortOf(RequestsOf(waiting')) == []))
    && multiset(RequestsOf(waiting)) == multiset(plan.taken) + multiset(RequestsOf(waiting'))
    && (RequestsOf(InOrder(waiting', agingSeconds)) == NotTaken(plan)
        <==> NoTies(plan.deferred, RequestsOf(plan.left), agingSeconds))
  }

  lemma EverythingKept(waiting: seq<Entry>, batch: seq<InferenceRequest>, plan: Plan, rest: seq<Entry>, counter: nat,
                       settings: Settings, agingSeconds: real, clock: InferenceRequest -> real)
    requires Filed(waiting, agingSeconds) && Filed(rest, agingSeconds) && forall i :: 0 <= i < |rest| ==>
               rest[i].arrival < counter
    requires plan == PlanFor(InOrder(waiting, agingSeconds), |batch|, GeneralCount(batch), settings, clock)
    requires plan.left == InOrder(rest, agingSeconds)
    requires forall r :: r in plan.deferred ==> r !in RequestsOf(rest)
    ensures Kept(waiting, batch, batch + InTimeOf(plan.taken, clock),
                 rest + Arrivals(plan.deferred, counter, agingSeconds),
                 plan, settings, agingSeconds)
  {
    hide PlanFor, Filed, InOrder, GeneralLimit, SortKey, NoTies, ScoresRise, GeneralCount, InTimeOf;
    var waiting', batch' := rest + Arrivals(plan.deferred, counter, agingSeconds), batch + InTimeOf(plan.taken, clock);
    NobodyLost(waiting, batch, plan, rest, counter, settings, agingSeconds, clock);
    GeneralCountAdds(batch, InTimeOf(plan.taken, clock));
    if |batch| <= settings.maxBatchSize && GeneralCount(batch) <= GeneralLimit(settings) {
      AdmissionIsCappedAndGreedy(InOrder(waiting, agingSeconds), |batch|, GeneralCount(batch), settings, clock);
      if |batch'| < settings.maxBatchSize && waiting' != [] {
        assert rest == [];
        assert RequestsOf(waiting') == plan.deferred;
      }
    }
    OrderKept(waiting, batch, plan, rest, counter, settings, agingSeconds, clock);
  }

  lemma NobodyLost(waiting: seq<Entry>, batch: seq<InferenceRequest>, plan: Plan, rest: seq<Entry>, counter: nat,
                   settings: Settings, agingSeconds: real, clock: InferenceRequest -> real)
    requires plan == PlanFor(InOrder(waiting, agingSeconds), |batch|, GeneralCount(batch), settings, clock)
    requires plan.left == InOrder(rest, agingSeconds)
    ensures multiset(RequestsOf(waiting))
            == multiset(plan.taken) + multiset(RequestsOf(rest + Arrivals(plan.deferred, counter, agingSeconds)))
  {
    InOrderHasAll(waiting, agingSeconds);
    InOrderHasAll(rest, agingSeconds);
    hide PlanFor, InOrder, GeneralCount;
    PermutedRequests(waiting, InOrder(waiting, agingSeconds));
    PermutedRequests(rest, plan.left);
    AdmissionConserves(InOrder(waiting, agingSeconds), |batch|, GeneralCount(batch), settings, clock);
    assert RequestsOf(rest + Arrivals(plan.deferred, counter, agingSeconds)) == RequestsOf(rest) + plan.deferred;
  }

  lemma OrderRises(waiting: seq<Entry>, agingSeconds: real)
    requires Filed(waiting, agingSeconds)
    ensures ScoresRise(RequestsOf(InOrder(waiting, agingSeconds)), agingSeconds)
  {
    InOrderIsSorted(waiting, agingSeconds);
    ScoresInOrder(waiting, agingSeconds);
    hide SortKey, InOrder, Filed;
  }

  lemma OrderKept(waiting: seq<Entry>, batch: seq<InferenceRequest>, plan: Plan, rest: seq<Entry>, counter: nat,
                  settings: Settings, agingSeconds: real, clock: InferenceRequest -> real)
    requires Filed(waiting, agingSeconds) && Filed(rest, agingSeconds) && forall i :: 0 <= i < |rest| ==>
               rest[i].arrival < counter
    requires plan == PlanFor(InOrder(waiting, agingSeconds), |batch|, GeneralCount(batch), settings, clock)
    requires plan.left == InOrder(rest, agingSeconds)
    requires forall r :: r in plan.deferred ==> r !in RequestsOf(rest)
    ensures RequestsOf(InOrder(rest + Arrivals(plan.deferred, counter, agingSeconds), agingSeconds)) == NotTaken(plan)
            <==> NoTies(plan.deferred, RequestsOf(plan.left), agingSeconds)
  {
    hide PlanFor, Filed, InOrder, SortKey, NoTies, ScoresRise, GeneralCount;
    OrderRises(waiting, agingSeconds);
    PlanScoresRise(InOrder(waiting, agingSeconds), |batch|, GeneralCount(batch), settings, agingSeconds, clock);
    PutBackKeepsOrder(rest, plan.deferred, counter, agingSeconds);
  }

  /** In time is whoever has no deadline, or one that is still to come. */
  lemma {:induction false} InTimeOfIs(taken: seq<InferenceRequest>, clock: InferenceRequest -> real)
    ensures forall r :: r in InTimeOf(taken, clock) <==>
                        r in taken && (r.deadline == None || clock(r) < r.deadline.value)
  {
    if taken != [] {
      InTimeOfIs(taken[1..], clock);
      assert taken == [taken[0]] + taken[1..];
    }
  }

  /** Admission in plain terms: who is taken in time goes into the batch with the prompt; who is taken too
      late is told so, and does not. */
  ghost predicate PlainlyAdmitted(ws: seq<InferenceRequest>, before: seq<RequestState>, now: seq<RequestState>,
                                  taken: seq<InferenceRequest>, active: seq<InferenceRequest>,
                                  clock: InferenceRequest -> real) {
    && |before| == |now| == |ws|
    && forall i :: 0 <= i < |ws| ==>
         if ws[i] !in taken then ws[i] !in active && now[i] == before[i]
         else if ws[i].deadline == None || clock(ws[i]) < ws[i].deadline.value then
           ws[i] in active && now[i] == before[i].(inputIds := ws[i].promptIds)
         else
           && ws[i] !in active && now[i].generated == before[i].generated
           && now[i].queue == before[i].queue + [Failed("generation timed out")]
           && now[i].future == if before[i].future == Pending then
                                 Error("Streaming request timed out before generating any tokens.")
                               else before[i].future
  }

  lemma AdmissionIsPlain(batch: seq<InferenceRequest>, ws: seq<InferenceRequest>, before: seq<RequestState>,
                         now: seq<RequestState>, taken: seq<InferenceRequest>, clock: InferenceRequest -> real)
    requires Marked(ws, before, now, taken, clock) && NoAlias(batch + ws)
    ensures PlainlyAdmitted(ws, before, now, taken, batch + InTimeOf(taken, clock), clock)
  {
    hide InTimeOf;
    InTimeOfIs(taken, clock);
    forall i | 0 <= i < |ws| ensures ws[i] !in batch {
      forall j | 0 <= j < |batch| ensures batch[j] != ws[i] {
        assert (batch + ws)[j] == batch[j] && (batch + ws)[|batch| + i] == ws[i];
      }
    }
  }

  /** Fills the batch from the queue. Everything follows the plan; whoever is not taken is back in the
      queue, unchanged. */
  method AddNewRequests(s: ContinuousScheduler, q: PriorityRequestQueue, clock: InferenceRequest -> real)
      returns (ghost plan: Plan, ghost rest: seq<Entry>)
    requires s.Valid() && q.Valid() && Queued(s.active, q.waiting)
    modifies s`active, q, RequestsOf(q.waiting)
    ensures s.Valid() && q.Valid() && Queued(s.active, q.waiting)
    ensures plan == PlanFor(InOrder(old(q.waiting), q.agingSeconds), |old(s.active)|, GeneralCount(old(s.active)),
                            s.settings, clock)
    ensures s.active == old(s.active) + InTimeOf(plan.taken, clock)
    ensures Marked(RequestsOf(old(q.waiting)), old(States(RequestsOf(q.waiting))), States(RequestsOf(old(q.waiting))),
                   plan.taken, clock)
    ensures PlainlyAdmitted(RequestsOf(old(q.waiting)), old(States(RequestsOf(q.waiting))),
                            States(RequestsOf(old(q.waiting))), plan.taken, s.active, clock)
    ensures plan.left == InOrder(rest, q.agingSeconds)
    ensures q.waiting == rest + Arrivals(plan.deferred, old(q.counter), q.agingSeconds)
    ensures Kept(old(q.waiting), old(s.active), s.active, q.waiting, plan, s.settings, q.agingSeconds)
  {
    hide PlainlyAdmitted, PlanFor, InOrder, InTimeOf, Marked, CellsMatch, InProgress, Arrivals, RequestsOf,
      InferenceRequest.Unstarted, ContinuousScheduler.Running, ContinuousScheduler.StoreValid;
    ghost var batch, ws, before := s.active, RequestsOf(q.waiting), States(RequestsOf(q.waiting));
    plan := PlanFor(InOrder(q.waiting, q.agingSeconds), |s.active|, GeneralCount(s.active), s.settings, clock);
    var taken, deferred := Walk(s, q, clock, plan);
    rest := q.waiting;
    PutBack(q, deferred);
    PartsApart(s.active, RequestsOf(rest), deferred);
    EverythingKept(old(q.waiting), old(s.active), plan, rest, old(q.counter), s.settings, q.agingSeconds, clock);
    AdmissionIsPlain(batch, ws, before, States(ws), plan.taken, clock);
    RequestsBack(s.active, rest, deferred, old(q.counter), q.agingSeconds);
  }

  lemma AlreadyInOrder(entries: seq<Entry>, agingSeconds: real)
    requires Filed(entries, agingSeconds) && Ascending(entries)
    ensures InOrder(entries, agingSeconds) == entries
  {
    InOrderIsSorted(entries, agingSeconds);
    AscendingIsUnique(InOrder(entries, agingSeconds), entries);
  }

  /** A general request has the same key as a short one that arrives one aging time later. */
  lemma AgedTie(general: InferenceRequest, short: InferenceRequest, agingSeconds: real)
    requires agingSeconds > 0.0 && general.priorityClass == GENERAL_REQUEST_CLASS && IsShort(short)
    requires short.enqueueTime == general.enqueueTime + agingSeconds
    ensures SortKey(general, agingSeconds) == SortKey(short, agingSeconds)
  {
    DivideDifference(short.enqueueTime, general.enqueueTime, agingSeconds);
  }

  /** The source says that nothing put aside is reordered. It is, on a tie: a general request is at the
      front, two short ones that arrived together one aging time later are behind it. The general lane
      is full, so the general request is put aside; the first short one fills the batch; and afterwards
      the other short one comes first. */
  lemma EqualKeysReorder(a: Entry, b: Entry, c: Entry, settings: Settings, agingSeconds: real,
                         clock: InferenceRequest -> real)
    requires a.request.priorityClass == GENERAL_REQUEST_CLASS && IsShort(b.request) && IsShort(c.request)
    requires Filed([a, b, c], agingSeconds) && agingSeconds > 0.0
    requires b.request.enqueueTime == c.request.enqueueTime == a.request.enqueueTime + agingSeconds
    requires settings.maxBatchSize == 2 && settings.shortLaneReservedSlots == 1
             && !PastDeadline(b.request, clock(b.request))
    ensures InOrder([a, b, c], agingSeconds) == [a, b, c]
    ensures PlanFor([a, b, c], 1, 1, settings, clock) == Plan([b.request], [a.request], [c])
    ensures RequestsOf(PoppedAfter([c], [a.request], c.arrival + 1, agingSeconds)) == [c.request, a.request]
  {
    AgedTie(a.request, b.request, agingSeconds);
    AgedTie(a.request, c.request, agingSeconds);
    hide PlanFor, InOrder, SortKey;
    assert [a, b, c][0] == a && [a, b, c][1] == b && [a, b, c][2] == c;
    AlreadyInOrder([a, b, c], agingSeconds);
    TiedPlan(a, b, c, settings, clock);
    TiedQueue(a.request, c, agingSeconds);
  }

  lemma TiedQueue(r: InferenceRequest, c: Entry, agingSeconds: real)
    requires c.score == SortKey(c.request, agingSeconds) == SortKey(r, agingSeconds)
    ensures RequestsOf(PoppedAfter([c], [r], c.arrival + 1, agingSeconds)) == [c.request, r]
  {
    hide InOrder, SortKey;
    var d := Entry(SortKey(r, agingSeconds), c.arrival + 1, r);
    assert [c] + Arrivals([r], c.arrival + 1, agingSeconds) == [c, d];
    AlreadyInOrder([c, d], agingSeconds);
    assert RequestsOf([c, d]) == [c.request, r];
  }

  lemma TiedPlan(a: Entry, b: Entry, c: Entry, settings: Settings, clock: InferenceRequest -> real)
    requires !IsShort(a.request) && IsShort(b.request)
    requires settings.maxBatchSize == 2 && settings.shortLaneReservedSlots == 1
             && !PastDeadline(b.request, clock(b.request))
    ensures PlanFor([a, b, c], 1, 1, settings, clock) == Plan([b.request], [a.request], [c])
  {
    assert [a, b, c][1..] == [b, c] && [b, c][1..] == [c];
    assert PlanFor([c], 2, 1, settings, clock) == Plan([], [], [c]);
    assert PlanFor([b, c], 1, 1, settings, clock) == Plan([b.request], [], [c]);
  }
}
