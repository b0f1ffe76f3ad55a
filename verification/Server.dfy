/** Whole runs of the server: requests arrive, clients give up, and the scheduler's loop ticks
    (scheduler/continuous_scheduler.py:816-833), in any order. */
module Server {
  import opened CausalModel
  import opened StopSequences
  import opened Requests
  import opened RequestQueue
  import opened Scheduler
  import opened Admission

  /** What happens to a server between two looks at it. */
  datatype Activity =
    | Arrive(request: InferenceRequest)
    | Cancel(request: InferenceRequest)
    | Tick(clock: InferenceRequest -> real, env: StepEnv)

  /** Finished with: resolved, with the tokens of the model it ran under, and holding no block. */
  ghost predicate Over(settings: Settings, under: map<InferenceRequest, Model>, r: InferenceRequest)
    reads r, r.table
  {
    r in under && Closed(under[r], settings, r, r.State()) && HoldsNoBlock(r.table)
  }

  /** Whoever is still in the batch or waiting came under the model that serves now. */
  ghost predicate Placed(m: Model, settings: Settings, under: map<InferenceRequest, Model>, r: InferenceRequest,
                         active: seq<InferenceRequest>, waiting: seq<InferenceRequest>)
    reads r, r.table
  {
    if r in active || r in waiting then r in under && under[r] == m else Over(settings, under, r)
  }

  /** Everyone seen so far is waiting, in the batch, or finished with for good. */
  ghost predicate Accounted(m: Model, settings: Settings, seen: seq<InferenceRequest>,
                            under: map<InferenceRequest, Model>,
                            active: seq<InferenceRequest>, waiting: seq<InferenceRequest>)
    reads seen, Tables(seen)
  {
    && NoAlias(seen)
    && (forall i :: 0 <= i < |active| ==> active[i] in seen)
    && (forall i :: 0 <= i < |waiting| ==> waiting[i] in seen)
    && (forall r :: r in seen ==> assert r.table in Tables(seen); Placed(m, settings, under, r, active, waiting))
  }

  ghost predicate Capped(s: ContinuousScheduler)
    reads s`active
  {
    |s.active| <= s.settings.maxBatchSize && GeneralCount(s.active) <= GeneralLimit(s.settings)
  }

  method OnArrive(s: ContinuousScheduler, q: PriorityRequestQueue, r: InferenceRequest,
                  ghost seen: seq<InferenceRequest>, ghost under: map<InferenceRequest, Model>)
    requires s.Valid() && q.Valid() && Queued(s.active, q.waiting)
             && Accounted(s.model, s.settings, seen, under, s.active, RequestsOf(q.waiting))
    requires NoAlias(seen + [r]) && r.Unstarted() && r.maxTokens >= 1
    modifies q
    ensures q.Valid() && Queued(s.active, q.waiting)
    ensures Accounted(s.model, s.settings, seen + [r], under[r := s.model], s.active, RequestsOf(q.waiting))
    ensures RequestsOf(q.waiting) == old(RequestsOf(q.waiting)) + [r]
  {
    hide Closed, InProgress, CellsMatch, InferenceRequest.Unstarted;
    ghost var waiting := RequestsOf(q.waiting);
    q.Put(r);
    assert RequestsOf(q.waiting) == waiting + [r];
    Newcomer(s.active, waiting, seen, r);
  }

  lemma Newcomer(active: seq<InferenceRequest>, waiting: seq<InferenceRequest>, seen: seq<InferenceRequest>,
                 r: InferenceRequest)
    requires NoAlias(active + waiting) && NoAlias(seen + [r])
    requires (forall i :: 0 <= i < |active| ==> active[i] in seen)
             && (forall i :: 0 <= i < |waiting| ==> waiting[i] in seen)
    ensures NoAlias(active + (waiting + [r]))
  {
    Outsider(seen, r);
    var all := active + waiting;
    forall i | 0 <= i < |all| ensures all[i] != r && all[i].table != r.table {
      assert all[i] in seen;
      assert all[i].table in Tables(seen);
    }
    assert active + (waiting + [r]) == all + [r];
  }

  /** The client gives up, whether the request is on the queue yet or not. A future that is already
      resolved stays as it is. */
  method OnCancel(s: ContinuousScheduler, r: InferenceRequest, ghost waiting: seq<InferenceRequest>,
                  ghost seen: seq<InferenceRequest>, ghost under: map<InferenceRequest, Model>)
    requires s.Valid() && NoAlias(s.active + waiting) && Admissible(waiting)
             && Accounted(s.model, s.settings, seen, under, s.active, waiting)
    modifies r`future
    ensures s.Valid() && Admissible(waiting) && Accounted(s.model, s.settings, seen, under, s.active, waiting)
    ensures !old(r.future.Pending?) ==> r.State() == old(r.State())
    ensures old(r.Unstarted()) ==> r.Unstarted()
    ensures old(r.future.Pending?) ==> r.future == Cancelled
  {
    hide InProgress, Closed, CellsMatch, NoAlias;
    if r in seen && r !in s.active && r !in waiting {
      assert Placed(s.model, s.settings, under, r, s.active, waiting);
      OverIsResolved(s.settings, under, r);
    }
    if r.future.Pending? {
      ghost var before := r.State();
      r.future := Cancelled;
      forall q | q in s.active ensures s.Cached(q) && InProgress(s.model, s.settings, q, q.State()) {
        assert old(s.Cached(q)) && old(InProgress(s.model, s.settings, q, q.State()));
        if q == r {
          CancelledGoesOn(s.model, s.settings, r, before);
        }
      }
    }
  }

  lemma CancelledGoesOn(m: Model, settings: Settings, r: InferenceRequest, s: RequestState)
    requires InProgress(m, settings, r, s)
    ensures InProgress(m, settings, r, s.(future := Cancelled))
  {
  }

  lemma {:induction false} InTimeOfHas(taken: seq<InferenceRequest>, clock: InferenceRequest -> real,
                                       r: InferenceRequest)
    requires r in taken && !PastDeadline(r, clock(r))
    ensures r in InTimeOf(taken, clock)
  {
    if taken[0] != r {
      assert taken == [taken[0]] + taken[1..];
      InTimeOfHas(taken[1..], clock, r);
    }
  }

  lemma {:induction false} InTimeOfOnly(taken: seq<InferenceRequest>, clock: InferenceRequest -> real)
    ensures forall r :: r in InTimeOf(taken, clock) ==> r in taken
  {
    InTimeOfSome(taken, clock);
    forall r | r in InTimeOf(taken, clock) ensures r in taken {
      assert r in multiset(InTimeOf(taken, clock));
    }
  }

  /** Whoever was waiting is now in the batch, closed, or still waiting. */
  lemma WaitingAccounted(m: Model, settings: Settings, ws: seq<InferenceRequest>, before: seq<RequestState>,
                         now: seq<RequestState>,
                         taken: seq<InferenceRequest>, batch: seq<InferenceRequest>, waiting: seq<InferenceRequest>,
                         clock: InferenceRequest -> real, i: nat)
    requires Marked(ws, before, now, taken, clock) && multiset(ws) == multiset(taken) + multiset(waiting) && i < |ws|
    requires forall r :: r in InTimeOf(taken, clock) ==> r in batch
    requires before[i].generated == [] && before[i].draws == [] && before[i].queue == []
             && (before[i].future.Pending? || before[i].future.Cancelled?)
    ensures ws[i] in batch || ws[i] in waiting || Closed(m, settings, ws[i], now[i])
  {
    hide Closed, Failure, InTimeOf;
    if ws[i] in taken {
      if PastDeadline(ws[i], clock(ws[i])) {
        TimeoutCloses(m, settings, ws[i], before[i]);
      } else {
        InTimeOfHas(taken, clock, ws[i]);
      }
    } else {
      assert ws[i] in multiset(ws);
    }
  }

  lemma WhoIsWhere(waiting: seq<InferenceRequest>, taken: seq<InferenceRequest>, waiting': seq<InferenceRequest>)
    requires multiset(waiting) == multiset(taken) + multiset(waiting')
    ensures forall r :: r in taken || r in waiting' ==> r in waiting
  {
    forall r | r in taken || r in waiting' ensures r in waiting {
      assert r in multiset(taken) || r in multiset(waiting');
      assert r in multiset(waiting);
    }
  }

  /** The batch after an admission. */
  ghost function AdmittedTo(active: seq<InferenceRequest>, waiting: seq<Entry>, agingSeconds: real, settings: Settings,
                            clock: InferenceRequest -> real): seq<InferenceRequest> {
    active + InTimeOf(PlanFor(InOrder(waiting, agingSeconds), |active|, GeneralCount(active), settings, clock).taken,
                      clock)
  }

  /** The states in which `batch` goes into its step: those of its first `n` requests as they are, the
      newcomers' with their prompts put in. */
  ghost function Entering(batch: seq<InferenceRequest>, n: nat): (states: seq<RequestState>)
    reads batch
    ensures |states| == |batch|
  {
    seq(|batch|, i requires 0 <= i < |batch| reads batch =>
      if i < n then batch[i].State() else batch[i].State().(inputIds := batch[i].promptIds))
  }

  lemma AsTheyAre(batch: seq<InferenceRequest>)
    ensures Entering(batch, |batch|) == States(batch)
  {
  }

  lemma {:induction false} InTimeOfInTime(taken: seq<InferenceRequest>, clock: InferenceRequest -> real)
    ensures forall i :: 0 <= i < |InTimeOf(taken, clock)| ==>
              InTimeOf(taken, clock)[i] in taken && !PastDeadline(InTimeOf(taken, clock)[i],
                                                                  clock(InTimeOf(taken, clock)[i]))
  {
    if taken != [] {
      InTimeOfInTime(taken[1..], clock);
    }
  }

  lemma NewcomersEnter(ws: seq<InferenceRequest>, before: seq<RequestState>, now: seq<RequestState>,
                       taken: seq<InferenceRequest>,
                       waiting: seq<InferenceRequest>, clock: InferenceRequest -> real, i: nat) returns (j: nat)
    requires Marked(ws, before, now, taken, clock) && multiset(ws) == multiset(taken) + multiset(waiting)
             && i < |InTimeOf(taken, clock)|
    ensures j < |ws| == |before| == |now| && ws[j] == InTimeOf(taken, clock)[i]
            && now[j] == before[j].(inputIds := ws[j].promptIds)
  {
    InTimeOfInTime(taken, clock);
    WhoIsWhere(ws, taken, waiting);
    j :| 0 <= j < |ws| && ws[j] == InTimeOf(taken, clock)[i];
  }

  lemma AllEnter(n: nat, batch: seq<InferenceRequest>, ws: seq<InferenceRequest>, before: seq<RequestState>,
                 taken: seq<InferenceRequest>,
                 waiting: seq<InferenceRequest>, clock: InferenceRequest -> real, entering: seq<RequestState>)
    requires Marked(ws, before, States(ws), taken, clock) && multiset(ws) == multiset(taken) + multiset(waiting)
    requires n <= |batch| == |entering| && batch[n..] == InTimeOf(taken, clock)
    requires forall i :: 0 <= i < n ==> entering[i] == batch[i].State()
    requires forall i, j :: n <= i < |batch| && 0 <= j < |ws| && batch[i] == ws[j] ==>
               entering[i] == before[j].(inputIds := ws[j].promptIds)
    ensures States(batch) == entering
  {
    forall i | 0 <= i < |batch| ensures batch[i].State() == entering[i] {
      if i >= n {
        var j := NewcomersEnter(ws, before, States(ws), taken, waiting, clock, i - n);
        assert batch[n..][i - n] == batch[i];
      }
    }
  }

  /** Admission, with the states in which the new batch goes on. */
  method Enter(s: ContinuousScheduler, q: PriorityRequestQueue, clock: InferenceRequest -> real)
      returns (ghost plan: Plan)
    requires s.Valid() && q.Valid() && Queued(s.active, q.waiting)
    modifies s`active, q, RequestsOf(q.waiting)
    ensures s.Valid() && q.Valid() && Queued(s.active, q.waiting)
    ensures s.active == old(s.active) + InTimeOf(plan.taken, clock)
    ensures s.active == AdmittedTo(old(s.active), old(q.waiting), q.agingSeconds, s.settings, clock)
    ensures States(s.active) == old(Entering(AdmittedTo(s.active, q.waiting, q.agingSeconds, s.settings, clock),
                                             |s.active|))
    ensures Marked(RequestsOf(old(q.waiting)), old(States(RequestsOf(q.waiting))), States(RequestsOf(old(q.waiting))),
                   plan.taken, clock)
    ensures Kept(old(q.waiting), old(s.active), s.active, q.waiting, plan, s.settings, q.agingSeconds)
  {
    hide InProgress, CellsMatch, PlanFor, InOrder, InTimeOf, Arrivals, Looked, NoTies, NoAlias, GeneralCount,
      GeneralLimit, InferenceRequest.Unstarted;
    ghost var batch, ws, before := s.active, RequestsOf(q.waiting), States(RequestsOf(q.waiting));
    ghost var entering := Entering(AdmittedTo(s.active, q.waiting, q.agingSeconds, s.settings, clock), |s.active|);
    StillApartFrom(batch, batch, ws);
    ghost var rest;
    plan, rest := AddNewRequests(s, q, clock);
    AllEnter(|batch|, s.active, ws, before, plan.taken, RequestsOf(q.waiting), clock, entering);
  }

  method OnAdmit(s: ContinuousScheduler, q: PriorityRequestQueue, clock: InferenceRequest -> real,
                 ghost seen: seq<InferenceRequest>, ghost under: map<InferenceRequest, Model>)
    requires s.Valid() && q.Valid() && Queued(s.active, q.waiting) && Capped(s)
    requires Accounted(s.model, s.settings, seen, under, s.active, RequestsOf(q.waiting))
    modifies s`active, q, RequestsOf(q.waiting)
    ensures s.Valid() && q.Valid() && Queued(s.active, q.waiting) && Capped(s)
    ensures Accounted(s.model, s.settings, seen, under, s.active, RequestsOf(q.waiting))
    ensures forall r :: r in s.active || r in RequestsOf(q.waiting) ==>
              r in old(s.active) || r in RequestsOf(old(q.waiting))
    ensures s.active == AdmittedTo(old(s.active), old(q.waiting), q.agingSeconds, s.settings, clock)
    ensures States(s.active) == old(Entering(AdmittedTo(s.active, q.waiting, q.agingSeconds, s.settings, clock),
                                             |s.active|))
    ensures |q.waiting| <= |old(q.waiting)|
    ensures |q.waiting| == |old(q.waiting)| ==> s.active == old(s.active) && States(s.active) == old(States(s.active))
    ensures s.active == [] && s.settings.maxBatchSize >= 1 ==> q.waiting == []
  {
    hide Closed, InProgress, CellsMatch, PlanFor, InOrder, InTimeOf, Looked, NoAlias, GeneralCount, GeneralLimit,
      Entering, AdmittedTo, NoTies;
    ghost var batch, ws, before := s.active, RequestsOf(q.waiting), States(RequestsOf(q.waiting));
    assert Unbegun(before) && Blockless(ws);
    AsTheyAre(batch);
    ghost var plan := Enter(s, q, clock);
    AdmissionAccounts(s.model, s.settings, seen, under, batch, ws, before, plan.taken, s.active, RequestsOf(q.waiting),
                      clock);
    AdmissionMoves(batch, plan.taken, ws, RequestsOf(q.waiting), clock);
  }

  /** Whoever is taken leaves the queue. */
  lemma AdmissionMoves(batch: seq<InferenceRequest>, taken: seq<InferenceRequest>, ws: seq<InferenceRequest>,
                       waiting: seq<InferenceRequest>, clock: InferenceRequest -> real)
    requires multiset(ws) == multiset(taken) + multiset(waiting)
    ensures |waiting| <= |ws| && (|waiting| == |ws| ==> batch + InTimeOf(taken, clock) == batch)
    ensures GeneralCount([]) == 0
  {
    assert |multiset(ws)| == |ws| && |multiset(taken)| == |taken| && |multiset(waiting)| == |waiting|;
  }

  ghost predicate Unbegun(states: seq<RequestState>) {
    forall i :: 0 <= i < |states| ==>
      states[i].generated == [] && states[i].draws == [] && states[i].queue == []
          && (states[i].future.Pending? || states[i].future.Cancelled?)
  }

  ghost predicate Blockless(rs: seq<InferenceRequest>)
    reads Tables(rs)
  {
    forall i :: 0 <= i < |rs| ==> assert rs[i].table in Tables(rs); HoldsNoBlock(rs[i].table)
  }

  lemma AdmissionAccounts(m: Model, settings: Settings, seen: seq<InferenceRequest>,
                          under: map<InferenceRequest, Model>, batch: seq<InferenceRequest>,
                          ws: seq<InferenceRequest>, before: seq<RequestState>, taken: seq<InferenceRequest>,
                          active: seq<InferenceRequest>, waiting: seq<InferenceRequest>,
                          clock: InferenceRequest -> real)
    requires NoAlias(seen) && Marked(ws, before, States(ws), taken, clock) && Unbegun(before) && Blockless(ws)
    requires active == batch + InTimeOf(taken, clock) && multiset(ws) == multiset(taken) + multiset(waiting)
    requires (forall i :: 0 <= i < |batch| ==> batch[i] in seen) && (forall i :: 0 <= i < |ws| ==> ws[i] in seen)
    requires forall r :: r in seen ==> Placed(m, settings, under, r, batch, ws)
    ensures Accounted(m, settings, seen, under, active, waiting)
    ensures forall r :: r in active || r in waiting ==> r in batch || r in ws
  {
    hide Closed, InTimeOf, NoAlias, Looked;
    InTimeOfOnly(taken, clock);
    WhoIsWhere(ws, taken, waiting);
    forall i | 0 <= i < |active| ensures active[i] in seen {
      assert active[i] in batch || active[i] in InTimeOf(taken, clock);
    }
    forall i | 0 <= i < |waiting| ensures waiting[i] in seen {
      assert waiting[i] in waiting;
    }
    forall r | r in seen ensures Placed(m, settings, under, r, active, waiting) {
      if r in ws {
        var i :| 0 <= i < |ws| && ws[i] == r;
        WaitingAccounted(m, settings, ws, before, States(ws), taken, active, waiting, clock, i);
      }
    }
  }

  /** A smaller batch without repeats has no more of either class. */
  lemma {:induction false} FewerCount(rs: seq<InferenceRequest>, kept: seq<InferenceRequest>)
    requires NoAlias(kept) && forall i :: 0 <= i < |kept| ==> kept[i] in rs
    ensures |kept| <= |rs| && GeneralCount(kept) <= GeneralCount(rs)
  {
    if kept != [] {
      var n := |kept| - 1;
      var i :| 0 <= i < |rs| && rs[i] == kept[n];
      CountWithout(rs, i);
      forall j | 0 <= j < n ensures kept[..n][j] in Without(rs, i) {
        assert kept[j] in rs && kept[j] != kept[n];
      }
      FewerCount(Without(rs, i), kept[..n]);
    }
  }

  lemma {:induction false} CountWithout(rs: seq<InferenceRequest>, i: nat)
    requires i < |rs|
    ensures GeneralCount(rs) == GeneralCount(Without(rs, i)) + if IsShort(rs[i]) then 0 else 1
  {
    var n := |rs| - 1;
    if i == n {
      assert Without(rs, i) == rs[..n];
    } else {
      CountWithout(rs[..n], i);
      assert Without(rs, i)[..n - 1] == Without(rs[..n], i);
    }
  }

  lemma StillApartFrom(batch: seq<InferenceRequest>, kept: seq<InferenceRequest>, waiting: seq<InferenceRequest>)
    requires NoAlias(batch + waiting) && NoAlias(kept) && forall i :: 0 <= i < |kept| ==> kept[i] in batch
    ensures NoAlias(kept + waiting)
    ensures forall r :: r in waiting ==> r !in batch && r.table !in Tables(batch)
  {
    var all := batch + waiting;
    forall i, j | 0 <= i < |batch| && 0 <= j < |waiting|
      ensures batch[i] != waiting[j] && batch[i].table != waiting[j].table
    {
      assert all[i] == batch[i] && all[|batch| + j] == waiting[j];
    }
    forall i, j | 0 <= i < j < |waiting|
      ensures waiting[i] != waiting[j] && waiting[i].table != waiting[j].table
    {
      assert all[|batch| + i] == waiting[i] && all[|batch| + j] == waiting[j];
    }
    forall i | 0 <= i < |kept| ensures forall j :: 0 <= j < |waiting| ==>
          kept[i] != waiting[j] && kept[i].table != waiting[j].table {
      var k :| 0 <= k < |batch| && batch[k] == kept[i];
    }
  }

  /** A step touches nobody outside the batch. */
  method StepBeside(s: ContinuousScheduler, env: StepEnv, ghost waiting: seq<InferenceRequest>,
                    ghost seen: seq<InferenceRequest>, ghost under: map<InferenceRequest, Model>)
    requires s.Valid() && Admissible(waiting)
    requires forall r :: r in waiting ==> r !in s.active && r.table !in Tables(s.active)
    requires forall r :: r in seen && r !in s.active ==> r.table !in Tables(s.active)
    requires forall r :: r in seen ==> Placed(s.model, s.settings, under, r, s.active, waiting)
    modifies s`active, s`cache, s`idleSince, s`peakUsedBlocks, s.cache, s.active, Tables(s.active)
    ensures s.Valid() && Admissible(waiting) && (s.cache == old(s.cache) || fresh(s.cache))
    ensures forall i :: 0 <= i < |s.active| ==> s.active[i] in old(s.active)
    ensures forall r :: r in seen ==> Placed(s.model, s.settings, under, r, s.active, waiting)
    ensures AllStepped(s.model, s.settings, old(s.active), old(States(s.active)), States(old(s.active)), s.active, env)
    ensures s.Work() + |old(s.active)| <= old(s.Work())
  {
    hide States, Closed, InProgress, CellsMatch, AllStepped, ContinuousScheduler.Work, HoldsNoBlock,
      ContinuousScheduler.Backed, InferenceRequest.Unstarted;
    ghost var batch := s.active;
    s.StepMakesProgress(env);
    assert forall r :: r in batch && r !in s.active ==> HoldsNoBlock(r.table);
  }

  method OnStep(s: ContinuousScheduler, env: StepEnv, ghost waiting: seq<InferenceRequest>,
                ghost seen: seq<InferenceRequest>, ghost under: map<InferenceRequest, Model>)
    requires s.Valid() && NoAlias(s.active + waiting) && Admissible(waiting) && Capped(s)
    requires Accounted(s.model, s.settings, seen, under, s.active, waiting)
    modifies s`active, s`cache, s`idleSince, s`peakUsedBlocks, s.cache, s.active, Tables(s.active)
    ensures s.Valid() && NoAlias(s.active + waiting) && Admissible(waiting) && Capped(s)
    ensures Accounted(s.model, s.settings, seen, under, s.active, waiting)
            && (s.cache == old(s.cache) || fresh(s.cache))
    ensures forall i :: 0 <= i < |s.active| ==> s.active[i] in old(s.active)
    ensures AllStepped(s.model, s.settings, old(s.active), old(States(s.active)), States(old(s.active)), s.active, env)
    ensures s.Work() + |old(s.active)| <= old(s.Work())
  {
    hide Closed, InProgress, CellsMatch, AllStepped, ContinuousScheduler.Work, GeneralCount, GeneralLimit;
    ghost var batch := s.active;
    StillApartFrom(batch, batch, waiting);
    Outside(seen, batch);
    StepBeside(s, env, waiting, seen, under);
    StillApartFrom(batch, s.active, waiting);
    FewerCount(batch, s.active);
  }

  /** `batch` has taken a step from `before` if there is anybody in it, and `active` are those left. */
  ghost predicate StepsFrom(m: Model, settings: Settings, batch: seq<InferenceRequest>, before: seq<RequestState>,
                            active: seq<InferenceRequest>, env: StepEnv)
    reads batch
  {
    && |before| == |batch| && (forall i :: 0 <= i < |batch| ==> InProgress(m, settings, batch[i], before[i]))
    && if batch == [] then active == [] else AllStepped(m, settings, batch, before, States(batch), active, env)
  }

  /** One turn of the loop: admit, then take a step, or mind the idle pool. */
  method OnTick(s: ContinuousScheduler, q: PriorityRequestQueue, clock: InferenceRequest -> real, env: StepEnv,
                ghost seen: seq<InferenceRequest>, ghost under: map<InferenceRequest, Model>)
    requires s.Valid() && q.Valid() && Queued(s.active, q.waiting) && Capped(s)
    requires Accounted(s.model, s.settings, seen, under, s.active, RequestsOf(q.waiting))
    modifies s`active, s`cache, s`idleSince, s`peakUsedBlocks, s.cache, seen, Tables(seen), q
    ensures s.Valid() && q.Valid() && Queued(s.active, q.waiting) && Capped(s)
    ensures Accounted(s.model, s.settings, seen, under, s.active, RequestsOf(q.waiting))
            && (s.cache == old(s.cache) || fresh(s.cache))
    ensures forall r :: r in seen && r !in old(s.active) && r !in RequestsOf(old(q.waiting)) ==>
              r.State() == old(r.State())
    ensures StepsFrom(s.model, s.settings, AdmittedTo(old(s.active), old(q.waiting), q.agingSeconds, s.settings, clock),
                      old(Entering(AdmittedTo(s.active, q.waiting, q.agingSeconds, s.settings, clock), |s.active|)),
                          s.active, env)
    ensures |q.waiting| <= |old(q.waiting)|
    ensures |q.waiting| == |old(q.waiting)| ==>
              && s.Work() + |old(s.active)| <= old(s.Work())
              && (s.settings.maxBatchSize >= 1 && old(s.active) == [] ==> q.waiting == [])
    ensures old(AdmittedTo(s.active, q.waiting, q.agingSeconds, s.settings, clock)) == [] && s.cache != null ==>
              Minded(s.settings, env.later, old(s.idleSince), old(s.peakUsedBlocks), s.idleSince, s.peakUsedBlocks)
  {
    hide Minded, Over, InferenceRequest.Unstarted, Closed, InProgress, CellsMatch, NoAlias, GeneralCount, GeneralLimit,
      StepsFrom, AdmittedTo, TokensLeft, Entering;
    OnAdmit(s, q, clock, seen, under);
    Proceed(s, env, RequestsOf(q.waiting), seen, under);
  }

  /** A step for the batch, or a look at the idle pool. */
  method Proceed(s: ContinuousScheduler, env: StepEnv, ghost waiting: seq<InferenceRequest>,
                 ghost seen: seq<InferenceRequest>, ghost under: map<InferenceRequest, Model>)
    requires s.Valid() && NoAlias(s.active + waiting) && Admissible(waiting) && Capped(s)
    requires Accounted(s.model, s.settings, seen, under, s.active, waiting)
    modifies s`active, s`cache, s`idleSince, s`peakUsedBlocks, s.cache, s.active, Tables(s.active)
    ensures s.Valid() && NoAlias(s.active + waiting) && Admissible(waiting) && Capped(s)
    ensures Accounted(s.model, s.settings, seen, under, s.active, waiting)
            && (s.cache == old(s.cache) || fresh(s.cache))
    ensures StepsFrom(s.model, s.settings, old(s.active), old(States(s.active)), s.active, env)
    ensures s.Work() + |old(s.active)| <= old(s.Work())
    ensures old(s.active) == [] && s.cache != null ==>
              Minded(s.settings, env.later, old(s.idleSince), old(s.peakUsedBlocks), s.idleSince, s.peakUsedBlocks)
  {
    hide Minded, Closed, InProgress, CellsMatch, NoAlias, GeneralCount, GeneralLimit, AllStepped,
      ContinuousScheduler.Work;
    assert forall i :: 0 <= i < |s.active| ==> InProgress(s.model, s.settings, s.active[i], States(s.active)[i]);
    if s.active == [] {
      s.MaybeTrimKvPool(env.later);
    } else {
      OnStep(s, env, waiting, seen, under);
    }
  }

  lemma OverIsResolved(settings: Settings, under: map<InferenceRequest, Model>, r: InferenceRequest)
    requires Over(settings, under, r)
    ensures !r.future.Pending?
  {
  }

  /** What is there after an activity: whoever arrives now came under the model that serves now. */
  ghost function SeenAfter(seen: seq<InferenceRequest>, e: Activity): seq<InferenceRequest> {
    if e.Arrive? then seen + [e.request] else seen
  }

  ghost function UnderAfter(under: map<InferenceRequest, Model>, m: Model, e: Activity): map<InferenceRequest, Model> {
    if e.Arrive? then under[e.request := m] else under
  }

  method OnActivity(s: ContinuousScheduler, q: PriorityRequestQueue, e: Activity, ghost seen: seq<InferenceRequest>,
                    ghost under: map<InferenceRequest, Model>)
    requires s.Valid() && q.Valid() && Queued(s.active, q.waiting) && Capped(s)
    requires Accounted(s.model, s.settings, seen, under, s.active, RequestsOf(q.waiting))
    requires e.Arrive? ==> NoAlias(seen + [e.request]) && e.request.Unstarted() && e.request.maxTokens >= 1
    modifies s`active, s`cache, s`idleSince, s`peakUsedBlocks, s.cache, seen, Tables(seen), q,
             if e.Cancel? then {e.request} else {}
    ensures s.Valid() && q.Valid() && Queued(s.active, q.waiting) && Capped(s)
            && (s.cache == old(s.cache) || fresh(s.cache))
    ensures Accounted(s.model, s.settings, SeenAfter(seen, e), UnderAfter(under, s.model, e), s.active,
                      RequestsOf(q.waiting))
    ensures e.Cancel? && old(e.request.Unstarted()) ==> e.request.Unstarted()
    ensures e.Arrive? ==> s.active == old(s.active) && RequestsOf(q.waiting) == old(RequestsOf(q.waiting)) + [e.request]
    ensures e.Cancel? ==>
              s.active == old(s.active) && q.waiting == old(q.waiting)
                  && (old(e.request.future.Pending?) ==> e.request.future == Cancelled)
    ensures e.Tick? ==>
              StepsFrom(s.model, s.settings, AdmittedTo(old(s.active), old(q.waiting), q.agingSeconds, s.settings,
                                                        e.clock),
                        old(Entering(AdmittedTo(s.active, q.waiting, q.agingSeconds, s.settings, e.clock),
                                     |s.active|)), s.active, e.env)
    // a request that is done with is never touched again
    ensures forall r :: r in seen && r !in old(s.active) && r !in RequestsOf(old(q.waiting)) ==>
              r.State() == old(r.State())
  {
    hide Closed, InProgress, CellsMatch, NoAlias, GeneralCount, GeneralLimit, AdmittedTo, StepsFrom, Entering,
      ContinuousScheduler.Work;
    match e {
      case Arrive(r) => OnArrive(s, q, r, seen, under);
      case Cancel(r) =>
        if r in seen && r !in s.active && r !in RequestsOf(q.waiting) {
          OverIsResolved(s.settings, under, r);
        }
        OnCancel(s, r, RequestsOf(q.waiting), seen, under);
      case Tick(clock, env) => OnTick(s, q, clock, env, seen, under);
    }
  }

  /** The requests that arrive, in order. */
  ghost function Arriving(es: seq<Activity>): seq<InferenceRequest> {
    if es == [] then [] else SeenAfter(Arriving(es[..|es| - 1]), es[|es| - 1])
  }

  lemma ArrivingNext(es: seq<Activity>, i: nat)
    requires i < |es|
    ensures Arriving(es[..i + 1]) == SeenAfter(Arriving(es[..i]), es[i])
  {
    assert es[..i + 1][..i] == es[..i];
  }

  lemma {:induction false} ArrivingPrefix(es: seq<Activity>, i: nat)
    requires i <= |es|
    ensures Arriving(es[..i]) <= Arriving(es)
    decreases |es| - i
  {
    if i == |es| {
      assert es[..i] == es;
    } else {
      ArrivingNext(es, i);
      ArrivingPrefix(es, i + 1);
    }
  }

  /** Who arrives while `m` serves came under `m`. */
  ghost function CameUnder(under: map<InferenceRequest, Model>, m: Model,
                           rs: seq<InferenceRequest>): map<InferenceRequest, Model> {
    under + map r | r in rs :: m
  }

  lemma CameUnderNext(under: map<InferenceRequest, Model>, m: Model, rs: seq<InferenceRequest>, e: Activity)
    ensures CameUnder(under, m, SeenAfter(rs, e)) == UnderAfter(CameUnder(under, m, rs), m, e)
    ensures CameUnder(under, m, []) == under
  {
    if e.Arrive? {
      OneMoreCame(under, m, rs, e.request);
    }
  }

  lemma OneMoreCame(under: map<InferenceRequest, Model>, m: Model, rs: seq<InferenceRequest>, q: InferenceRequest)
    ensures CameUnder(under, m, rs + [q]) == CameUnder(under, m, rs)[q := m]
  {
    var news, more := map r | r in rs :: m, map r | r in rs + [q] :: m;
    assert more.Keys == news.Keys + {q};
    assert more == news[q := m];
  }

  lemma CameUnderMore(under: map<InferenceRequest, Model>, m: Model, rs: seq<InferenceRequest>,
                      ts: seq<InferenceRequest>)
    ensures CameUnder(CameUnder(under, m, rs), m, ts) == CameUnder(under, m, rs + ts)
  {
  }

  /** `all` are the requests of a whole run. Those that have not arrived yet are as they were made. */
  ghost predicate ToCome(all: seq<InferenceRequest>, seen: seq<InferenceRequest>)
    reads all, Tables(all)
  {
    && NoAlias(all)
    && (forall i :: 0 <= i < |seen| ==> seen[i] in all)
    && (forall r :: r in all && r !in seen ==> assert r.table in Tables(all); r.Unstarted() && r.maxTokens >= 1)
  }

  /** A server in order: the scheduler, the queue, and everyone who has come so far. */
  ghost predicate InOrderly(s: ContinuousScheduler, q: PriorityRequestQueue, all: seq<InferenceRequest>,
                            seen: seq<InferenceRequest>, under: map<InferenceRequest, Model>)
    reads s, s.cache, s.CacheTables(), s.active, Tables(s.active), q, RequestsOf(q.waiting),
          Tables(RequestsOf(q.waiting))
    reads all, Tables(all), seen, Tables(seen)
  {
    && s.Valid() && q.Valid() && Queued(s.active, q.waiting) && Capped(s)
    && Accounted(s.model, s.settings, seen, under, s.active, RequestsOf(q.waiting))
    && ToCome(all, seen)
  }

  /** Those that have not arrived yet share nothing with those that have. */
  lemma NotYet(all: seq<InferenceRequest>, seen: seq<InferenceRequest>, e: Activity)
    requires ToCome(all, seen) && NoAlias(SeenAfter(seen, e)) && (!e.Tick? ==> e.request in all)
    ensures forall r :: r in all && r !in seen ==> r.table !in Tables(seen) && r.Unstarted() && r.maxTokens >= 1
    ensures e.Arrive? ==> e.request !in seen
  {
    if e.Arrive? {
      Outsider(seen, e.request);
    }
  }

  /** One activity of a run, with what it leaves alone: whoever has not arrived yet. */
  method RunTurn(s: ContinuousScheduler, q: PriorityRequestQueue, e: Activity, ghost all: seq<InferenceRequest>,
                 ghost seen: seq<InferenceRequest>, ghost under: map<InferenceRequest, Model>)
    requires InOrderly(s, q, all, seen, under)
    requires NoAlias(SeenAfter(seen, e)) && (!e.Tick? ==> e.request in all)
    modifies s`active, s`cache, s`idleSince, s`peakUsedBlocks, s.cache, all, Tables(all), q
    ensures InOrderly(s, q, all, SeenAfter(seen, e), UnderAfter(under, s.model, e))
            && (s.cache == old(s.cache) || fresh(s.cache))
  {
    hide StepsFrom, AdmittedTo, Entering, ContinuousScheduler.Work, Closed, InProgress, CellsMatch, GeneralCount,
      GeneralLimit, NoAlias, ContinuousScheduler.Valid, Accounted, InferenceRequest.Unstarted;
    NotYet(all, seen, e);
    OnActivity(s, q, e, seen, under);
  }

  ghost predicate Concerns(es: seq<Activity>, all: seq<InferenceRequest>) {
    forall i :: 0 <= i < |es| && !es[i].Tick? ==> es[i].request in all
  }

  /** Every run of activities: each request that has arrived is waiting untouched, generating in the
      batch with exactly the tokens a full recomputation gives, or closed for good with exactly those
      and holding no block; the caps hold; and the cache holds what the batch needs and nothing else. */
  method Run(s: ContinuousScheduler, q: PriorityRequestQueue, es: seq<Activity>, ghost all: seq<InferenceRequest>,
             ghost seen: seq<InferenceRequest>, ghost under: map<InferenceRequest, Model>)
    requires InOrderly(s, q, all, seen, under)
    requires NoAlias(seen + Arriving(es)) && Concerns(es, all)
    modifies s`active, s`cache, s`idleSince, s`peakUsedBlocks, s.cache, all, Tables(all), q
    ensures InOrderly(s, q, all, seen + Arriving(es), CameUnder(under, s.model, Arriving(es)))
            && (s.cache == old(s.cache) || fresh(s.cache))
    ensures es == [] ==> s.active == old(s.active) && q.waiting == old(q.waiting)
  {
    hide InOrderly, Arriving;
    ghost var first := s.cache;
    BeforeAnyone(seen, under, s.model);
    for i := 0 to |es|
      invariant s.cache == first || fresh(s.cache)
      invariant InOrderly(s, q, all, seen + Arriving(es[..i]), CameUnder(under, s.model, Arriving(es[..i])))
      invariant i == 0 ==> s.active == old(s.active) && q.waiting == old(q.waiting)
    {
      NextComes(es, i, seen, under, s.model);
      RunTurn(s, q, es[i], all, seen + Arriving(es[..i]), CameUnder(under, s.model, Arriving(es[..i])));
    }
    assert es[..|es|] == es;
  }

  /** In every run: whoever has a result has the text at which decoding and searching everything would
      have stopped, if it would, and in any case one without a stop sequence. */
  lemma EveryResultIsRight(s: ContinuousScheduler, q: PriorityRequestQueue, all: seq<InferenceRequest>,
                           seen: seq<InferenceRequest>, under: map<InferenceRequest, Model>, r: InferenceRequest,
                           piece: int -> string)
    requires InOrderly(s, q, all, seen, under) && r in seen && r.future.Result?
    ensures r in under && |r.generated| >= 1
    ensures var (m, full) := (under[r], FullRun(under[r].decode, r.generated, r.stopSequences));
            Concatenates(m.decode, piece) && EnoughSlack(piece, r.generated, r.stopSequences,
                                                         s.settings.stopWindowSlack) ==>
              && Clean(r.future.text, r.stopSequences)
              && if full.Some? then full.value == (|r.generated|, r.future.text)
                 else r.future.text == m.decode(r.generated)
                      && (r.generated[|r.generated| - 1] == m.eosId || |r.generated| == r.maxTokens || r.deadline.Some?)
  {
    hide FullRun, Clean, Concatenates, EnoughSlack, CellsMatch, Recomputed, StillOpen, Capped;
    assert Placed(s.model, s.settings, under, r, s.active, RequestsOf(q.waiting));
    if Concatenates(under[r].decode, piece) && EnoughSlack(piece, r.generated, r.stopSequences,
                                                           s.settings.stopWindowSlack) {
      ResultIsFullRun(under[r], s.settings, r, r.State(), piece);
    }
  }

  /** In every run: nobody generates anything behind the end marker or beyond the limit, and whoever gets
      there is done, not failed. */
  lemma EveryoneStops(s: ContinuousScheduler, q: PriorityRequestQueue, all: seq<InferenceRequest>,
                      seen: seq<InferenceRequest>, under: map<InferenceRequest, Model>, r: InferenceRequest)
    requires InOrderly(s, q, all, seen, under) && r in seen
    ensures r in under && forall k :: 0 <= k < |r.generated| - 1 ==> r.generated[k] != under[r].eosId
    ensures r.generated != [] && (r.generated[|r.generated| - 1] == under[r].eosId || |r.generated| == r.maxTokens) ==>
              !r.future.Error? && r.queue == Tokens(r.generated) + [Done]
    ensures |r.generated| <= r.maxTokens
  {
    hide InProgress, Closed, CellsMatch, Capped, NoAlias, Tokens;
    assert Placed(s.model, s.settings, under, r, s.active, RequestsOf(q.waiting));
    EndMarkerEnds(under[r], s.settings, r, r.State());
    if r in RequestsOf(q.waiting) {
      var i :| 0 <= i < |RequestsOf(q.waiting)| && RequestsOf(q.waiting)[i] == r;
      assert RequestsOf(q.waiting)[i].Unstarted();
    }
  }

  lemma BeforeAnyone(seen: seq<InferenceRequest>, under: map<InferenceRequest, Model>, m: Model)
    ensures forall es: seq<Activity> ::
            seen + Arriving(es[..0]) == seen && CameUnder(under, m, Arriving(es[..0])) == under
  {
    forall es: seq<Activity> ensures Arriving(es[..0]) == [] {
      assert es[..0] == [];
    }
  }

  lemma NextComes(es: seq<Activity>, i: nat, seen: seq<InferenceRequest>, under: map<InferenceRequest, Model>, m: Model)
    requires i < |es| && NoAlias(seen + Arriving(es))
    ensures NoAlias(SeenAfter(seen + Arriving(es[..i]), es[i]))
    ensures seen + Arriving(es[..i + 1]) == SeenAfter(seen + Arriving(es[..i]), es[i])
    ensures CameUnder(under, m, Arriving(es[..i + 1])) == UnderAfter(CameUnder(under, m, Arriving(es[..i])), m, es[i])
  {
    hide Arriving, CameUnder, UnderAfter;
    ArrivingNext(es, i);
    ArrivingPrefix(es, i + 1);
    CameUnderNext(under, m, Arriving(es[..i]), es[i]);
    assert seen + Arriving(es[..i + 1]) == SeenAfter(seen + Arriving(es[..i]), es[i]);
    PrefixApart(seen, Arriving(es), Arriving(es[..i + 1]), []);
  }

  /** Leaving some out keeps the others apart. */
  lemma PrefixApart(seen: seq<InferenceRequest>, next: seq<InferenceRequest>, some: seq<InferenceRequest>,
                    later: seq<InferenceRequest>)
    requires NoAlias(seen + next + later) && some <= next
    ensures NoAlias(seen + some + later) && NoAlias(seen + some)
  {
    var all, fewer, skipped := seen + next + later, seen + some + later, |next| - |some|;
    forall i, j | 0 <= i < j < |fewer| ensures fewer[i] != fewer[j] && fewer[i].table != fewer[j].table {
      var i' := if i < |seen + some| then i else i + skipped;
      var j' := if j < |seen + some| then j else j + skipped;
      assert all[i'] == fewer[i] && all[j'] == fewer[j];
    }
    assert seen + some == fewer[..|seen + some|];
  }

  /** Left alone, the server comes to rest: whatever the clock and the model do, after finitely many
      turns the queue and the batch are empty, and everyone is resolved and holds no block. */
  method ComeToRest(s: ContinuousScheduler, q: PriorityRequestQueue, clocks: nat -> InferenceRequest -> real,
                    envs: nat -> StepEnv, ghost seen: seq<InferenceRequest>, ghost under: map<InferenceRequest, Model>)
    requires s.Valid() && q.Valid() && Queued(s.active, q.waiting) && Capped(s) && s.settings.maxBatchSize >= 1
    requires Accounted(s.model, s.settings, seen, under, s.active, RequestsOf(q.waiting))
    modifies s`active, s`cache, s`idleSince, s`peakUsedBlocks, s.cache, seen, Tables(seen), q
    ensures s.Valid() && q.Valid() && s.active == [] && q.waiting == []
    ensures forall r :: r in seen ==> Over(s.settings, under, r)
  {
    hide InferenceRequest.Unstarted, Closed, InProgress, CellsMatch, NoAlias, GeneralCount, GeneralLimit, StepsFrom,
      AdmittedTo, ContinuousScheduler.Work, Entering, Over, ContinuousScheduler.Backed;
    ghost var first := s.cache;
    var turn := 0;
    while s.active != [] || !q.Empty()
      invariant s.Valid() && q.Valid() && Queued(s.active, q.waiting) && Capped(s)
                && (s.cache == first || fresh(s.cache))
      invariant Accounted(s.model, s.settings, seen, under, s.active, RequestsOf(q.waiting))
      decreases |q.waiting|, s.Work()
    {
      OnTick(s, q, clocks(turn), envs(turn), seen, under);
      turn := turn + 1;
    }
  }

  // ---------------------------------------------------------------- draining

  /** One look at the queues while draining; `during` is what happens until the next one. */
  datatype Poll = Poll(now: real, othersBusy: bool, during: seq<Activity>)

  ghost predicate Busy(active: seq<InferenceRequest>, waiting: seq<Entry>, poll: Poll) {
    active != [] || waiting != [] || poll.othersBusy
  }

  /** The requests that arrive between the looks, in order. */
  ghost function Comers(polls: seq<Poll>): seq<InferenceRequest> {
    if polls == [] then [] else Comers(polls[..|polls| - 1]) + Arriving(polls[|polls| - 1].during)
  }

  lemma ComersNext(polls: seq<Poll>, i: nat)
    requires i < |polls|
    ensures Comers(polls[..i + 1]) == Comers(polls[..i]) + Arriving(polls[i].during)
    ensures Comers(polls[..0]) == []
  {
    assert polls[..i + 1][..i] == polls[..i];
  }

  lemma {:induction false} ComersPrefix(polls: seq<Poll>, i: nat)
    requires i <= |polls|
    ensures Comers(polls[..i]) <= Comers(polls)
    decreases |polls| - i
  {
    hide Arriving;
    if i == |polls| {
      assert polls[..i] == polls;
    } else {
      ComersNext(polls, i);
      ComersPrefix(polls, i + 1);
    }
  }

  lemma NextComers(polls: seq<Poll>, i: nat, seen: seq<InferenceRequest>, under: map<InferenceRequest, Model>, m: Model)
    requires i < |polls| && NoAlias(seen + Comers(polls))
    ensures NoAlias(seen + Comers(polls[..i]) + Arriving(polls[i].during))
    ensures seen + Comers(polls[..i + 1]) == seen + Comers(polls[..i]) + Arriving(polls[i].during)
    ensures CameUnder(under, m, Comers(polls[..i + 1]))
            == CameUnder(CameUnder(under, m, Comers(polls[..i])), m, Arriving(polls[i].during))
  {
    hide Arriving, CameUnder, Comers;
    ComersNext(polls, i);
    ComersPrefix(polls, i + 1);
    PrefixApart(seen, Comers(polls), Comers(polls[..i + 1]), []);
    CameUnderMore(under, m, Comers(polls[..i]), Arriving(polls[i].during));
    assert seen + Comers(polls[..i + 1]) == seen + Comers(polls[..i]) + Arriving(polls[i].during);
  }

  /** Nothing happens between the looks. */
  ghost predicate Undisturbed(polls: seq<Poll>) {
    forall i :: 0 <= i < |polls| ==> polls[i].during == []
  }

  /** The first look that finds nobody comes before the deadline is seen to pass. */
  ghost predicate IdleInTime(active: seq<InferenceRequest>, waiting: seq<Entry>, polls: seq<Poll>, deadline: real) {
    exists i :: 0 <= i < |polls| && !Busy(active, waiting, polls[i]) && forall j :: 0 <= j < i ==>
          polls[j].now < deadline
  }

  /** Waits until nothing is in flight, or until the deadline; the server goes on meanwhile. */
  method Drain(s: ContinuousScheduler, q: PriorityRequestQueue, polls: seq<Poll>, deadline: real,
               ghost all: seq<InferenceRequest>,
               ghost seen: seq<InferenceRequest>, ghost under: map<InferenceRequest, Model>)
      returns (drained: bool, ghost waits: nat)
    requires InOrderly(s, q, all, seen, under)
    requires polls != [] && polls[|polls| - 1].now >= deadline
    requires NoAlias(seen + Comers(polls)) && forall i :: 0 <= i < |polls| ==> Concerns(polls[i].during, all)
    modifies s`active, s`cache, s`idleSince, s`peakUsedBlocks, s.cache, all, Tables(all), q
    ensures waits < |polls| && s.model == old(s.model) && (s.cache == old(s.cache) || fresh(s.cache))
    ensures InOrderly(s, q, all, seen + Comers(polls[..waits]), CameUnder(under, s.model, Comers(polls[..waits])))
    ensures drained <==> !Busy(s.active, q.waiting, polls[waits])
    ensures !drained ==> polls[waits].now >= deadline
    ensures forall j :: 0 <= j < waits ==> polls[j].now < deadline
    ensures !Busy(old(s.active), old(q.waiting), polls[0]) ==> drained && waits == 0
    ensures Undisturbed(polls) ==> (drained <==> IdleInTime(old(s.active), old(q.waiting), polls, deadline))
  {
    hide IdleInTime, InOrderly, Arriving, Concerns, Comers, CameUnder, NoAlias;
    ghost var first, m, here, soFar := s.cache, s.model, seen, under;
    var i := 0;
    NobodyYet(polls, seen, under, m);
    while true
      invariant i < |polls| && (s.cache == first || fresh(s.cache))
      invariant here == seen + Comers(polls[..i]) && soFar == CameUnder(under, m, Comers(polls[..i]))
                && InOrderly(s, q, all, here, soFar)
      invariant forall j :: 0 <= j < i ==> polls[j].now < deadline
      invariant i == 0 || Undisturbed(polls) ==> s.active == old(s.active) && q.waiting == old(q.waiting)
      invariant i > 0 ==> Busy(old(s.active), old(q.waiting), polls[0])
      invariant Undisturbed(polls) ==> forall j :: 0 <= j < i ==> Busy(old(s.active), old(q.waiting), polls[j])
      decreases |polls| - i
    {
      if Undisturbed(polls) {
        LookedUpTo(s.active, q.waiting, polls, deadline, i);
      }
      var empty := IsEmpty(s, q, all, here, soFar);
      if s.active == [] && empty && !polls[i].othersBusy {
        return true, i;
      }
      if polls[i].now >= deadline {
        return false, i;
      }
      NextComers(polls, i, seen, under, m);
      Run(s, q, polls[i].during, all, here, soFar);
      here, soFar := here + Arriving(polls[i].during), CameUnder(soFar, m, Arriving(polls[i].during));
      i := i + 1;
    }
  }

  /** Every look so far has found somebody, in time: what the next one finds decides. */
  lemma LookedUpTo(active: seq<InferenceRequest>, waiting: seq<Entry>, polls: seq<Poll>, deadline: real, i: nat)
    requires i < |polls| && forall j :: 0 <= j < i ==> Busy(active, waiting, polls[j]) && polls[j].now < deadline
    ensures !Busy(active, waiting, polls[i]) ==> IdleInTime(active, waiting, polls, deadline)
    ensures Busy(active, waiting, polls[i]) && polls[i].now >= deadline ==>
              !IdleInTime(active, waiting, polls, deadline)
  {
  }

  method IsEmpty(s: ContinuousScheduler, q: PriorityRequestQueue, ghost all: seq<InferenceRequest>,
                 ghost seen: seq<InferenceRequest>, ghost under: map<InferenceRequest, Model>) returns (empty: bool)
    requires InOrderly(s, q, all, seen, under)
    ensures InOrderly(s, q, all, seen, under) && (empty <==> q.waiting == [])
  {
    empty := q.Empty();
  }

  lemma NobodyYet(polls: seq<Poll>, seen: seq<InferenceRequest>, under: map<InferenceRequest, Model>, m: Model)
    requires polls != []
    ensures seen + Comers(polls[..0]) == seen && CameUnder(under, m, Comers(polls[..0])) == under
  {
    ComersNext(polls, 0);
  }

  /** With nobody in flight, any model may take over. */
  lemma NobodyLeft(m: Model, n: Model, settings: Settings, seen: seq<InferenceRequest>,
                   under: map<InferenceRequest, Model>)
    requires Accounted(m, settings, seen, under, [], [])
    ensures Accounted(n, settings, seen, under, [], []) && forall r :: r in seen ==> Over(settings, under, r)
  {
  }
}
