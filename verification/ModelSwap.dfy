/** Changing the model at run time, and how the workers of a pool agree on it
    (scheduler/model_swap.py, scheduler/model_state.py). */
module ModelSwap {
  import opened Common
  import opened CausalModel
  import opened Requests
  import opened RequestQueue
  import opened Scheduler
  import opened Admission
  import opened Server

  // ---------------------------------------------------------------- one worker

  datatype SwapResult = Swapped | TimedOut | LoadFailed

  /** Which loads of a swap work: the new tokenizer, the new model, and, should one of them fail, the
      old tokenizer again. */
  datatype Loads = Loads(tokenizer: bool, model: bool, rollback: bool)

  /** What happens in the life of a worker. A swap brings the looks it takes while draining. */
  datatype Event =
    | Does(activity: Activity)
    | Swap(name: string, polls: seq<Poll>, deadline: real, loads: Loads)

  /** The names whose model and whose tokenizer are in memory. */
  datatype Names = Names(model: string, tokenizer: string)

  predicate Paired(names: Names) {
    names.tokenizer == names.model
  }

  /** What answers a request: the one's model, and the other's tokenizer around it. */
  ghost function Serving(load: string -> Model, names: Names): Model {
    var tokenizer := load(names.tokenizer);
    load(names.model).(decode := tokenizer.decode, padId := tokenizer.padId)
  }

  /** What loading leaves in memory. */
  ghost function NamesAfter(names: Names, newName: string, loads: Loads): Names {
    if loads.tokenizer && loads.model then Names(newName, newName)
    else if loads.rollback then Names(names.model, names.model)
    else if loads.tokenizer then Names(names.model, newName)
    else names
  }

  /** One moment in a life: what is in memory, and whether nobody is there. */
  datatype Moment = Moment(names: Names, idle: bool)

  /** The record of a life: the moments before each event and after the last; how often a swap looked
      in vain; who came during each event, and what served when they did. */
  datatype Chronicle = Chronicle(moments: seq<Moment>, waits: seq<nat>, came: seq<seq<InferenceRequest>>,
                                 under: map<InferenceRequest, Model>)

  class Process {
    const scheduler: ContinuousScheduler
    const queue: PriorityRequestQueue
    const load: string -> Model    // what each name stands for, with the tokenizer that belongs to it
    var modelName: string
    var tokenizerName: string

    constructor (scheduler: ContinuousScheduler, queue: PriorityRequestQueue, load: string -> Model, modelName: string)
      requires scheduler.model == load(modelName)
      ensures this.scheduler == scheduler && this.queue == queue && this.load == load && this.modelName == modelName
      ensures Loaded() && Paired(InMemory())
    {
      this.scheduler, this.queue, this.load, this.modelName, tokenizerName := scheduler, queue, load, modelName,
          modelName;
    }

    ghost function InMemory(): Names
      reads this
    {
      Names(modelName, tokenizerName)
    }

    /** The scheduler runs what is in memory. */
    ghost predicate Loaded()
      reads this, scheduler`model
    {
      scheduler.model == Serving(load, InMemory())
    }

    /** Drains, then replaces the tokenizer and the model, and drops everything built for the old
        one. A swap that fails on the way leaves the worker on the model it had. */
    method SwapModel(newName: string, polls: seq<Poll>, deadline: real, loads: Loads,
                     ghost all: seq<InferenceRequest>, ghost seen: seq<InferenceRequest>,
                     ghost under: map<InferenceRequest, Model>)
        returns (result: SwapResult, ghost waits: nat)
      requires Loaded() && InOrderly(scheduler, queue, all, seen, under)
      requires polls != [] && polls[|polls| - 1].now >= deadline
      requires NoAlias(seen + Comers(polls)) && forall i :: 0 <= i < |polls| ==> Concerns(polls[i].during, all)
      modifies this, scheduler, scheduler.cache, all, Tables(all), queue
      ensures Loaded() && waits < |polls| && (scheduler.cache == old(scheduler.cache) || scheduler.cache == null
                                              || fresh(scheduler.cache))
      ensures InOrderly(scheduler, queue, all, seen + Comers(polls[..waits]),
                        CameUnder(under, old(scheduler.model), Comers(polls[..waits])))
      // the old model's cache is gone, and nobody is left with a block of it
      ensures result.Swapped? ==>
                && modelName == newName && scheduler.cache == null && scheduler.active == [] && queue.waiting == []
                && forall r :: r in seen + Comers(polls[..waits]) ==>
                     Over(scheduler.settings, CameUnder(under, old(scheduler.model), Comers(polls[..waits])), r)
      ensures !result.Swapped? ==> modelName == old(modelName)
      ensures InMemory() == if result.TimedOut? then old(InMemory()) else NamesAfter(old(InMemory()), newName, loads)
      ensures result.TimedOut? || (result.Swapped? <==> loads.tokenizer && loads.model)
      ensures result.TimedOut? <==> Busy(scheduler.active, queue.waiting, polls[waits])
      ensures result.TimedOut? ==> polls[waits].now >= deadline
      ensures forall j :: 0 <= j < waits ==> polls[j].now < deadline
      ensures !Busy(old(scheduler.active), old(queue.waiting), polls[0]) ==> !result.TimedOut? && waits == 0
      ensures Undisturbed(polls) ==> (result.TimedOut?
                                      <==> !IdleInTime(old(scheduler.active), old(queue.waiting), polls, deadline))
    {
      hide InOrderly, Arriving, Concerns, Comers, CameUnder, NoAlias, IdleInTime, Undisturbed, Over, Serving;
      var drained;
      drained, waits := Drain(scheduler, queue, polls, deadline, all, seen, under);
      if !drained {
        return TimedOut, waits;
      }
      var loaded := Replace(newName, loads, all, seen + Comers(polls[..waits]),
                            CameUnder(under, scheduler.model, Comers(polls[..waits])));
      return if loaded then Swapped else LoadFailed, waits;
    }

    /** Loads the tokenizer, then the model. If either fails, the old tokenizer is loaded again, which
        may fail too. */
    method Replace(newName: string, loads: Loads, ghost all: seq<InferenceRequest>,
                   ghost seen: seq<InferenceRequest>, ghost under: map<InferenceRequest, Model>) returns (loaded: bool)
      requires Loaded() && InOrderly(scheduler, queue, all, seen, under) && scheduler.active == []
               && queue.waiting == []
      modifies this, scheduler
      ensures Loaded() && InOrderly(scheduler, queue, all, seen, under) && scheduler.active == []
      ensures loaded <==> loads.tokenizer && loads.model
      ensures InMemory() == NamesAfter(old(InMemory()), newName, loads)
      ensures loaded ==> scheduler.cache == null && forall r :: r in seen ==> Over(scheduler.settings, under, r)
      ensures !loaded ==> scheduler.cache == old(scheduler.cache)
    {
      hide InOrderly, Over, Serving;
      var previous := modelName;
      if loads.tokenizer {
        ReloadTokenizer(newName, all, seen, under);
        if loads.model {
          ReloadModel(newName, all, seen, under);
          return true;
        }
      }
      if loads.rollback {
        ReloadTokenizer(previous, all, seen, under);
      }
      return false;
    }

    method ReloadTokenizer(name: string, ghost all: seq<InferenceRequest>, ghost seen: seq<InferenceRequest>,
                           ghost under: map<InferenceRequest, Model>)
      requires Loaded() && InOrderly(scheduler, queue, all, seen, under) && scheduler.active == []
               && queue.waiting == []
      modifies this`tokenizerName, scheduler`model
      ensures Loaded() && InOrderly(scheduler, queue, all, seen, under) && tokenizerName == name
    {
      hide Closed, InferenceRequest.Unstarted;
      NobodyLeft(scheduler.model, Serving(load, Names(modelName, name)), scheduler.settings, seen, under);
      tokenizerName := name;
      scheduler.ChangeTokenizer(load(name).decode, load(name).padId);
    }

    /** The model of a name whose tokenizer is in memory already. */
    method ReloadModel(name: string, ghost all: seq<InferenceRequest>, ghost seen: seq<InferenceRequest>,
                       ghost under: map<InferenceRequest, Model>)
      requires Loaded() && InOrderly(scheduler, queue, all, seen, under) && scheduler.active == []
               && queue.waiting == []
      requires tokenizerName == name
      modifies this`modelName, scheduler
      ensures Loaded() && InOrderly(scheduler, queue, all, seen, under) && modelName == name && scheduler.active == []
      ensures scheduler.cache == null && forall r :: r in seen ==> Over(scheduler.settings, under, r)
    {
      hide Closed, InferenceRequest.Unstarted;
      NobodyLeft(scheduler.model, load(name), scheduler.settings, seen, under);
      modelName := name;
      scheduler.SwapModel(load(name), seen);
    }

    ghost function Now(): Moment
      reads this, scheduler`active, queue`waiting
    {
      Moment(InMemory(), scheduler.active == [] && queue.waiting == [])
    }

    /** One event of a life; `later` are those that come after it. */
    method OnEvent(e: Event, ghost all: seq<InferenceRequest>, ghost seen: seq<InferenceRequest>,
                   ghost under: map<InferenceRequest, Model>, ghost later: seq<InferenceRequest>)
        returns (ghost waits: nat, ghost came: seq<InferenceRequest>)
      requires Loaded() && InOrderly(scheduler, queue, all, seen, under)
      requires Sensible(e, all) && NoAlias(seen + Newcomers(e) + later)
      modifies this, scheduler, scheduler.cache, all, Tables(all), queue
      ensures Loaded() && (scheduler.cache == old(scheduler.cache) || scheduler.cache == null || fresh(scheduler.cache))
      ensures Happened(e, old(Now()), Now(), waits, came) && NoAlias(seen + came + later)
      ensures InOrderly(scheduler, queue, all, seen + came, CameUnder(under, Serving(load, old(InMemory())), came))
    {
      hide InOrderly, Arriving, Concerns, Comers, NoAlias, IdleInTime, Undisturbed, Over, CameUnder, Serving,
        NamesAfter;
      ghost var m := scheduler.model;
      match e {
        case Does(activity) =>
          waits, came := 0, Newcomers(e);
          JustOne(seen, under, m, activity, later, all);
          RunTurn(scheduler, queue, activity, all, seen, under);
        case Swap(name, polls, deadline, loads) =>
          ComersApart(seen, polls, later);
          var result;
          result, waits := SwapModel(name, polls, deadline, loads, all, seen, under);
          came := Comers(polls[..waits]);
      }
    }

    /** A whole life, from an empty worker, with any number of swaps in it, asked for while requests
        are waiting and generating or while there are none. Each request that arrived is waiting
        untouched, generating, or closed for good and holding no block; its tokens are those that a
        full recomputation gives with the model that served when it came, up to the first that ends
        it; the caps hold; and the cache holds what the batch needs and nothing else. */
    method Run(events: seq<Event>) returns (ghost c: Chronicle)
      requires Loaded() && scheduler.Valid() && queue.Valid() && scheduler.active == [] && queue.waiting == []
      requires NoAlias(Coming(events)) && Admissible(Coming(events))
      requires forall i :: 0 <= i < |events| ==> Sensible(events[i], Coming(events))
      modifies this, scheduler, scheduler.cache, Coming(events), Tables(Coming(events)), queue
      ensures Loaded() && InOrderly(scheduler, queue, Coming(events), Joined(c.came), c.under)
      ensures Told(load, events, c) && c.moments[0] == old(Now()) && c.moments[|events|] == Now()
    {
      hide InOrderly, Arriving, Concerns, Comers, NoAlias, Over, CameUnder, Newcomers, Coming, Sensible, Happened,
        Joined, AllUnder, Continued;
      ghost var all, first := Coming(events), scheduler.cache;
      c := Chronicle([Now()], [], [], map[]);
      EmptyIsInOrder(all);
      assert events[..0] == [] && events[0..] == events;
      for i := 0 to |events|
        invariant Loaded() && (scheduler.cache == first || scheduler.cache == null || fresh(scheduler.cache))
        invariant InOrderly(scheduler, queue, all, Joined(c.came), c.under)
                  && NoAlias(Joined(c.came) + Coming(events[i..]))
        invariant Told(load, events[..i], c) && c.moments[0] == old(Now()) && c.moments[i] == Now()
      {
        ComingNext(events, i, Joined(c.came));
        ghost var waits, now := OnEvent(events[i], all, Joined(c.came), c.under, Coming(events[i + 1..]));
        ToldOn(load, events, i, c, Now(), waits, now, Coming(events[i + 1..]));
        c := Continued(load, c, Now(), waits, now);
      }
      assert events[..|events|] == events;
    }

    ghost method EmptyIsInOrder(all: seq<InferenceRequest>)
      requires scheduler.Valid() && queue.Valid() && scheduler.active == [] && queue.waiting == []
      requires NoAlias(all) && Admissible(all)
      ensures InOrderly(scheduler, queue, all, Joined([]), map[]) && NoAlias(Joined([]) + all)
    {
      hide Closed;
      assert [] + all == all;
    }
  }

  /** Who may arrive during an event. */
  ghost function Newcomers(e: Event): seq<InferenceRequest> {
    match e
    case Does(activity) => SeenAfter([], activity)
    case Swap(_, polls, _, _) => Comers(polls)
  }

  ghost function Coming(events: seq<Event>): seq<InferenceRequest> {
    if events == [] then [] else Newcomers(events[0]) + Coming(events[1..])
  }

  /** An event that is only about requests of this life. While a swap waits, time goes on. */
  ghost predicate Sensible(e: Event, all: seq<InferenceRequest>) {
    match e
    case Does(activity) => Concerns([activity], all)
    case Swap(_, polls, deadline, _) =>
      && polls != [] && polls[|polls| - 1].now >= deadline
      && forall i :: 0 <= i < |polls| ==> Concerns(polls[i].during, all)
  }

  /** The look that ends a swap's wait finds nobody. */
  ghost predicate Drained(e: Event, after: Moment, waits: nat) {
    e.Swap? && waits < |e.polls| && after.idle && !e.polls[waits].othersBusy
  }

  /** What an event does to what is in memory, and who arrives during it. A swap that finds nobody in
      time loads; one that keeps finding somebody until the deadline has passed does not. */
  ghost predicate Happened(e: Event, before: Moment, after: Moment, waits: nat, came: seq<InferenceRequest>) {
    match e
    case Does(_) => after.names == before.names && waits == 0 && came == Newcomers(e)
    case Swap(newName, polls, deadline, loads) =>
      && waits < |polls| && came == Comers(polls[..waits])
      && (forall j :: 0 <= j < waits ==> polls[j].now < deadline)
      && (Drained(e, after, waits) || polls[waits].now >= deadline)
      && (before.idle && !polls[0].othersBusy ==> Drained(e, after, waits) && waits == 0)
      && after.names == (if Drained(e, after, waits) then NamesAfter(before.names, newName, loads) else before.names)
  }

  /** A swap puts a tokenizer beside a model it does not belong to: both the model and the rollback fail
      to load after the new tokenizer did. */
  ghost predicate Splits(e: Event, before: Moment, after: Moment, waits: nat) {
    Drained(e, after, waits) && e.loads.tokenizer && !e.loads.model && !e.loads.rollback && e.name != before.names.model
  }

  /** Whether model and tokenizer belong together after loading: exactly if both loads worked, or the
      rollback did, or nothing was loaded and they did before. */
  lemma PairedAfterIff(names: Names, newName: string, loads: Loads)
    ensures Paired(NamesAfter(names, newName, loads)) <==>
            || (loads.tokenizer && loads.model) || loads.rollback
            || (if loads.tokenizer then newName == names.model else Paired(names))
  {
  }

  /** A life that starts with the two belonging together keeps them so for good, exactly if no swap in
      it splits them. */
  lemma {:induction false} PairedThroughoutIff(load: string -> Model, events: seq<Event>, c: Chronicle, n: nat)
    requires Told(load, events, c) && Paired(c.moments[0].names) && n <= |events|
    ensures (forall i :: 0 <= i <= n ==> Paired(c.moments[i].names))
            <==> forall i :: 0 <= i < n ==> !Splits(events[i], c.moments[i], c.moments[i + 1], c.waits[i])
  {
    if n > 0 {
      PairedThroughoutIff(load, events, c, n - 1);
      assert Happened(events[n - 1], c.moments[n - 1], c.moments[n], c.waits[n - 1], c.came[n - 1]);
      if events[n - 1].Swap? {
        PairedAfterIff(c.moments[n - 1].names, events[n - 1].name, events[n - 1].loads);
      }
    }
  }

  /** "a" serves; the tokenizer of "b" loads, its model does not, and then the tokenizer of "a" does not
      load either: what "a" generates is decoded as if "b" had generated it. */
  lemma FailedRollbackSplits(load: string -> Model)
    ensures var after := NamesAfter(Names("a", "a"), "b", Loads(true, false, false));
            && after == Names("a", "b")
            && Serving(load, after).cell == load("a").cell && Serving(load, after).logits == load("a").logits
            && Serving(load, after).sample == load("a").sample && Serving(load, after).eosId == load("a").eosId
            && Serving(load, after).decode == load("b").decode && Serving(load, after).padId == load("b").padId
  {
  }

  ghost predicate AllUnder(under: map<InferenceRequest, Model>, rs: seq<InferenceRequest>, m: Model) {
    forall r :: r in rs ==> r in under && under[r] == m
  }

  ghost function Joined(came: seq<seq<InferenceRequest>>): seq<InferenceRequest> {
    if came == [] then [] else Joined(came[..|came| - 1]) + came[|came| - 1]
  }

  lemma JustOne(seen: seq<InferenceRequest>, under: map<InferenceRequest, Model>, m: Model, e: Activity,
                later: seq<InferenceRequest>, all: seq<InferenceRequest>)
    requires NoAlias(seen + Newcomers(Does(e)) + later) && Sensible(Does(e), all)
    ensures !e.Tick? ==> e.request in all
    ensures SeenAfter(seen, e) == seen + Newcomers(Does(e)) && NoAlias(SeenAfter(seen, e))
    ensures UnderAfter(under, m, e) == CameUnder(under, m, Newcomers(Does(e)))
  {
    assert [e][0] == e;
    PrefixApart(seen, Newcomers(Does(e)), Newcomers(Does(e)), later);
    assert SeenAfter(seen, e) == seen + Newcomers(Does(e));
    CameUnderNext(under, m, [], e);
  }

  lemma ComersApart(seen: seq<InferenceRequest>, polls: seq<Poll>, later: seq<InferenceRequest>)
    requires NoAlias(seen + Comers(polls) + later)
    ensures NoAlias(seen + Comers(polls))
    ensures forall i :: 0 <= i < |polls| ==> NoAlias(seen + Comers(polls[..i]) + later)
  {
    hide NoAlias, Comers;
    PrefixApart(seen, Comers(polls), Comers(polls), later);
    forall i | 0 <= i < |polls| ensures NoAlias(seen + Comers(polls[..i]) + later) {
      ComersPrefix(polls, i);
      PrefixApart(seen, Comers(polls), Comers(polls[..i]), later);
    }
  }

  lemma ComingNext(events: seq<Event>, i: nat, seen: seq<InferenceRequest>)
    requires i < |events| && NoAlias(seen + Coming(events[i..]))
    ensures NoAlias(seen + Newcomers(events[i]) + Coming(events[i + 1..]))
  {
    hide NoAlias, Newcomers;
    assert events[i..][1..] == events[i + 1..];
    assert seen + Coming(events[i..]) == seen + Newcomers(events[i]) + Coming(events[i + 1..]);
  }

  /** What a record says of each event. */
  ghost predicate Told(load: string -> Model, events: seq<Event>, c: Chronicle) {
    && |c.moments| == |events| + 1 && |c.waits| == |c.came| == |events|
    && (forall i :: 0 <= i < |events| ==> Happened(events[i], c.moments[i], c.moments[i + 1], c.waits[i], c.came[i]))
    && (forall i :: 0 <= i < |events| ==> AllUnder(c.under, c.came[i], Serving(load, c.moments[i].names)))
  }

  ghost function Continued(load: string -> Model, c: Chronicle, after: Moment, waits: nat,
                           now: seq<InferenceRequest>): Chronicle
    requires c.moments != []
  {
    Chronicle(c.moments + [after], c.waits + [waits], c.came + [now],
              CameUnder(c.under, Serving(load, c.moments[|c.moments| - 1].names), now))
  }

  /** The newcomers take nobody's place. */
  lemma ToldOn(load: string -> Model, events: seq<Event>, i: nat, c: Chronicle, after: Moment, waits: nat,
               now: seq<InferenceRequest>, later: seq<InferenceRequest>)
    requires i < |events| && Told(load, events[..i], c) && NoAlias(Joined(c.came) + now + later)
    requires Happened(events[i], c.moments[i], after, waits, now)
    ensures var c' := Continued(load, c, after, waits, now);
            && Told(load, events[..i + 1], c') && Joined(c'.came) == Joined(c.came) + now
            && c'.under == CameUnder(c.under, Serving(load, c.moments[i].names), now)
            && c'.moments[0] == c.moments[0] && c'.moments[i + 1] == after
  {
    hide NoAlias, AllUnder, Happened, CameUnder, Joined, Serving;
    var m := Serving(load, c.moments[i].names);
    JoinedNext(c.came, now);
    forall j, n | 0 <= j < i && AllUnder(c.under, c.came[j], n)
        ensures AllUnder(CameUnder(c.under, m, now), c.came[j], n) {
      InJoined(c.came, j);
      StillUnder(Joined(c.came), now, later, c.under, m, c.came[j], n);
    }
    NowUnder(c.under, m, now);
  }

  lemma JoinedNext(came: seq<seq<InferenceRequest>>, now: seq<InferenceRequest>)
    ensures Joined(came + [now]) == Joined(came) + now
  {
    assert (came + [now])[..|came|] == came;
  }

  lemma StillUnder(seen: seq<InferenceRequest>, now: seq<InferenceRequest>, later: seq<InferenceRequest>,
                   under: map<InferenceRequest, Model>, m: Model, rs: seq<InferenceRequest>, n: Model)
    requires NoAlias(seen + now + later) && AllUnder(under, rs, n) && forall r :: r in rs ==> r in seen
    ensures AllUnder(CameUnder(under, m, now), rs, n)
  {
    var all := seen + now + later;
    forall r | r in rs ensures r !in now {
      var k :| 0 <= k < |seen| && seen[k] == r;
      forall j | 0 <= j < |now| ensures now[j] != r {
        assert all[k] == r && all[|seen| + j] == now[j];
      }
    }
  }

  lemma NowUnder(under: map<InferenceRequest, Model>, m: Model, now: seq<InferenceRequest>)
    ensures AllUnder(CameUnder(under, m, now), now, m)
  {
  }

  lemma {:induction false} InJoined(came: seq<seq<InferenceRequest>>, i: nat)
    requires i < |came|
    ensures forall r :: r in came[i] ==> r in Joined(came)
  {
    if i < |came| - 1 {
      InJoined(came[..|came| - 1], i);
    }
  }

  // ---------------------------------------------------------------- the pool

  datatype Target = Target(name: string, generation: nat)

  /** Where a worker stands between its reload and its report. Nothing else runs on it meanwhile; the
      other workers do. */
  datatype Phase =
    | Idle
    | Reloaded(name: string)                      // swapped on request; the target is not published yet
    | Published(name: string, generation: nat)    // target published; not reported yet
    | Followed(name: string, generation: nat)     // on the target it read; not reported yet

  /** `following`: a target this worker has read and is draining for. */
  datatype Worker = Worker(served: string, generation: nat, following: Option<Target>, phase: Phase)

  /** `target` and `reports` are the shared directory; `history` lists every name ever published. */
  datatype Pool = Pool(target: Option<Target>, reports: map<nat, Target>, workers: map<nat, Worker>,
                       history: seq<string>)

  /** One atomic step of one worker. `works`: the drain ends in time and the model loads. */
  datatype Step =
    | SwapOnRequest(w: nat, name: string, works: bool)
    | PublishTarget(w: nat)
    | Report(w: nat)
    | FollowRead(w: nat)
    | FollowSwap(w: nat, works: bool)

  function GenerationOf(target: Option<Target>): nat {
    if target.Some? then target.value.generation else 0
  }

  /** A step that a worker cannot take now changes nothing. */
  ghost function Next(s: Pool, step: Step): Pool {
    if step.w !in s.workers then s
    else
      var me := s.workers[step.w];
      match step
      case SwapOnRequest(w, name, works) =>
        if me.phase != Idle || !works then s
        else s.(workers := s.workers[w := me.(served := name, phase := Reloaded(name))])
      case PublishTarget(w) =>
        if !me.phase.Reloaded? then s
        else
          var generation := GenerationOf(s.target) + 1;
          s.(target := Some(Target(me.phase.name, generation)), history := s.history + [me.phase.name],
             workers := s.workers[w := me.(phase := Published(me.phase.name, generation))])
      case Report(w) =>
        if me.phase.Published? then
          s.(reports := s.reports[w := Target(me.phase.name, me.phase.generation)],
             workers := s.workers[w := me.(phase := Idle)])
        else if me.phase.Followed? then
          s.(reports := s.reports[w := Target(me.phase.name, me.phase.generation)],
             workers := s.workers[w := me.(phase := Idle, generation := me.phase.generation)])
        else s
      case FollowRead(w) =>
        if me.phase != Idle || me.following.Some? || GenerationOf(s.target) <= me.generation then s
        else if s.target.value.name == me.served then
          s.(workers := s.workers[w := me.(phase := Followed(me.served, s.target.value.generation))])
        else s.(workers := s.workers[w := me.(following := s.target)])
      case FollowSwap(w, works) =>
        if me.phase != Idle || me.following.None? then s
        else
          var goal := me.following.value;
          if works then s.(workers := s.workers[w :=
                                                me.(served := goal.name, following := None,
                                                    phase := Followed(goal.name, goal.generation))])
          else s.(workers := s.workers[w := me.(following := None)])
  }

  ghost function Started(served: map<nat, string>): Pool {
    Pool(None, map[], map w | w in served :: Worker(served[w], 0, None, Idle), [])
  }

  ghost function RunOf(served: map<nat, string>, steps: seq<Step>): Pool {
    if steps == [] then Started(served)
    else Next(RunOf(served, steps[..|steps| - 1]), steps[|steps| - 1])
  }

  /** `name` was published as generation `generation`. */
  ghost predicate Recorded(history: seq<string>, name: string, generation: nat) {
    1 <= generation <= |history| && history[generation - 1] == name
  }

  ghost predicate WorkerRight(s: Pool, w: nat)
    requires w in s.workers
  {
    var me := s.workers[w];
    && me.generation <= |s.history|
    && (me.following.Some? ==> Recorded(s.history, me.following.value.name, me.following.value.generation))
    && (me.generation > 0 ==> w in s.reports && me.generation <= s.reports[w].generation)
    && (w in s.reports ==> Recorded(s.history, s.reports[w].name, s.reports[w].generation))
    && match me.phase
       case Idle => w in s.reports ==> me.served == s.reports[w].name
       case Reloaded(name) => me.served == name
       case Published(name, g) => me.served == name && Recorded(s.history, name, g)
                                  && (w in s.reports ==> s.reports[w].generation < g) && me.generation < g
       case Followed(name, g) => me.served == name && Recorded(s.history, name, g)
  }

  ghost predicate PoolRight(s: Pool) {
    && (if s.history == [] then s.target.None? else s.target == Some(Target(s.history[|s.history| - 1], |s.history|)))
    && s.reports.Keys <= s.workers.Keys
    && (forall w :: w in s.workers ==> WorkerRight(s, w))
  }

  lemma OthersStayRight(s: Pool, s': Pool, w: nat)
    requires w in s.workers && w in s'.workers && WorkerRight(s, w)
    requires s'.workers[w] == s.workers[w] && s.history <= s'.history
    requires w in s'.reports <==> w in s.reports
    requires w in s.reports ==> s'.reports[w] == s.reports[w]
    ensures WorkerRight(s', w)
  {
  }

  lemma StepperStaysRight(s: Pool, step: Step)
    requires PoolRight(s) && step.w in s.workers
    ensures WorkerRight(Next(s, step), step.w)
  {
    assert WorkerRight(s, step.w);
  }

  lemma NextIsRight(s: Pool, step: Step)
    requires PoolRight(s)
    ensures PoolRight(Next(s, step))
    ensures s.history <= Next(s, step).history && Next(s, step).workers.Keys == s.workers.Keys
    ensures |Next(s, step).history| <= |s.history| + 1
  {
    hide WorkerRight;
    if step.w in s.workers {
      var s' := Next(s, step);
      StepperStaysRight(s, step);
      forall w | w in s'.workers ensures WorkerRight(s', w) {
        if w != step.w {
          OthersStayRight(s, s', w);
        }
      }
    }
  }

  /** Every run, of any workers, in any interleaving. */
  lemma {:induction false} RunIsRight(served: map<nat, string>, steps: seq<Step>)
    ensures PoolRight(RunOf(served, steps)) && RunOf(served, steps).workers.Keys == served.Keys
  {
    if steps != [] {
      RunIsRight(served, steps[..|steps| - 1]);
      NextIsRight(RunOf(served, steps[..|steps| - 1]), steps[|steps| - 1]);
    }
  }

  // ---------------------------------------------------------------- what loads, and what is published

  /** A swap that fails, asked for or in following another worker, changes nothing that anybody serves,
      reports or follows; the worker may only try again. */
  lemma FailureChangesNothing(s: Pool, step: Step)
    requires (step.SwapOnRequest? || step.FollowSwap?) && !step.works
    ensures var s' := Next(s, step);
            && s'.target == s.target && s'.reports == s.reports && s'.history == s.history
            && s'.workers.Keys == s.workers.Keys
            && forall w :: w in s.workers ==>
                 && s'.workers[w].served == s.workers[w].served && s'.workers[w].phase == s.workers[w].phase
                 && s'.workers[w].generation == s.workers[w].generation
                 && (s'.workers[w].following == s.workers[w].following || (step.FollowSwap? && step.w == w))
  {
  }

  /** No step is anybody else's: it leaves every other worker and its report alone. Nobody reads a target
      that is no newer than the one it is on. */
  lemma StepsAreOnesOwn(s: Pool, step: Step, w: nat)
    ensures step.w != w ==>
              && (w in Next(s, step).workers <==> w in s.workers) && (w in Next(s, step).reports <==> w in s.reports)
              && (w in s.workers ==> Next(s, step).workers[w] == s.workers[w])
              && (w in s.reports ==> Next(s, step).reports[w] == s.reports[w])
    ensures step == FollowRead(w) && w in s.workers
            && (s.target == None || s.target.value.generation <= s.workers[w].generation) ==>
              Next(s, step) == s
    ensures Next(s, step).target != s.target ==>
              step.PublishTarget? && step.w in s.workers && s.workers[step.w].phase.Reloaded?
              && Next(s, step).target == Some(Target(s.workers[step.w].phase.name,
                                                     (if s.target == None then 0 else s.target.value.generation) + 1))
  {
  }

  /** Somebody was asked for `name`, and it loaded. */
  ghost predicate LoadedOnRequest(steps: seq<Step>, name: string) {
    exists i :: 0 <= i < |steps| && steps[i].SwapOnRequest? && steps[i].works && steps[i].name == name
  }

  /** Worker `w` was asked for `name`, or followed a target of that name, and it loaded. */
  ghost predicate LoadedBy(served: map<nat, string>, steps: seq<Step>, w: nat, name: string) {
    exists i :: 0 <= i < |steps| &&
      (steps[i] == SwapOnRequest(w, name, true)
       || (steps[i] == FollowSwap(w, true) && w in RunOf(served, steps[..i]).workers
           && var goal := RunOf(served, steps[..i]).workers[w].following; goal != None && goal.value.name == name))
  }

  lemma LoadsStay(served: map<nat, string>, steps: seq<Step>, step: Step)
    ensures forall name :: LoadedOnRequest(steps, name) ==> LoadedOnRequest(steps + [step], name)
    ensures forall w, name :: LoadedBy(served, steps, w, name) ==> LoadedBy(served, steps + [step], w, name)
  {
    var more := steps + [step];
    forall name | LoadedOnRequest(steps, name) ensures LoadedOnRequest(more, name) {
      var i :| 0 <= i < |steps| && steps[i].SwapOnRequest? && steps[i].works && steps[i].name == name;
      assert more[i] == steps[i];
    }
    forall w, name | LoadedBy(served, steps, w, name) ensures LoadedBy(served, more, w, name) {
      var i :| 0 <= i < |steps| &&
        (steps[i] == SwapOnRequest(w, name, true)
         || (steps[i] == FollowSwap(w, true) && w in RunOf(served, steps[..i]).workers
             && var goal := RunOf(served, steps[..i]).workers[w].following; goal != None && goal.value.name == name));
      assert more[i] == steps[i] && more[..i] == steps[..i];
    }
  }

  lemma WhatAStepLoads(s: Pool, step: Step)
    ensures var s' := Next(s, step);
            && s'.workers.Keys == s.workers.Keys
            && (forall w :: w in s.workers ==>
                  || s'.workers[w].served == s.workers[w].served || step == SwapOnRequest(w, s'.workers[w].served, true)
                  || (step == FollowSwap(w, true) && s.workers[w].following != None
                      && s.workers[w].following.value.name == s'.workers[w].served))
            && (forall w :: w in s.workers && s'.workers[w].phase.Reloaded? ==>
                  s'.workers[w].phase == s.workers[w].phase || step == SwapOnRequest(w, s'.workers[w].phase.name, true))
            && (s'.history == s.history
                || (step.w in s.workers && s.workers[step.w].phase.Reloaded?
                    && s'.history == s.history + [s.workers[step.w].phase.name]))
  {
  }

  /** In every run, nothing is published that has not loaded on the worker that was asked for it, and
      every worker serves what it started with, or what it has itself loaded since. */
  lemma {:induction false} OnlyWhatLoadsIsServed(served: map<nat, string>, steps: seq<Step>)
    ensures var s := RunOf(served, steps);
            && (forall i :: 0 <= i < |s.history| ==> LoadedOnRequest(steps, s.history[i]))
            && (forall w :: w in s.workers ==>
                  && w in served && (s.workers[w].served == served[w]
                                     || LoadedBy(served, steps, w, s.workers[w].served))
                  && (s.workers[w].phase.Reloaded? ==> LoadedOnRequest(steps, s.workers[w].phase.name)))
  {
    if steps != [] {
      var n := |steps| - 1;
      var (front, step) := (steps[..n], steps[n]);
      OnlyWhatLoadsIsServed(served, front);
      LoadsStay(served, front, step);
      assert front + [step] == steps;
      var (s, s') := (RunOf(served, front), RunOf(served, steps));
      WhatAStepLoads(s, step);
      hide Next, LoadedOnRequest, LoadedBy, RunOf;
      NewLoads(served, front, step);
      assert forall w :: w in s'.workers ==> w in s.workers;
    }
  }

  lemma NewLoads(served: map<nat, string>, steps: seq<Step>, step: Step)
    ensures step.SwapOnRequest? && step.works ==>
              LoadedOnRequest(steps + [step], step.name) && LoadedBy(served, steps + [step], step.w, step.name)
    ensures var s := RunOf(served, steps);
            step == FollowSwap(step.w, true) && step.w in s.workers && s.workers[step.w].following != None ==>
              LoadedBy(served, steps + [step], step.w, s.workers[step.w].following.value.name)
  {
    var more := steps + [step];
    assert more[|steps|] == step && more[..|steps|] == steps;
  }

  // ---------------------------------------------------------------- generations and reports

  /** Each publication takes the next generation, and none is ever lost or renumbered. */
  lemma GenerationsRiseByOne(served: map<nat, string>, steps: seq<Step>, step: Step)
    ensures var (s, s') := (RunOf(served, steps), RunOf(served, steps + [step]));
            && GenerationOf(s.target) == |s.history| && GenerationOf(s'.target) == |s'.history|
            && (if step.PublishTarget? && step.w in s.workers && s.workers[step.w].phase.Reloaded?
                then s'.history == s.history + [s.workers[step.w].phase.name] && s'.target.Some?
                     && s'.target.value == Target(s.workers[step.w].phase.name, |s.history| + 1)
                else s'.history == s.history && s'.target == s.target)
  {
    RunIsRight(served, steps);
    RunIsRight(served, steps + [step]);
    assert (steps + [step])[..|steps|] == steps;
  }

  /** In every run, what a worker reports was published at the generation it reports, and the worker
      serves it exactly when it is not between loading something else and saying so. */
  lemma ReportersServeWhatTheyReport(served: map<nat, string>, steps: seq<Step>, w: nat)
    ensures var s := RunOf(served, steps);
            w in s.reports ==>
              && w in s.workers
              && 1 <= s.reports[w].generation <= |s.history|
              && s.history[s.reports[w].generation - 1] == s.reports[w].name
              && (s.workers[w].served == s.reports[w].name
                  <==> s.workers[w].phase.Idle? || s.workers[w].phase.name == s.reports[w].name)
  {
    RunIsRight(served, steps);
    var s := RunOf(served, steps);
    assert w in s.workers ==> WorkerRight(s, w);
  }

  /** The workers that report the current generation or a later one. */
  ghost function UpToDate(reports: map<nat, Target>, generation: nat): set<nat> {
    set w | w in reports && reports[w].generation >= generation
  }

  /** Counts the reports: how many there are, and how many are at the target. */
  method Convergence(target: Option<Target>, reports: map<nat, Target>) returns (converged: nat, known: nat)
    ensures target.None? ==> converged == known == 0
    ensures target.Some? ==> known == |reports| && converged == |UpToDate(reports, target.value.generation)|
  {
    converged, known := 0, 0;
    if target.Some? {
      ghost var upToDate := UpToDate(reports, target.value.generation);
      ghost var seen := {};
      var files := reports.Keys;
      while files != {}
        invariant files !! seen && files + seen == reports.Keys
        invariant known == |seen| && converged == |upToDate * seen|
      {
        var w :| w in files;
        OneMore(upToDate, seen, w);
        known := known + 1;
        if reports[w].generation >= target.value.generation {
          converged := converged + 1;
        }
        files, seen := files - {w}, seen + {w};
      }
      assert upToDate * seen == upToDate && seen == reports.Keys;
    }
  }

  lemma OneMore(upToDate: set<nat>, seen: set<nat>, w: nat)
    requires w !in seen
    ensures |upToDate * (seen + {w})| == |upToDate * seen| + if w in upToDate then 1 else 0
  {
    assert upToDate * (seen + {w}) == if w in upToDate then upToDate * seen + {w} else upToDate * seen;
  }

  lemma CountsAgree(reports: map<nat, Target>, generation: nat)
    ensures |UpToDate(reports, generation)| == |reports| <==> forall w :: w in reports ==>
              reports[w].generation >= generation
  {
    var part := UpToDate(reports, generation);
    assert part <= reports.Keys;
    if |part| == |reports| && exists w :: w in reports && reports[w].generation < generation {
      var w :| w in reports && reports[w].generation < generation;
      Smaller(part, reports.Keys, w);
      assert false;
    }
    if forall w :: w in reports ==> reports[w].generation >= generation {
      assert part == reports.Keys;
    }
  }

  lemma Smaller(part: set<nat>, whole: set<nat>, w: nat)
    requires part <= whole && w in whole && w !in part
    ensures |part| < |whole|
  {
    assert part <= whole - {w};
    SubsetSize(part, whole - {w});
  }

  lemma {:induction false} SubsetSize(part: set<nat>, whole: set<nat>)
    requires part <= whole
    ensures |part| <= |whole|
    decreases part
  {
    if part != {} {
      var w :| w in part;
      SubsetSize(part - {w}, whole - {w});
    }
  }

  /** A worker has reloaded and not reported yet, and what it loaded is not the target. */
  ghost predicate ElsewhereInWindow(s: Pool, w: nat)
    requires w in s.workers && s.target.Some?
  {
    && (s.workers[w].phase.Reloaded? || s.workers[w].phase.Followed?)
    && s.workers[w].phase.name != s.target.value.name
  }

  /** When every report is at the target, every reporting worker serves the target, exactly when none
      of them is between loading something else and saying so. */
  lemma ConvergedMeansServing(served: map<nat, string>, steps: seq<Step>)
    ensures var s := RunOf(served, steps);
            s.reports.Keys <= s.workers.Keys
            && (s.target.Some? && |UpToDate(s.reports, s.target.value.generation)| == |s.reports| ==>
                  ((forall w :: w in s.reports ==> s.workers[w].served == s.target.value.name)
                   <==> (forall w :: w in s.reports ==> !ElsewhereInWindow(s, w))))
  {
    hide RunOf, UpToDate, WorkerRight;
    var s := RunOf(served, steps);
    RunIsRight(served, steps);
    if s.target.Some? && |UpToDate(s.reports, s.target.value.generation)| == |s.reports| {
      CountsAgree(s.reports, s.target.value.generation);
      forall w | w in s.reports
        ensures s.workers[w].served == s.target.value.name <==> !ElsewhereInWindow(s, w)
      {
        UpToDateServes(s, w);
      }
    }
  }

  lemma UpToDateServes(s: Pool, w: nat)
    requires PoolRight(s) && w in s.reports && s.target.Some? && s.reports[w].generation >= s.target.value.generation
    ensures s.workers[w].served == s.target.value.name <==> !ElsewhereInWindow(s, w)
  {
    assert WorkerRight(s, w);
  }

  /** The window is real: right after a second swap, and before it is published, the directory says
      that everyone has converged on the first one. */
  lemma WindowHidesASwap()
    ensures var s := RunOf(map[0 := "a"], [SwapOnRequest(0, "b", true), PublishTarget(0), Report(0),
                                           SwapOnRequest(0, "c", true)]);
            && s.target == Some(Target("b", 1)) && s.reports == map[0 := Target("b", 1)]
            && 0 in s.workers && s.workers[0].served == "c"
  {
    var all := [SwapOnRequest(0, "b", true), PublishTarget(0), Report(0), SwapOnRequest(0, "c", true)];
    var served: map<nat, string> := map[0 := "a"];
    assert all[..3][..2] == all[..2] && all[..2][..1] == all[..1] && all[..1][..0] == [];
    var (w0, w1, w2) := (Worker("a", 0, None, Idle), Worker("b", 0, None, Reloaded("b")),
                         Worker("b", 0, None, Published("b", 1)));
    assert Started(served) == Pool(None, map[], map[0 := w0], []);
    assert RunOf(served, all[..1]) == Pool(None, map[], map[0 := w1], []);
    assert RunOf(served, all[..2]) == Pool(Some(Target("b", 1)), map[], map[0 := w2], ["b"]);
    assert RunOf(served, all[..3]) == Pool(Some(Target("b", 1)), map[0 := Target("b", 1)],
                                           map[0 := Worker("b", 0, None, Idle)], ["b"]);
  }

  // ---------------------------------------------------------------- catching up

  ghost function After(s: Pool, steps: seq<Step>): Pool {
    if steps == [] then s else Next(After(s, steps[..|steps| - 1]), steps[|steps| - 1])
  }

  /** Nobody asks for another model, and nothing more is published. */
  ghost predicate Quiet(step: Step) {
    !step.SwapOnRequest? && !step.PublishTarget?
  }

  /** Reports the target, serves it, and has nothing else on its mind. */
  ghost predicate CaughtUp(s: Pool, w: nat)
    requires s.target.Some?
  {
    var t := s.target.value;
    && w in s.workers && w in s.reports && s.reports[w] == t
    && s.workers[w].served == t.name && s.workers[w].following.None?
    && (s.workers[w].phase == Idle || s.workers[w].phase == Followed(t.name, t.generation))
  }

  /** How far a worker is on its way to the target: 0 not yet looking, 1 has read it, 2 serves it,
      3 has reported it. */
  ghost function Stage(s: Pool, w: nat): (stage: nat)
    requires s.target.Some? && w in s.workers
    ensures stage <= 3
  {
    if CaughtUp(s, w) then 3
    else if s.workers[w].phase == Followed(s.target.value.name, s.target.value.generation) then 2
    else if s.workers[w].phase == Idle && s.workers[w].following == s.target then 1
    else 0
  }

  /** Not in the middle of anything, unless it is on its way to the target. */
  ghost predicate Ready(s: Pool, w: nat)
    requires s.target.Some? && w in s.workers
  {
    && (Stage(s, w) == 0 ==> s.workers[w].phase == Idle && s.workers[w].following.None?)
    && (Stage(s, w) == 2 ==> s.workers[w].following.None?)
  }

  /** What a worker's own part of a step depends on: itself, its report and the target. */
  lemma OwnStep(s: Pool, step: Step, w: nat)
    requires PoolRight(s) && s.target.Some? && w in s.workers && Ready(s, w) && Quiet(step) && step.w == w
    ensures var s' := Next(s, step);
            && s'.target == s.target && s'.history == s.history && w in s'.workers && Ready(s', w)
            && (Stage(s', w) >= Stage(s, w) || (Stage(s, w) == 1 && step == FollowSwap(w, false)))
            && (step.FollowRead? ==> Stage(s', w) >= 1)
            && (step == FollowSwap(w, true) && Stage(s, w) >= 1 ==> Stage(s', w) >= 2)
            && (step.Report? && Stage(s, w) >= 2 ==> Stage(s', w) == 3)
  {
    assert WorkerRight(s, w);
  }

  lemma OthersStep(s: Pool, step: Step, w: nat)
    requires s.target.Some? && w in s.workers && Ready(s, w) && Quiet(step) && step.w != w
    ensures var s' := Next(s, step);
            && s'.target == s.target && w in s'.workers && Ready(s', w) && Stage(s', w) == Stage(s, w)
  {
  }

  /** One successful follow in a run from `s`: a worker reads the target while it has nothing else on
      its mind. If its generation is the target's, that is all. If it serves the target already, it
      reports. Otherwise it swaps, without failing first, and reports. Anything may happen in between. */
  ghost predicate FollowsOnce(s: Pool, steps: seq<Step>, w: nat, i: nat, j: nat, k: nat)
    requires s.target.Some?
  {
    && i <= j <= k < |steps| && steps[i] == FollowRead(w) && FreeToRead(After(s, steps[..i]), w)
    && var goal := Distance(After(s, steps[..i]).workers[w], s.target.value);
    && (goal >= 1 ==> i < k && steps[k] == Report(w))
    && (goal == 2 ==> i < j < k && steps[j] == FollowSwap(w, true) && forall m :: i < m < j ==>
        steps[m] != FollowSwap(w, false))
  }

  /** What a free worker that reads the target still has to do: nothing, report, or swap and report. */
  ghost function Distance(me: Worker, target: Target): (d: nat)
    ensures d <= 2
  {
    if target.generation <= me.generation then 0
    else if target.name == me.served then 1
    else 2
  }

  ghost predicate FreeToRead(s: Pool, w: nat) {
    w in s.workers && s.workers[w].phase == Idle && s.workers[w].following.None?
  }

  /** The pool `s`, some quiet steps after `start`. */
  ghost predicate Settled(start: Pool, s: Pool) {
    PoolRight(s) && s.target == start.target && s.target.Some? && s.workers.Keys == start.workers.Keys
  }

  /** Quiet steps keep the target, whatever was still under way when publishing stopped. */
  lemma {:induction false} QuietRunSettles(s: Pool, steps: seq<Step>, n: nat)
    requires PoolRight(s) && s.target.Some? && n <= |steps| && forall m :: 0 <= m < |steps| ==> Quiet(steps[m])
    ensures Settled(s, After(s, steps[..n]))
  {
    if n > 0 {
      QuietRunSettles(s, steps, n - 1);
      AfterNext(s, steps, n - 1);
      hide After, PoolRight;
      NextIsRight(After(s, steps[..n - 1]), steps[n - 1]);
    } else {
      assert steps[..n] == [];
    }
  }

  ghost predicate OnTrack(start: Pool, s: Pool, w: nat) {
    Settled(start, s) && w in s.workers && Ready(s, w)
  }

  lemma StaysOnTrack(start: Pool, s: Pool, step: Step, w: nat)
    requires OnTrack(start, s, w) && Quiet(step)
    ensures var s' := Next(s, step);
            && OnTrack(start, s', w) && (Stage(s', w) >= Stage(s, w)
                                         || (Stage(s, w) == 1 && step == FollowSwap(w, false)))
            && (step == FollowRead(w) ==> Stage(s', w) >= 1)
            && (step == FollowSwap(w, true) && Stage(s, w) >= 1 ==> Stage(s', w) >= 2)
            && (step == Report(w) && Stage(s, w) >= 2 ==> Stage(s', w) == 3)
  {
    NextIsRight(s, step);
    if step.w == w {
      OwnStep(s, step, w);
    } else {
      OthersStep(s, step, w);
    }
    hide PoolRight, Stage, Ready;
  }

  lemma {:induction false} FollowCatchesUp(s: Pool, steps: seq<Step>, w: nat, i: nat, j: nat, k: nat, n: nat)
    requires PoolRight(s) && s.target.Some? && forall m :: 0 <= m < |steps| ==> Quiet(steps[m])
    requires FollowsOnce(s, steps, w, i, j, k) && i <= n <= |steps|
    ensures var s' := After(s, steps[..n]);
            && OnTrack(s, s', w)
            && (n > i ==> Stage(s', w) >= 3 - Distance(After(s, steps[..i]).workers[w], s.target.value))
            && (n > j ==> Stage(s', w) >= 2) && (n > k ==> Stage(s', w) == 3)
    decreases n
  {
    hide Stage, PoolRight, After, Distance;
    if n > i {
      FollowCatchesUp(s, steps, w, i, j, k, n - 1);
      AfterNext(s, steps, n - 1);
      StaysOnTrack(s, After(s, steps[..n - 1]), steps[n - 1], w);
      if n - 1 == i {
        ReadingIsAStep(After(s, steps[..i]), w);
      }
    } else {
      QuietRunSettles(s, steps, i);
      FreeIsReady(After(s, steps[..i]), w);
    }
  }

  lemma ReadingIsAStep(s: Pool, w: nat)
    requires PoolRight(s) && s.target.Some? && FreeToRead(s, w)
    ensures Next(s, FollowRead(w)).target == s.target && w in Next(s, FollowRead(w)).workers
    ensures Stage(Next(s, FollowRead(w)), w) >= 3 - Distance(s.workers[w], s.target.value)
  {
    assert WorkerRight(s, w);
  }

  lemma FreeIsReady(s: Pool, w: nat)
    requires s.target.Some? && FreeToRead(s, w)
    ensures Ready(s, w)
  {
  }

  lemma AfterNext(s: Pool, steps: seq<Step>, n: nat)
    requires n < |steps|
    ensures After(s, steps[..n + 1]) == Next(After(s, steps[..n]), steps[n])
  {
    assert steps[..n + 1][..n] == steps[..n];
  }

  /** Once publishing stops, whatever was under way then, one successful follow by each worker, however
      they interleave, and everyone reports and serves the target: convergence is complete, and says
      so. Whoever is there already needs no swap for it. */
  lemma EveryoneConverges(s: Pool, steps: seq<Step>)
    requires PoolRight(s) && s.target.Some? && forall m :: 0 <= m < |steps| ==> Quiet(steps[m])
    requires forall w :: w in s.workers ==> exists i, j, k :: FollowsOnce(s, steps, w, i, j, k)
    ensures var s' := After(s, steps);
            && s'.target == s.target && s'.reports.Keys == s'.workers.Keys == s.workers.Keys
            && (forall w :: w in s'.workers ==>
                s'.workers[w].served == s.target.value.name && s'.reports[w] == s.target.value)
            && |UpToDate(s'.reports, s.target.value.generation)| == |s'.reports|
  {
    hide After, UpToDate, PoolRight, FollowsOnce, Quiet;
    assert steps[..|steps|] == steps;
    var s' := After(s, steps);
    QuietRunSettles(s, steps, |steps|);
    forall w | w in s.workers
      ensures CaughtUp(s', w)
    {
      var i, j, k :| FollowsOnce(s, steps, w, i, j, k);
      FollowEnds(s, steps, w, i, j, k);
    }
    NoReports(s');
    CountsAgree(s'.reports, s.target.value.generation);
  }

  /** A publisher has a follow of its own, without a swap. */
  lemma PublisherFollows()
    ensures var s := RunOf(map[0 := "a"], [SwapOnRequest(0, "b", true), PublishTarget(0), Report(0)]);
            s.target.Some? && FollowsOnce(s, [FollowRead(0), Report(0)], 0, 0, 0, 1)
  {
    var all := [SwapOnRequest(0, "b", true), PublishTarget(0), Report(0)];
    var served: map<nat, string> := map[0 := "a"];
    assert all[..2][..1] == all[..1] && all[..1][..0] == [];
    var (w0, w1, w2) := (Worker("a", 0, None, Idle), Worker("b", 0, None, Reloaded("b")),
                         Worker("b", 0, None, Published("b", 1)));
    assert Started(served) == Pool(None, map[], map[0 := w0], []);
    assert RunOf(served, all[..1]) == Pool(None, map[], map[0 := w1], []);
    assert RunOf(served, all[..2]) == Pool(Some(Target("b", 1)), map[], map[0 := w2], ["b"]);
  }

  lemma FollowEnds(s: Pool, steps: seq<Step>, w: nat, i: nat, j: nat, k: nat)
    requires PoolRight(s) && s.target.Some? && forall m :: 0 <= m < |steps| ==> Quiet(steps[m])
    requires FollowsOnce(s, steps, w, i, j, k)
    ensures After(s, steps).target == s.target && CaughtUp(After(s, steps), w)
  {
    hide After, PoolRight;
    assert steps[..|steps|] == steps;
    FollowCatchesUp(s, steps, w, i, j, k, |steps|);
  }

  lemma NoReports(s: Pool)
    requires PoolRight(s)
    ensures s.reports.Keys <= s.workers.Keys
  {
  }
}
