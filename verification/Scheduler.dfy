/** The continuous scheduler (scheduler/continuous_scheduler.py): requests join and leave a running
    batch, share one paged cache, and each gets exactly the tokens it would get alone. */
module Scheduler {
  import opened Common
  import opened PagedCache
  import opened CausalModel
  import opened Batching
  import opened StopSequences
  import opened Requests
  import opened RequestQueue

  /** Capacity a fresh cache starts with, in blocks. */
  const INITIAL_CAPACITY_BLOCKS := 64


  ghost function Tables(rs: seq<InferenceRequest>): set<BlockTable> {
    set r | r in rs :: r.table
  }

  /** No two places hold the same request, and no two requests share a block table. */
  ghost predicate NoAlias(rs: seq<InferenceRequest>) {
    forall i, j :: 0 <= i < j < |rs| ==> rs[i] != rs[j] && rs[i].table != rs[j].table
  }

  ghost predicate HoldsNoBlock(t: BlockTable)
    reads t
  {
    t.blockIds == [] && t.length == 0
  }

  /** Whoever of `rs` is not kept holds no block any more. */
  ghost predicate LetGo(rs: seq<InferenceRequest>, kept: seq<InferenceRequest>)
    reads Tables(rs)
  {
    forall r :: r in rs && r !in kept ==> assert r.table in Tables(rs); HoldsNoBlock(r.table)
  }

  /** The requests of `rs` that are not in `gone`, in order. */
  function Excluding(rs: seq<InferenceRequest>, gone: seq<InferenceRequest>): (kept: seq<InferenceRequest>)
    ensures forall r :: r in kept ==> r in rs && r !in gone
    ensures forall r :: r in rs && r !in gone ==> r in kept
  {
    if rs == [] then []
    else
      var front, last := rs[..|rs| - 1], rs[|rs| - 1];
      if last in gone then Excluding(front, gone) else Excluding(front, gone) + [last]
  }

  /** How many requests are outside the short lane. */
  function GeneralCount(rs: seq<InferenceRequest>): nat {
    if rs == [] then 0
    else GeneralCount(rs[..|rs| - 1]) + if rs[|rs| - 1].priorityClass != SHORT_REQUEST_CLASS then 1 else 0
  }

  /** Leaving requests out makes neither kind more. */
  lemma {:induction false} ExcludingCounts(rs: seq<InferenceRequest>, gone: seq<InferenceRequest>)
    ensures |Excluding(rs, gone)| <= |rs|
    ensures GeneralCount(Excluding(rs, gone)) <= GeneralCount(rs)
  {
    if rs != [] {
      var front, last := rs[..|rs| - 1], rs[|rs| - 1];
      ExcludingCounts(front, gone);
      assert (Excluding(front, gone) + [last])[..|Excluding(front, gone)|] == Excluding(front, gone);
    }
  }

  lemma {:induction false} ExcludingNoAlias(rs: seq<InferenceRequest>, gone: seq<InferenceRequest>)
    requires NoAlias(rs)
    ensures NoAlias(Excluding(rs, gone))
  {
    if rs != [] {
      var front, last := rs[..|rs| - 1], rs[|rs| - 1];
      ExcludingNoAlias(front, gone);
      forall r | r in Excluding(front, gone)
        ensures r != last && r.table != last.table
      {
        var i :| 0 <= i < |front| && front[i] == r;
      }
    }
  }

  /** What `stored` holds for `t` is nothing, or the cells of all of `ids` but the last. */
  ghost predicate CellsMatch(m: Model, stored: map<BlockTable, seq<Cell>>, t: BlockTable, ids: seq<int>) {
    t in stored ==> ids != [] && stored[t] == FullCells(m, ids[..|ids| - 1])
  }

  function Lookup(stored: map<BlockTable, seq<Cell>>, t: BlockTable): seq<Cell> {
    if t in stored then stored[t] else []
  }

  /** The new cells, if any, complete the stored ones to the cells of the whole history. */
  ghost predicate CompletesCells(m: Model, cells: seq<Cell>, ids: seq<int>, newCells: Option<seq<Cell>>) {
    newCells.Some? ==> cells + newCells.value == FullCells(m, ids)
  }

  /** What one step does to a request: exactly one more token, streamed at once; and the request is
      either still in progress or closed, as the token decides. */
  ghost predicate Advanced(m: Model, settings: Settings, r: InferenceRequest, before: RequestState,
                           after: RequestState, token: int) {
    && after.generated == before.generated + [token]
    && before.queue + [Token(token)] <= after.queue
    && (after.finished <==> Ends(m, settings, after.generated, r.stopSequences, r.maxTokens))
    && (after.finished ==> Closed(m, settings, r, after)
                           && after.future == if before.future.Pending? then
                               Result(FinalText(m, settings, after.generated, r.stopSequences))
                                              else before.future)
    && (!after.finished ==> InProgress(m, settings, r, after) && after.future == before.future)
  }

  /** The store agrees with a request after its step. */
  ghost predicate Settled(m: Model, stored: map<BlockTable, seq<Cell>>, t: BlockTable, s: RequestState) {
    CellsMatch(m, stored, t, s.inputIds) && (s.finished ==> t !in stored)
  }

  lemma OtherTables(before: map<BlockTable, seq<Cell>>, after: map<BlockTable, seq<Cell>>, t: BlockTable, u: BlockTable)
    requires after - {t} == before - {t} && u != t
    ensures u in after <==> u in before
    ensures Lookup(after, u) == Lookup(before, u)
  {
    assert u in after <==> u in after - {t};
    assert u in before <==> u in before - {t};
  }

  // ---------------------------------------------------------------- one request, one cache

  /** Returns a request's blocks, if it has any. */
  method FreeBlockTable(cache: PagedKVCache, t: BlockTable)
    requires cache.Valid() && cache.Serves(t)
    modifies cache, t
    ensures cache.Valid() && t.blockIds == [] && t.length == 0
    ensures cache.Stored() == old(cache.Stored()) - {t}
  {
    cache.ServedLength(t);
    if t.blockIds != [] {
      cache.Free(t);
    }
  }

  /** Stores one step's new cells, or drops the request's cells when the model returned none. */
  method StoreNewCells(cache: PagedKVCache, t: BlockTable, newCells: Option<seq<Cell>>, ghost m: Model,
                       ghost ids: seq<int>)
    requires cache.Valid() && cache.Serves(t) && ids != []
    requires newCells.Some? ==> cache.View(t) + newCells.value == FullCells(m, ids[..|ids| - 1])
    modifies cache, t
    ensures cache.Valid() && cache.Serves(t)
    ensures cache.Stored() - {t} == old(cache.Stored()) - {t}
    ensures CellsMatch(m, cache.Stored(), t, ids)
  {
    if newCells.None? {
      cache.Free(t);
    } else {
      cache.Append(t, newCells.value);
    }
  }

  /** One more token in the history and on the output queue. */
  ghost function Grown(s: RequestState, token: int, draw: Draw): RequestState {
    s.(inputIds := s.inputIds + [token], generated := s.generated + [token], draws := s.draws + [draw],
       queue := s.queue + [Token(token)])
  }

  /** Done: the future resolved unless the client cancelled it, and the end of the stream signalled. */
  ghost function Finished(s: RequestState, text: string): RequestState {
    s.(finished := true, future := if s.future.Pending? then Result(text) else s.future, queue := s.queue + [Done])
  }

  /** Failed: the future gets the error unless it is done, the stream what the client may see of it. */
  ghost function Failure(s: RequestState, error: string, shown: string): RequestState {
    s.(future := if s.future.Pending? then Error(error) else s.future, queue := s.queue + [Failed(shown)])
  }

  /** A request after one more token, finished if the token ends it. */
  ghost function NextState(m: Model, settings: Settings, r: InferenceRequest, s: RequestState, token: int,
                           draw: Draw): RequestState {
    var grown := Grown(s, token, draw);
    if Ends(m, settings, grown.generated, r.stopSequences, r.maxTokens)
    then Finished(grown, FinalText(m, settings, grown.generated, r.stopSequences))
    else grown
  }

  lemma GrownIsRight(m: Model, settings: Settings, r: InferenceRequest, s: RequestState, token: int, draw: Draw)
    requires InProgress(m, settings, r, s)
    requires s.inputIds != [] ==> token == FullNext(m, s.inputIds, r.params, draw)
    ensures var g := Grown(s, token, draw);
            && g.inputIds == r.promptIds + g.generated
            && Recomputed(m, r.promptIds, g.generated, r.params, g.draws)
            && g.queue == Tokens(g.generated)
  {
    RecomputedExtends(m, r.promptIds, s.generated, r.params, s.draws, token, draw);
    TokensGrow(s.generated, token);
    assert r.promptIds + (s.generated + [token]) == r.promptIds + s.generated + [token];
  }

  lemma TokensGrow(ids: seq<int>, token: int)
    ensures Tokens(ids + [token]) == Tokens(ids) + [Token(token)]
  {
  }

  lemma NextStateIsRight(m: Model, settings: Settings, r: InferenceRequest, s: RequestState, token: int, draw: Draw)
    requires InProgress(m, settings, r, s)
    requires s.inputIds != [] ==> token == FullNext(m, s.inputIds, r.params, draw)
    ensures Advanced(m, settings, r, s, NextState(m, settings, r, s, token, draw), token)
  {
    hide Ends, EndsNow, StillOpen, FinalText, Recomputed, Closed;
    GrownIsRight(m, settings, r, s, token, draw);
    OneTokenOn(m, settings, r, s.generated, token);
    if EndsNow(m, settings, r, s.generated + [token]) {
      FinishCloses(m, settings, r, Grown(s, token, draw));
    }
  }

  /** One token more: it ends the request, as the first that does, or the request goes on. */
  lemma OneTokenOn(m: Model, settings: Settings, r: InferenceRequest, generated: seq<int>, token: int)
    requires StillOpen(m, settings, r, generated)
    ensures var grown := generated + [token];
            if Ends(m, settings, grown, r.stopSequences, r.maxTokens) then EndsNow(m, settings, r, grown)
            else StillOpen(m, settings, r, grown) && |grown| < r.maxTokens
  {
    hide Ends;
    var grown := generated + [token];
    LimitOrNot(m, settings, r, grown);
    assert grown[..|generated|] == generated && grown[..|grown|] == grown;
    forall k | 0 < k <= |generated| ensures grown[..k] == generated[..k] {
    }
  }

  lemma LimitOrNot(m: Model, settings: Settings, r: InferenceRequest, generated: seq<int>)
    requires generated != []
    ensures Ends(m, settings, generated, r.stopSequences, r.maxTokens) || |generated| < r.maxTokens
  {
  }

  /** With its prompt in place, a request that has not started is in progress. */
  lemma AdmittedIsInProgress(m: Model, settings: Settings, r: InferenceRequest, s: RequestState)
    requires r.maxStopLength == MaxStopLength(r.stopSequences) && r.maxTokens >= 1
    requires s.generated == [] && s.draws == [] && s.queue == [] && !s.finished
             && (s.future.Pending? || s.future.Cancelled?)
    ensures InProgress(m, settings, r, s.(inputIds := r.promptIds))
  {
    assert r.promptIds + [] == r.promptIds && Tokens([]) == [];
  }

  /** Streams one token and adds it to the request's history. */
  method RecordToken(r: InferenceRequest, token: int, ghost draw: Draw)
    modifies r`queue, r`generated, r`inputIds, r`draws
    ensures r.State() == Grown(old(r.State()), token, draw)
  {
    r.queue := r.queue + [Token(token)];
    r.generated := r.generated + [token];
    r.draws := r.draws + [draw];
    r.inputIds := r.inputIds + [token];
  }

  /** Resolves the future unless the client already cancelled it, and signals end of stream. */
  method FinishRequest(r: InferenceRequest, finalText: Option<string>, decode: Decoder)
    modifies r`finished, r`future, r`queue
    ensures r.State() == Finished(old(r.State()), if finalText.Some? then finalText.value else decode(r.generated))
  {
    r.finished := true;
    if r.future.Pending? {
      var text := if finalText.Some? then finalText.value else decode(r.generated);
      r.future := Result(text);
    }
    r.queue := r.queue + [Done];
  }

  method FailRequest(r: InferenceRequest, error: string, shown: string)
    modifies r`future, r`queue
    ensures r.State() == Failure(old(r.State()), error, shown)
  {
    if r.future.Pending? {
      r.future := Error(error);
    }
    r.queue := r.queue + [Failed(shown)];
  }

  /** The request's own half of a step: record the token, and finish if the token ends it. */
  method Advance(r: InferenceRequest, token: int, ghost draw: Draw, m: Model, settings: Settings)
    requires r.maxStopLength == MaxStopLength(r.stopSequences)
    modifies r
    ensures r.State() == NextState(m, settings, r, old(r.State()), token, draw)
    ensures token == m.eosId || |r.generated| >= r.maxTokens ==> r.finished
    ensures r.generated == old(r.generated) + [token] && old(r.queue) + [Token(token)] <= r.queue
  {
    RecordToken(r, token, draw);
    var stopText := FindStopText(m.decode, r.generated, r.stopSequences, r.maxStopLength, settings.stopWindowSlack);
    if stopText.Some? || token == m.eosId || |r.generated| >= r.maxTokens {
      FinishRequest(r, stopText, m.decode);
    }
  }

  /** The cache's half of a step: store the new cells, and return the blocks of a finished request. */
  method SettleCells(cache: PagedKVCache, t: BlockTable, newCells: Option<seq<Cell>>, finished: bool,
                     ghost m: Model, ghost ids: seq<int>)
    requires cache.Valid() && cache.Serves(t) && ids != []
    requires newCells.Some? ==> cache.View(t) + newCells.value == FullCells(m, ids[..|ids| - 1])
    modifies cache, t
    ensures cache.Valid() && cache.Serves(t)
    ensures cache.Stored() - {t} == old(cache.Stored()) - {t}
    ensures CellsMatch(m, cache.Stored(), t, ids)
    ensures finished ==> t !in cache.Stored()
  {
    StoreNewCells(cache, t, newCells, m, ids);
    if finished {
      FreeBlockTable(cache, t);
    }
  }

  /** One row of a step: advance the request, store its new cells, and return its blocks if it is
      finished. */
  method DispatchOne(cache: PagedKVCache, r: InferenceRequest, token: int, newCells: Option<seq<Cell>>,
                     ghost draw: Draw, m: Model, settings: Settings)
    requires cache.Valid() && cache.Serves(r.table) && r.maxStopLength == MaxStopLength(r.stopSequences)
    requires CompletesCells(m, Lookup(cache.Stored(), r.table), r.inputIds, newCells)
    modifies r, r.table, cache
    ensures cache.Valid() && cache.Serves(r.table)
    ensures cache.Stored() - {r.table} == old(cache.Stored()) - {r.table}
    ensures r.State() == NextState(m, settings, r, old(r.State()), token, draw)
    ensures Settled(m, cache.Stored(), r.table, r.State())
  {
    hide PagedKVCache.Stored, PagedKVCache.Valid;
    ghost var ids := r.inputIds + [token];
    assert ids[..|ids| - 1] == r.inputIds;
    Advance(r, token, draw, m, settings);
    SettleCells(cache, r.table, newCells, r.finished, m, ids);
  }

  /** Whether `newPast` has, for every row, the columns that row contributed. */
  ghost predicate Sliceable(newPast: Option<seq<seq<Cell>>>, rows: nat, pastWidth: nat, newLengths: seq<nat>) {
    && |newLengths| == rows
    && (newPast.Some? ==> |newPast.value| == rows
                          && forall i :: 0 <= i < rows ==> pastWidth + newLengths[i] <= |newPast.value[i]|)
  }

  ghost function States(rs: seq<InferenceRequest>): (r: seq<RequestState>)
    reads rs
    ensures |r| == |rs| && forall i :: 0 <= i < |rs| ==> r[i] == rs[i].State()
  {
    seq(|rs|, i requires 0 <= i < |rs| reads rs => rs[i].State())
  }

  /** How far the dispatch loop has come: rows before `i` are done, the others as they were. All of
      it is about values, so no later row disturbs it. */
  ghost predicate UpTo(i: nat, m: Model, settings: Settings, rs: seq<InferenceRequest>, tokens: seq<int>,
                       draws: seq<Draw>, before: seq<RequestState>, now: seq<RequestState>,
                       storedBefore: map<BlockTable, seq<Cell>>, stored: map<BlockTable, seq<Cell>>) {
    && i <= |rs| == |tokens| == |draws| == |before| == |now|
    && (forall j :: 0 <= j < i ==> now[j] == NextState(m, settings, rs[j], before[j], tokens[j], draws[j]))
    && (forall j :: 0 <= j < i ==> Settled(m, stored, rs[j].table, now[j]))
    && (forall j :: i <= j < |rs| ==> now[j] == before[j])
    && (forall j :: i <= j < |rs| ==> Lookup(stored, rs[j].table) == Lookup(storedBefore, rs[j].table))
    && stored - Tables(rs[..i]) == storedBefore - Tables(rs[..i])
  }

  /** Every row's slice of the new past completes what is stored for its request. */
  ghost predicate RowsComplete(m: Model, rs: seq<InferenceRequest>, states: seq<RequestState>,
                               stored: map<BlockTable, seq<Cell>>,
                               newPast: Option<seq<seq<Cell>>>, pastWidth: nat, newLengths: seq<nat>)
    requires |states| == |rs| && Sliceable(newPast, |rs|, pastWidth, newLengths)
  {
    forall i :: 0 <= i < |rs| ==>
      CompletesCells(m, Lookup(stored, rs[i].table), states[i].inputIds,
                     ExtractNewKv(newPast, i, pastWidth, newLengths[i]))
  }

  lemma NextRowCompletes(i: nat, m: Model, settings: Settings, rs: seq<InferenceRequest>, tokens: seq<int>,
                         draws: seq<Draw>, before: seq<RequestState>, now: seq<RequestState>,
                         storedBefore: map<BlockTable, seq<Cell>>, stored: map<BlockTable, seq<Cell>>,
                         newPast: Option<seq<seq<Cell>>>, pastWidth: nat, newLengths: seq<nat>)
    requires UpTo(i, m, settings, rs, tokens, draws, before, now, storedBefore, stored) && i < |rs|
    requires Sliceable(newPast, |rs|, pastWidth, newLengths)
    requires RowsComplete(m, rs, before, storedBefore, newPast, pastWidth, newLengths)
    ensures CompletesCells(m, Lookup(stored, rs[i].table), now[i].inputIds,
                           ExtractNewKv(newPast, i, pastWidth, newLengths[i]))
  {
  }

  lemma UpToNext(i: nat, m: Model, settings: Settings, rs: seq<InferenceRequest>, tokens: seq<int>, draws: seq<Draw>,
                 before: seq<RequestState>, now: seq<RequestState>, now': seq<RequestState>,
                 storedBefore: map<BlockTable, seq<Cell>>, stored: map<BlockTable, seq<Cell>>,
                 stored': map<BlockTable, seq<Cell>>)
    requires UpTo(i, m, settings, rs, tokens, draws, before, now, storedBefore, stored) && i < |rs| && NoAlias(rs)
    requires |now'| == |now| && forall j :: 0 <= j < |now| && j != i ==> now'[j] == now[j]
    requires stored' - {rs[i].table} == stored - {rs[i].table}
    requires now'[i] == NextState(m, settings, rs[i], before[i], tokens[i], draws[i])
             && Settled(m, stored', rs[i].table, now'[i])
    ensures UpTo(i + 1, m, settings, rs, tokens, draws, before, now', storedBefore, stored')
  {
    forall j | 0 <= j < |rs| && j != i
      ensures rs[j].table in stored' <==> rs[j].table in stored
      ensures Lookup(stored', rs[j].table) == Lookup(stored, rs[j].table)
    {
      OtherTables(stored, stored', rs[i].table, rs[j].table);
    }
    assert rs[..i + 1] == rs[..i] + [rs[i]];
    assert Tables(rs[..i + 1]) == Tables(rs[..i]) + {rs[i].table};
    WithoutMore(storedBefore, stored, stored', Tables(rs[..i]), rs[i].table);
  }

  lemma WithoutMore<K, V>(m0: map<K, V>, m1: map<K, V>, m2: map<K, V>, keys: set<K>, k: K)
    requires m1 - keys == m0 - keys && m2 - {k} == m1 - {k}
    ensures m2 - (keys + {k}) == m0 - (keys + {k})
  {
    assert m2 - (keys + {k}) == (m2 - {k}) - keys;
    assert m1 - (keys + {k}) == (m1 - {k}) - keys;
    assert m1 - (keys + {k}) == (m1 - keys) - {k};
    assert m0 - (keys + {k}) == (m0 - keys) - {k};
  }

  lemma EndedAll(rs: seq<InferenceRequest>, states: seq<RequestState>)
    requires |states| == |rs|
    ensures Ended(rs[..|rs|], states[..|rs|]) == Ended(rs, states)
  {
    assert rs[..|rs|] == rs && states[..|rs|] == states;
  }

  /** One turn of the dispatch loop. */
  method DispatchRow(cache: PagedKVCache, reqs: seq<InferenceRequest>, i: nat, token: int, newKv: Option<seq<Cell>>,
                     ghost draw: Draw, m: Model, settings: Settings)
    requires cache.Valid() && NoAlias(reqs) && i < |reqs|
    requires forall j :: 0 <= j < |reqs| ==> cache.Serves(reqs[j].table)
    requires reqs[i].maxStopLength == MaxStopLength(reqs[i].stopSequences)
    requires CompletesCells(m, Lookup(cache.Stored(), reqs[i].table), reqs[i].inputIds, newKv)
    modifies cache, reqs[i], reqs[i].table
    ensures cache.Valid() && forall j :: 0 <= j < |reqs| ==> cache.Serves(reqs[j].table)
    ensures cache.Stored() - {reqs[i].table} == old(cache.Stored()) - {reqs[i].table}
    ensures forall j :: 0 <= j < |reqs| && j != i ==> reqs[j].State() == old(reqs[j].State())
    ensures reqs[i].State() == NextState(m, settings, reqs[i], old(reqs[i].State()), token, draw)
    ensures Settled(m, cache.Stored(), reqs[i].table, reqs[i].State())
  {
    DispatchOne(cache, reqs[i], token, newKv, draw, m, settings);
    forall j | 0 <= j < |reqs| && j != i
      ensures cache.Serves(reqs[j].table)
    {
      OtherTables(old(cache.Stored()), cache.Stored(), reqs[i].table, reqs[j].table);
    }
  }

  /** The requests whose state says finished, in order. */
  function Ended(rs: seq<InferenceRequest>, states: seq<RequestState>): seq<InferenceRequest>
    requires |states| == |rs|
  {
    if rs == [] then []
    else
      var n := |rs| - 1;
      Ended(rs[..n], states[..n]) + if states[n].finished then [rs[n]] else []
  }

  lemma EndedNext(rs: seq<InferenceRequest>, now: seq<RequestState>, now': seq<RequestState>, i: nat)
    requires |now| == |now'| == |rs| && i < |rs| && forall j :: 0 <= j < i ==> now'[j] == now[j]
    ensures Ended(rs[..i + 1], now'[..i + 1]) == Ended(rs[..i], now[..i]) + if now'[i].finished then [rs[i]] else []
  {
    assert rs[..i + 1][..i] == rs[..i] && now'[..i + 1][..i] == now[..i];
  }

  /** The step's results, dispatched row by row. Returns the requests that finished. */
  method DispatchTokens(cache: PagedKVCache, reqs: seq<InferenceRequest>, tokens: seq<int>,
                        newPast: Option<seq<seq<Cell>>>, pastWidth: nat, newLengths: seq<nat>,
                        ghost draws: seq<Draw>, m: Model, settings: Settings)
      returns (finished: seq<InferenceRequest>)
    requires cache.Valid() && NoAlias(reqs)
    requires |tokens| == |draws| == |reqs| && Sliceable(newPast, |reqs|, pastWidth, newLengths)
    requires forall i :: 0 <= i < |reqs| ==>
               cache.Serves(reqs[i].table) && reqs[i].maxStopLength == MaxStopLength(reqs[i].stopSequences)
    requires RowsComplete(m, reqs, States(reqs), cache.Stored(), newPast, pastWidth, newLengths)
    modifies cache, reqs, Tables(reqs)
    ensures cache.Valid()
    ensures forall i :: 0 <= i < |reqs| ==> cache.Serves(reqs[i].table)
    ensures UpTo(|reqs|, m, settings, reqs, tokens, draws, old(States(reqs)), States(reqs), old(cache.Stored()),
                 cache.Stored())
    ensures finished == Ended(reqs, States(reqs))
  {
    ghost var before, storedBefore := States(reqs), cache.Stored();
    finished := [];
    for i := 0 to |reqs|
      invariant cache.Valid() && forall j :: 0 <= j < |reqs| ==> cache.Serves(reqs[j].table)
      invariant UpTo(i, m, settings, reqs, tokens, draws, before, States(reqs), storedBefore, cache.Stored())
      invariant finished == Ended(reqs[..i], States(reqs)[..i])
    {
      var newKv := ExtractNewKv(newPast, i, pastWidth, newLengths[i]);
      NextRowCompletes(i, m, settings, reqs, tokens, draws, before, States(reqs), storedBefore, cache.Stored(),
                       newPast, pastWidth, newLengths);
      finished := DispatchTurn(cache, reqs, i, tokens, newKv, finished, draws, before, storedBefore, m, settings);
    }
    EndedAll(reqs, States(reqs));
  }

  /** What a step must not disturb: the state of the other requests and of their tables. */
  ghost function Surroundings(others: seq<InferenceRequest>): (r: seq<(RequestState, seq<nat>, nat)>)
    reads others, Tables(others)
    ensures |r| == |others|
    ensures forall i :: 0 <= i < |others| ==>
              r[i] == (others[i].State(), others[i].table.blockIds, others[i].table.length)
  {
    seq(|others|, i requires 0 <= i < |others| reads others, Tables(others) =>
      assert others[i].table in Tables(others);
      (others[i].State(), others[i].table.blockIds, others[i].table.length))
  }

  /** Requests that a step does not concern are live, against the store as it was. */
  ghost predicate Bystanders(m: Model, settings: Settings, others: seq<InferenceRequest>,
                             around: seq<(RequestState, seq<nat>, nat)>, stored: map<BlockTable, seq<Cell>>) {
    && |around| == |others|
    && forall i :: 0 <= i < |others| ==>
         && InProgress(m, settings, others[i], around[i].0)
         && (others[i].table in stored || (around[i].1 == [] && around[i].2 == 0))
         && CellsMatch(m, stored, others[i].table, around[i].0.inputIds)
  }

  /** `DispatchTokens`, with what it leaves alone. */
  method DispatchBeside(cache: PagedKVCache, reqs: seq<InferenceRequest>, ghost others: seq<InferenceRequest>,
                        tokens: seq<int>, newPast: Option<seq<seq<Cell>>>, pastWidth: nat, newLengths: seq<nat>,
                        ghost draws: seq<Draw>, m: Model, settings: Settings)
      returns (finished: seq<InferenceRequest>)
    requires cache.Valid() && NoAlias(reqs)
    requires (forall r :: r in others ==> r !in reqs) && Tables(others) !! Tables(reqs)
    requires |tokens| == |draws| == |reqs| && Sliceable(newPast, |reqs|, pastWidth, newLengths)
    requires forall i :: 0 <= i < |reqs| ==>
               cache.Serves(reqs[i].table) && reqs[i].maxStopLength == MaxStopLength(reqs[i].stopSequences)
    requires RowsComplete(m, reqs, States(reqs), cache.Stored(), newPast, pastWidth, newLengths)
    modifies cache, reqs, Tables(reqs)
    ensures cache.Valid()
    ensures forall i :: 0 <= i < |reqs| ==> cache.Serves(reqs[i].table)
    ensures UpTo(|reqs|, m, settings, reqs, tokens, draws, old(States(reqs)), States(reqs), old(cache.Stored()),
                 cache.Stored())
    ensures finished == Ended(reqs, States(reqs))
    ensures Surroundings(others) == old(Surroundings(others))
  {
    hide UpTo, RowsComplete, Ended, Sliceable, PagedKVCache.Valid, NoAlias, PagedKVCache.Stored, States, Surroundings;
    finished := DispatchTokens(cache, reqs, tokens, newPast, pastWidth, newLengths, draws, m, settings);
  }

  /** `DispatchRow` as one turn of the loop, with the list of finished requests. */
  method DispatchTurn(cache: PagedKVCache, reqs: seq<InferenceRequest>, i: nat, tokens: seq<int>,
                      newKv: Option<seq<Cell>>,
                      done: seq<InferenceRequest>, ghost draws: seq<Draw>, ghost before: seq<RequestState>,
                      ghost storedBefore: map<BlockTable, seq<Cell>>, m: Model, settings: Settings)
      returns (finished: seq<InferenceRequest>)
    requires cache.Valid() && NoAlias(reqs) && i < |reqs|
    requires forall j :: 0 <= j < |reqs| ==> cache.Serves(reqs[j].table)
    requires UpTo(i, m, settings, reqs, tokens, draws, before, States(reqs), storedBefore, cache.Stored())
    requires done == Ended(reqs[..i], States(reqs)[..i])
    requires reqs[i].maxStopLength == MaxStopLength(reqs[i].stopSequences)
    requires CompletesCells(m, Lookup(cache.Stored(), reqs[i].table), States(reqs)[i].inputIds, newKv)
    modifies cache, reqs[i], reqs[i].table
    ensures cache.Valid() && forall j :: 0 <= j < |reqs| ==> cache.Serves(reqs[j].table)
    ensures UpTo(i + 1, m, settings, reqs, tokens, draws, before, States(reqs), storedBefore, cache.Stored())
    ensures finished == Ended(reqs[..i + 1], States(reqs)[..i + 1])
  {
    ghost var now, stored := States(reqs), cache.Stored();
    DispatchRow(cache, reqs, i, tokens[i], newKv, draws[i], m, settings);
    ghost var now', stored' := States(reqs), cache.Stored();
    UpToNext(i, m, settings, reqs, tokens, draws, before, now, now', storedBefore, stored, stored');
    EndedNext(reqs, now, now', i);
    finished := done;
    if reqs[i].finished {
      finished := finished + [reqs[i]];
    }
  }

  // ---------------------------------------------------------------- building a step

  function TableSeq(rs: seq<InferenceRequest>): (ts: seq<BlockTable>)
    ensures |ts| == |rs| && forall i :: 0 <= i < |rs| ==> ts[i] == rs[i].table
  {
    seq(|rs|, i requires 0 <= i < |rs| => rs[i].table)
  }

  /** A row's new tokens: everything when nothing is cached, else the latest token only. */
  function NewRow(ids: seq<int>, cached: nat): seq<int>
    requires cached > 0 ==> ids != []
  {
    if cached == 0 then ids else ids[|ids| - 1..]
  }

  /** What a row brings to the batch fits its history: nothing cached and all tokens new, or all
      tokens but the last cached and that one new. */
  ghost predicate RowFits(m: Model, past: seq<Cell>, new_: seq<int>, ids: seq<int>) {
    || (past == [] && new_ == ids)
    || (ids != [] && past == FullCells(m, ids[..|ids| - 1]) && new_ == ids[|ids| - 1..])
  }

  /** Through the batch and out again: a fitting row's slice completes its cells, and its logits are
      those of the whole history. */
  lemma RowIsFull(m: Model, pasts: seq<seq<Cell>>, news: seq<seq<int>>, padId: int, i: nat, ids: seq<int>)
    requires |pasts| == |news| && i < |news| && RowFits(m, pasts[i], news[i], ids)
    ensures var b := BatchFor(pasts, news, padId);
            && WellShaped(b) && |b.inputIds| == |news|
            && var r := Forward(m, b);
            && (r.Some? && ids != [] ==> r.value.logits[i] == NextLogits(m, [], ids))
            && (r.Some? ==>
                  |r.value.newPast[i]| >= b.pastWidth + |news[i]|
                  && CompletesCells(m, pasts[i], ids, ExtractNewKv(Some(r.value.newPast), i, b.pastWidth, |news[i]|)))
  {
    hide BatchFor, RowShaped, Extend, NextLogits;
    RowInBatch(m, pasts, news, padId, i);
    var done := if pasts[i] == [] && news[i] == ids then [] else ids[..|ids| - 1];
    assert ids == done + news[i];
    IncrementalIsFull(m, done, news[i]);
  }

  /** A whole batch at once. */
  lemma BatchIsFull(m: Model, pasts: seq<seq<Cell>>, news: seq<seq<int>>, padId: int, idss: seq<seq<int>>)
    requires |pasts| == |news| == |idss|
    requires forall i :: 0 <= i < |news| ==> RowFits(m, pasts[i], news[i], idss[i])
    ensures var b := BatchFor(pasts, news, padId);
            WellShaped(b) && |b.inputIds| == |news| && b.newLengths == RowLengths(news)
    ensures var b := BatchFor(pasts, news, padId);
            news != [] && Forward(m, b).Some? ==>
              && Sliceable(Some(Forward(m, b).value.newPast), |news|, b.pastWidth, b.newLengths)
              && forall i :: 0 <= i < |news| ==> RowComesOut(m, b, pasts[i], idss[i], i)
  {
    BatchIsWellShaped(pasts, news, padId);
    var b := BatchFor(pasts, news, padId);
    if news != [] && Forward(m, b).Some? {
      forall i | 0 <= i < |news|
        ensures b.pastWidth + b.newLengths[i] <= |Forward(m, b).value.newPast[i]|
        ensures RowComesOut(m, b, pasts[i], idss[i], i)
      {
        RowIsFull(m, pasts, news, padId, i, idss[i]);
      }
    }
  }

  /** Row `i` of a successful forward pass: the logits and the cells of a full recomputation. */
  ghost predicate RowComesOut(m: Model, b: BatchInputs, past: seq<Cell>, ids: seq<int>, i: nat)
    requires WellShaped(b) && i < |b.inputIds| && Forward(m, b).Some?
    requires b.pastWidth + b.newLengths[i] <= |Forward(m, b).value.newPast[i]|
  {
    var out := Forward(m, b).value;
    && (ids != [] ==> out.logits[i] == NextLogits(m, [], ids))
    && CompletesCells(m, past, ids, ExtractNewKv(Some(out.newPast), i, b.pastWidth, b.newLengths[i]))
  }

  /** What the environment decides about one forward pass: it may fail, or return no usable past. */
  datatype Outcome = Fails | Succeeds(pastUsable: bool)

  /** A request moved on by exactly one token. */
  ghost predicate AdvancedByOne(m: Model, settings: Settings, r: InferenceRequest, before: RequestState,
                                after: RequestState) {
    && |after.generated| == |before.generated| + 1
    && Advanced(m, settings, r, before, after, after.generated[|before.generated|])
  }

  lemma NextIsByOne(m: Model, settings: Settings, r: InferenceRequest, s: RequestState, token: int, draw: Draw)
    requires InProgress(m, settings, r, s)
    requires s.inputIds != [] ==> token == FullNext(m, s.inputIds, r.params, draw)
    ensures AdvancedByOne(m, settings, r, s, NextState(m, settings, r, s, token, draw))
  {
    NextStateIsRight(m, settings, r, s, token, draw);
  }

  /** Every sampled token is right for its row. */
  ghost predicate TokensRight(m: Model, settings: Settings, rs: seq<InferenceRequest>, states: seq<RequestState>,
                              tokens: seq<int>, draws: seq<Draw>)
    requires |states| == |tokens| == |draws| == |rs|
  {
    forall i :: 0 <= i < |rs| ==>
      InProgress(m, settings, rs[i], states[i]) && (states[i].inputIds != [] ==>
                                                    tokens[i] == FullNext(m, states[i].inputIds, rs[i].params,
                                                          draws[i]))
  }

  lemma AllAdvanced(m: Model, settings: Settings, rs: seq<InferenceRequest>, tokens: seq<int>, draws: seq<Draw>,
                    before: seq<RequestState>, now: seq<RequestState>,
                    storedBefore: map<BlockTable, seq<Cell>>, stored: map<BlockTable, seq<Cell>>)
    requires UpTo(|rs|, m, settings, rs, tokens, draws, before, now, storedBefore, stored)
    requires TokensRight(m, settings, rs, before, tokens, draws)
    ensures forall i :: 0 <= i < |rs| ==> AdvancedByOne(m, settings, rs[i], before[i], now[i])
    ensures forall i :: 0 <= i < |rs| ==> Settled(m, stored, rs[i].table, now[i])
    ensures stored - Tables(rs) == storedBefore - Tables(rs)
  {
    assert rs[..|rs|] == rs;
    forall i | 0 <= i < |rs|
      ensures AdvancedByOne(m, settings, rs[i], before[i], now[i])
    {
      NextIsByOne(m, settings, rs[i], before[i], tokens[i], draws[i]);
    }
  }

  lemma EndedOne(r: InferenceRequest, state: RequestState)
    ensures Ended([r], [state]) == if state.finished then [r] else []
  {
    assert Ended([r][..0], [state][..0]) == [];
  }

  lemma {:induction false} EndedMembers(rs: seq<InferenceRequest>, states: seq<RequestState>)
    requires |states| == |rs|
    ensures forall r :: r in Ended(rs, states) ==> exists i :: 0 <= i < |rs| && rs[i] == r && states[i].finished
    ensures forall i :: 0 <= i < |rs| && states[i].finished ==> rs[i] in Ended(rs, states)
  {
    if rs != [] {
      var n := |rs| - 1;
      EndedMembers(rs[..n], states[..n]);
      assert forall i :: 0 <= i < n ==> rs[i] == rs[..n][i] && states[i] == states[..n][i];
    }
  }

  // ---------------------------------------------------------------- the scheduler

  predicate PastDeadline(r: InferenceRequest, now: real) {
    r.deadline.Some? && r.deadline.value <= now
  }

  /** How a request that runs past its deadline ends: with what it has, or with an error. */
  ghost function ExpiredState(m: Model, settings: Settings, s: RequestState): RequestState {
    if s.generated != [] then Finished(s, m.decode(s.generated)) else Failure(s, TIMEOUT_ERROR, TIMEOUT_MESSAGE)
  }

  ghost function AfterDeadline(m: Model, settings: Settings, r: InferenceRequest, s: RequestState,
                               now: real): RequestState {
    if PastDeadline(r, now) then ExpiredState(m, settings, s) else s
  }

  /** The deadline sweep has come to row `i`. */
  ghost predicate Swept(i: nat, m: Model, settings: Settings, rs: seq<InferenceRequest>, before: seq<RequestState>,
                        now: seq<RequestState>, clock: real) {
    && i <= |rs| == |before| == |now|
    && (forall j :: 0 <= j < i ==> now[j] == AfterDeadline(m, settings, rs[j], before[j], clock))
    && (forall j :: i <= j < |rs| ==> now[j] == before[j])
  }

  ghost predicate SweptTables(i: nat, rs: seq<InferenceRequest>, clock: real)
    reads Tables(rs)
  {
    i <= |rs| && forall j :: 0 <= j < i && PastDeadline(rs[j], clock) ==>
          assert rs[j].table in Tables(rs); HoldsNoBlock(rs[j].table)
  }

  /** The requests still within their deadlines, in order. */
  function StillActive(rs: seq<InferenceRequest>, now: real): seq<InferenceRequest> {
    if rs == [] then []
    else StillActive(rs[..|rs| - 1], now) + if PastDeadline(rs[|rs| - 1], now) then [] else [rs[|rs| - 1]]
  }

  /** The requests whose client cancelled them, in order. */
  function CancelledOf(rs: seq<InferenceRequest>): (r: seq<InferenceRequest>)
    reads rs
    ensures forall q :: q in r ==> q in rs && q.future.Cancelled?
    ensures forall q :: q in rs && q.future.Cancelled? ==> q in r
  {
    if rs == [] then []
    else CancelledOf(rs[..|rs| - 1]) + if rs[|rs| - 1].future.Cancelled? then [rs[|rs| - 1]] else []
  }

  class ContinuousScheduler {
    const settings: Settings
    var model: Model
    var active: seq<InferenceRequest>
    var cache: PagedKVCache?           // built on first use
    var peakUsedBlocks: real
    var idleSince: Option<real>

    constructor (settings: Settings, model: Model)
      requires settings.blockSize > 0
      ensures Valid() && this.settings == settings && this.model == model
      ensures active == [] && cache == null && idleSince.None?
    {
      this.settings, this.model := settings, model;
      active, cache, peakUsedBlocks, idleSince := [], null, 0.0, None;
    }

    ghost function CacheTables(): set<BlockTable>
      reads `cache, cache
    {
      if cache == null then {} else cache.tables
    }

    ghost predicate StoreValid()
      reads `cache, cache, CacheTables()
    {
      settings.blockSize > 0 && (cache != null ==> cache.Valid())
    }

    /** What the cache stores; nothing before it is built. */
    ghost function Stored(): (m: map<BlockTable, seq<Cell>>)
      requires StoreValid()
      reads `cache, cache, CacheTables()
      ensures m.Keys == CacheTables()
    {
      if cache == null then map[] else cache.Stored()
    }

    ghost predicate Serves(t: BlockTable)
      reads `cache, cache, t
    {
      t in CacheTables() || (t.blockIds == [] && t.length == 0)
    }

    /** The request's table is empty, or holds the cells of all its tokens but the last. */
    ghost predicate Cached(r: InferenceRequest)
      requires StoreValid()
      reads `cache, `model, cache, CacheTables(), r`inputIds, r.table
    {
      Serves(r.table) && CellsMatch(model, Stored(), r.table, r.inputIds)
    }

    /** The store, for a list of requests: none aliases another, each has its own cells, and the
        blocks in use are exactly theirs. */
    ghost predicate Backed(rs: seq<InferenceRequest>)
      reads `cache, `model, cache, CacheTables(), rs`inputIds, Tables(rs)
    {
      && NoAlias(rs)
      && StoreValid()
      && CacheTables() <= Tables(rs)
      && (forall r :: r in rs ==> Cached(r))
    }

    ghost predicate Running(rs: seq<InferenceRequest>)
      reads `model, rs
    {
      forall r :: r in rs ==> InProgress(model, settings, r, r.State())
    }

    /** The scheduler's invariant, for a list of requests. */
    ghost predicate Holds(rs: seq<InferenceRequest>)
      reads `cache, `model, cache, CacheTables(), rs, Tables(rs)
    {
      Backed(rs) && Running(rs)
    }

    ghost predicate Valid()
      reads this, cache, CacheTables(), active, Tables(active)
    {
      Holds(active)
    }

    /** Returns a request's blocks, if it has any, without building a cache for it. */
    method FreeTable(r: InferenceRequest)
      requires StoreValid() && Serves(r.table)
      modifies cache, r.table
      ensures StoreValid() && Stored() == old(Stored()) - {r.table}
      ensures r.table.blockIds == [] && r.table.length == 0
    {
      if cache != null {
        cache.ServedLength(r.table);
      }
      if r.table.blockIds != [] {
        cache.Free(r.table);
      }
    }

    /** `FreeTable` for one of `rs` leaves the store right: an empty table always is. */
    method FreeOneOf(rs: seq<InferenceRequest>, r: InferenceRequest)
      requires Backed(rs) && r in rs
      modifies cache, r.table
      ensures Backed(rs)
      ensures Stored() == old(Stored()) - {r.table}
    {
      ghost var k :| 0 <= k < |rs| && rs[k] == r;
      FreeTable(r);
      forall q | q in rs
        ensures Cached(q)
      {
        ghost var j :| 0 <= j < |rs| && rs[j] == q;
        assert old(Cached(q));
      }
    }

    /** Requests that hold no block can be dropped from the list. */
    lemma BackedWithout(rs: seq<InferenceRequest>, gone: seq<InferenceRequest>)
      requires Backed(rs)
      requires forall r :: r in gone ==> r.table !in Stored()
      ensures Backed(Excluding(rs, gone)) && LetGo(rs, Excluding(rs, gone))
    {
      ExcludingNoAlias(rs, gone);
      forall r | r in rs && r !in Excluding(rs, gone) ensures HoldsNoBlock(r.table) {
        assert Cached(r);
      }
      forall t | t in CacheTables()
        ensures t in Tables(Excluding(rs, gone))
      {
        var r :| r in rs && r.table == t;
        assert r in Excluding(rs, gone);
      }
    }

    method FreeAllOf(rs: seq<InferenceRequest>, gone: seq<InferenceRequest>)
      requires Backed(rs) && forall r :: r in gone ==> r in rs
      modifies cache, Tables(rs)
      ensures Backed(rs)
      ensures Stored() == old(Stored()) - Tables(gone)
    {
      TablesEnds(Stored(), gone);
      for i := 0 to |gone|
        invariant Backed(rs)
        invariant Stored() == old(Stored()) - Tables(gone[..i])
      {
        FreeOneOf(rs, gone[i]);
        TablesNext(old(Stored()), gone, i);
      }
    }

    method SetActive(kept: seq<InferenceRequest>)
      requires Holds(kept)
      modifies `active
      ensures Valid() && active == kept
    {
      active := kept;
      assert Holds(kept);
    }

    /** Drops requests whose client has gone. Their futures are final already; nothing is sent. */
    method EvictCancelledRequests()
      requires Valid()
      modifies `active, cache, Tables(active)
      ensures Valid() && cache == old(cache) && LetGo(old(active), active)
      ensures active == Excluding(old(active), old(CancelledOf(active)))
    {
      var cancelled := CancelledOf(active);
      FreeAllOf(active, cancelled);
      BackedWithout(active, cancelled);
      SetActive(Excluding(active, cancelled));
    }

    /** Takes one request off the list: its blocks go back, and the rest is unaffected. */
    method DropOne(rs: seq<InferenceRequest>, r: InferenceRequest)
      requires Backed(rs) && r in rs
      modifies cache, r.table
      ensures Backed(Excluding(rs, [r])) && LetGo(rs, Excluding(rs, [r]))
    {
      FreeOneOf(rs, r);
      BackedWithout(rs, [r]);
    }

    /** Closes a request whose deadline has passed: partial output if there is any, else an error. */
    method Expire(rs: seq<InferenceRequest>, r: InferenceRequest)
      requires Backed(rs) && r in rs
      modifies cache, r.table, r`finished, r`future, r`queue
      ensures Backed(Excluding(rs, [r])) && HoldsNoBlock(r.table)
      ensures r.State() == ExpiredState(model, settings, old(r.State()))
    {
      if r.generated != [] {
        FinishRequest(r, None, model.decode);
      } else {
        FailRequest(r, TIMEOUT_ERROR, TIMEOUT_MESSAGE);
      }
      DropOne(rs, r);
    }

    /** Fails one request alone, after its own forward pass failed, and takes it off the list. */
    method FailSingleRequest(rs: seq<InferenceRequest>, r: InferenceRequest, error: string)
        returns (kept: seq<InferenceRequest>)
      requires Holds(rs) && r in rs
      modifies cache, r.table, r`future, r`queue
      ensures Holds(kept) && kept == Excluding(rs, [r]) && LetGo(rs, kept)
      ensures r.State() == Failure(old(r.State()), error, INTERNAL_ERROR_MESSAGE)
    {
      hide InProgress, CellsMatch, Tables;
      FailRequest(r, error, INTERNAL_ERROR_MESSAGE);
      DropOne(rs, r);
      kept := Excluding(rs, [r]);
    }

    /** One turn of the deadline sweep: `rs[i]` is closed and dropped, or kept. */
    method ExpireTurn(rs: seq<InferenceRequest>, i: nat, still: seq<InferenceRequest>, now: real)
        returns (still': seq<InferenceRequest>)
      requires i < |rs| && NoAlias(rs) && Backed(still + rs[i..])
      modifies cache, rs[i].table, rs[i]
      ensures forall j :: 0 <= j < |rs| && j != i ==> rs[j].State() == old(rs[j].State())
      ensures Backed(still' + rs[i + 1..])
      ensures still' == still + if PastDeadline(rs[i], now) then [] else [rs[i]]
      ensures rs[i].State() == AfterDeadline(model, settings, rs[i], old(rs[i].State()), now)
      ensures PastDeadline(rs[i], now) ==> HoldsNoBlock(rs[i].table)
    {
      SweepStep(still, rs, i);
      if PastDeadline(rs[i], now) {
        Expire(still + rs[i..], rs[i]);
        still' := still;
      } else {
        still' := still + [rs[i]];
      }
    }

    /** `ExpireTurn`, with the record of the sweep so far. */
    method SweepTurn(rs: seq<InferenceRequest>, i: nat, still: seq<InferenceRequest>, now: real,
                     ghost before: seq<RequestState>)
        returns (still': seq<InferenceRequest>)
      requires i < |rs| && NoAlias(rs) && Backed(still + rs[i..])
      requires still == StillActive(rs[..i], now)
      requires Swept(i, model, settings, rs, before, States(rs), now) && SweptTables(i, rs, now)
      modifies cache, rs[i].table, rs[i]
      ensures Backed(still' + rs[i + 1..])
      ensures still' == StillActive(rs[..i + 1], now)
      ensures Swept(i + 1, model, settings, rs, before, States(rs), now) && SweptTables(i + 1, rs, now)
    {
      still' := ExpireTurn(rs, i, still, now);
      StillActiveNext(rs, i, now);
    }

    method SweepDeadlines(rs: seq<InferenceRequest>, now: real) returns (still: seq<InferenceRequest>)
      requires Backed(rs)
      modifies cache, rs, Tables(rs)
      ensures Backed(still)
      ensures still == StillActive(rs, now)
      ensures Swept(|rs|, model, settings, rs, old(States(rs)), States(rs), now) && SweptTables(|rs|, rs, now)
    {
      hide NoAlias, Tables;
      ghost var before := States(rs);
      still := [];
      SweepStart(rs);
      for i := 0 to |rs|
        invariant Backed(still + rs[i..])
        invariant still == StillActive(rs[..i], now)
        invariant Swept(i, model, settings, rs, before, States(rs), now) && SweptTables(i, rs, now)
      {
        OwnTable(rs, i);
        still := SweepTurn(rs, i, still, now, before);
      }
      SweepEnd(rs, still);
    }

    /** Closes every request past its deadline and keeps the others. */
    method EvictExpiredRequests(now: real)
      requires Valid()
      modifies `active, cache, active, Tables(active)
      ensures Valid() && cache == old(cache) && LetGo(old(active), active)
      ensures active == StillActive(old(active), now)
      ensures forall r :: r in active <==> r in old(active) && (r.deadline == None || now < r.deadline.value)
      ensures Swept(|old(active)|, model, settings, old(active), old(States(active)), States(old(active)), now)
    {
      hide InProgress, ExpiredState, AfterDeadline, StillActive, PastDeadline, CellsMatch;
      ghost var before := States(active);
      var still := SweepDeadlines(active, now);
      StillActiveIs(active, now);
      StillRunning(model, settings, active, before, States(active), now);
      SweptAreLetGo(active, now);
      assert Running(still);
      SetActive(still);
    }

    /** Builds the cache the first time it is needed. */
    method EnsureCache(rs: seq<InferenceRequest>)
      requires Backed(rs)
      modifies `cache
      ensures Backed(rs) && cache != null && Stored() == old(Stored())
      ensures old(cache) != null ==> cache == old(cache)
      ensures cache == old(cache) || fresh(cache)
    {
      if cache == null {
        cache := new PagedKVCache(settings.blockSize, INITIAL_CAPACITY_BLOCKS);
      }
    }

    /** Frees one request's table if it fails the self-check, so that the request starts over. */
    method DropIfInvalid(rs: seq<InferenceRequest>, r: InferenceRequest) returns (dropped: bool)
      requires Backed(rs) && r in rs && cache != null
      modifies cache, r.table
      ensures Backed(rs)
      ensures dropped ==> !old(cache.WellFormed(r.table))
      ensures !dropped ==> Stored() == old(Stored())
    {
      hide PagedKVCache.WellFormed, CellsMatch, PagedKVCache.Sized, PagedKVCache.Owns;
      dropped := false;
      if r.table.length > 0 {
        var ok := cache.IsValid(r.table);
        if !ok {
          FreeOneOf(rs, r);
          dropped := true;
        }
      }
    }

    /** Checks each request's table and frees those that fail. None does: see NothingInvalid. */
    method DropInvalid(rs: seq<InferenceRequest>)
      requires Backed(rs) && cache != null
      modifies cache, Tables(rs)
      ensures Backed(rs) && Stored() == old(Stored())
    {
      hide PagedKVCache.WellFormed, CellsMatch, PagedKVCache.Sized, PagedKVCache.Owns;
      for i := 0 to |rs|
        invariant Backed(rs) && Stored() == old(Stored())
      {
        NothingInvalid(rs);
        assert rs[i].table in Tables(rs);
        var _ := DropIfInvalid(rs, rs[i]);
      }
    }

    lemma NothingInvalid(rs: seq<InferenceRequest>)
      requires Backed(rs) && cache != null
      ensures forall r :: r in rs ==> cache.WellFormed(r.table)
    {
      forall r | r in rs ensures cache.WellFormed(r.table) {
        assert Cached(r);
        cache.ServedTablesAreWellFormed(r.table);
      }
    }

    /** The new tokens of every row. */
    method CollectNewTokens(reqs: seq<InferenceRequest>) returns (news: seq<seq<int>>)
      requires StoreValid() && cache != null && forall r :: r in reqs ==> Cached(r)
      ensures |news| == |reqs|
      ensures forall i :: 0 <= i < |reqs| ==> RowFits(model, Lookup(Stored(), reqs[i].table), news[i],
                                                      States(reqs)[i].inputIds)
    {
      news := [];
      for i := 0 to |reqs|
        invariant |news| == i
        invariant forall j :: 0 <= j < i ==> RowFits(model, Lookup(Stored(), reqs[j].table), news[j],
                                                     States(reqs)[j].inputIds)
      {
        assert Cached(reqs[i]);
        cache.ServedLength(reqs[i].table);
        news := news + [NewRow(reqs[i].inputIds, reqs[i].table.length)];
      }
    }

    lemma ViewsAreStored(reqs: seq<InferenceRequest>)
      requires StoreValid() && cache != null && forall r :: r in reqs ==> Cached(r)
      ensures forall i :: 0 <= i < |reqs| ==> cache.Serves(TableSeq(reqs)[i])
      ensures forall i :: 0 <= i < |reqs| ==> cache.Views(TableSeq(reqs))[i] == Lookup(Stored(), reqs[i].table)
    {
      forall i | 0 <= i < |reqs|
        ensures cache.Serves(TableSeq(reqs)[i])
      {
        assert Cached(reqs[i]);
      }
    }

    /** One batch for an explicit list of requests. */
    method BuildBatch(rs: seq<InferenceRequest>, reqs: seq<InferenceRequest>)
        returns (b: BatchInputs, ghost pasts: seq<seq<Cell>>, ghost news: seq<seq<int>>)
      requires Holds(rs) && cache != null && forall r :: r in reqs ==> r in rs
      ensures |pasts| == |news| && b == BatchFor(pasts, news, model.padId)
      ensures BatchReady(model, settings, reqs, States(reqs), Stored(), pasts, news)
    {
      hide InProgress, RowFits, CellsMatch, BuildBatchInputs, PadAll, RowLengths, Lookup, PagedKVCache.View,
        PagedKVCache.Stored;
      var newTokens := CollectNewTokens(reqs);
      news := newTokens;
      ViewsAreStored(reqs);
      var rows, lengths := cache.GatherDense(TableSeq(reqs));
      pasts := cache.Views(TableSeq(reqs));
      b := BuildBatchInputs(rows, lengths, newTokens, model.padId);
      forall i | 0 <= i < |reqs| ensures InProgress(model, settings, reqs[i], States(reqs)[i]) {
        assert reqs[i] in rs;
      }
    }

    lemma BystandersBefore(rs: seq<InferenceRequest>, reqs: seq<InferenceRequest>)
      requires Holds(rs) && forall r :: r in reqs ==> r in rs
      ensures Bystanders(model, settings, Excluding(rs, reqs), Surroundings(Excluding(rs, reqs)), Stored())
      ensures forall r :: r in Excluding(rs, reqs) ==> r !in reqs
      ensures Tables(Excluding(rs, reqs)) !! Tables(reqs)
      ensures Stored().Keys <= Tables(rs) && NoAlias(rs)
      ensures forall r :: r in reqs ==> Serves(r.table) && InProgress(model, settings, r, r.State())
    {
      forall r | r in rs ensures Cached(r) && InProgress(model, settings, r, r.State()) {
      }
      forall r | r in Excluding(rs, reqs) ensures r.table !in Tables(reqs) {
        NotAmong(rs, reqs, r);
      }
    }

    /** After a step for `reqs`: the store is right again for all of `rs`, and whoever did not finish
        is in progress. */
    lemma StepBacked(rs: seq<InferenceRequest>, reqs: seq<InferenceRequest>, before: map<BlockTable, seq<Cell>>)
      requires NoAlias(rs) && StoreValid() && forall r :: r in reqs ==> r in rs
      requires Bystanders(model, settings, Excluding(rs, reqs), Surroundings(Excluding(rs, reqs)), before)
      requires before.Keys <= Tables(rs) && Stored() - Tables(reqs) == before - Tables(reqs)
      requires forall r :: r in reqs ==> Serves(r.table) && Settled(model, Stored(), r.table, r.State())
      ensures Backed(rs)
    {
      forall t | t in CacheTables() ensures t in Tables(rs) {
        if t !in Tables(reqs) {
          assert t in Stored() - Tables(reqs);
          assert t in before - Tables(reqs);
        }
      }
      forall r | r in rs ensures Cached(r) {
        if r !in reqs {
          var others := Excluding(rs, reqs);
          var i :| 0 <= i < |others| && others[i] == r;
          NotAmong(rs, reqs, r);
          assert r.table in Stored() <==> r.table in Stored() - Tables(reqs);
          assert r.table in before <==> r.table in before - Tables(reqs);
        }
      }
    }

    lemma StepRunning(rs: seq<InferenceRequest>, reqs: seq<InferenceRequest>, before: map<BlockTable, seq<Cell>>,
                      states: seq<RequestState>)
      requires Bystanders(model, settings, Excluding(rs, reqs), Surroundings(Excluding(rs, reqs)), before)
               && |states| == |reqs|
      requires forall i :: 0 <= i < |reqs| ==> AdvancedByOne(model, settings, reqs[i], states[i], States(reqs)[i])
      ensures Running(Excluding(rs, Ended(reqs, States(reqs))))
    {
      EndedMembers(reqs, States(reqs));
      forall r | r in Excluding(rs, Ended(reqs, States(reqs)))
        ensures InProgress(model, settings, r, r.State())
      {
        if r in reqs {
          var i :| 0 <= i < |reqs| && reqs[i] == r;
        } else {
          var others := Excluding(rs, reqs);
          var i :| 0 <= i < |others| && others[i] == r;
        }
      }
    }

    /** Dispatches a step's results to `reqs`, which are among `rs`. */
    method DispatchAmong(rs: seq<InferenceRequest>, reqs: seq<InferenceRequest>, tokens: seq<int>,
                         newPast: Option<seq<seq<Cell>>>, pastWidth: nat, newLengths: seq<nat>, ghost draws: seq<Draw>)
                             returns (finished: seq<InferenceRequest>)
      requires Holds(rs) && cache != null && NoAlias(reqs) && forall r :: r in reqs ==> r in rs
      requires StepResults(model, settings, reqs, States(reqs), Stored(), tokens, newPast, pastWidth, newLengths, draws)
      modifies cache, reqs, Tables(reqs)
      ensures Backed(rs) && finished == Ended(reqs, States(reqs))
      ensures Running(Excluding(rs, finished))
      ensures forall r :: r in finished ==> r.table !in Stored()
      ensures forall i :: 0 <= i < |reqs| ==> AdvancedByOne(model, settings, reqs[i], old(States(reqs))[i],
                                                            States(reqs)[i])
      ensures Surroundings(Excluding(rs, reqs)) == old(Surroundings(Excluding(rs, reqs)))
    {
      hide Ended, AdvancedByOne, NextState, Settled, PagedKVCache.Valid;
      ghost var before, storedBefore, others := States(reqs), Stored(), Excluding(rs, reqs);
      BystandersBefore(rs, reqs);
      finished := DispatchBeside(cache, reqs, others, tokens, newPast, pastWidth, newLengths, draws, model, settings);
      AfterStep(rs, reqs, tokens, draws, before, storedBefore);
    }

    lemma AfterStep(rs: seq<InferenceRequest>, reqs: seq<InferenceRequest>, tokens: seq<int>, draws: seq<Draw>,
                    before: seq<RequestState>, storedBefore: map<BlockTable, seq<Cell>>)
      requires NoAlias(rs) && StoreValid() && forall r :: r in reqs ==> r in rs
      requires UpTo(|reqs|, model, settings, reqs, tokens, draws, before, States(reqs), storedBefore, Stored())
      requires TokensRight(model, settings, reqs, before, tokens, draws)
      requires Bystanders(model, settings, Excluding(rs, reqs), Surroundings(Excluding(rs, reqs)), storedBefore)
      requires storedBefore.Keys <= Tables(rs)
      requires forall i :: 0 <= i < |reqs| ==> Serves(reqs[i].table)
      ensures Backed(rs) && Running(Excluding(rs, Ended(reqs, States(reqs))))
      ensures forall r :: r in Ended(reqs, States(reqs)) ==> r.table !in Stored()
      ensures forall i :: 0 <= i < |reqs| ==> AdvancedByOne(model, settings, reqs[i], before[i], States(reqs)[i])
    {
      AllAdvanced(model, settings, reqs, tokens, draws, before, States(reqs), storedBefore, Stored());
      StepBacked(rs, reqs, storedBefore);
      StepRunning(rs, reqs, storedBefore, before);
      FinishedHoldNothing(reqs, States(reqs), Stored());
    }

    lemma FinishedHoldNothing(reqs: seq<InferenceRequest>, states: seq<RequestState>,
                              stored: map<BlockTable, seq<Cell>>)
      requires |states| == |reqs| && forall i :: 0 <= i < |reqs| ==> Settled(model, stored, reqs[i].table, states[i])
      ensures forall r :: r in Ended(reqs, states) ==> r.table !in stored
    {
      EndedMembers(reqs, states);
    }

    /** Dispatches a step's results to `reqs` and keeps whoever of `rs` did not finish. */
    method Commit(rs: seq<InferenceRequest>, reqs: seq<InferenceRequest>, tokens: seq<int>,
                  newPast: Option<seq<seq<Cell>>>,
                  pastWidth: nat, newLengths: seq<nat>, ghost draws: seq<Draw>) returns (kept: seq<InferenceRequest>)
      requires Holds(rs) && cache != null && NoAlias(reqs) && forall r :: r in reqs ==> r in rs
      requires StepResults(model, settings, reqs, States(reqs), Stored(), tokens, newPast, pastWidth, newLengths, draws)
      modifies cache, reqs, Tables(reqs)
      ensures Holds(kept) && LetGo(rs, kept)
      ensures kept == Excluding(rs, Ended(reqs, States(reqs)))
      ensures forall i :: 0 <= i < |reqs| ==> AdvancedByOne(model, settings, reqs[i], old(States(reqs))[i],
                                                            States(reqs)[i])
    {
      hide AdvancedByOne, StepResults;
      var finished := DispatchAmong(rs, reqs, tokens, newPast, pastWidth, newLengths, draws);
      BackedWithout(rs, finished);
      kept := Excluding(rs, finished);
    }

    /** One step for `reqs`, which are among `rs`, that either works for all of them or changes nothing. */
    method Attempt(rs: seq<InferenceRequest>, reqs: seq<InferenceRequest>, b: BatchInputs, ghost pasts: seq<seq<Cell>>,
                   ghost news: seq<seq<int>>, outcome: Outcome, draws: seq<Draw>)
        returns (ok: bool, kept: seq<InferenceRequest>)
      requires Holds(rs) && cache != null && NoAlias(reqs) && reqs != [] && |draws| == |reqs|
               && forall r :: r in reqs ==> r in rs
      requires BatchReady(model, settings, reqs, States(reqs), Stored(), pasts, news)
               && b == BatchFor(pasts, news, model.padId)
      modifies cache, reqs, Tables(reqs)
      ensures Holds(kept) && LetGo(rs, kept)
      ensures ok ==> kept == Excluding(rs, Ended(reqs, States(reqs)))
      ensures ok ==> forall i :: 0 <= i < |reqs| ==>
                AdvancedByOne(model, settings, reqs[i], old(States(reqs))[i], States(reqs)[i])
      ensures !ok ==> kept == rs && States(reqs) == old(States(reqs)) && Stored() == old(Stored())
      ensures ok <==> outcome.Succeeds? && HasInput(old(States(reqs)))
    {
      hide AdvancedByOne, StepResults, BatchReady, HasInput, InProgress, Ended, Excluding, CellsMatch;
      var tokens, newPast;
      ok, tokens, newPast := Compute(model, settings, reqs, States(reqs), Stored(), b, pasts, news, outcome, draws);
      if ok {
        kept := Commit(rs, reqs, tokens, newPast, b.pastWidth, b.newLengths, draws);
      } else {
        kept := rs;
      }
    }

    /** Builds a batch for `reqs` and runs it. */
    method BuildAndAttempt(rs: seq<InferenceRequest>, reqs: seq<InferenceRequest>, outcome: Outcome, draws: seq<Draw>)
        returns (ok: bool, kept: seq<InferenceRequest>)
      requires Holds(rs) && cache != null && NoAlias(reqs) && reqs != [] && |draws| == |reqs|
               && forall r :: r in reqs ==> r in rs
      modifies cache, reqs, Tables(reqs)
      ensures Holds(kept) && LetGo(rs, kept)
      ensures ok ==> kept == Excluding(rs, Ended(reqs, States(reqs)))
      ensures ok ==> forall i :: 0 <= i < |reqs| ==>
                AdvancedByOne(model, settings, reqs[i], old(States(reqs))[i], States(reqs)[i])
      ensures !ok ==> kept == rs && States(reqs) == old(States(reqs))
      ensures ok <==> outcome.Succeeds? && HasInput(old(States(reqs)))
    {
      hide InProgress, AdvancedByOne, BatchReady, CellsMatch, Ended, Excluding, HasInput, HoldsNoBlock;
      var b, pasts, news := BuildBatch(rs, reqs);
      ok, kept := Attempt(rs, reqs, b, pasts, news, outcome, draws);
    }

    /** Runs one request in a batch of its own. */
    method SoloAttempt(rs: seq<InferenceRequest>, r: InferenceRequest, outcome: Outcome, draw: Draw)
        returns (ok: bool, kept: seq<InferenceRequest>)
      requires Holds(rs) && cache != null && r in rs
      modifies cache, r, r.table
      ensures Holds(kept) && LetGo(rs, kept)
      ensures ok <==> outcome.Succeeds? && old(r.inputIds) != []
      ensures if ok then kept == (if r.finished then Excluding(rs, [r]) else Excluding(rs, []))
              && AdvancedByOne(model, settings, r, old(r.State()), r.State())
              else kept == rs && r.State() == old(r.State())
    {
      hide InProgress, AdvancedByOne, CellsMatch, Ended, Excluding, HoldsNoBlock, PagedKVCache.Sized,
        PagedKVCache.Owns, PagedKVCache.Compact;
      ok, kept := BuildAndAttempt(rs, [r], outcome, [draw]);
      EndedOne(r, States([r])[0]);
      assert States([r]) == [r.State()];
    }

    /** Retries one request alone, and fails it alone if that does not work either. */
    method RetryOne(rs: seq<InferenceRequest>, r: InferenceRequest, outcome: Outcome, draw: Draw, error: string)
        returns (kept: seq<InferenceRequest>)
      requires Holds(rs) && cache != null && r in rs
      modifies cache, r, r.table
      ensures Holds(kept) && LetGo(rs, kept)
      ensures forall q :: q in kept ==> q in rs
      ensures forall q :: q in rs && q != r ==> q in kept
      ensures Generated(model, settings, r, old(r.State()), r.State(), r in kept, outcome.Succeeds?
                        && old(r.inputIds) != [], error)
    {
      hide InProgress, AdvancedByOne, CellsMatch, Failure, Excluding, PagedKVCache.Sized, PagedKVCache.Owns,
        PagedKVCache.Compact;
      var ok;
      ok, kept := SoloAttempt(rs, r, outcome, draw);
      if !ok {
        kept := FailSingleRequest(rs, r, error);
      }
    }

    /** `RetryOne`, with those of `rs` that are in the batch no more. */
    method RetryBeside(rs: seq<InferenceRequest>, i: nat, active: seq<InferenceRequest>, env: StepEnv)
        returns (kept: seq<InferenceRequest>)
      requires i < |rs| && NoAlias(rs) && Holds(active) && cache != null && rs[i] in active
      requires LetGo(rs, active) && forall q :: q in active ==> q in rs
      modifies cache, rs[i], rs[i].table
      ensures Holds(kept) && LetGo(rs, kept)
      ensures forall q :: q in kept ==> q in active
      ensures forall q :: q in active && q != rs[i] ==> q in kept
      ensures Generated(model, settings, rs[i], old(rs[i].State()), rs[i].State(), rs[i] in kept,
                        env.solo(rs[i]).Succeeds? && old(rs[i].inputIds) != [], env.error(rs[i]))
      ensures forall j :: 0 <= j < |rs| && j != i ==> rs[j].State() == old(rs[j].State())
    {
      hide InProgress, CellsMatch, Generated;
      OneApart(rs, i);
      kept := RetryOne(active, rs[i], env.solo(rs[i]), env.soloDraw(rs[i]), env.error(rs[i]));
    }

    /** `RetryOne` as one turn of the loop. */
    method RetryTurn(rs: seq<InferenceRequest>, i: nat, active: seq<InferenceRequest>, env: StepEnv,
                     ghost before: seq<RequestState>)
        returns (kept: seq<InferenceRequest>)
      requires i < |rs| && NoAlias(rs) && Holds(active) && cache != null
      requires HasCome(i, model, settings, rs, before, States(rs), active, env, false) && LetGo(rs, active)
      modifies cache, rs[i], rs[i].table
      ensures Holds(kept) && LetGo(rs, kept)
      ensures HasCome(i + 1, model, settings, rs, before, States(rs), kept, env, false)
    {
      hide InProgress, CellsMatch, Generated, LetGo, HoldsNoBlock;
      ghost var now := States(rs);
      assert rs[i] in active;
      kept := RetryBeside(rs, i, active, env);
      NextHasCome(i, model, settings, rs, before, now, States(rs), active, kept, env);
    }

    /** After two failed batches: every request in a batch of its own, so that a failure is the
        failing request's alone. */
    method RetryRequestsIndividually(rs: seq<InferenceRequest>, env: StepEnv) returns (kept: seq<InferenceRequest>)
      requires Holds(rs) && cache != null
      modifies cache, rs, Tables(rs)
      ensures Holds(kept) && LetGo(rs, kept)
      ensures HasCome(|rs|, model, settings, rs, old(States(rs)), States(rs), kept, env, false)
    {
      hide PagedKVCache.Stored, InProgress, CellsMatch, Generated;
      ghost var before := States(rs);
      kept := rs;
      for i := 0 to |rs|
        invariant Holds(kept) && LetGo(rs, kept)
        invariant HasCome(i, model, settings, rs, before, States(rs), kept, env, false)
      {
        if rs[i] in kept {
          kept := RetryTurn(rs, i, kept, env, before);
        }
      }
    }

    /** The cache is there, and every table in it passes the check. */
    method EnsureSound(rs: seq<InferenceRequest>)
      requires Backed(rs)
      modifies `cache, cache, Tables(rs)
      ensures Backed(rs) && cache != null && (cache == old(cache) || fresh(cache)) && Stored() == old(Stored())
    {
      hide CellsMatch, NoAlias, PagedKVCache.Valid;
      EnsureCache(rs);
      DropInvalid(rs);
    }

    /** The cache-validity sweep and the batch of all active requests. */
    method PrepareBatch(rs: seq<InferenceRequest>)
        returns (b: BatchInputs, ghost pasts: seq<seq<Cell>>, ghost news: seq<seq<int>>)
      requires Holds(rs)
      modifies `cache, cache, Tables(rs)
      ensures Holds(rs) && cache != null && (cache == old(cache) || fresh(cache)) && Stored() == old(Stored())
      ensures BatchReady(model, settings, rs, States(rs), Stored(), pasts, news)
              && b == BatchFor(pasts, news, model.padId)
    {
      hide BatchReady, NoAlias, InProgress, RowFits, CellsMatch, PagedKVCache.Valid;
      EnsureSound(rs);
      b, pasts, news := BuildBatch(rs, rs);
    }

    /** The whole batch, tried again once if it fails. */
    method AttemptTwice(rs: seq<InferenceRequest>, b: BatchInputs, ghost pasts: seq<seq<Cell>>,
                        ghost news: seq<seq<int>>, env: StepEnv)
        returns (ok: bool, kept: seq<InferenceRequest>)
      requires Holds(rs) && cache != null && rs != []
      requires BatchReady(model, settings, rs, States(rs), Stored(), pasts, news)
               && b == BatchFor(pasts, news, model.padId)
      modifies cache, rs, Tables(rs)
      ensures Holds(kept) && LetGo(rs, kept)
      ensures ok <==> (env.first.outcome.Succeeds? || env.second.outcome.Succeeds?) && HasInput(old(States(rs)))
      ensures ok ==> HasCome(|rs|, model, settings, rs, old(States(rs)), States(rs), kept, env, true)
      ensures !ok ==> kept == rs && States(rs) == old(States(rs))
    {
      hide InProgress, AdvancedByOne, BatchReady, CellsMatch, Ended, Excluding, HasInput, HasCome;
      ghost var before := States(rs);
      ok, kept := Attempt(rs, rs, b, pasts, news, env.first.outcome, DrawsFor(rs, env.first.draw));
      if !ok {
        ok, kept := Attempt(rs, rs, b, pasts, news, env.second.outcome, DrawsFor(rs, env.second.draw));
      }
      if ok {
        AllHaveCome(model, settings, rs, before, States(rs), env);
      }
    }

    /** One token for every request, by whichever of the three ways works. */
    method Generate(rs: seq<InferenceRequest>, env: StepEnv) returns (kept: seq<InferenceRequest>)
      requires Holds(rs) && rs != []
      modifies `cache, cache, rs, Tables(rs)
      ensures Holds(kept) && LetGo(rs, kept) && cache != null && (cache == old(cache) || fresh(cache))
      ensures HasCome(|rs|, model, settings, rs, old(States(rs)), States(rs), kept, env,
                      (env.first.outcome.Succeeds? || env.second.outcome.Succeeds?) && HasInput(old(States(rs))))
    {
      hide InProgress, BatchReady, CellsMatch, HasInput, HasCome;
      ghost var before := States(rs);
      var b, pasts, news := PrepareBatch(rs);
      var ok;
      ok, kept := AttemptTwice(rs, b, pasts, news, env);
      if !ok {
        kept := RetryRequestsIndividually(rs, env);
      }
    }

    /** `EvictExpiredRequests`, with those already let go. */
    method EvictLate(now: real, ghost all: seq<InferenceRequest>)
      requires Valid() && NoAlias(all) && LetGo(all, active) && forall i :: 0 <= i < |active| ==> active[i] in all
      modifies `active, cache, active, Tables(active)
      ensures Valid() && LetGo(all, active) && active == StillActive(old(active), now)
      ensures Swept(|old(active)|, model, settings, old(active), old(States(active)), States(old(active)), now)
    {
      hide InProgress, CellsMatch, Swept, StillActive, NoAlias, Tables;
      Outside(all, active);
      EvictExpiredRequests(now);
    }

    /** The second eviction, and what the two have done. */
    method EvictRest(now: real, ghost all: seq<InferenceRequest>, ghost before: seq<RequestState>)
      requires Valid() && NoAlias(all) && LetGo(all, active) && forall i :: 0 <= i < |active| ==> active[i] in all
      requires before == States(all) && forall i :: 0 <= i < |all| ==>
                 (all[i] in active <==> !before[i].future.Cancelled?)
      modifies `active, cache, active, Tables(active)
      ensures Valid() && LetGo(all, active) && forall r :: r in active ==> r in all
      ensures forall i :: 0 <= i < |all| ==> Evicted(model, settings, all[i], before[i], States(all)[i],
                                                     all[i] in active, now)
    {
      hide InProgress, CellsMatch, StillActive, Swept, HoldsNoBlock, Evicted, NoAlias;
      ghost var rest, restBefore := active, States(active);
      EvictLate(now, all);
      StillActiveMembers(rest, now);
      EvictionsDone(model, settings, all, before, States(all), rest, restBefore, States(rest), now);
    }

    /** Drops whoever was cancelled or is too late. */
    method Evict(now: real)
      requires Valid()
      modifies `active, cache, active, Tables(active)
      ensures Valid() && LetGo(old(active), active) && forall r :: r in active ==> r in old(active)
      ensures forall i :: 0 <= i < |old(active)| ==>
                Evicted(model, settings, old(active)[i], old(States(active))[i], States(old(active))[i],
                        old(active)[i] in active, now)
    {
      hide InProgress, CellsMatch, Evicted, HoldsNoBlock, Tables;
      ghost var all, before := active, States(active);
      EvictCancelledRequests();
      assert forall i :: 0 <= i < |active| ==> active[i] in all;
      FewerTables(all, active);
      EvictRest(now, all, before);
    }

    method GenerateActive(env: StepEnv)
      requires Valid() && active != []
      modifies `active, `cache, cache, active, Tables(active)
      ensures Valid() && LetGo(old(active), active) && cache != null && (cache == old(cache) || fresh(cache))
      ensures HasCome(|old(active)|, model, settings, old(active), old(States(active)), States(old(active)), active,
                      env,
                      (env.first.outcome.Succeeds? || env.second.outcome.Succeeds?) && HasInput(old(States(active))))
    {
      hide InProgress, CellsMatch, Generated, HasInput;
      var kept := Generate(active, env);
      SetActive(kept);
    }

    /** The batch has been empty for a whole dwell period. */
    ghost predicate DwellOver(now: real)
      reads `cache, `active, `idleSince
    {
      && cache != null && active == [] && idleSince.Some?
      && settings.trimIdleSeconds > 0.0 && now - idleSince.value >= settings.trimIdleSeconds
    }

    /** Hands idle pool capacity back: once per dwell period at most, by half, and never below the floor. */
    method MaybeTrimKvPool(now: real)
      requires Valid()
      modifies `idleSince, `peakUsedBlocks, cache
      ensures Valid() && Stored() == old(Stored())
      ensures peakUsedBlocks == if old(DwellOver(now)) then old(peakUsedBlocks) * settings.peakDecay
              else old(peakUsedBlocks)
      ensures cache != null ==>
                var floor := TrimFloor(cache.initialCapacity, peakUsedBlocks, settings.peakSlack);
                if old(DwellOver(now)) && old(cache.capacity) > 2 * floor
                then cache.capacity == old(cache.capacity) / 2 && cache.capacity >= floor >= cache.initialCapacity
                else cache.capacity == old(cache.capacity)
      ensures idleSince == if cache == null then old(idleSince)
                           else if active != [] then None
                           else if old(idleSince).None? || old(DwellOver(now)) then Some(now)
                           else old(idleSince)
      ensures active == [] && cache != null ==>
                Minded(settings, now, old(idleSince), old(peakUsedBlocks), idleSince, peakUsedBlocks)
    {
      hide InProgress, CellsMatch, TrimFloor, PagedKVCache.Sized, PagedKVCache.Owns;
      if cache == null {
        return;
      }
      if active != [] {
        idleSince := None;
        return;
      }
      if idleSince.None? {
        idleSince := Some(now);
        return;
      }
      var dwell := settings.trimIdleSeconds;
      if dwell <= 0.0 || now - idleSince.value < dwell {
        return;
      }
      idleSince := Some(now);
      peakUsedBlocks := peakUsedBlocks * settings.peakDecay;
      var floor := TrimFloor(cache.initialCapacity, peakUsedBlocks, settings.peakSlack);
      if cache.capacity > 2 * floor {
        IdleHoldsNothing();
        var _ := cache.TrimTail(Max(floor, cache.capacity / 2));
      }
    }

    /** With no active request, no block is held: nothing has leaked. */
    lemma IdleHoldsNothing()
      requires Valid() && active == [] && cache != null
      ensures cache.tables == {} && Stored() == map[]
      ensures |cache.freeBlocks| == cache.capacity
    {
      assert Tables(active) == {};
      Pigeonhole(cache.freeBlocks, 0, cache.capacity);
      CoversAll(cache.freeBlocks, cache.capacity);
    }

    /** In every reachable state the cache holds nothing for a request, or the cells of all its tokens
        but the last. */
    lemma CacheIsIncremental(r: InferenceRequest)
      requires Valid() && r in active
      ensures if r.table.length == 0 then r.table !in Stored()
              else
                && r.table in Stored() && r.inputIds != []
                && Stored()[r.table] == FullCells(model, r.inputIds[..|r.inputIds| - 1])
    {
      hide FullCells, InProgress;
      assert Cached(r);
      if cache != null {
        cache.ServedLength(r.table);
      }
    }

    /** And each token generated so far is the one that a full recomputation, from the prompt and the
        tokens before it, would have sampled. */
    lemma IncrementalEqualsRecompute(r: InferenceRequest, k: nat)
      requires Running(active) && r in active && k < |r.generated| && r.promptIds + r.generated[..k] != []
      ensures r.inputIds == r.promptIds + r.generated && |r.draws| == |r.generated|
      ensures r.generated[k] == FullNext(model, r.promptIds + r.generated[..k], r.params, r.draws[k])
    {
      hide FullNext, Recomputed;
      assert InProgress(model, settings, r, r.State());
      RecomputedAt(model, r.promptIds, r.generated, r.params, r.draws, k);
    }

    /** Blocks in use are exactly those of the active requests' tables, at all times. */
    lemma NothingLeaks()
      requires Valid() && cache != null
      ensures forall b :: 0 <= b < cache.capacity ==>
                (b !in cache.freeBlocks <==> exists r :: r in active && b in r.table.blockIds)
      ensures forall r, q, b :: r in active && q in active && b in r.table.blockIds && b in q.table.blockIds ==> r == q
    {
      cache.Partition();
      forall r | r in active ensures cache.Serves(r.table) {
        assert Cached(r);
      }
      forall b | 0 <= b < cache.capacity && b !in cache.freeBlocks
        ensures exists r :: r in active && b in r.table.blockIds
      {
        var t :| t in cache.tables && b in t.blockIds;
        assert t in Tables(active);
      }
    }

    /** Remembers the most blocks in use at the end of a step. */
    method NotePeak()
      requires Valid()
      modifies `peakUsedBlocks
      ensures Valid()
      ensures cache == null ==> peakUsedBlocks == old(peakUsedBlocks)
      ensures cache != null ==>
                var used := (cache.capacity - |cache.freeBlocks|) as real;
                peakUsedBlocks == if old(peakUsedBlocks) < used then used else old(peakUsedBlocks)
    {
      if cache != null {
        var used := (cache.capacity - |cache.freeBlocks|) as real;
        if used > peakUsedBlocks {
          peakUsedBlocks := used;
        }
      }
    }

    /** The first chore at the end of a step: the idle pool, if nobody is left. */
    method MindPool(later: real)
      requires Valid()
      modifies `idleSince, `peakUsedBlocks, cache
      ensures Valid() && Stored() == old(Stored())
      ensures peakUsedBlocks == if old(DwellOver(later)) then old(peakUsedBlocks) * settings.peakDecay
              else old(peakUsedBlocks)
      ensures cache != null ==>
                var floor := TrimFloor(cache.initialCapacity, peakUsedBlocks, settings.peakSlack);
                cache.capacity == if old(DwellOver(later))
                    && old(cache.capacity) > 2 * floor then old(cache.capacity) / 2
                                  else old(cache.capacity)
      ensures idleSince == if cache != null && active == []
              && (old(idleSince).None? || old(DwellOver(later))) then Some(later)
              else old(idleSince)
    {
      hide InProgress, CellsMatch, TrimFloor;
      if active == [] {
        MaybeTrimKvPool(later);
      }
    }

    /** The chores at the end of a step: the idle pool first, if nobody is left, then the peak. */
    method WindDown(later: real)
      requires Valid()
      modifies `idleSince, `peakUsedBlocks, cache
      ensures Valid() && Stored() == old(Stored())
      ensures cache != null ==>
                var faded := if old(DwellOver(later)) then old(peakUsedBlocks) * settings.peakDecay
                    else old(peakUsedBlocks);
                var floor := TrimFloor(cache.initialCapacity, faded, settings.peakSlack);
                cache.capacity == if old(DwellOver(later))
                    && old(cache.capacity) > 2 * floor then old(cache.capacity) / 2
                                  else old(cache.capacity)
      ensures active != [] || cache == null ==> idleSince == old(idleSince)
      ensures cache != null ==>
                Remembered(settings, active == [], later, (cache.capacity - |cache.freeBlocks|) as real,
                           old(idleSince), old(peakUsedBlocks), idleSince, peakUsedBlocks)
    {
      hide InProgress, CellsMatch, TrimFloor, PagedKVCache.Valid;
      MindPool(later);
      NotePeak();
    }

    /** `GenerateActive`, with those already let go. */
    method GenerateBeside(env: StepEnv, ghost all: seq<InferenceRequest>)
      requires Valid() && active != [] && NoAlias(all) && LetGo(all, active) && forall i :: 0 <= i < |active| ==>
                 active[i] in all
      modifies `active, `cache, cache, active, Tables(active)
      ensures Valid() && LetGo(all, active) && cache != null && (cache == old(cache) || fresh(cache))
      ensures HasCome(|old(active)|, model, settings, old(active), old(States(active)), States(old(active)), active,
                      env,
                      (env.first.outcome.Succeeds? || env.second.outcome.Succeeds?) && HasInput(old(States(active))))
    {
      hide InProgress, CellsMatch, HasCome, HasInput, NoAlias, Tables;
      Outside(all, active);
      GenerateActive(env);
    }

    /** The second half of a step: of `all`, whose states were `before`, only the active ones are left. */
    method GenerateForTheRest(env: StepEnv, ghost all: seq<InferenceRequest>, ghost before: seq<RequestState>)
      requires Valid() && active != [] && |before| == |all| && forall r :: r in active ==> r in all
      requires forall i :: 0 <= i < |all| ==> Evicted(model, settings, all[i], before[i], States(all)[i],
                                                      all[i] in active, env.now)
      requires NoAlias(all) && LetGo(all, active)
      modifies `active, `cache, cache, active, Tables(active)
      ensures Valid() && LetGo(all, active) && cache != null && (cache == old(cache) || fresh(cache))
      ensures AllStepped(model, settings, all, before, States(all), active, env)
    {
      hide InProgress, CellsMatch, Generated, HasInput, Evicted;
      ghost var mid, rest, restBefore := States(all), active, States(active);
      GenerateBeside(env, all);
      StepsCompose(model, settings, all, before, mid, States(all), rest, restBefore, States(rest), active, env);
    }

    /** What is left of a step once the evictions are done: nothing, if nobody is. */
    method FinishStep(env: StepEnv, ghost all: seq<InferenceRequest>, ghost before: seq<RequestState>)
      requires Valid() && |before| == |all| && NoAlias(all) && LetGo(all, active) && forall r :: r in active ==>
                 r in all
      requires forall i :: 0 <= i < |all| ==> Evicted(model, settings, all[i], before[i], States(all)[i],
                                                      all[i] in active, env.now)
      modifies `active, `cache, `idleSince, `peakUsedBlocks, cache, active, Tables(active)
      ensures Valid() && LetGo(all, active) && (cache == old(cache) || fresh(cache))
      ensures AllStepped(model, settings, all, before, States(all), active, env)
      ensures old(active) == [] ==>
                cache == old(cache) && idleSince == old(idleSince) && peakUsedBlocks == old(peakUsedBlocks)
      ensures old(active) != [] ==>
                && cache != null
                && Remembered(settings, active == [], env.later, (cache.capacity - |cache.freeBlocks|) as real,
                              old(idleSince), old(peakUsedBlocks), idleSince, peakUsedBlocks)
    {
      hide Remembered, InProgress, CellsMatch, Generated, HasInput, Evicted, AllStepped, NoAlias;
      if active == [] {
        StepsCompose(model, settings, all, before, States(all), States(all), [], [], [], [], env);
        return;
      }
      GenerateForTheRest(env, all, before);
      WindDown(env.later);
    }

    /** The evictions, and what comes after them. */
    method EvictAndFinish(env: StepEnv)
      requires Valid()
      modifies `active, `cache, `idleSince, `peakUsedBlocks, cache, active, Tables(active)
      ensures Valid() && LetGo(old(active), active) && (cache == old(cache) || fresh(cache))
      ensures AllStepped(model, settings, old(active), old(States(active)), States(old(active)), active, env)
      ensures if old(NobodyInTime(active, States(active), env.now))
              then cache == old(cache) && idleSince == old(idleSince) && peakUsedBlocks == old(peakUsedBlocks)
              else cache != null && Remembered(settings, active == [], env.later,
                                               (cache.capacity - |cache.freeBlocks|) as real,
                                               old(idleSince), old(peakUsedBlocks), idleSince, peakUsedBlocks)
    {
      hide InProgress, CellsMatch, Generated, HasInput, Evicted, AllStepped, HoldsNoBlock, Remembered, NobodyInTime,
        Tables;
      ghost var all, before := active, States(active);
      Evict(env.now);
      EmptiedIff(model, settings, all, before, States(all), active, env.now);
      FewerTables(all, active);
      FinishStep(env, all, before);
    }

    /** One step for all active requests. Whatever the environment does, every request ends up as its
        own part of it says: dropped because it was cancelled or too late, one token further, or
        failed because its own forward pass failed. */
    method Step(env: StepEnv)
      requires Valid()
      modifies `active, `cache, `idleSince, `peakUsedBlocks, cache, active, Tables(active)
      ensures Valid() && LetGo(old(active), active) && (cache == old(cache) || fresh(cache))
      ensures AllStepped(model, settings, old(active), old(States(active)), States(old(active)), active, env)
      ensures forall i :: 0 <= i < |old(active)| ==>
                PlainFate(model, settings, old(active)[i], old(States(active))[i], States(old(active))[i],
                          old(active)[i] in active, old(PlainlyWorks(active, States(active), env)), env)
      ensures forall r :: r in active ==> model.eosId !in r.generated
      // the chores are done, unless there was nobody to step for
      ensures if old(NobodyInTime(active, States(active), env.now))
              then cache == old(cache) && idleSince == old(idleSince) && peakUsedBlocks == old(peakUsedBlocks)
              else cache != null && Remembered(settings, active == [], env.later,
                                               (cache.capacity - |cache.freeBlocks|) as real,
                                               old(idleSince), old(peakUsedBlocks), idleSince, peakUsedBlocks)
    {
      hide InProgress, CellsMatch, AllStepped, HoldsNoBlock, PlainFate, PlainlyWorks, Remembered, NobodyInTime, Tables,
        NoAlias, PagedKVCache.Valid;
      ghost var all, before := active, States(active);
      AllInProgress();
      EvictAndFinish(env);
      StepIsPlain(model, settings, all, before, States(all), active, env);
      NoEndMarker();
    }

    lemma AllInProgress()
      requires Running(active)
      ensures forall i :: 0 <= i < |active| ==> InProgress(model, settings, active[i], States(active)[i])
    {
      hide InProgress;
    }

    /** Nobody in the batch has an end marker among the tokens. */
    lemma NoEndMarker()
      requires Running(active)
      ensures forall r :: r in active ==> model.eosId !in r.generated && |r.generated| < r.maxTokens
    {
      hide InProgress;
      forall r | r in active ensures model.eosId !in r.generated && |r.generated| < r.maxTokens {
        EndMarkerEnds(model, settings, r, r.State());
      }
    }

    /** Takes a new model. The cache belonged to the old one, and nobody's table points into it any more. */
    method SwapModel(newModel: Model, ghost seen: seq<InferenceRequest>)
      requires Valid() && active == [] && LetGo(seen, active)
      modifies `model, `cache, `peakUsedBlocks, `idleSince
      ensures Valid() && model == newModel && cache == null && peakUsedBlocks == 0.0 && idleSince.None?
      ensures forall r :: r in seen ==> HoldsNoBlock(r.table)
    {
      model := newModel;
      InvalidatePagedCache();
    }

    /** The tokenizer in memory is another one from here on. */
    method ChangeTokenizer(decode: Decoder, padId: int)
      requires Valid() && active == []
      modifies `model
      ensures Valid() && model == old(model).(decode := decode, padId := padId)
    {
      model := model.(decode := decode, padId := padId);
    }

    method InvalidatePagedCache()
      requires active == [] && settings.blockSize > 0
      modifies `cache, `peakUsedBlocks, `idleSince
      ensures Valid() && cache == null && peakUsedBlocks == 0.0 && idleSince.None?
    {
      cache, peakUsedBlocks, idleSince := null, 0.0, None;
    }

    /** What the batch still has to do. */
    ghost function Work(): nat
      reads `active, active
    {
      TokensLeft(active, States(active))
    }

    /** Every step brings everyone in the batch at least one token closer to the end. */
    method StepMakesProgress(env: StepEnv)
      requires Valid()
      modifies `active, `cache, `idleSince, `peakUsedBlocks, cache, active, Tables(active)
      ensures Valid() && LetGo(old(active), active) && (cache == old(cache) || fresh(cache))
      ensures AllStepped(model, settings, old(active), old(States(active)), States(old(active)), active, env)
      ensures Work() + |old(active)| <= old(Work())
      ensures forall r :: r in active ==> r in old(active)
      ensures forall r :: r in old(active) && r !in active ==> Closed(model, settings, r, r.State())
    {
      hide InProgress, CellsMatch, Stepped, TokensLeft, Closed, PlainFate, PlainlyWorks, NobodyInTime, Remembered;
      ghost var all, before := active, States(active);
      Step(env);
      AllProgress(model, settings, all, before, States(all), active, States(active), env);
    }

    /** Resolved, and holding no block. */
    ghost predicate Gone(r: InferenceRequest)
      reads `model, r, r.table
    {
      Closed(model, settings, r, r.State()) && HoldsNoBlock(r.table)
    }

    /** A step, with those of `all` that are already done. */
    method StepBeside(env: StepEnv, ghost all: seq<InferenceRequest>)
      requires Valid() && NoAlias(all) && forall i :: 0 <= i < |active| ==> active[i] in all
      requires forall r :: r in all && r !in active ==> Gone(r)
      modifies `active, `cache, `idleSince, `peakUsedBlocks, cache, active, Tables(active)
      ensures Valid() && (cache == old(cache) || fresh(cache))
      ensures Work() + |old(active)| <= old(Work())
      ensures forall i :: 0 <= i < |active| ==> active[i] in old(active)
      ensures forall r :: r in all && r !in active ==> Gone(r)
    {
      hide InProgress, CellsMatch, AllStepped, TokensLeft, Closed, HoldsNoBlock, NoAlias, Tables;
      Outside(all, active);
      StepMakesProgress(env);
    }

    /** Left alone, the batch drains: whatever fails on the way, every request is resolved, and holds
        no block. */
    method Drain(envs: nat -> StepEnv)
      requires Valid()
      modifies `active, `cache, `idleSince, `peakUsedBlocks, cache, active, Tables(active)
      ensures Valid() && active == []
      ensures forall r :: r in old(active) ==> Gone(r)
    {
      hide InProgress, CellsMatch, AllStepped, TokensLeft, Closed, HoldsNoBlock;
      ghost var all, first := active, cache;
      var steps := 0;
      while active != []
        invariant Valid() && (cache == first || fresh(cache))
        invariant Tables(active) <= Tables(all)
        invariant forall i :: 0 <= i < |active| ==> active[i] in all
        invariant forall r :: r in all && r !in active ==> Gone(r)
        decreases Work()
      {
        ghost var now := active;
        StepBeside(envs(steps), all);
        steps := steps + 1;
        assert forall i :: 0 <= i < |active| ==> active[i] in now;
      }
    }
  }

  lemma FewerTables(all: seq<InferenceRequest>, some: seq<InferenceRequest>)
    requires forall i :: 0 <= i < |some| ==> some[i] in all
    ensures Tables(some) <= Tables(all)
  {
  }

  lemma OwnTable(rs: seq<InferenceRequest>, i: nat)
    requires i < |rs|
    ensures rs[i].table in Tables(rs)
  {
  }

  lemma OneApart(rs: seq<InferenceRequest>, i: nat)
    requires NoAlias(rs) && i < |rs|
    ensures forall j :: 0 <= j < |rs| && j != i ==> rs[j] != rs[i] && rs[j].table != rs[i].table
  {
  }

  /** What one step does to a request in time: if a forward pass works for it, one more token; if
      not, it fails. It is kept exactly when it still has more to do. */
  ghost predicate Generated(m: Model, settings: Settings, r: InferenceRequest, before: RequestState,
                            after: RequestState, kept: bool, works: bool, error: string) {
    if works then AdvancedByOne(m, settings, r, before, after) && kept == !after.finished
    else !kept && after == Failure(before, error, INTERNAL_ERROR_MESSAGE)
  }

  /** How far a step has come: the requests before `i` have had their turn, the others are as they
      were. `batched`: one batch worked for all of them. */
  ghost predicate HasCome(i: nat, m: Model, settings: Settings, rs: seq<InferenceRequest>, before: seq<RequestState>,
                          now: seq<RequestState>, kept: seq<InferenceRequest>, env: StepEnv, batched: bool) {
    && i <= |rs| == |before| == |now|
    && (forall q :: q in kept ==> q in rs)
    && (forall j :: 0 <= j < i ==>
          Generated(m, settings, rs[j], before[j], now[j], rs[j] in kept,
                    batched || (env.solo(rs[j]).Succeeds? && before[j].inputIds != []), env.error(rs[j])))
    && (forall j :: i <= j < |rs| ==> now[j] == before[j] && rs[j] in kept)
  }

  lemma NextHasCome(i: nat, m: Model, settings: Settings, rs: seq<InferenceRequest>, before: seq<RequestState>,
                    now: seq<RequestState>, now': seq<RequestState>, kept: seq<InferenceRequest>,
                    kept': seq<InferenceRequest>, env: StepEnv)
    requires i < |rs| && NoAlias(rs) && HasCome(i, m, settings, rs, before, now, kept, env, false)
    requires |now'| == |now| && forall j :: 0 <= j < |now| && j != i ==> now'[j] == now[j]
    requires forall q :: q in kept' ==> q in kept
    requires forall q :: q in kept && q != rs[i] ==> q in kept'
    requires Generated(m, settings, rs[i], before[i], now'[i], rs[i] in kept', env.solo(rs[i]).Succeeds?
                       && before[i].inputIds != [], env.error(rs[i]))
    ensures HasCome(i + 1, m, settings, rs, before, now', kept', env, false)
  {
    hide Generated;
    forall j | 0 <= j < |rs| && j != i ensures rs[j] in kept' <==> rs[j] in kept {
    }
  }

  /** A batch that worked has come all the way. */
  lemma AllHaveCome(m: Model, settings: Settings, rs: seq<InferenceRequest>, before: seq<RequestState>,
                    now: seq<RequestState>, env: StepEnv)
    requires |before| == |now| == |rs| && NoAlias(rs)
    requires forall i :: 0 <= i < |rs| ==> AdvancedByOne(m, settings, rs[i], before[i], now[i])
    ensures HasCome(|rs|, m, settings, rs, before, now, Excluding(rs, Ended(rs, now)), env, true)
  {
    hide AdvancedByOne;
    EndedMembers(rs, now);
    forall j | 0 <= j < |rs|
      ensures rs[j] in Excluding(rs, Ended(rs, now)) <==> !now[j].finished
    {
      if rs[j] in Ended(rs, now) {
        var i :| 0 <= i < |rs| && rs[i] == rs[j] && now[i].finished;
      }
    }
  }

  function DrawsFor(rs: seq<InferenceRequest>, draw: InferenceRequest -> Draw): (r: seq<Draw>)
    ensures |r| == |rs|
  {
    seq(|rs|, i requires 0 <= i < |rs| => draw(rs[i]))
  }

  /** What the two evictions do to a request. */
  ghost predicate Evicted(m: Model, settings: Settings, r: InferenceRequest, before: RequestState, after: RequestState,
                          kept: bool, now: real) {
    if before.future.Cancelled? then !kept && after == before
    else if PastDeadline(r, now) then !kept && after == ExpiredState(m, settings, before)
    else kept && after == before
  }

  /** Everyone is cancelled or too late. */
  ghost predicate NobodyInTime(rs: seq<InferenceRequest>, states: seq<RequestState>, now: real)
    requires |states| == |rs|
  {
    forall i :: 0 <= i < |rs| ==>
          states[i].future == Cancelled || (rs[i].deadline != None && rs[i].deadline.value <= now)
  }

  lemma EmptiedIff(m: Model, settings: Settings, all: seq<InferenceRequest>, before: seq<RequestState>,
                   after: seq<RequestState>, kept: seq<InferenceRequest>, now: real)
    requires |before| == |after| == |all| && forall r :: r in kept ==> r in all
    requires forall i :: 0 <= i < |all| ==> Evicted(m, settings, all[i], before[i], after[i], all[i] in kept, now)
    ensures kept == [] <==> NobodyInTime(all, before, now)
  {
    hide ExpiredState;
    if kept != [] {
      assert kept[0] in all;
      var i :| 0 <= i < |all| && all[i] == kept[0];
      assert Evicted(m, settings, all[i], before[i], after[i], all[i] in kept, now);
    }
  }

  lemma EvictionsDone(m: Model, settings: Settings, all: seq<InferenceRequest>, before: seq<RequestState>,
                      after: seq<RequestState>,
                      rest: seq<InferenceRequest>, restBefore: seq<RequestState>, restAfter: seq<RequestState>,
                      now: real)
    requires |before| == |after| == |all| && Swept(|rest|, m, settings, rest, restBefore, restAfter, now)
    requires forall i :: 0 <= i < |all| ==> (all[i] in rest <==> !before[i].future.Cancelled?)
    requires forall i :: 0 <= i < |all| && all[i] !in rest ==> after[i] == before[i]
    requires forall i, j :: 0 <= i < |all| && 0 <= j < |rest| && all[i] == rest[j] ==>
               restBefore[j] == before[i] && restAfter[j] == after[i]
    ensures forall i :: 0 <= i < |all| ==> Evicted(m, settings, all[i], before[i], after[i],
                                                   all[i] in StillActive(rest, now), now)
  {
    hide ExpiredState, StillActive, PastDeadline;
    StillActiveMembers(rest, now);
    forall i | 0 <= i < |all|
      ensures Evicted(m, settings, all[i], before[i], after[i], all[i] in StillActive(rest, now), now)
    {
      if all[i] in rest {
        var j :| 0 <= j < |rest| && rest[j] == all[i];
        assert restAfter[j] == AfterDeadline(m, settings, rest[j], restBefore[j], now);
      }
    }
  }

  /** What the scheduler remembers after the chores of a step that leaves nobody, or somebody, in the
      batch: since when it has been idle, and the most blocks in use, which fades once per dwell period
      of idleness and never falls below what is in use now. */
  ghost predicate Remembered(settings: Settings, idle: bool, now: real, used: real, since: Option<real>, peak: real,
                             since': Option<real>, peak': real) {
    var over := idle && since != None && settings.trimIdleSeconds > 0.0
        && now - since.value >= settings.trimIdleSeconds;
    var faded := if over then peak * settings.peakDecay else peak;
    && peak' == (if faded < used then used else faded)
    && since' == if idle && (over || since == None) then Some(now) else since
  }

  /** What the scheduler remembers after a look at its idle pool. */
  ghost predicate Minded(settings: Settings, now: real, since: Option<real>, peak: real, since': Option<real>,
                         peak': real) {
    var over := since != None && settings.trimIdleSeconds > 0.0 && now - since.value >= settings.trimIdleSeconds;
    && peak' == (if over then peak * settings.peakDecay else peak)
    && since' == if over || since == None then Some(now) else since
  }

  /** Python's int(): towards zero. */
  function Truncate(x: real): int {
    if x < 0.0 then -((-x).Floor) else x.Floor
  }

  /** What an idle pool is never trimmed below. */
  function TrimFloor(initialCapacity: nat, peak: real, slack: real): (r: nat)
    ensures r >= initialCapacity
  {
    Max(initialCapacity, Truncate(peak * slack))
  }

  /** The floor is as high as the remembered peak with its slack, rounded down, and no higher unless the
      pool started out higher. */
  lemma FloorFollowsThePeak(initialCapacity: nat, peak: real, slack: real)
    ensures var floor := TrimFloor(initialCapacity, peak, slack);
            && floor >= initialCapacity && peak * slack < floor as real + 1.0
            && (floor > initialCapacity ==> floor as real <= peak * slack)
  {
  }

  /** Neither cancelled nor too late. */
  ghost predicate InTime(r: InferenceRequest, s: RequestState, now: real) {
    !s.future.Cancelled? && !PastDeadline(r, now)
  }

  /** Whether a step's whole batch works: one of its two attempts succeeds, and there is something to run. */
  ghost predicate BatchWorks(rs: seq<InferenceRequest>, before: seq<RequestState>, env: StepEnv)
    requires |before| == |rs|
  {
    && (env.first.outcome.Succeeds? || env.second.outcome.Succeeds?)
    && exists i :: 0 <= i < |rs| && InTime(rs[i], before[i], env.now) && before[i].inputIds != []
  }

  /** What one step does to one request. */
  ghost predicate Stepped(m: Model, settings: Settings, r: InferenceRequest, before: RequestState, after: RequestState,
                          kept: bool, batched: bool, env: StepEnv) {
    if before.future.Cancelled? then !kept && after == before
    else if PastDeadline(r, env.now) then !kept && after == ExpiredState(m, settings, before)
    else Generated(m, settings, r, before, after, kept, batched || (env.solo(r).Succeeds? && before.inputIds != []),
                   env.error(r))
  }

  /** What one step does to all active requests. */
  ghost predicate AllStepped(m: Model, settings: Settings, rs: seq<InferenceRequest>, before: seq<RequestState>,
                             after: seq<RequestState>, kept: seq<InferenceRequest>, env: StepEnv) {
    && |before| == |after| == |rs|
    && (forall r :: r in kept ==> r in rs)
    && forall i :: 0 <= i < |rs| ==>
         Stepped(m, settings, rs[i], before[i], after[i], rs[i] in kept, BatchWorks(rs, before, env), env)
  }

  /** What a step does to one request, in the client's terms: a cancelled one is dropped as it is; one
      whose deadline has passed is given what it has, or the timeout error; one for which a forward
      pass works is given a token, and goes on unless that is the end marker, the last one allowed, or
      completes a stop sequence; any other fails, and its client is not told why. */
  ghost predicate PlainFate(m: Model, settings: Settings, r: InferenceRequest, before: RequestState,
                            after: RequestState, kept: bool, batched: bool, env: StepEnv) {
    if before.future == Cancelled then !kept && after == before
    else if r.deadline.Some? && r.deadline.value <= env.now then
      && !kept && after.generated == before.generated
      && if before.generated == [] then
           && after.future == Error("Streaming request timed out before generating any tokens.")
           && after.queue == before.queue + [Failed("generation timed out")]
         else after.future == Result(m.decode(before.generated)) && after.queue == before.queue + [Done]
    else if batched || (env.solo(r) != Fails && before.inputIds != []) then
      && |after.generated| == |before.generated| + 1 && before.generated <= after.generated
      && var token := after.generated[|before.generated|];
         var stop := WindowedStopText(m.decode, after.generated, r.stopSequences, settings.stopWindowSlack);
      && (kept <==> token != m.eosId && |after.generated| < r.maxTokens && stop == None)
      && after.queue == before.queue + (if kept then [Token(token)] else [Token(token), Done])
      && after.future == if kept then before.future
                         else if stop == None then Result(m.decode(after.generated)) else Result(stop.value)
    else
      && !kept && after.generated == before.generated
      && after.future == Error(env.error(r)) && after.queue == before.queue + [Failed("Internal server error")]
  }

  /** A batch has a forward pass that works: one of two attempts does, and somebody in time brings a
      token. */
  ghost predicate PlainlyWorks(rs: seq<InferenceRequest>, before: seq<RequestState>, env: StepEnv)
    requires |before| == |rs|
  {
    && (env.first.outcome != Fails || env.second.outcome != Fails)
    && exists i :: 0 <= i < |rs| && before[i].future != Cancelled && before[i].inputIds != []
                   && (rs[i].deadline == None || env.now < rs[i].deadline.value)
  }

  lemma FateIsPlain(m: Model, settings: Settings, r: InferenceRequest, before: RequestState, after: RequestState,
                    kept: bool, batched: bool, env: StepEnv)
    requires InProgress(m, settings, r, before) && Stepped(m, settings, r, before, after, kept, batched, env)
    ensures PlainFate(m, settings, r, before, after, kept, batched, env)
  {
    hide InProgress, AdvancedByOne, WindowedStopText, ExpiredState, Failure;
    StillPending(m, settings, r, before);
    if before.future.Pending? {
      ExpiredIsPlain(m, settings, before);
      FailureIsPlain(before, env.error(r));
      if !PastDeadline(r, env.now) && (batched || (env.solo(r).Succeeds? && before.inputIds != [])) {
        AdvancedIsPlain(m, settings, r, before, after);
      }
    }
  }

  lemma StillPending(m: Model, settings: Settings, r: InferenceRequest, s: RequestState)
    requires InProgress(m, settings, r, s)
    ensures s.future.Pending? || s.future.Cancelled?
  {
  }

  lemma ExpiredIsPlain(m: Model, settings: Settings, s: RequestState)
    requires s.future.Pending?
    ensures var late := ExpiredState(m, settings, s);
            && late.generated == s.generated
            && if s.generated == [] then
                 && late.future == Error("Streaming request timed out before generating any tokens.")
                 && late.queue == s.queue + [Failed("generation timed out")]
               else late.future == Result(m.decode(s.generated)) && late.queue == s.queue + [Done]
  {
  }

  lemma FailureIsPlain(s: RequestState, error: string)
    requires s.future.Pending?
    ensures var failed := Failure(s, error, INTERNAL_ERROR_MESSAGE);
            && failed.generated == s.generated && failed.future == Error(error)
            && failed.queue == s.queue + [Failed("Internal server error")]
  {
  }

  /** One more token, in plain terms. */
  lemma AdvancedIsPlain(m: Model, settings: Settings, r: InferenceRequest, before: RequestState, after: RequestState)
    requires InProgress(m, settings, r, before) && before.future.Pending?
             && AdvancedByOne(m, settings, r, before, after)
    ensures |after.generated| == |before.generated| + 1 && before.generated <= after.generated
    ensures var token := after.generated[|before.generated|];
            var stop := WindowedStopText(m.decode, after.generated, r.stopSequences, settings.stopWindowSlack);
            && (!after.finished <==> token != m.eosId && |after.generated| < r.maxTokens && stop == None)
            && after.queue == before.queue + (if after.finished then [Token(token), Done] else [Token(token)])
            && after.future == if !after.finished then before.future
                               else if stop == None then Result(m.decode(after.generated)) else Result(stop.value)
  {
    hide Recomputed, StillOpen, Tokens, WindowedStopText, EndsNow, MayFinish, ResultText;
    var token := after.generated[|before.generated|];
    TokensGrow(before.generated, token);
    assert Tokens(before.generated) + [Token(token)] + [Done] == Tokens(before.generated) + [Token(token), Done];
  }

  /** A step, in plain terms, for everyone in the batch. */
  lemma StepIsPlain(m: Model, settings: Settings, rs: seq<InferenceRequest>, before: seq<RequestState>,
                    after: seq<RequestState>, kept: seq<InferenceRequest>, env: StepEnv)
    requires AllStepped(m, settings, rs, before, after, kept, env)
    requires forall i :: 0 <= i < |rs| ==> InProgress(m, settings, rs[i], before[i])
    ensures PlainlyWorks(rs, before, env) <==> BatchWorks(rs, before, env)
    ensures forall i :: 0 <= i < |rs| ==>
              PlainFate(m, settings, rs[i], before[i], after[i], rs[i] in kept, PlainlyWorks(rs, before, env), env)
  {
    hide InProgress, Stepped, PlainFate;
    forall i | 0 <= i < |rs|
      ensures PlainFate(m, settings, rs[i], before[i], after[i], rs[i] in kept, BatchWorks(rs, before, env), env)
    {
      FateIsPlain(m, settings, rs[i], before[i], after[i], rs[i] in kept, BatchWorks(rs, before, env), env);
    }
  }

  /** Evictions first, then a token for everyone left: together, one step. */
  lemma StepsCompose(m: Model, settings: Settings, all: seq<InferenceRequest>, before: seq<RequestState>,
                     mid: seq<RequestState>,
                     after: seq<RequestState>, rest: seq<InferenceRequest>, restBefore: seq<RequestState>,
                     restAfter: seq<RequestState>, kept: seq<InferenceRequest>, env: StepEnv)
    requires |before| == |mid| == |after| == |all| && |restBefore| == |restAfter| == |rest|
    requires forall r :: r in rest ==> r in all
    requires forall i :: 0 <= i < |all| ==> Evicted(m, settings, all[i], before[i], mid[i], all[i] in rest, env.now)
    requires HasCome(|rest|, m, settings, rest, restBefore, restAfter, kept, env,
                     (env.first.outcome.Succeeds? || env.second.outcome.Succeeds?) && HasInput(restBefore))
    requires forall i, j :: 0 <= i < |all| && 0 <= j < |rest| && all[i] == rest[j] ==>
               restBefore[j] == mid[i] && restAfter[j] == after[i]
    requires forall i :: 0 <= i < |all| && all[i] !in rest ==> after[i] == mid[i]
    ensures AllStepped(m, settings, all, before, after, kept, env)
  {
    hide Generated, ExpiredState, PastDeadline;
    forall i | 0 <= i < |all| && all[i] in rest ensures InTime(all[i], before[i], env.now) && mid[i] == before[i] {
      assert Evicted(m, settings, all[i], before[i], mid[i], all[i] in rest, env.now);
    }
    assert BatchWorks(all, before, env) <==>
           (env.first.outcome.Succeeds? || env.second.outcome.Succeeds?) && HasInput(restBefore) by {
      LiveInput(m, settings, all, before, mid, rest, restBefore, env.now);
    }
    forall i | 0 <= i < |all|
      ensures Stepped(m, settings, all[i], before[i], after[i], all[i] in kept, BatchWorks(all, before, env), env)
    {
      assert Evicted(m, settings, all[i], before[i], mid[i], all[i] in rest, env.now);
      if all[i] in rest {
        var j :| 0 <= j < |rest| && rest[j] == all[i];
      }
    }
  }

  lemma LiveInput(m: Model, settings: Settings, all: seq<InferenceRequest>, before: seq<RequestState>,
                  mid: seq<RequestState>, rest: seq<InferenceRequest>, restBefore: seq<RequestState>, now: real)
    requires |before| == |mid| == |all| && |restBefore| == |rest|
    requires forall r :: r in rest ==> r in all
    requires forall i :: 0 <= i < |all| ==> Evicted(m, settings, all[i], before[i], mid[i], all[i] in rest, now)
    requires forall i, j :: 0 <= i < |all| && 0 <= j < |rest| && all[i] == rest[j] ==> restBefore[j] == mid[i]
    ensures (exists i :: 0 <= i < |all| && InTime(all[i], before[i], now) && before[i].inputIds != [])
            <==> HasInput(restBefore)
  {
    hide ExpiredState, PastDeadline;
    if HasInput(restBefore) {
      var j :| 0 <= j < |rest| && restBefore[j].inputIds != [];
      assert rest[j] in all;
      var i :| 0 <= i < |all| && all[i] == rest[j];
      assert Evicted(m, settings, all[i], before[i], mid[i], all[i] in rest, now);
      assert InTime(all[i], before[i], now);
    }
    if i :| 0 <= i < |all| && InTime(all[i], before[i], now) && before[i].inputIds != [] {
      assert Evicted(m, settings, all[i], before[i], mid[i], all[i] in rest, now);
      var j :| 0 <= j < |rest| && rest[j] == all[i];
      assert restBefore[j] == mid[i];
    }
  }

  /** How many more tokens a request may generate. */
  function Left(r: InferenceRequest, s: RequestState): nat {
    if |s.generated| < r.maxTokens then r.maxTokens - |s.generated| else 0
  }

  ghost function TokensLeft(rs: seq<InferenceRequest>, states: seq<RequestState>): nat
    requires |states| == |rs|
  {
    if rs == [] then 0
    else TokensLeft(rs[..|rs| - 1], states[..|rs| - 1]) + Left(rs[|rs| - 1], states[|rs| - 1])
  }

  lemma {:induction false} LeftWithout(rs: seq<InferenceRequest>, states: seq<RequestState>, i: nat)
    requires |states| == |rs| && i < |rs|
    ensures TokensLeft(rs, states) == TokensLeft(Without(rs, i), Without(states, i)) + Left(rs[i], states[i])
  {
    var n := |rs| - 1;
    if i == n {
      assert Without(rs, i) == rs[..n] && Without(states, i) == states[..n];
    } else {
      LeftWithout(rs[..n], states[..n], i);
      var (rest, restStates) := (Without(rs, i), Without(states, i));
      assert rest[..n - 1] == Without(rs[..n], i) && restStates[..n - 1] == Without(states[..n], i);
    }
  }

  lemma {:induction false} AtLeastOneEach(rs: seq<InferenceRequest>, states: seq<RequestState>)
    requires |states| == |rs| && forall i :: 0 <= i < |rs| ==> Left(rs[i], states[i]) >= 1
    ensures TokensLeft(rs, states) >= |rs|
  {
    if rs != [] {
      AtLeastOneEach(rs[..|rs| - 1], states[..|rs| - 1]);
    }
  }

  /** Somewhere in `rs`, `r` had more left. */
  ghost predicate HadMore(rs: seq<InferenceRequest>, before: seq<RequestState>, r: InferenceRequest,
                          after: RequestState)
    requires |before| == |rs|
  {
    exists i :: 0 <= i < |rs| && rs[i] == r && Left(r, after) + 1 <= Left(rs[i], before[i])
  }

  lemma HadMoreElsewhere(rs: seq<InferenceRequest>, before: seq<RequestState>, i: nat, r: InferenceRequest,
                         after: RequestState)
    requires |before| == |rs| && i < |rs| && r != rs[i] && HadMore(rs, before, r, after)
    ensures HadMore(Without(rs, i), Without(before, i), r, after)
  {
    hide Left;
    var k :| 0 <= k < |rs| && rs[k] == r && Left(r, after) + 1 <= Left(rs[k], before[k]);
    var k' := if k < i then k else k - 1;
    assert Without(rs, i)[k'] == rs[k] && Without(before, i)[k'] == before[k];
  }

  lemma {:induction false} LeftShrinks(rs: seq<InferenceRequest>, before: seq<RequestState>,
                                       kept: seq<InferenceRequest>, after: seq<RequestState>)
    requires |before| == |rs| && |after| == |kept|
    requires forall i :: 0 <= i < |rs| ==> Left(rs[i], before[i]) >= 1
    requires forall i, j :: 0 <= i < j < |kept| ==> kept[i] != kept[j]
    requires forall j :: 0 <= j < |kept| ==> HadMore(rs, before, kept[j], after[j])
    ensures TokensLeft(kept, after) + |rs| <= TokensLeft(rs, before)
  {
    hide Left, HadMore;
    if kept == [] {
      AtLeastOneEach(rs, before);
    } else {
      var n := |kept| - 1;
      var i := HadMoreAt(rs, before, kept[n], after[n]);
      LeftWithout(rs, before, i);
      forall j | 0 <= j < n ensures HadMore(Without(rs, i), Without(before, i), kept[j], after[j]) {
        HadMoreElsewhere(rs, before, i, kept[j], after[j]);
      }
      LeftShrinks(Without(rs, i), Without(before, i), kept[..n], after[..n]);
    }
  }

  lemma HadMoreAt(rs: seq<InferenceRequest>, before: seq<RequestState>, r: InferenceRequest, after: RequestState)
      returns (i: nat)
    requires |before| == |rs| && HadMore(rs, before, r, after)
    ensures i < |rs| && rs[i] == r && Left(r, after) + 1 <= Left(rs[i], before[i])
  {
    i :| 0 <= i < |rs| && rs[i] == r && Left(r, after) + 1 <= Left(rs[i], before[i]);
  }

  /** A request that is done ends closed, whoever cancelled it meanwhile. */
  lemma FinishCloses(m: Model, settings: Settings, r: InferenceRequest, s: RequestState)
    requires |s.generated| <= r.maxTokens && Recomputed(m, r.promptIds, s.generated, r.params, s.draws)
    requires s.queue == Tokens(s.generated) && (s.future.Pending? || s.future.Cancelled?)
    requires MayFinish(m, settings, r, s.generated)
    ensures var done := Finished(s, ResultText(m, settings, r, s.generated));
            && Closed(m, settings, r, done) && done.finished
            && done.future == if s.future.Cancelled? then s.future else Result(ResultText(m, settings, r, s.generated))
  {
    hide Recomputed, MayFinish, ResultText;
    assert Finished(s, ResultText(m, settings, r, s.generated)).queue == Tokens(s.generated) + [Done];
  }

  lemma FailureCloses(m: Model, settings: Settings, r: InferenceRequest, s: RequestState, error: string)
    requires InProgress(m, settings, r, s)
    ensures Closed(m, settings, r, Failure(s, error, INTERNAL_ERROR_MESSAGE))
  {
    hide Recomputed, StillOpen, MayFinish, ResultText;
    assert Failure(s, error, INTERNAL_ERROR_MESSAGE).queue == Tokens(s.generated) + [Failed(INTERNAL_ERROR_MESSAGE)];
  }

  /** Too late before its first token: closed with the timeout error. */
  lemma TimeoutCloses(m: Model, settings: Settings, r: InferenceRequest, s: RequestState)
    requires s.generated == [] && s.queue == [] && (s.future.Pending? || s.future.Cancelled?)
    requires Recomputed(m, r.promptIds, [], r.params, s.draws) && r.deadline.Some?
    ensures Closed(m, settings, r, Failure(s, TIMEOUT_ERROR, TIMEOUT_MESSAGE))
  {
    hide Recomputed;
    assert [] + [Failed(TIMEOUT_MESSAGE)] == [Failed(TIMEOUT_MESSAGE)];
  }

  lemma ExpiryCloses(m: Model, settings: Settings, r: InferenceRequest, s: RequestState)
    requires InProgress(m, settings, r, s) && r.deadline.Some?
    ensures Closed(m, settings, r, ExpiredState(m, settings, s))
  {
    hide Recomputed, StillOpen;
    if s.generated == [] {
      assert Tokens([]) == [];
      TimeoutCloses(m, settings, r, s);
    } else {
      NotYetEnded(m, settings, r, s.generated);
      FinishCloses(m, settings, r, s);
    }
  }

  lemma NotYetEnded(m: Model, settings: Settings, r: InferenceRequest, generated: seq<int>)
    requires StillOpen(m, settings, r, generated)
    ensures !EndsNow(m, settings, r, generated)
  {
    assert generated[..|generated|] == generated;
  }

  /** The life of a request through one step: still in progress with one more token, or closed for
      good. Its stream only grows, and its future is resolved at most once. */
  lemma StepsLife(m: Model, settings: Settings, r: InferenceRequest, before: RequestState, after: RequestState,
                  kept: bool, batched: bool, env: StepEnv)
    requires InProgress(m, settings, r, before) && Stepped(m, settings, r, before, after, kept, batched, env)
    ensures kept ==> InProgress(m, settings, r, after) && |after.generated| == |before.generated| + 1
    ensures !kept ==> Closed(m, settings, r, after)
    ensures before.queue <= after.queue && before.generated <= after.generated
    ensures !before.future.Pending? ==> after.future == before.future
  {
    hide Ends, FinalText, StillOpen, Recomputed, Closed, Advanced;
    if before.future.Cancelled? && !kept && after == before {
      CancelledIsClosed(m, settings, r, before);
    } else if PastDeadline(r, env.now) {
      ExpiryCloses(m, settings, r, before);
    } else if after == Failure(before, env.error(r), INTERNAL_ERROR_MESSAGE) {
      FailureCloses(m, settings, r, before, env.error(r));
    } else {
      AdvancedLife(m, settings, r, before, after);
    }
  }

  lemma AdvancedLife(m: Model, settings: Settings, r: InferenceRequest, before: RequestState, after: RequestState)
    requires InProgress(m, settings, r, before) && AdvancedByOne(m, settings, r, before, after)
    ensures if after.finished then Closed(m, settings, r, after) else InProgress(m, settings, r, after)
    ensures |after.generated| == |before.generated| + 1
    ensures before.queue <= after.queue && before.generated <= after.generated
    ensures !before.future.Pending? ==> after.future == before.future
  {
    hide Ends, FinalText, StillOpen, Recomputed, Closed;
  }

  lemma CancelledIsClosed(m: Model, settings: Settings, r: InferenceRequest, s: RequestState)
    requires InProgress(m, settings, r, s) && s.future.Cancelled?
    ensures Closed(m, settings, r, s)
  {
  }

  lemma AllProgress(m: Model, settings: Settings, all: seq<InferenceRequest>, before: seq<RequestState>,
                    after: seq<RequestState>, kept: seq<InferenceRequest>, keptAfter: seq<RequestState>, env: StepEnv)
    requires |keptAfter| == |kept| && NoAlias(kept) && AllStepped(m, settings, all, before, after, kept, env)
    requires forall i :: 0 <= i < |all| ==> InProgress(m, settings, all[i], before[i])
    requires forall i, j :: 0 <= i < |all| && 0 <= j < |kept| && all[i] == kept[j] ==> keptAfter[j] == after[i]
    ensures TokensLeft(kept, keptAfter) + |all| <= TokensLeft(all, before)
    ensures forall i :: 0 <= i < |all| && all[i] !in kept ==> Closed(m, settings, all[i], after[i])
  {
    hide Stepped, Closed, TokensLeft;
    forall i | 0 <= i < |all|
      ensures Left(all[i], before[i]) >= 1
      ensures all[i] !in kept ==> Closed(m, settings, all[i], after[i])
      ensures all[i] in kept ==> Left(all[i], after[i]) + 1 <= Left(all[i], before[i])
    {
      StepsLife(m, settings, all[i], before[i], after[i], all[i] in kept, BatchWorks(all, before, env), env);
    }
    forall j | 0 <= j < |kept| ensures HadMore(all, before, kept[j], keptAfter[j]) {
      assert kept[j] in all;
      var i :| 0 <= i < |all| && all[i] == kept[j];
    }
    LeftShrinks(all, before, kept, keptAfter);
  }

  /** What the environment decides about one step: the clock, which forward passes fail, and the
      random numbers of every attempt. */
  datatype Try = Try(outcome: Outcome, draw: InferenceRequest -> Draw)

  datatype StepEnv = StepEnv(
    now: real, later: real,
    first: Try, second: Try,
    solo: InferenceRequest -> Outcome, soloDraw: InferenceRequest -> Draw, error: InferenceRequest -> string)

  /** Everything is in place for a batch: each request is in progress, and what its row brings fits
      its history. */
  ghost predicate BatchReady(m: Model, settings: Settings, reqs: seq<InferenceRequest>, states: seq<RequestState>,
                             stored: map<BlockTable, seq<Cell>>, pasts: seq<seq<Cell>>, news: seq<seq<int>>) {
    && |pasts| == |news| == |states| == |reqs|
    && forall i :: 0 <= i < |reqs| ==>
         && InProgress(m, settings, reqs[i], states[i])
         && pasts[i] == Lookup(stored, reqs[i].table)
         && RowFits(m, pasts[i], news[i], states[i].inputIds)
  }

  /** A step's results are right: each row's slice completes its stored cells, and each token is
      what a full recomputation samples. */
  ghost predicate StepResults(m: Model, settings: Settings, reqs: seq<InferenceRequest>, states: seq<RequestState>,
                              stored: map<BlockTable, seq<Cell>>,
                              tokens: seq<int>, newPast: Option<seq<seq<Cell>>>, pastWidth: nat, newLengths: seq<nat>,
                              draws: seq<Draw>) {
    && |tokens| == |draws| == |states| == |reqs|
    && Sliceable(newPast, |reqs|, pastWidth, newLengths)
    && RowsComplete(m, reqs, states, stored, newPast, pastWidth, newLengths)
    && TokensRight(m, settings, reqs, states, tokens, draws)
  }

  /** One forward pass, and one token per row sampled against the request's full history, unless the
      environment makes it fail. */
  method ForwardAndSample(m: Model, b: BatchInputs, reqs: seq<InferenceRequest>, histories: seq<seq<int>>,
                          outcome: Outcome, draws: seq<Draw>)
      returns (ok: bool, tokens: seq<int>, newPast: Option<seq<seq<Cell>>>)
    requires WellShaped(b) && |b.inputIds| == |reqs| == |draws| == |histories| && reqs != []
    ensures ok == (outcome.Succeeds? && Forward(m, b).Some?)
    ensures ok ==> newPast == if outcome.pastUsable then Some(Forward(m, b).value.newPast) else None
    ensures ok ==> |tokens| == |reqs| && forall i :: 0 <= i < |reqs| ==>
              SampledFrom(m, b, reqs[i].params, histories[i], draws[i], i, tokens[i])
  {
    var r := Forward(m, b);
    ok := outcome.Succeeds? && r.Some?;
    tokens, newPast := [], None;
    if ok {
      for i := 0 to |reqs|
        invariant |tokens| == i
        invariant forall j :: 0 <= j < i ==> SampledFrom(m, b, reqs[j].params, histories[j], draws[j], j, tokens[j])
      {
        tokens := tokens + [m.sample(r.value.logits[i], histories[i], reqs[i].params, draws[i])];
      }
      if outcome.pastUsable {
        newPast := Some(r.value.newPast);
      }
    }
  }

  ghost predicate SampledFrom(m: Model, b: BatchInputs, params: SamplingParams, history: seq<int>, draw: Draw, i: nat,
                              token: int)
    requires WellShaped(b) && b.inputIds != [] && i < |b.inputIds| && Forward(m, b).Some?
  {
    token == m.sample(Forward(m, b).value.logits[i], history, params, draw)
  }

  method FullHistories(reqs: seq<InferenceRequest>) returns (r: seq<seq<int>>)
    ensures r == Histories(States(reqs))
  {
    r := [];
    for i := 0 to |reqs|
      invariant |r| == i && forall j :: 0 <= j < i ==> r[j] == reqs[j].inputIds
    {
      r := r + [reqs[i].inputIds];
    }
  }

  /** One attempt to compute a step: right results for every row, or nothing. */
  method Compute(m: Model, settings: Settings, reqs: seq<InferenceRequest>, ghost states: seq<RequestState>,
                 ghost stored: map<BlockTable, seq<Cell>>,
                 b: BatchInputs, ghost pasts: seq<seq<Cell>>, ghost news: seq<seq<int>>, outcome: Outcome,
                 draws: seq<Draw>)
      returns (ok: bool, tokens: seq<int>, newPast: Option<seq<seq<Cell>>>)
    requires states == States(reqs) && BatchReady(m, settings, reqs, states, stored, pasts, news)
    requires reqs != [] && |draws| == |reqs| && b == BatchFor(pasts, news, m.padId)
    ensures ok ==> StepResults(m, settings, reqs, states, stored, tokens, newPast, b.pastWidth, b.newLengths, draws)
    ensures ok <==> outcome.Succeeds? && HasInput(states)
  {
    BatchIsWellShaped(pasts, news, m.padId);
    NothingToCompute(m, settings, reqs, states, stored, pasts, news);
    var histories := FullHistories(reqs);
    ok, tokens, newPast := ForwardAndSample(m, b, reqs, histories, outcome, draws);
    if ok {
      ResultsRight(m, settings, reqs, states, stored, pasts, news, tokens, newPast, draws);
    }
  }

  /** Some request has a token to run. Only a prompt that tokenizes to nothing has none. */
  ghost predicate HasInput(states: seq<RequestState>) {
    exists i :: 0 <= i < |states| && states[i].inputIds != []
  }

  lemma WidestRow(pasts: seq<seq<Cell>>, news: seq<seq<int>>, padId: int)
    requires |pasts| == |news| && news != []
    ensures forall i :: 0 <= i < |news| && news[i] != [] ==> |BatchFor(pasts, news, padId).inputIds[0]| > 0
    ensures |BatchFor(pasts, news, padId).inputIds[0]| > 0 ==> exists i :: 0 <= i < |news| && news[i] != []
  {
    BatchShape(pasts, news, padId, 0);
    hide BatchFor, MaxLength;
    var lengths := RowLengths(news);
    var widest := MaxLength(lengths);
    var k :| 0 <= k < |lengths| && lengths[k] == widest;
    assert lengths[k] == |news[k]|;
    forall i | 0 <= i < |news| && news[i] != [] ensures widest > 0 {
      assert 0 < lengths[i] <= widest;
    }
  }

  lemma NothingToCompute(m: Model, settings: Settings, reqs: seq<InferenceRequest>, states: seq<RequestState>,
                         stored: map<BlockTable, seq<Cell>>, pasts: seq<seq<Cell>>, news: seq<seq<int>>)
    requires BatchReady(m, settings, reqs, states, stored, pasts, news) && reqs != []
    ensures |BatchFor(pasts, news, m.padId).inputIds[0]| > 0 <==> HasInput(states)
  {
    hide BatchFor, InProgress, FullCells, Lookup;
    WidestRow(pasts, news, m.padId);
    forall i | 0 <= i < |news|
      ensures news[i] == [] <==> states[i].inputIds == []
    {
      assert RowFits(m, pasts[i], news[i], states[i].inputIds);
    }
  }

  ghost function Histories(states: seq<RequestState>): (r: seq<seq<int>>)
    ensures |r| == |states| && forall i :: 0 <= i < |states| ==> r[i] == states[i].inputIds
  {
    seq(|states|, i requires 0 <= i < |states| => states[i].inputIds)
  }

  /** The results of one successful forward pass are right for every row. */
  lemma ResultsRight(m: Model, settings: Settings, reqs: seq<InferenceRequest>, states: seq<RequestState>,
                     stored: map<BlockTable, seq<Cell>>,
                     pasts: seq<seq<Cell>>, news: seq<seq<int>>, tokens: seq<int>, newPast: Option<seq<seq<Cell>>>,
                     draws: seq<Draw>)
    requires BatchReady(m, settings, reqs, states, stored, pasts, news) && reqs != [] && |tokens| == |draws| == |reqs|
    requires WellShaped(BatchFor(pasts, news, m.padId)) && |BatchFor(pasts, news, m.padId).inputIds| == |reqs|
    requires Forward(m, BatchFor(pasts, news, m.padId)).Some?
    requires newPast.Some? ==> newPast.value == Forward(m, BatchFor(pasts, news, m.padId)).value.newPast
    requires forall i :: 0 <= i < |reqs| ==>
               SampledFrom(m, BatchFor(pasts, news, m.padId), reqs[i].params, Histories(states)[i], draws[i], i,
                           tokens[i])
    ensures var b := BatchFor(pasts, news, m.padId);
            StepResults(m, settings, reqs, states, stored, tokens, newPast, b.pastWidth, b.newLengths, draws)
  {
    var b := BatchFor(pasts, news, m.padId);
    BatchIsFull(m, pasts, news, m.padId, Histories(states));
    forall i | 0 <= i < |reqs|
      ensures CompletesCells(m, Lookup(stored, reqs[i].table), states[i].inputIds,
                             ExtractNewKv(newPast, i, b.pastWidth, b.newLengths[i]))
      ensures states[i].inputIds != [] ==> tokens[i] == FullNext(m, states[i].inputIds, reqs[i].params, draws[i])
    {
      assert RowComesOut(m, b, pasts[i], Histories(states)[i], i);
    }
  }

  lemma NotAmong(rs: seq<InferenceRequest>, reqs: seq<InferenceRequest>, r: InferenceRequest)
    requires NoAlias(rs) && r in rs && r !in reqs && forall q :: q in reqs ==> q in rs
    ensures r.table !in Tables(reqs)
  {
    var i :| 0 <= i < |rs| && rs[i] == r;
    forall q | q in reqs
      ensures q.table != r.table
    {
      var j :| 0 <= j < |rs| && rs[j] == q;
    }
  }

  /** Requests without a place in `rest` do not share a table with anyone in it. */
  lemma Outside(all: seq<InferenceRequest>, rest: seq<InferenceRequest>)
    requires NoAlias(all) && forall i :: 0 <= i < |rest| ==> rest[i] in all
    ensures forall r :: r in all && r !in rest ==> r.table !in Tables(rest)
  {
    forall r | r in all && r !in rest ensures r.table !in Tables(rest) {
      NotAmong(all, rest, r);
    }
  }

  lemma StillRunning(m: Model, settings: Settings, rs: seq<InferenceRequest>, before: seq<RequestState>,
                     now: seq<RequestState>, clock: real)
    requires Swept(|rs|, m, settings, rs, before, now, clock)
    requires forall j :: 0 <= j < |rs| ==> InProgress(m, settings, rs[j], before[j])
    ensures forall r :: r in StillActive(rs, clock) ==>
              exists j :: 0 <= j < |rs| && rs[j] == r && InProgress(m, settings, r, now[j])
  {
    StillActiveMembers(rs, clock);
  }

  lemma SweepStep(still: seq<InferenceRequest>, rs: seq<InferenceRequest>, i: nat)
    requires i < |rs| && NoAlias(still + rs[i..])
    ensures still + rs[i..] == still + [rs[i]] + rs[i + 1..]
    ensures Excluding(still + rs[i..], [rs[i]]) == still + rs[i + 1..]
  {
    var list := still + rs[i..];
    assert list == still + [rs[i]] + rs[i + 1..] && list[|still|] == rs[i];
    forall q | q in still ensures q != rs[i] {
      var k :| 0 <= k < |still| && still[k] == q;
      assert list[k] == q;
    }
    var rest := rs[i + 1..];
    forall q | q in rest ensures q != rs[i] {
      var k :| 0 <= k < |rest| && rest[k] == q;
      assert list[|still| + 1 + k] == q;
    }
    ExcludeMiddle(still, rs[i], rest);
  }

  lemma SweepStart(rs: seq<InferenceRequest>)
    ensures [] + rs[0..] == rs && rs[..0] == []
  {
  }

  lemma SweepEnd(rs: seq<InferenceRequest>, still: seq<InferenceRequest>)
    ensures still + rs[|rs|..] == still && rs[..|rs|] == rs
  {
  }

  lemma StillActiveNext(rs: seq<InferenceRequest>, i: nat, now: real)
    requires i < |rs|
    ensures StillActive(rs[..i + 1], now) == StillActive(rs[..i], now) + if PastDeadline(rs[i], now) then []
            else [rs[i]]
  {
    assert rs[..i + 1][..i] == rs[..i];
  }

  lemma {:induction false} StillActiveMembers(rs: seq<InferenceRequest>, now: real)
    ensures forall r :: r in StillActive(rs, now) ==> r in rs && !PastDeadline(r, now)
    ensures forall r :: r in rs && !PastDeadline(r, now) ==> r in StillActive(rs, now)
  {
    if rs != [] {
      StillActiveMembers(rs[..|rs| - 1], now);
    }
  }

  lemma StillActiveIs(rs: seq<InferenceRequest>, now: real)
    ensures forall r :: r in StillActive(rs, now) <==> r in rs && (r.deadline == None || now < r.deadline.value)
  {
    hide StillActive;
    StillActiveMembers(rs, now);
  }

  lemma SweptAreLetGo(rs: seq<InferenceRequest>, clock: real)
    requires SweptTables(|rs|, rs, clock)
    ensures LetGo(rs, StillActive(rs, clock))
  {
    StillActiveMembers(rs, clock);
    forall r | r in rs && r !in StillActive(rs, clock) ensures HoldsNoBlock(r.table) {
      var j :| 0 <= j < |rs| && rs[j] == r;
    }
  }

  lemma {:induction false} ExcludeNone(rs: seq<InferenceRequest>, r: InferenceRequest)
    requires r !in rs
    ensures Excluding(rs, [r]) == rs
  {
    if rs != [] {
      ExcludeNone(rs[..|rs| - 1], r);
    }
  }

  lemma ExcludeLast(rs: seq<InferenceRequest>, x: InferenceRequest, r: InferenceRequest)
    ensures Excluding(rs + [x], [r]) == Excluding(rs, [r]) + if x == r then [] else [x]
  {
    assert (rs + [x])[..|rs|] == rs;
  }

  lemma {:induction false} ExcludeMiddle(a: seq<InferenceRequest>, r: InferenceRequest, b: seq<InferenceRequest>)
    requires r !in a && r !in b
    ensures Excluding(a + [r] + b, [r]) == a + b
  {
    if b == [] {
      ExcludeNone(a, r);
      ExcludeLast(a, r, r);
      assert a + [r] + b == a + [r] && a + b == a;
    } else {
      var front, x := b[..|b| - 1], b[|b| - 1];
      ExcludeMiddle(a, r, front);
      ExcludeLast(a + [r] + front, x, r);
      assert a + [r] + b == a + [r] + front + [x] && a + b == a + front + [x];
    }
  }

  lemma TablesNext(m: map<BlockTable, seq<Cell>>, rs: seq<InferenceRequest>, i: nat)
    requires i < |rs|
    ensures m - Tables(rs[..i + 1]) == m - Tables(rs[..i]) - {rs[i].table}
  {
    assert rs[..i + 1] == rs[..i] + [rs[i]];
    assert Tables(rs[..i + 1]) == Tables(rs[..i]) + {rs[i].table};
  }

  lemma TablesEnds(m: map<BlockTable, seq<Cell>>, rs: seq<InferenceRequest>)
    ensures m - Tables(rs[..0]) == m && rs[..|rs|] == rs
  {
    assert Tables(rs[..0]) == {};
  }
}
