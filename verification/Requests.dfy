/** One request's state (scheduler/request.py) and the queue it waits in
    (scheduler/request_queue.py). */
module Requests {
  import opened Common
  import opened PagedCache
  import opened CausalModel
  import opened StopSequences

  /** The two lanes, by the length of output a request asks for. The lower number goes first. */
  const SHORT_REQUEST_CLASS := 0
  const GENERAL_REQUEST_CLASS := 1

  /** What a request's output queue carries: tokens, then one terminal sentinel. */
  datatype Item = Token(id: int) | Done | Failed(message: string)

  function Tokens(ids: seq<int>): (r: seq<Item>)
    ensures |r| == |ids| && forall i :: 0 <= i < |ids| ==> r[i] == Token(ids[i])
  {
    seq(|ids|, i requires 0 <= i < |ids| => Token(ids[i]))
  }

  datatype Future = Pending | Result(text: string) | Error(message: string) | Cancelled

  /** Every token is the one that running the model over the whole history, uncached and unbatched,
      would have sampled with the same random number. (A history with no token at all has no
      such run; see EmptyPromptReadsPadding.) */
  ghost predicate Recomputed(m: Model, prompt: seq<int>, generated: seq<int>, params: SamplingParams,
                             draws: seq<Draw>) {
    if generated == [] then draws == []
    else
      var n := |generated| - 1;
      && |draws| == |generated|
      && Recomputed(m, prompt, generated[..n], params, draws[..n])
      && (prompt + generated[..n] != [] ==> generated[n] == FullNext(m, prompt + generated[..n], params, draws[n]))
  }

  lemma {:induction false} RecomputedAt(m: Model, prompt: seq<int>, generated: seq<int>, params: SamplingParams,
                                        draws: seq<Draw>, k: nat)
    requires Recomputed(m, prompt, generated, params, draws)
    requires k < |generated| && prompt + generated[..k] != []
    ensures |draws| == |generated| && generated[k] == FullNext(m, prompt + generated[..k], params, draws[k])
    ensures var ids := prompt + generated[..k];
            var n := |ids| - 1;
            generated[k] == m.sample(m.logits(FullCells(m, ids[..n]), ids[n], n), ids, params, draws[k])
  {
    hide FullNext;
    NextIsSampled(m, prompt + generated[..k], params, draws[k]);
    var n := |generated| - 1;
    if k < n {
      RecomputedAt(m, prompt, generated[..n], params, draws[..n], k);
      assert generated[..n][..k] == generated[..k];
    }
  }

  lemma RecomputedExtends(m: Model, prompt: seq<int>, generated: seq<int>, params: SamplingParams, draws: seq<Draw>,
                          token: int, draw: Draw)
    requires Recomputed(m, prompt, generated, params, draws)
    requires prompt + generated != [] ==> token == FullNext(m, prompt + generated, params, draw)
    ensures Recomputed(m, prompt, generated + [token], params, draws + [draw])
  {
    assert (generated + [token])[..|generated|] == generated;
    assert (draws + [draw])[..|generated|] == draws;
  }

  /** The tokens depend on nothing else: not on who shared the batch, nor on when requests came,
      went or failed. Two runs that draw the same numbers generate the same tokens. */
  lemma {:induction false} RecomputedIsUnique(m: Model, prompt: seq<int>, a: seq<int>, b: seq<int>,
                                              params: SamplingParams, draws: seq<Draw>)
    requires prompt != [] && Recomputed(m, prompt, a, params, draws) && Recomputed(m, prompt, b, params, draws)
    ensures a == b
    decreases |a|
  {
    if a != [] && b != [] {
      var n := |a| - 1;
      RecomputedIsUnique(m, prompt, a[..n], b[..n], params, draws[..n]);
      assert prompt + a[..n] != [];
      assert a == a[..n] + [a[n]] && b == b[..n] + [b[n]];
    }
  }

  /** The changing part of a request, as a value. */
  datatype RequestState = RequestState(
    inputIds: seq<int>, generated: seq<int>, draws: seq<Draw>, queue: seq<Item>, future: Future, finished: bool)

  class InferenceRequest {
    const promptIds: seq<int>      // what the tokenizer makes of the formatted prompt
    const maxTokens: nat
    const params: SamplingParams
    const stopSequences: seq<string>
    const maxStopLength: nat
    const priorityClass: nat
    const enqueueTime: real
    const deadline: Option<real>
    const table: BlockTable
    var future: Future
    var queue: seq<Item>           // everything ever put on the output queue
    var inputIds: seq<int>
    var generated: seq<int>
    var finished: bool
    ghost var draws: seq<Draw>     // the random number each generated token was sampled with

    constructor (promptIds: seq<int>, maxTokens: nat, params: SamplingParams, stopSequences: seq<string>,
                 shortRequestMaxTokens: nat, now: real, deadline: Option<real>)
      ensures fresh(table)
      ensures this.promptIds == promptIds && this.maxTokens == maxTokens && this.params == params
      ensures this.stopSequences == stopSequences && maxStopLength == MaxStopLength(stopSequences)
      ensures this.deadline == deadline && enqueueTime == now
      ensures priorityClass == if maxTokens <= shortRequestMaxTokens then 0 else 1
      ensures Unstarted()
    {
      this.promptIds, this.maxTokens, this.params := promptIds, maxTokens, params;
      this.stopSequences, maxStopLength := stopSequences, MaxStopLength(stopSequences);
      priorityClass := if maxTokens <= shortRequestMaxTokens then SHORT_REQUEST_CLASS else GENERAL_REQUEST_CLASS;
      enqueueTime, this.deadline := now, deadline;
      table := new BlockTable();
      future, queue, inputIds, generated, finished, draws := Pending, [], [], [], false, [];
    }

    /** Nothing has been generated, stored or sent yet. */
    ghost predicate Unstarted()
      reads this, table
    {
      && maxStopLength == MaxStopLength(stopSequences)
      && queue == [] && generated == [] && draws == [] && !finished
      && (future.Pending? || future.Cancelled?)
      && table.blockIds == [] && table.length == 0
    }

    ghost function State(): RequestState
      reads this
    {
      RequestState(inputIds, generated, draws, queue, future, finished)
    }
  }

  /** How the scheduler is configured. */
  datatype Settings = Settings(
    maxBatchSize: nat,
    shortLaneReservedSlots: int,
    stopWindowSlack: nat,
    blockSize: nat,
    trimIdleSeconds: real,
    peakDecay: real,
    peakSlack: real)

  /** What a future and a client are told. Of a failure in a forward pass, the client learns nothing. */
  const TIMEOUT_ERROR := "Streaming request timed out before generating any tokens."
  const TIMEOUT_MESSAGE := "generation timed out"
  const INTERNAL_ERROR_MESSAGE := "Internal server error"

  /** Whether the last of `generated` ends a request. */
  ghost predicate Ends(m: Model, settings: Settings, generated: seq<int>, stops: seq<string>, maxTokens: nat)
    requires generated != []
  {
    || WindowedStopText(m.decode, generated, stops, settings.stopWindowSlack).Some?
    || generated[|generated| - 1] == m.eosId
    || |generated| >= maxTokens
  }

  /** The text a request that ends resolves to: trimmed at a stop sequence if there is one. */
  ghost function FinalText(m: Model, settings: Settings, generated: seq<int>, stops: seq<string>): string {
    var stop := WindowedStopText(m.decode, generated, stops, settings.stopWindowSlack);
    if stop.Some? then stop.value else m.decode(generated)
  }

  /** Nothing generated so far has ended the request. */
  ghost predicate StillOpen(m: Model, settings: Settings, r: InferenceRequest, generated: seq<int>) {
    forall k :: 0 < k <= |generated| ==> !Ends(m, settings, generated[..k], r.stopSequences, r.maxTokens)
  }

  /** The last token is the first that ends the request. */
  ghost predicate EndsNow(m: Model, settings: Settings, r: InferenceRequest, generated: seq<int>) {
    && generated != [] && Ends(m, settings, generated, r.stopSequences, r.maxTokens)
    && StillOpen(m, settings, r, generated[..|generated| - 1])
  }

  /** Admitted and still generating. */
  ghost predicate InProgress(m: Model, settings: Settings, r: InferenceRequest, s: RequestState) {
    && r.maxStopLength == MaxStopLength(r.stopSequences)
    && s.inputIds == r.promptIds + s.generated
    && |s.generated| < r.maxTokens
    && StillOpen(m, settings, r, s.generated)
    && Recomputed(m, r.promptIds, s.generated, r.params, s.draws)
    && s.queue == Tokens(s.generated)
    && (s.future.Pending? || s.future.Cancelled?)
    && !s.finished
  }

  /** Why a request may be signalled as done: its last token ends it, or it has run out of time with
      something to show. */
  ghost predicate MayFinish(m: Model, settings: Settings, r: InferenceRequest, generated: seq<int>) {
    EndsNow(m, settings, r, generated) || (r.deadline.Some? && generated != [] && StillOpen(m, settings, r, generated))
  }

  /** The text of a request that is done: as its last token says, or all that came in time. */
  ghost function ResultText(m: Model, settings: Settings, r: InferenceRequest, generated: seq<int>): string {
    if EndsNow(m, settings, r, generated) then FinalText(m, settings, generated, r.stopSequences)
        else m.decode(generated)
  }

  /** Out of time before its first token. */
  ghost predicate LateWithNothing(r: InferenceRequest, s: RequestState) {
    r.deadline.Some? && s.generated == [] && s.queue == [Failed(TIMEOUT_MESSAGE)]
  }

  /** Done with: the output queue is the generated tokens and at most one sentinel, which agrees
      with the future; and the tokens are all there are, unless the request failed, ran out of time or
      was cancelled before one of them ended it. */
  ghost predicate Closed(m: Model, settings: Settings, r: InferenceRequest, s: RequestState) {
    && |s.generated| <= r.maxTokens
    && Recomputed(m, r.promptIds, s.generated, r.params, s.draws)
    && match s.future
       case Pending => false
       case Result(text) =>
         && s.queue == Tokens(s.generated) + [Done]
         && MayFinish(m, settings, r, s.generated) && text == ResultText(m, settings, r, s.generated)
       case Error(message) =>
         && StillOpen(m, settings, r, s.generated)
         && (s.queue == Tokens(s.generated) + [Failed(INTERNAL_ERROR_MESSAGE)]
             || (message == TIMEOUT_ERROR && LateWithNothing(r, s)))
       case Cancelled =>
         || (StillOpen(m, settings, r, s.generated) && s.queue == Tokens(s.generated))
         || (MayFinish(m, settings, r, s.generated) && s.queue == Tokens(s.generated) + [Done])
         || (StillOpen(m, settings, r, s.generated)
             && s.queue == Tokens(s.generated) + [Failed(INTERNAL_ERROR_MESSAGE)])
         || LateWithNothing(r, s)
  }

  // ---------------------------------------------------------------- where a request stops

  /** No request goes on behind the end marker or beyond its limit, and none that got there fails. */
  lemma EndMarkerEnds(m: Model, settings: Settings, r: InferenceRequest, s: RequestState)
    ensures InProgress(m, settings, r, s) ==> m.eosId !in s.generated && |s.generated| < r.maxTokens
    ensures Closed(m, settings, r, s) ==>
              && (forall k :: 0 <= k < |s.generated| - 1 ==> s.generated[k] != m.eosId) && |s.generated| <= r.maxTokens
              && (s.generated != [] && (s.generated[|s.generated| - 1] == m.eosId || |s.generated| == r.maxTokens) ==>
                    s.queue == Tokens(s.generated) + [Done] && !s.future.Error?)
  {
    hide Recomputed, StillOpen, Ends, Tokens, Closed;
    if InProgress(m, settings, r, s) {
      NoMarkerSoFar(m, settings, r, s.generated);
    }
    if Closed(m, settings, r, s) && s.generated != [] {
      ClosedOpenOrDone(m, settings, r, s);
      if StillOpen(m, settings, r, s.generated) {
        NoMarkerSoFar(m, settings, r, s.generated);
        LimitNotReached(m, settings, r, s.generated);
      } else {
        NoMarkerSoFar(m, settings, r, s.generated[..|s.generated| - 1]);
      }
    }
  }

  lemma ClosedOpenOrDone(m: Model, settings: Settings, r: InferenceRequest, s: RequestState)
    requires Closed(m, settings, r, s) && s.generated != []
    ensures |s.generated| <= r.maxTokens
    ensures StillOpen(m, settings, r, s.generated)
            || (StillOpen(m, settings, r, s.generated[..|s.generated| - 1])
                && s.queue == Tokens(s.generated) + [Done] && !s.future.Error?)
  {
    hide Recomputed, StillOpen, Ends, Tokens, ResultText;
  }

  lemma NoMarkerSoFar(m: Model, settings: Settings, r: InferenceRequest, generated: seq<int>)
    requires StillOpen(m, settings, r, generated)
    ensures forall k :: 0 <= k < |generated| ==> generated[k] != m.eosId
  {
    forall k | 0 <= k < |generated| ensures generated[k] != m.eosId {
      assert !Ends(m, settings, generated[..k + 1], r.stopSequences, r.maxTokens);
    }
  }

  lemma LimitNotReached(m: Model, settings: Settings, r: InferenceRequest, generated: seq<int>)
    requires StillOpen(m, settings, r, generated) && generated != []
    ensures |generated| < r.maxTokens
  {
    assert generated[..|generated|] == generated;
  }

  // ---------------------------------------------------------------- what a result is

  /** The window of recent tokens has found no stop sequence in tokens that go on. */
  lemma {:induction false} NoneFoundYet(m: Model, settings: Settings, r: InferenceRequest, generated: seq<int>)
    requires StillOpen(m, settings, r, generated)
    ensures WindowedRun(m.decode, generated, r.stopSequences, settings.stopWindowSlack).None?
  {
    if generated != [] {
      var n := |generated| - 1;
      assert generated[..|generated|] == generated;
      forall k | 0 < k <= n ensures generated[..n][..k] == generated[..k] {
      }
      NoneFoundYet(m, settings, r, generated[..n]);
    }
  }

  /** What a client is given as the result: nothing of a stop sequence is in it. If decoding and
      searching everything after every token would have stopped at one, it would have stopped at this
      token, with this text; if not, the result is all the text, and the last token is the end marker,
      or the last one allowed, or the last in time. */
  lemma ResultIsFullRun(m: Model, settings: Settings, r: InferenceRequest, s: RequestState, piece: int -> string)
    requires Closed(m, settings, r, s) && s.future.Result?
    requires Concatenates(m.decode, piece) && EnoughSlack(piece, s.generated, r.stopSequences, settings.stopWindowSlack)
    ensures Clean(s.future.text, r.stopSequences)
    ensures var full := FullRun(m.decode, s.generated, r.stopSequences);
            if full.Some? then full.value == (|s.generated|, s.future.text)
            else s.future.text == m.decode(s.generated)
                 && (s.generated[|s.generated| - 1] == m.eosId || |s.generated| == r.maxTokens || r.deadline.Some?)
  {
    hide Recomputed, Concatenates, EnoughSlack, Clean, EarliestStop;
    WindowedStopIsFullStop(m.decode, piece, s.generated, r.stopSequences, settings.stopWindowSlack);
    if EndsNow(m, settings, r, s.generated) {
      NoneFoundYet(m, settings, r, s.generated[..|s.generated| - 1]);
    } else {
      NoneFoundYet(m, settings, r, s.generated);
    }
  }

  /** What has come of a request so far, whether it is over or not. */
  ghost predicate Rightful(m: Model, settings: Settings, r: InferenceRequest, s: RequestState) {
    InProgress(m, settings, r, s) || Closed(m, settings, r, s)
  }

  /** The same request, put twice. */
  ghost predicate SameRequest(r: InferenceRequest, q: InferenceRequest) {
    && r.promptIds == q.promptIds && r.maxTokens == q.maxTokens && r.params == q.params
        && r.stopSequences == q.stopSequences
    && r.promptIds != []
  }

  ghost predicate DrawnFrom(draw: nat -> Draw, draws: seq<Draw>) {
    forall i :: 0 <= i < |draws| ==> draws[i] == draw(i)
  }

  lemma RecomputedFront(m: Model, prompt: seq<int>, generated: seq<int>, params: SamplingParams, draws: seq<Draw>)
    requires Recomputed(m, prompt, generated, params, draws)
    ensures |draws| == |generated|
    ensures generated != [] ==> Recomputed(m, prompt, generated[..|generated| - 1], params, draws[..|generated| - 1])
  {
    hide FullNext;
  }

  lemma {:induction false} RecomputedPrefix(m: Model, prompt: seq<int>, generated: seq<int>, params: SamplingParams,
                                            draws: seq<Draw>, n: nat)
    requires Recomputed(m, prompt, generated, params, draws) && n <= |generated|
    ensures |draws| == |generated| && Recomputed(m, prompt, generated[..n], params, draws[..n])
    decreases |generated|
  {
    hide Recomputed;
    RecomputedFront(m, prompt, generated, params, draws);
    if n == |generated| {
      assert generated[..n] == generated && draws[..n] == draws;
    } else {
      var k := |generated| - 1;
      RecomputedPrefix(m, prompt, generated[..k], params, draws[..k], n);
      assert generated[..k][..n] == generated[..n] && draws[..k][..n] == draws[..n];
    }
  }

  /** The same request on any two servers, with the same random numbers, in whatever company: one has
      got as far as the other or further, with the same tokens. */
  lemma SameTokens(m: Model, settings: Settings, settings': Settings, r: InferenceRequest, s: RequestState,
                   q: InferenceRequest, t: RequestState, draw: nat -> Draw)
    requires SameRequest(r, q) && Rightful(m, settings, r, s) && Rightful(m, settings', q, t)
    requires DrawnFrom(draw, s.draws) && DrawnFrom(draw, t.draws) && |s.generated| <= |t.generated|
    ensures s.generated <= t.generated
  {
    hide StillOpen, EndsNow, Recomputed;
    var n := |s.generated|;
    RecomputedPrefix(m, r.promptIds, t.generated, r.params, t.draws, n);
    RecomputedPrefix(m, r.promptIds, s.generated, r.params, s.draws, n);
    assert s.draws == t.draws[..n];
    RecomputedIsUnique(m, r.promptIds, s.generated, t.generated[..n], r.params, s.draws);
  }

  /** And if both are done, neither having a deadline, they have got the same tokens and the same
      text: what either would have got alone. */
  lemma OutcomeIsUnique(m: Model, settings: Settings, r: InferenceRequest, s: RequestState,
                        q: InferenceRequest, t: RequestState, draw: nat -> Draw)
    requires SameRequest(r, q) && r.deadline.None? && q.deadline.None?
    requires Closed(m, settings, r, s) && Closed(m, settings, q, t) && s.future.Result? && t.future.Result?
    requires DrawnFrom(draw, s.draws) && DrawnFrom(draw, t.draws)
    ensures s.generated == t.generated && s.future == t.future
  {
    hide Recomputed, Ends, FinalText;
    if |s.generated| <= |t.generated| {
      SameTokens(m, settings, settings, r, s, q, t, draw);
      FirstEnd(m, settings, r, s.generated, q, t.generated);
    } else {
      SameTokens(m, settings, settings, q, t, r, s, draw);
      FirstEnd(m, settings, q, t.generated, r, s.generated);
    }
  }

  lemma FirstEnd(m: Model, settings: Settings, r: InferenceRequest, a: seq<int>, q: InferenceRequest, b: seq<int>)
    requires r.maxTokens == q.maxTokens && r.stopSequences == q.stopSequences
    requires EndsNow(m, settings, r, a) && EndsNow(m, settings, q, b) && a <= b
    ensures a == b
  {
    hide Ends, StillOpen;
    if |a| < |b| {
      OpenBefore(m, settings, q, b[..|b| - 1], a);
    }
  }

  lemma OpenBefore(m: Model, settings: Settings, r: InferenceRequest, generated: seq<int>, a: seq<int>)
    requires StillOpen(m, settings, r, generated) && a <= generated && a != []
    ensures !Ends(m, settings, a, r.stopSequences, r.maxTokens)
  {
    assert generated[..|a|] == a;
  }
}
