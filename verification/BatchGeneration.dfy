/** Static batched generation (engine/generator.py:271-416): a fixed batch that loses its rows one by
    one as they finish, and is compacted each time. */
module BatchGeneration {
  import opened Common
  import opened PagedCache
  import opened CausalModel
  import opened StopSequences
  import opened Requests

  /** The model as this loop sees it. It treats the rows of a batch independently: `first` runs a
      whole row, `next` one more token behind a row's past. `sample` penalises repeats of the row's
      tokens, then samples. */
  datatype Engine = Engine(
    first: (seq<int>, seq<nat>) -> (Logits, seq<Cell>),
    next: (int, seq<nat>, seq<Cell>) -> (Logits, seq<Cell>),
    sample: (Logits, seq<int>, SamplingParams, Draw) -> int,
    eosId: int,
    decode: Decoder)

  datatype Request = Request(maxTokens: nat, params: SamplingParams, stopSequences: seq<string>)

  /** What a request's own object records while the loop runs. */
  datatype Record = Record(generated: seq<int>, queue: seq<Item>, finished: bool, output: Option<string>)

  /** One row: token ids (the padded prompt first), mask, and the model's past for it. */
  datatype Row = Row(ids: seq<int>, mask: seq<nat>, past: Option<seq<Cell>>, generated: seq<int>)

  // ---------------------------------------------------------------- a row on its own

  ghost function Grow(e: Engine, row: Row, params: SamplingParams, draw: Draw): Row
    requires row.past.Some? ==> row.generated != []
  {
    var (logits, past) := if row.past.None? then e.first(row.ids, row.mask)
                          else e.next(row.generated[|row.generated| - 1], row.mask, row.past.value);
    var token := e.sample(logits, row.ids, params, draw);
    Row(row.ids + [token], row.mask + [1], Some(past), row.generated + [token])
  }

  /** The row after `k` steps, with the padding it was given, had no other row been there. */
  ghost function Alone(e: Engine, ids: seq<int>, mask: seq<nat>, params: SamplingParams, draw: nat -> Draw,
                       k: nat): (row: Row)
    ensures |row.generated| == k && row.ids == ids + row.generated
    ensures row.past.Some? <==> k > 0
  {
    if k == 0 then Row(ids, mask, None, [])
    else Grow(e, Alone(e, ids, mask, params, draw, k - 1), params, draw(k - 1))
  }

  /** Whether the last token generated ends the request. */
  ghost predicate Finishes(e: Engine, r: Request, generated: seq<int>)
    requires generated != []
  {
    || FullStopText(e.decode, generated, r.stopSequences).Some?
    || generated[|generated| - 1] == e.eosId
    || |generated| >= r.maxTokens
  }

  ghost function FinalText(e: Engine, r: Request, generated: seq<int>): string {
    var stop := FullStopText(e.decode, generated, r.stopSequences);
    if stop.Some? then stop.value else e.decode(generated)
  }

  /** Everything that one request brings along. */
  datatype Job = Job(request: Request, ids: seq<int>, mask: seq<nat>, draw: nat -> Draw)

  ghost function AloneAt(e: Engine, job: Job, k: nat): (row: Row)
    ensures |row.generated| == k && row.ids == job.ids + row.generated && (row.past.Some? <==> k > 0)
  {
    Alone(e, job.ids, job.mask, job.request.params, job.draw, k)
  }

  /** The step, from `k` on, at which the request ends on its own. */
  ghost function EndsFrom(e: Engine, job: Job, k: nat): (end: nat)
    requires k > 0
    ensures end >= k && Finishes(e, job.request, AloneAt(e, job, end).generated)
    ensures forall j :: k <= j < end ==> !Finishes(e, job.request, AloneAt(e, job, j).generated)
    ensures end <= Max(k, job.request.maxTokens)
    decreases job.request.maxTokens - k
  {
    if Finishes(e, job.request, AloneAt(e, job, k).generated) then k else EndsFrom(e, job, k + 1)
  }

  ghost function EndOf(e: Engine, job: Job): (end: nat)
    ensures end >= 1
  {
    EndsFrom(e, job, 1)
  }

  /** What the request would get from the same padded row, had no other row been there. */
  ghost function AloneOutput(e: Engine, job: Job): string {
    FinalText(e, job.request, AloneAt(e, job, EndOf(e, job)).generated)
  }

  /** The request's record after `k` steps of the batch. */
  ghost function RecordAt(e: Engine, job: Job, k: nat): Record {
    if k < EndOf(e, job) then
      var generated := AloneAt(e, job, k).generated;
      Record(generated, Tokens(generated), false, None)
    else
      var generated := AloneAt(e, job, EndOf(e, job)).generated;
      Record(generated, Tokens(generated), true, Some(AloneOutput(e, job)))
  }

  // ---------------------------------------------------------------- in plain terms

  function Ones(n: nat): (r: seq<nat>)
    ensures |r| == n && forall i :: 0 <= i < n ==> r[i] == 1
  {
    seq<nat>(n, _ => 1)
  }

  /** The pass that gives token `k`: the first one runs the padded prompt; each later one runs the token
      before, behind the past of the pass before, and sees the prompt's mask and a one for every token
      generated so far. The token is sampled against the prompt and the tokens before it. */
  ghost predicate TokenOfPass(e: Engine, job: Job, generated: seq<int>, pasts: seq<seq<Cell>>, k: nat)
    requires k < |generated| == |pasts|
  {
    var (logits, past) := if k == 0 then e.first(job.ids, job.mask)
                          else e.next(generated[k - 1], job.mask + Ones(k), pasts[k - 1]);
    pasts[k] == past && generated[k] == e.sample(logits, job.ids + generated[..k], job.request.params, job.draw(k))
  }

  ghost predicate Generates(e: Engine, job: Job, generated: seq<int>) {
    exists pasts: seq<seq<Cell>> :: |pasts| == |generated| && forall k :: 0 <= k < |generated| ==>
          TokenOfPass(e, job, generated, pasts, k)
  }

  /** The last token is the first that is the end marker, or the last one allowed, or completes a stop
      sequence. */
  ghost predicate StopsInTime(e: Engine, r: Request, generated: seq<int>) {
    && generated != []
    && (forall k :: 0 <= k < |generated| - 1 ==>
          generated[k] != e.eosId && k + 1 < r.maxTokens
              && FullStopText(e.decode, generated[..k + 1], r.stopSequences) == None)
    && (generated[|generated| - 1] == e.eosId || |generated| >= r.maxTokens
        || FullStopText(e.decode, generated, r.stopSequences) != None)
  }

  /** After `k` steps, a row on its own has the mask it came with, and a one for every token. */
  lemma {:induction false} AloneIsPlain(e: Engine, job: Job, k: nat) returns (pasts: seq<seq<Cell>>)
    ensures AloneAt(e, job, k).mask == job.mask + Ones(k)
            && AloneAt(e, job, k).ids == job.ids + AloneAt(e, job, k).generated
    ensures |pasts| == k && (k > 0 ==> AloneAt(e, job, k).past == Some(pasts[k - 1]))
    ensures forall j :: 0 <= j < k ==> TokenOfPass(e, job, AloneAt(e, job, k).generated, pasts, j)
    decreases k
  {
    if k == 0 {
      pasts := [];
      assert job.mask + Ones(0) == job.mask;
    } else {
      var before := AloneIsPlain(e, job, k - 1);
      var (row, row') := (AloneAt(e, job, k - 1), AloneAt(e, job, k));
      pasts := before + [row'.past.value];
      assert job.mask + Ones(k) == job.mask + Ones(k - 1) + [1];
      assert row'.generated[..k - 1] == row.generated;
      forall j | 0 <= j < k ensures TokenOfPass(e, job, row'.generated, pasts, j) {
        if j < k - 1 {
          assert TokenOfPass(e, job, row.generated, before, j);
          assert row'.generated[..j] == row.generated[..j];
        }
      }
    }
  }

  lemma {:induction false} AlonePrefix(e: Engine, job: Job, j: nat, k: nat)
    requires j <= k
    ensures AloneAt(e, job, k).generated[..j] == AloneAt(e, job, j).generated
    decreases k
  {
    if j < k {
      AlonePrefix(e, job, j, k - 1);
      assert AloneAt(e, job, k).generated[..j] == AloneAt(e, job, k - 1).generated[..j];
    }
  }

  /** What a row on its own comes to, in plain terms. */
  lemma LifeIsPlain(e: Engine, job: Job)
    ensures var generated := AloneAt(e, job, EndOf(e, job)).generated;
            && Generates(e, job, generated) && StopsInTime(e, job.request, generated)
            && AloneOutput(e, job) == var stop := FullStopText(e.decode, generated, job.request.stopSequences);
                                      if stop == None then e.decode(generated) else stop.value
  {
    hide AloneAt, TokenOfPass, FullStopText;
    var end := EndOf(e, job);
    var generated := AloneAt(e, job, end).generated;
    var pasts := AloneIsPlain(e, job, end);
    forall k | 0 <= k < |generated| - 1
      ensures generated[k] != e.eosId && k + 1 < job.request.maxTokens
              && FullStopText(e.decode, generated[..k + 1], job.request.stopSequences) == None
    {
      AlonePrefix(e, job, k + 1, end);
      assert !Finishes(e, job.request, AloneAt(e, job, k + 1).generated);
    }
  }

  // ---------------------------------------------------------------- the batch

  /** The tensors of the loop, row by row, and which request each row belongs to. */
  datatype Batch = Batch(active: seq<nat>, ids: seq<seq<int>>, mask: seq<seq<nat>>, past: Option<seq<seq<Cell>>>,
                         next: seq<int>)

  ghost predicate Aligned(b: Batch) {
    && |b.ids| == |b.mask| == |b.active|
    && (b.past.Some? ==> |b.past.value| == |b.next| == |b.active|)
  }

  /** Row `i` of the batch is the given row. */
  ghost predicate RowIs(b: Batch, i: nat, row: Row)
    requires Aligned(b) && i < |b.active|
  {
    && b.ids[i] == row.ids && b.mask[i] == row.mask
    && (b.past.None? <==> row.past.None?)
    && (row.past.Some? ==>
        b.past.value[i] == row.past.value && row.generated != [] && b.next[i] == row.generated[|row.generated| - 1])
  }

  /** After `k` steps: the rows are those of the requests that have not ended, in order, and each is
      what it would be alone. */
  ghost predicate InStep(e: Engine, jobs: seq<Job>, b: Batch, k: nat) {
    && Aligned(b)
    && (forall i, j :: 0 <= i < j < |b.active| ==> b.active[i] < b.active[j])
    && (forall i :: 0 <= i < |b.active| ==>
        b.active[i] < |jobs| && EndOf(e, jobs[b.active[i]]) > k && RowIs(b, i, AloneAt(e, jobs[b.active[i]], k)))
    && NobodyMissing(e, jobs, b.active, k)
  }

  ghost predicate NobodyMissing(e: Engine, jobs: seq<Job>, active: seq<nat>, k: nat) {
    forall j :: 0 <= j < |jobs| && EndOf(e, jobs[j]) > k ==> j in active
  }

  ghost predicate Recorded(e: Engine, jobs: seq<Job>, records: seq<Record>, k: nat) {
    |records| == |jobs| && forall j :: 0 <= j < |jobs| ==> records[j] == RecordAt(e, jobs[j], k)
  }

  /** One forward pass: every row's logits and new past. */
  method ForwardPass(e: Engine, b: Batch) returns (logits: seq<Logits>, past: seq<seq<Cell>>)
    requires Aligned(b)
    ensures |logits| == |past| == |b.active|
    ensures forall i :: 0 <= i < |b.active| ==>
              (logits[i], past[i]) == if b.past.None? then e.first(b.ids[i], b.mask[i])
                  else e.next(b.next[i], b.mask[i], b.past.value[i])
  {
    logits, past := [], [];
    for i := 0 to |b.active|
      invariant |logits| == |past| == i
      invariant forall j :: 0 <= j < i ==>
                  (logits[j], past[j]) == if b.past.None? then e.first(b.ids[j], b.mask[j])
                      else e.next(b.next[j], b.mask[j], b.past.value[j])
    {
      var (l, p) := if b.past.None? then e.first(b.ids[i], b.mask[i])
          else e.next(b.next[i], b.mask[i], b.past.value[i]);
      logits, past := logits + [l], past + [p];
    }
  }

  /** One sampled token per row. */
  method SampleTokens(e: Engine, jobs: seq<Job>, b: Batch, logits: seq<Logits>, k: nat) returns (tokens: seq<int>)
    requires Aligned(b) && |logits| == |b.active| && forall i :: 0 <= i < |b.active| ==> b.active[i] < |jobs|
    ensures |tokens| == |b.active|
    ensures forall i :: 0 <= i < |tokens| ==>
              tokens[i] == e.sample(logits[i], b.ids[i], jobs[b.active[i]].request.params, jobs[b.active[i]].draw(k))
  {
    tokens := [];
    for i := 0 to |b.active|
      invariant |tokens| == i
      invariant forall j :: 0 <= j < i ==>
                  tokens[j] == e.sample(logits[j], b.ids[j], jobs[b.active[j]].request.params,
                                        jobs[b.active[j]].draw(k))
    {
      var job := jobs[b.active[i]];
      tokens := tokens + [e.sample(logits[i], b.ids[i], job.request.params, job.draw(k))];
    }
  }

  /** One token for one request, and whether it goes on. */
  method Take(e: Engine, r: Request, record: Record, token: int) returns (after: Record, goesOn: bool)
    requires !record.finished
    ensures after.generated == record.generated + [token] && after.queue == record.queue + [Token(token)]
    ensures goesOn <==> !Finishes(e, r, after.generated)
    ensures after.finished == !goesOn
    ensures after.output == if goesOn then record.output else Some(FinalText(e, r, after.generated))
  {
    var generated := record.generated + [token];
    after := record.(generated := generated, queue := record.queue + [Token(token)]);
    var stopText := None;
    var text := e.decode(generated);
    EarliestStopIs(text, r.stopSequences);
    if r.stopSequences != [] {
      var stopIdx := FindStopIndex(text, r.stopSequences);
      if stopIdx.Some? {
        stopText := Some(text[..stopIdx.value]);
      }
    }
    goesOn := true;
    if stopText.Some? || token == e.eosId || |generated| >= r.maxTokens {
      goesOn := false;
      after := after.(finished := true, output := Some(if stopText.Some? then stopText.value else text));
    }
  }

  /** A request that has not ended after `k` steps ends at the next one exactly when that token ends it. */
  lemma EndsNext(e: Engine, job: Job, k: nat)
    requires EndOf(e, job) > k
    ensures EndOf(e, job) > k + 1 <==> !Finishes(e, job.request, AloneAt(e, job, k + 1).generated)
  {
  }

  lemma RecordNext(e: Engine, job: Job, k: nat, token: int, after: Record, goesOn: bool)
    requires EndOf(e, job) > k && AloneAt(e, job, k + 1).generated == AloneAt(e, job, k).generated + [token]
    requires var record := RecordAt(e, job, k);
             && after.generated == record.generated + [token] && after.queue == record.queue + [Token(token)]
             && (goesOn <==> !Finishes(e, job.request, after.generated)) && after.finished == !goesOn
             && after.output == if goesOn then record.output else Some(FinalText(e, job.request, after.generated))
    ensures after == RecordAt(e, job, k + 1) && (goesOn <==> EndOf(e, job) > k + 1)
  {
    hide Finishes, FinalText, Alone;
    EndsNext(e, job, k);
    var generated := AloneAt(e, job, k).generated;
    assert Tokens(generated + [token]) == Tokens(generated) + [Token(token)];
  }

  /** The rows, among the first `n`, whose requests have not ended by step `k`: by position, in order. */
  ghost function Survivors(e: Engine, jobs: seq<Job>, active: seq<nat>, n: nat, k: nat): (keep: seq<nat>)
    requires n <= |active| && forall i :: 0 <= i < |active| ==> active[i] < |jobs|
    ensures forall x :: 0 <= x < |keep| ==> keep[x] < n
    ensures forall x, y :: 0 <= x < y < |keep| ==> keep[x] < keep[y]
    ensures |keep| <= n
  {
    if n == 0 then []
    else Survivors(e, jobs, active, n - 1, k) + if EndOf(e, jobs[active[n - 1]]) > k then [n - 1] else []
  }

  lemma NoneYet(e: Engine, jobs: seq<Job>, active: seq<nat>, k: nat)
    requires forall i :: 0 <= i < |active| ==> active[i] < |jobs|
    ensures Survivors(e, jobs, active, 0, k) == []
  {
  }

  lemma OneMoreSurvivor(e: Engine, jobs: seq<Job>, active: seq<nat>, i: nat, k: nat)
    requires i < |active| && forall x :: 0 <= x < |active| ==> active[x] < |jobs|
    ensures Survivors(e, jobs, active, i + 1, k)
            == Survivors(e, jobs, active, i, k) + if EndOf(e, jobs[active[i]]) > k then [i] else []
  {
  }

  lemma {:induction false} SurvivorGoesOn(e: Engine, jobs: seq<Job>, active: seq<nat>, n: nat, k: nat, x: nat)
    requires n <= |active| && forall i :: 0 <= i < |active| ==> active[i] < |jobs|
    requires x < |Survivors(e, jobs, active, n, k)|
    ensures EndOf(e, jobs[active[Survivors(e, jobs, active, n, k)[x]]]) > k
  {
    hide EndOf;
    if x < |Survivors(e, jobs, active, n - 1, k)| {
      SurvivorGoesOn(e, jobs, active, n - 1, k, x);
    }
  }

  lemma {:induction false} WhoGoesOnSurvives(e: Engine, jobs: seq<Job>, active: seq<nat>, n: nat, k: nat, i: nat)
      returns (x: nat)
    requires n <= |active| && forall i :: 0 <= i < |active| ==> active[i] < |jobs|
    requires i < n && EndOf(e, jobs[active[i]]) > k
    ensures x < |Survivors(e, jobs, active, n, k)| && Survivors(e, jobs, active, n, k)[x] == i
  {
    hide EndOf;
    if i == n - 1 {
      x := |Survivors(e, jobs, active, n - 1, k)|;
    } else {
      x := WhoGoesOnSurvives(e, jobs, active, n - 1, k, i);
    }
  }

  /** Half-way through the step: the rows before `i` have their new token. */
  ghost predicate HalfRecorded(e: Engine, jobs: seq<Job>, active: seq<nat>, records: seq<Record>, i: nat, k: nat)
    requires i <= |active|
  {
    && |records| == |jobs|
    && forall j :: 0 <= j < |jobs| ==> records[j] == RecordAt(e, jobs[j], if j in active[..i] then k + 1 else k)
  }

  lemma HalfRecordedNext(e: Engine, jobs: seq<Job>, active: seq<nat>, records: seq<Record>, i: nat, k: nat,
                         after: Record)
    requires i < |active| && active[i] < |jobs| && HalfRecorded(e, jobs, active, records, i, k)
    requires forall x, y :: 0 <= x < y < |active| ==> active[x] < active[y]
    requires after == RecordAt(e, jobs[active[i]], k + 1)
    ensures HalfRecorded(e, jobs, active, records[active[i] := after], i + 1, k)
    ensures records[active[i]] == RecordAt(e, jobs[active[i]], k)
  {
    hide RecordAt;
    assert active[..i + 1] == active[..i] + [active[i]];
    assert active[i] !in active[..i];
  }

  /** The new tokens are those that each request would get alone. */
  ghost predicate TokensFit(e: Engine, jobs: seq<Job>, active: seq<nat>, tokens: seq<int>, k: nat) {
    && |tokens| == |active|
    && forall i :: 0 <= i < |active| ==>
         active[i] < |jobs| && EndOf(e, jobs[active[i]]) > k
         && AloneAt(e, jobs[active[i]], k + 1).generated == AloneAt(e, jobs[active[i]], k).generated + [tokens[i]]
  }

  /** Updates every active request's record, and finds the rows to keep. */
  method UpdateRecords(e: Engine, jobs: seq<Job>, active: seq<nat>, tokens: seq<int>, records: seq<Record>,
                       ghost k: nat)
      returns (records': seq<Record>, keep: seq<nat>)
    requires TokensFit(e, jobs, active, tokens, k) && Recorded(e, jobs, records, k)
    requires forall x, y :: 0 <= x < y < |active| ==> active[x] < active[y]
    ensures HalfRecorded(e, jobs, active, records', |active|, k) && keep == Survivors(e, jobs, active, |active|, k + 1)
  {
    hide RecordAt, EndOf, AloneAt, Survivors;
    records', keep := records, [];
    assert active[..0] == [];
    NoneYet(e, jobs, active, k + 1);
    for i := 0 to |active|
      invariant HalfRecorded(e, jobs, active, records', i, k)
      invariant keep == Survivors(e, jobs, active, i, k + 1)
    {
      var j := active[i];
      WhatIsRecorded(e, jobs, active, records', i, k);
      var after, goesOn := TakeNext(e, jobs[j], records'[j], tokens[i], k);
      HalfRecordedNext(e, jobs, active, records', i, k, after);
      OneMoreSurvivor(e, jobs, active, i, k + 1);
      records' := records'[j := after];
      if goesOn {
        keep := keep + [i];
      }
    }
  }

  lemma WhatIsRecorded(e: Engine, jobs: seq<Job>, active: seq<nat>, records: seq<Record>, i: nat, k: nat)
    requires i < |active| && active[i] < |jobs| && HalfRecorded(e, jobs, active, records, i, k)
    requires forall x, y :: 0 <= x < y < |active| ==> active[x] < active[y]
    ensures records[active[i]] == RecordAt(e, jobs[active[i]], k)
  {
    hide RecordAt;
    assert active[i] !in active[..i];
  }

  /** `Take` for a request that has not ended, as part of its life alone. */
  method TakeNext(e: Engine, job: Job, record: Record, token: int, ghost k: nat) returns (after: Record, goesOn: bool)
    requires EndOf(e, job) > k && record == RecordAt(e, job, k)
    requires AloneAt(e, job, k + 1).generated == AloneAt(e, job, k).generated + [token]
    ensures after == RecordAt(e, job, k + 1) && (goesOn <==> EndOf(e, job) > k + 1)
  {
    hide EndOf, AloneAt, RecordAt, Finishes, FinalText;
    NotFinishedYet(e, job, k);
    after, goesOn := Take(e, job.request, record, token);
    RecordNext(e, job, k, token, after, goesOn);
  }

  lemma NotFinishedYet(e: Engine, job: Job, k: nat)
    requires EndOf(e, job) > k
    ensures !RecordAt(e, job, k).finished
  {
  }

  /** Appends the new tokens to the rows. */
  function Append(b: Batch, tokens: seq<int>, past: seq<seq<Cell>>): (r: Batch)
    requires Aligned(b) && |tokens| == |past| == |b.active|
    ensures Aligned(r)
  {
    Batch(b.active,
          seq(|b.active|, i requires 0 <= i < |b.active| => b.ids[i] + [tokens[i]]),
          seq(|b.active|, i requires 0 <= i < |b.active| => b.mask[i] + [1]),
          Some(past), tokens)
  }

  function Pick<T>(s: seq<T>, keep: seq<nat>): (r: seq<T>)
    requires forall x :: 0 <= x < |keep| ==> keep[x] < |s|
    ensures |r| == |keep| && forall x :: 0 <= x < |keep| ==> r[x] == s[keep[x]]
  {
    seq(|keep|, x requires 0 <= x < |keep| => s[keep[x]])
  }

  /** Compaction: the same rows of everything. */
  function Compacted(b: Batch, keep: seq<nat>): (r: Batch)
    requires Aligned(b) && forall x :: 0 <= x < |keep| ==> keep[x] < |b.active|
    ensures Aligned(r) && |r.active| == |keep|
  {
    Batch(Pick(b.active, keep), Pick(b.ids, keep), Pick(b.mask, keep),
          if b.past.None? then None else Some(Pick(b.past.value, keep)),
          if b.past.None? then b.next else Pick(b.next, keep))
  }

  /** What the model and the sampler give each row is what they would give it alone. */
  lemma TokensAreRight(e: Engine, jobs: seq<Job>, b: Batch, logits: seq<Logits>, past: seq<seq<Cell>>,
                       tokens: seq<int>, k: nat)
    requires InStep(e, jobs, b, k) && |logits| == |past| == |tokens| == |b.active|
    requires forall i :: 0 <= i < |b.active| ==>
               (logits[i], past[i]) == if b.past.None? then e.first(b.ids[i], b.mask[i])
                   else e.next(b.next[i], b.mask[i], b.past.value[i])
    requires forall i :: 0 <= i < |tokens| ==>
               tokens[i] == e.sample(logits[i], b.ids[i], jobs[b.active[i]].request.params, jobs[b.active[i]].draw(k))
    ensures TokensFit(e, jobs, b.active, tokens, k)
    ensures forall i :: 0 <= i < |b.active| ==> RowIs(Append(b, tokens, past), i, AloneAt(e, jobs[b.active[i]], k + 1))
  {
    hide EndOf;
    forall i | 0 <= i < |b.active|
      ensures RowIs(Append(b, tokens, past), i, AloneAt(e, jobs[b.active[i]], k + 1))
      ensures AloneAt(e, jobs[b.active[i]], k + 1).generated == AloneAt(e, jobs[b.active[i]], k).generated + [tokens[i]]
    {
      assert RowIs(b, i, AloneAt(e, jobs[b.active[i]], k));
    }
  }

  lemma NobodyDropped(e: Engine, jobs: seq<Job>, active: seq<nat>, k: nat)
    requires NobodyMissing(e, jobs, active, k) && forall i :: 0 <= i < |active| ==> active[i] < |jobs|
    ensures NobodyMissing(e, jobs, Pick(active, Survivors(e, jobs, active, |active|, k + 1)), k + 1)
  {
    hide EndOf, Survivors;
    var keep := Survivors(e, jobs, active, |active|, k + 1);
    forall j | 0 <= j < |jobs| && EndOf(e, jobs[j]) > k + 1
      ensures j in Pick(active, keep)
    {
      assert j in active;
      var i :| 0 <= i < |active| && active[i] == j;
      var x := WhoGoesOnSurvives(e, jobs, active, |active|, k + 1, i);
      assert Pick(active, keep)[x] == j;
    }
  }

  /** Compaction keeps every surviving row what it would be alone. */
  lemma CompactedInStep(e: Engine, jobs: seq<Job>, b: Batch, grown: Batch, k: nat)
    requires InStep(e, jobs, b, k) && Aligned(grown) && grown.active == b.active
    requires forall i :: 0 <= i < |b.active| ==> RowIs(grown, i, AloneAt(e, jobs[b.active[i]], k + 1))
    ensures InStep(e, jobs, Compacted(grown, Survivors(e, jobs, b.active, |b.active|, k + 1)), k + 1)
  {
    hide EndOf, AloneAt, Survivors, NobodyMissing;
    var keep := Survivors(e, jobs, b.active, |b.active|, k + 1);
    var r := Compacted(grown, keep);
    NobodyDropped(e, jobs, b.active, k);
    forall x | 0 <= x < |r.active|
      ensures r.active[x] < |jobs| && EndOf(e, jobs[r.active[x]]) > k + 1
      ensures RowIs(r, x, AloneAt(e, jobs[r.active[x]], k + 1))
    {
      SurvivorGoesOn(e, jobs, b.active, |b.active|, k + 1, x);
      assert RowIs(grown, keep[x], AloneAt(e, jobs[b.active[keep[x]]], k + 1));
    }
  }

  lemma {:induction false} RisesToTheTop(keep: seq<nat>, n: nat)
    requires |keep| == n && (forall x, y :: 0 <= x < y < |keep| ==> keep[x] < keep[y])
             && forall x :: 0 <= x < |keep| ==> keep[x] < n
    ensures forall x :: 0 <= x < |keep| ==> keep[x] == x
  {
    AtLeastItsPlace(keep, n);
    forall x | 0 <= x < |keep| ensures keep[x] == x {
      AtMostItsPlace(keep, n, x);
    }
  }

  lemma {:induction false} AtLeastItsPlace(keep: seq<nat>, m: nat)
    requires m <= |keep| && forall x, y :: 0 <= x < y < |keep| ==> keep[x] < keep[y]
    ensures forall x :: 0 <= x < m ==> keep[x] >= x
  {
    if m > 0 {
      AtLeastItsPlace(keep, m - 1);
      if m > 1 {
        assert keep[m - 2] < keep[m - 1];
      }
    }
  }

  lemma {:induction false} AtMostItsPlace(keep: seq<nat>, n: nat, x: nat)
    requires |keep| == n && x < n
    requires (forall x, y :: 0 <= x < y < |keep| ==> keep[x] < keep[y]) && forall x :: 0 <= x < |keep| ==> keep[x] < n
    ensures keep[x] <= x
    decreases n - x
  {
    if x < n - 1 {
      AtMostItsPlace(keep, n, x + 1);
    }
  }

  /** Requests that ended earlier stay as they were. */
  lemma AllRecorded(e: Engine, jobs: seq<Job>, b: Batch, records: seq<Record>, k: nat)
    requires InStep(e, jobs, b, k) && HalfRecorded(e, jobs, b.active, records, |b.active|, k)
    ensures Recorded(e, jobs, records, k + 1)
  {
    hide EndOf, AloneAt;
    assert b.active[..|b.active|] == b.active;
    forall j | 0 <= j < |jobs|
      ensures records[j] == RecordAt(e, jobs[j], k + 1)
    {
      if j !in b.active {
        assert EndOf(e, jobs[j]) <= k;
      }
    }
  }

  /** One iteration: forward, sample, update, append, and compact if anyone finished. */
  method Iterate(e: Engine, jobs: seq<Job>, b: Batch, records: seq<Record>, k: nat)
      returns (b': Batch, records': seq<Record>)
    requires InStep(e, jobs, b, k) && Recorded(e, jobs, records, k)
    ensures InStep(e, jobs, b', k + 1) && Recorded(e, jobs, records', k + 1)
  {
    hide EndOf, AloneAt, RecordAt, RowIs, Survivors, NobodyMissing, TokensFit;
    var logits, past := ForwardPass(e, b);
    var tokens := SampleTokens(e, jobs, b, logits, k);
    TokensAreRight(e, jobs, b, logits, past, tokens, k);
    var keep;
    records', keep := UpdateRecords(e, jobs, b.active, tokens, records, k);
    AllRecorded(e, jobs, b, records', k);
    b' := Append(b, tokens, past);
    CompactedInStep(e, jobs, b, b', k);
    if |keep| < |b.active| {
      b' := Compacted(b', keep);
    } else {
      RisesToTheTop(keep, |b.active|);
      SameBatch(b', keep);
    }
  }

  lemma SameBatch(b: Batch, keep: seq<nat>)
    requires Aligned(b) && b.past.Some? && |keep| == |b.active| && forall x :: 0 <= x < |keep| ==> keep[x] == x
    ensures Compacted(b, keep) == b
  {
    assert Pick(b.active, keep) == b.active && Pick(b.ids, keep) == b.ids && Pick(b.mask, keep) == b.mask;
    assert Pick(b.past.value, keep) == b.past.value && Pick(b.next, keep) == b.next;
  }

  /** The most steps any request may take. */
  ghost function Longest(jobs: seq<Job>): (n: nat)
    ensures forall j :: 0 <= j < |jobs| ==> Max(1, jobs[j].request.maxTokens) <= n
  {
    if jobs == [] then 0
    else Max(Longest(jobs[..|jobs| - 1]), Max(1, jobs[|jobs| - 1].request.maxTokens))
  }

  function Everyone(n: nat): (r: seq<nat>)
    ensures |r| == n && forall i :: 0 <= i < n ==> r[i] == i
  {
    seq<nat>(n, i requires 0 <= i < n => i)
  }

  lemma Start(e: Engine, jobs: seq<Job>, b: Batch, records: seq<Record>)
    requires b == Batch(Everyone(|jobs|), seq(|jobs|, i requires 0 <= i < |jobs| => jobs[i].ids),
                        seq(|jobs|, i requires 0 <= i < |jobs| => jobs[i].mask), None, [])
    requires records == seq(|jobs|, _ => Record([], [], false, None))
    ensures InStep(e, jobs, b, 0) && Recorded(e, jobs, records, 0)
  {
    forall j | 0 <= j < |jobs| ensures j in b.active && EndOf(e, jobs[j]) > 0 {
      assert b.active[j] == j;
    }
    assert Tokens([]) == [];
  }

  lemma NotPast(e: Engine, jobs: seq<Job>, b: Batch, k: nat)
    requires InStep(e, jobs, b, k) && b.active != []
    ensures k < Longest(jobs)
  {
    assert EndOf(e, jobs[b.active[0]]) > k;
  }

  /** The loop: until every row has finished. */
  method RunToTheEnd(e: Engine, jobs: seq<Job>) returns (records: seq<Record>)
    ensures |records| == |jobs| && forall j :: 0 <= j < |jobs| ==> RecordIs(e, jobs[j], records[j])
  {
    hide EndOf, AloneAt, RecordAt, RowIs, AloneOutput;
    var b := Batch(Everyone(|jobs|), seq(|jobs|, i requires 0 <= i < |jobs| => jobs[i].ids),
                   seq(|jobs|, i requires 0 <= i < |jobs| => jobs[i].mask), None, []);
    records := seq(|jobs|, _ => Record([], [], false, None));
    Start(e, jobs, b, records);
    var k := 0;
    while |b.active| > 0
      invariant InStep(e, jobs, b, k) && Recorded(e, jobs, records, k)
      decreases Longest(jobs) - k
    {
      NotPast(e, jobs, b, k);
      b, records := Iterate(e, jobs, b, records, k);
      k := k + 1;
    }
    AllDone(e, jobs, b, records, k);
  }

  /** Static batched generation: every request gets, at its own index, exactly what its padded row
      would have given had no other row been there, however the others come and go; and its stream is
      its tokens and then the end. */
  method GenerateBatch(e: Engine, jobs: seq<Job>) returns (outputs: seq<string>, records: seq<Record>)
    ensures |outputs| == |records| == |jobs|
    ensures forall j :: 0 <= j < |jobs| ==>
              && outputs[j] == AloneOutput(e, jobs[j])
              && records[j].generated == AloneAt(e, jobs[j], EndOf(e, jobs[j])).generated
              && records[j].queue == Tokens(records[j].generated) + [Done]
    // in plain terms
    ensures forall j :: 0 <= j < |jobs| ==>
              && Generates(e, jobs[j], records[j].generated) && StopsInTime(e, jobs[j].request, records[j].generated)
              && outputs[j] == var stop := FullStopText(e.decode, records[j].generated, jobs[j].request.stopSequences);
                               if stop == None then e.decode(records[j].generated) else stop.value
  {
    hide EndOf, AloneAt, AloneOutput, Generates, StopsInTime, FullStopText;
    records := RunToTheEnd(e, jobs);
    outputs, records := Finish(e, records);
    forall j | 0 <= j < |jobs|
      ensures Generates(e, jobs[j], records[j].generated) && StopsInTime(e, jobs[j].request, records[j].generated)
      ensures outputs[j] == var stop := FullStopText(e.decode, records[j].generated, jobs[j].request.stopSequences);
                            if stop == None then e.decode(records[j].generated) else stop.value
    {
      LifeIsPlain(e, jobs[j]);
    }
  }

  /** While a row is in the batch, its ids are its prompt and its tokens, and its mask is the one it came
      with and a one for every token. */
  lemma RowsArePlain(e: Engine, jobs: seq<Job>, b: Batch, records: seq<Record>, k: nat)
    requires InStep(e, jobs, b, k) && Recorded(e, jobs, records, k)
    ensures forall i :: 0 <= i < |b.active| ==>
              var j := b.active[i];
              && j < |jobs| && |records[j].generated| == k && !records[j].finished
              && b.ids[i] == jobs[j].ids + records[j].generated && b.mask[i] == jobs[j].mask + Ones(k)
  {
    hide AloneAt, EndOf;
    forall i | 0 <= i < |b.active|
      ensures var j := b.active[i];
              && j < |jobs| && |records[j].generated| == k && !records[j].finished
              && b.ids[i] == jobs[j].ids + records[j].generated && b.mask[i] == jobs[j].mask + Ones(k)
    {
      var _ := AloneIsPlain(e, jobs[b.active[i]], k);
    }
  }

  lemma AllDone(e: Engine, jobs: seq<Job>, b: Batch, records: seq<Record>, k: nat)
    requires InStep(e, jobs, b, k) && Recorded(e, jobs, records, k) && b.active == []
    ensures forall j :: 0 <= j < |jobs| ==> RecordIs(e, jobs[j], records[j])
  {
    hide EndOf, AloneAt;
    forall j | 0 <= j < |jobs| ensures RecordIs(e, jobs[j], records[j]) {
      assert j !in b.active;
    }
  }

  ghost predicate RecordIs(e: Engine, job: Job, record: Record) {
    && record.generated == AloneAt(e, job, EndOf(e, job)).generated
    && record.queue == Tokens(record.generated) && record.output == Some(AloneOutput(e, job))
  }

  /** Decodes whatever has no output yet, and signals the end of every stream. */
  method Finish(e: Engine, before: seq<Record>) returns (outputs: seq<string>, records: seq<Record>)
    ensures |outputs| == |records| == |before|
    ensures forall j :: 0 <= j < |before| ==>
              && outputs[j] == (if before[j].output.Some? then before[j].output.value
                                else e.decode(before[j].generated))
              && records[j] == before[j].(queue := before[j].queue + [Done])
  {
    outputs, records := [], [];
    for i := 0 to |before|
      invariant |outputs| == |records| == i
      invariant forall j :: 0 <= j < i ==>
                  && outputs[j] == (if before[j].output.Some? then before[j].output.value
                                    else e.decode(before[j].generated))
                  && records[j] == before[j].(queue := before[j].queue + [Done])
    {
      var output := if before[i].output.Some? then before[i].output.value else e.decode(before[i].generated);
      outputs := outputs + [output];
      records := records + [before[i].(queue := before[i].queue + [Done])];
    }
  }
}
