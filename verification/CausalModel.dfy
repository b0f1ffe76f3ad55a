/** The language model, as the scheduler sees it: an unknown causal function. The cell of a
    token depends on the cells before it, the token and its position; so do its logits. */
module CausalModel {
  import opened PagedCache

  type Logits = seq<real>

  /** What the caller chose: temperature, top-k and top-p. */
  datatype SamplingParams = SamplingParams(temperature: real, topK: nat, topP: real)

  /** The random number one sampling step consumes. */
  type Draw = real

  /** What answers a request: the model in memory, and the tokenizer around it. */
  datatype Model = Model(
    cell: (seq<Cell>, int, nat) -> Cell,
    logits: (seq<Cell>, int, nat) -> Logits,
    // penalises repeats against the given history, then samples
    sample: (Logits, seq<int>, SamplingParams, Draw) -> int,
    eosId: int,
    // the tokenizer's part
    decode: seq<int> -> string,
    padId: int)

  /** The cells of `tokens`, given the cells of everything before them. */
  ghost function Extend(m: Model, past: seq<Cell>, tokens: seq<int>): (r: seq<Cell>)
    ensures |r| == |tokens|
  {
    if tokens == [] then []
    else
      var n := |tokens| - 1;
      var before := Extend(m, past, tokens[..n]);
      before + [m.cell(past + before, tokens[n], |past| + n)]
  }

  /** The logits after `tokens`, given the cells of everything before them. */
  ghost function NextLogits(m: Model, past: seq<Cell>, tokens: seq<int>): Logits
    requires tokens != []
  {
    var n := |tokens| - 1;
    m.logits(past + Extend(m, past, tokens[..n]), tokens[n], |past| + n)
  }

  /** The reference: recompute everything from the tokens, with no cache and no batch. */
  ghost function FullCells(m: Model, tokens: seq<int>): (r: seq<Cell>)
    ensures |r| == |tokens|
  {
    Extend(m, [], tokens)
  }

  ghost function FullNext(m: Model, tokens: seq<int>, params: SamplingParams, draw: Draw): int
    requires tokens != []
  {
    m.sample(NextLogits(m, [], tokens), tokens, params, draw)
  }

  /** The token that follows a history is sampled from the logits of its last token, behind the cells of
      all the others, and against the whole history. */
  lemma NextIsSampled(m: Model, ids: seq<int>, params: SamplingParams, draw: Draw)
    requires ids != []
    ensures var n := |ids| - 1;
            FullNext(m, ids, params, draw) == m.sample(m.logits(FullCells(m, ids[..n]), ids[n], n), ids, params, draw)
  {
    assert [] + FullCells(m, ids[..|ids| - 1]) == FullCells(m, ids[..|ids| - 1]);
  }

  lemma ExtendNext(m: Model, past: seq<Cell>, tokens: seq<int>)
    requires tokens != []
    ensures var n := |tokens| - 1;
            var before := Extend(m, past, tokens[..n]);
            Extend(m, past, tokens) == before + [m.cell(past + before, tokens[n], |past| + n)]
  {
  }

  /** Extending in two goes is extending in one. */
  lemma {:induction false} ExtendSplit(m: Model, past: seq<Cell>, a: seq<int>, b: seq<int>)
    ensures Extend(m, past, a + b) == Extend(m, past, a) + Extend(m, past + Extend(m, past, a), b)
  {
    hide Extend;
    var first := Extend(m, past, a);
    if b == [] {
      assert a + b == a;
      assert Extend(m, past + first, b) == [];
    } else {
      var n := |b| - 1;
      ExtendSplit(m, past, a, b[..n]);
      ExtendNext(m, past, a + b);
      ExtendNext(m, past + first, b);
      var second := Extend(m, past + first, b[..n]);
      assert (a + b)[..|a + b| - 1] == a + b[..n];
      assert past + (first + second) == past + first + second;
    }
  }

  /** Every cell of a history is that of its token, behind the cells of the tokens before it, at its own
      position. */
  lemma {:induction false} CellAt(m: Model, tokens: seq<int>, i: nat)
    requires i < |tokens|
    ensures FullCells(m, tokens)[i] == m.cell(FullCells(m, tokens[..i]), tokens[i], i)
    ensures FullCells(m, tokens[..i]) == FullCells(m, tokens)[..i]
  {
    var n := |tokens| - 1;
    assert [] + FullCells(m, tokens[..n]) == FullCells(m, tokens[..n]);
    if i < n {
      CellAt(m, tokens[..n], i);
      assert tokens[..n][..i] == tokens[..i];
    }
  }

  /** Incremental decoding is full recomputation: with the cells of `done` cached, running the
      rest gives the cells and the logits that running everything would give. */
  lemma IncrementalIsFull(m: Model, done: seq<int>, rest: seq<int>)
    ensures FullCells(m, done) + Extend(m, FullCells(m, done), rest) == FullCells(m, done + rest)
    ensures rest != [] ==> NextLogits(m, FullCells(m, done), rest) == NextLogits(m, [], done + rest)
  {
    hide Extend;
    ExtendSplit(m, [], done, rest);
    assert [] + FullCells(m, done) == FullCells(m, done);
    if rest != [] {
      var n := |rest| - 1;
      ExtendSplit(m, [], done, rest[..n]);
      assert (done + rest)[..|done + rest| - 1] == done + rest[..n];
      var cells := FullCells(m, done + rest[..n]);
      assert [] + cells == cells;
    }
  }
}
