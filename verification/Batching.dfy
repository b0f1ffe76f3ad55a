/** One step's batch (scheduler/continuous_scheduler.py:197-214, 343-434, 528-561): rows that
    prefill a whole prompt next to rows that add one token, run through one forward pass and
    sliced apart again. */
module Batching {
  import opened Common
  import opened PagedCache
  import opened CausalModel

  datatype BatchInputs = BatchInputs(
    inputIds: seq<seq<int>>,
    attentionMask: seq<seq<nat>>,
    positionIds: seq<seq<nat>>,
    logitGatherIndices: seq<int>,
    pastKeyValues: Option<seq<seq<Cell>>>,
    pastWidth: nat,
    newLengths: seq<nat>)

  function Repeat(value: nat, n: nat): (r: seq<nat>)
    ensures |r| == n && forall i :: 0 <= i < n ==> r[i] == value
  {
    seq(n, _ => value)
  }

  function PadRight(row: seq<int>, width: nat, pad: int): (r: seq<int>)
    requires |row| <= width
    ensures |r| == width && row <= r
  {
    row + seq(width - |row|, _ => pad)
  }

  /** Right-pads every row to the longest one. */
  function PadBatch(rows: seq<seq<int>>, pad: int): (r: seq<seq<int>>)
    ensures |r| == |rows|
    ensures forall i :: 0 <= i < |rows| ==> |r[i]| == MaxLength(RowLengths(rows)) && rows[i] <= r[i]
  {
    var width := MaxLength(RowLengths(rows));
    seq(|rows|, i requires 0 <= i < |rows| =>
      assert RowLengths(rows)[i] <= width;
      PadRight(rows[i], width, pad))
  }

  /** The past region, left-padded, then the new-token region, right-padded. */
  function MaskRow(pastWidth: nat, pastLen: nat, maxNew: nat, newLen: nat): (r: seq<nat>)
    requires pastLen <= pastWidth && newLen <= maxNew
    ensures |r| == pastWidth + maxNew
  {
    (Repeat(0, pastWidth - pastLen) + Repeat(1, pastLen)) + (Repeat(1, newLen) + Repeat(0, maxNew - newLen))
  }

  /** The cumulative sum of the first `n` columns. */
  function CumSum(mask: seq<nat>, n: nat): nat
    requires n <= |mask|
  {
    if n == 0 then 0 else CumSum(mask, n - 1) + mask[n - 1]
  }

  function ClampAtZero(x: int): nat {
    if x < 0 then 0 else x
  }

  /** Positions of the new columns, read off the mask and clamped at 0. */
  function PositionRow(mask: seq<nat>, pastWidth: nat, maxNew: nat): (r: seq<nat>)
    requires |mask| == pastWidth + maxNew
    ensures |r| == maxNew
    ensures forall j :: 0 <= j < maxNew ==> r[j] == ClampAtZero(CumSum(mask, pastWidth + j + 1) - 1)
  {
    seq<nat>(maxNew, j requires 0 <= j < maxNew => ClampAtZero(CumSum(mask, pastWidth + j + 1) - 1))
  }

  /** The batch for rows whose stored past is `dense` (left-padded; real lengths in `pastLengths`)
      and whose new tokens are `newTokens`. */
  function BuildBatchInputs(dense: seq<seq<Cell>>, pastLengths: seq<nat>, newTokens: seq<seq<int>>, padId: int)
      : (b: BatchInputs)
    requires |dense| == |pastLengths| == |newTokens|
  {
    var newLengths := RowLengths(newTokens);
    var maxNewLen := MaxLength(newLengths);
    var pastWidth := MaxLength(pastLengths);
    var mask := seq(|newTokens|, i requires 0 <= i < |newTokens| =>
      MaskRow(pastWidth, pastLengths[i], maxNewLen, newLengths[i]));
    BatchInputs(
      PadBatch(newTokens, padId),
      mask,
      seq(|newTokens|, i requires 0 <= i < |newTokens| => PositionRow(mask[i], pastWidth, maxNewLen)),
      seq<int>(|newTokens|, i requires 0 <= i < |newTokens| => |newTokens[i]| - 1),
      if pastWidth == 0 then None else Some(dense),
      pastWidth,
      newLengths)
  }

  // ---------------------------------------------------------------- the forward pass

  /** The unmasked cells among the first `n` columns, in column order. */
  function Visible(cells: seq<Cell>, mask: seq<nat>, n: nat): seq<Cell>
    requires n <= |cells| && n <= |mask|
  {
    if n == 0 then []
    else if mask[n - 1] == 1 then Visible(cells, mask, n - 1) + [cells[n - 1]]
    else Visible(cells, mask, n - 1)
  }

  /** The first `n` new columns of one row: each sees the unmasked columns before it. */
  function NewColumns(m: Model, past: seq<Cell>, mask: seq<nat>, ids: seq<int>, pos: seq<nat>, n: nat)
      : (r: seq<Cell>)
    requires n <= |ids| == |pos| && |mask| == |past| + |ids|
    ensures |r| == n
  {
    if n == 0 then []
    else
      var before := NewColumns(m, past, mask, ids, pos, n - 1);
      before + [m.cell(Visible(past + before, mask, |past| + n - 1), ids[n - 1], pos[n - 1])]
  }

  function RowLogits(m: Model, past: seq<Cell>, mask: seq<nat>, ids: seq<int>, pos: seq<nat>, column: nat): Logits
    requires column < |ids| == |pos| && |mask| == |past| + |ids|
  {
    m.logits(Visible(past + NewColumns(m, past, mask, ids, pos, column), mask, |past| + column), ids[column],
             pos[column])
  }

  /** Tensor shapes agree, as the model demands. */
  ghost predicate WellShaped(b: BatchInputs) {
    && |b.inputIds| == |b.attentionMask| == |b.positionIds| == |b.logitGatherIndices| == |b.newLengths|
    && (b.pastKeyValues.Some? ==> |b.pastKeyValues.value| == |b.inputIds|)
    && forall i :: 0 <= i < |b.inputIds| ==> RowShaped(b, i)
  }

  ghost predicate RowShaped(b: BatchInputs, i: nat)
    requires |b.inputIds| == |b.attentionMask| == |b.positionIds| == |b.logitGatherIndices|
    requires i < |b.inputIds| && (b.pastKeyValues.Some? ==> |b.pastKeyValues.value| == |b.inputIds|)
  {
    && |b.inputIds[i]| == |b.positionIds[i]| == |b.inputIds[0]|
    && |PastRow(b, i)| == b.pastWidth
    && |b.attentionMask[i]| == b.pastWidth + |b.inputIds[i]|
    && -1 <= b.logitGatherIndices[i] < |b.inputIds[i]|
  }

  function PastRow(b: BatchInputs, i: nat): seq<Cell>
    requires b.pastKeyValues.Some? ==> i < |b.pastKeyValues.value|
  {
    if b.pastKeyValues.None? then [] else b.pastKeyValues.value[i]
  }

  /** The column whose logits are read: index -1 means the last one, as in Python. */
  function GatherColumn(index: int, width: nat): nat
    requires width > 0 && -1 <= index < width
  {
    if index < 0 then width + index else index
  }

  datatype Output = Output(logits: seq<Logits>, newPast: seq<seq<Cell>>)

  /** Row `i` of a forward pass: the logits at its gather column, and its whole new past. */
  function RowOutput(m: Model, b: BatchInputs, i: nat): (Logits, seq<Cell>)
    requires WellShaped(b) && i < |b.inputIds| && |b.inputIds[0]| > 0
  {
    assert RowShaped(b, i);
    var (past, mask, ids, pos) := (PastRow(b, i), b.attentionMask[i], b.inputIds[i], b.positionIds[i]);
    (RowLogits(m, past, mask, ids, pos, GatherColumn(b.logitGatherIndices[i], |ids|)),
     past + NewColumns(m, past, mask, ids, pos, |ids|))
  }

  /** One forward pass. A batch with no column at all has no logits to gather, and fails. */
  function Forward(m: Model, b: BatchInputs): (r: Option<Output>)
    requires WellShaped(b) && b.inputIds != []
    ensures r.Some? <==> |b.inputIds[0]| > 0
    ensures r.Some? ==> |r.value.logits| == |r.value.newPast| == |b.inputIds|
    ensures r.Some? ==> forall i :: 0 <= i < |b.inputIds| ==>
              r.value.logits[i] == RowOutput(m, b, i).0 && r.value.newPast[i] == RowOutput(m, b, i).1
  {
    if |b.inputIds[0]| == 0 then None
    else Some(Output(
        seq(|b.inputIds|, i requires 0 <= i < |b.inputIds| => RowOutput(m, b, i).0),
        seq(|b.inputIds|, i requires 0 <= i < |b.inputIds| => RowOutput(m, b, i).1)))
  }

  /** Row `idx`'s newly computed cells, or nothing when the model returned no usable past. */
  function ExtractNewKv(newPast: Option<seq<seq<Cell>>>, idx: nat, startCol: nat, length: nat): Option<seq<Cell>>
    requires newPast.Some? ==> idx < |newPast.value| && startCol + length <= |newPast.value[idx]|
  {
    if newPast.None? then None else Some(newPast.value[idx][startCol..startCol + length])
  }

  // ---------------------------------------------------------------- one row of the batch

  /** The batch the scheduler builds for rows with stored cells `pasts` and new tokens `news`. */
  ghost function BatchFor(pasts: seq<seq<Cell>>, news: seq<seq<int>>, padId: int): (b: BatchInputs)
    requires |pasts| == |news|
  {
    BuildBatchInputs(PadAll(pasts), RowLengths(pasts), news, padId)
  }

  lemma BatchShape(pasts: seq<seq<Cell>>, news: seq<seq<int>>, padId: int, i: nat)
    requires |pasts| == |news| && i < |news|
    ensures var b := BatchFor(pasts, news, padId);
            var (width, maxNew) := (MaxLength(RowLengths(pasts)), MaxLength(RowLengths(news)));
            && |pasts[i]| <= width && |news[i]| <= maxNew
            && b.pastWidth == width && b.newLengths[i] == |news[i]|
            && PastRow(b, i) == PadLeft(pasts[i], width)
            && b.inputIds[i] == PadRight(news[i], maxNew, padId)
            && b.attentionMask[i] == MaskRow(width, |pasts[i]|, maxNew, |news[i]|)
            && b.positionIds[i] == PositionRow(b.attentionMask[i], width, maxNew)
            && b.logitGatherIndices[i] == |news[i]| - 1
  {
    assert RowLengths(pasts)[i] == |pasts[i]|;
    assert RowLengths(news)[i] == |news[i]|;
  }

  lemma BatchIsWellShaped(pasts: seq<seq<Cell>>, news: seq<seq<int>>, padId: int)
    requires |pasts| == |news|
    ensures WellShaped(BatchFor(pasts, news, padId))
  {
    var b := BatchFor(pasts, news, padId);
    forall i | 0 <= i < |news|
      ensures RowShaped(b, i)
    {
      BatchShape(pasts, news, padId, i);
      BatchShape(pasts, news, padId, 0);
    }
  }

  /** The mask of one row, column by column. */
  lemma MaskAt(width: nat, pastLen: nat, maxNew: nat, newLen: nat, c: nat)
    requires pastLen <= width && newLen <= maxNew && c < width + maxNew
    ensures MaskRow(width, pastLen, maxNew, newLen)[c] == if width - pastLen <= c < width + newLen then 1 else 0
  {
  }

  lemma {:induction false} MaskSum(width: nat, pastLen: nat, maxNew: nat, newLen: nat, n: nat)
    requires pastLen <= width && newLen <= maxNew && n <= width + newLen
    ensures CumSum(MaskRow(width, pastLen, maxNew, newLen), n) == if n <= width - pastLen then 0
            else n - (width - pastLen)
  {
    if n > 0 {
      MaskSum(width, pastLen, maxNew, newLen, n - 1);
      MaskAt(width, pastLen, maxNew, newLen, n - 1);
    }
  }

  /** Past the left padding, exactly the row's own cells are visible. */
  lemma {:induction false} VisibleColumns(width: nat, past: seq<Cell>, maxNew: nat, newLen: nat, newCells: seq<Cell>,
                                          n: nat)
    requires |past| <= width && newLen <= maxNew
    requires n <= width + |newCells| && n <= width + newLen
    ensures Visible(PadLeft(past, width) + newCells, MaskRow(width, |past|, maxNew, newLen), n)
            == if n <= width - |past| then [] else (past + newCells)[..n - (width - |past|)]
  {
    if n > 0 {
      VisibleColumns(width, past, maxNew, newLen, newCells, n - 1);
      MaskAt(width, |past|, maxNew, newLen, n - 1);
      if n > width - |past| {
        var k := n - (width - |past|);
        assert (PadLeft(past, width) + newCells)[n - 1] == (past + newCells)[k - 1];
        assert (past + newCells)[..k] == (past + newCells)[..k - 1] + [(past + newCells)[k - 1]];
      }
    }
  }

  /** A row's real new tokens sit right behind its stored past, in order, at consecutive positions. */
  lemma RealColumns(past: seq<Cell>, tokens: seq<int>, newCells: seq<Cell>, width: nat, maxNew: nat)
    requires |past| <= width && |tokens| <= maxNew && |newCells| <= |tokens|
    ensures var mask := MaskRow(width, |past|, maxNew, |tokens|);
            && Visible(PadLeft(past, width) + newCells, mask, width + |newCells|) == past + newCells
            && forall j :: 0 <= j < |tokens| ==> PositionRow(mask, width, maxNew)[j] == |past| + j
  {
    hide Visible, CumSum, MaskRow, PadLeft;
    VisibleColumns(width, past, maxNew, |tokens|, newCells, width + |newCells|);
    assert (past + newCells)[..|past| + |newCells|] == past + newCells;
    forall j | 0 <= j < |tokens|
      ensures PositionRow(MaskRow(width, |past|, maxNew, |tokens|), width, maxNew)[j] == |past| + j
    {
      MaskSum(width, |past|, maxNew, |tokens|, width + j + 1);
    }
  }

  /** Padding is invisible to a row: its new columns are what its own past and tokens give. */
  lemma {:induction false} RowColumns(m: Model, past: seq<Cell>, tokens: seq<int>, width: nat, maxNew: nat, padId: int,
                                      n: nat)
    requires |past| <= width && |tokens| <= maxNew && n <= |tokens|
    ensures var mask := MaskRow(width, |past|, maxNew, |tokens|);
            NewColumns(m, PadLeft(past, width), mask, PadRight(tokens, maxNew, padId),
                       PositionRow(mask, width, maxNew), n)
            == Extend(m, past, tokens[..n])
  {
    if n > 0 {
      RowColumns(m, past, tokens, width, maxNew, padId, n - 1);
      RealColumns(past, tokens, Extend(m, past, tokens[..n - 1]), width, maxNew);
      assert tokens[..n][..n - 1] == tokens[..n - 1];
    }
  }

  /** Later columns do not disturb earlier ones. */
  lemma {:induction false} ColumnsPrefix(m: Model, past: seq<Cell>, mask: seq<nat>, ids: seq<int>, pos: seq<nat>,
                                         n: nat, n': nat)
    requires n <= n' <= |ids| == |pos| && |mask| == |past| + |ids|
    ensures NewColumns(m, past, mask, ids, pos, n')[..n] == NewColumns(m, past, mask, ids, pos, n)
    decreases n'
  {
    if n < n' {
      ColumnsPrefix(m, past, mask, ids, pos, n, n' - 1);
    }
  }

  /** Slicing the real columns out of a row's new past gives the row's own new cells. */
  lemma RowSlice(m: Model, past: seq<Cell>, tokens: seq<int>, width: nat, maxNew: nat, padId: int)
    requires |past| <= width && |tokens| <= maxNew
    ensures var mask := MaskRow(width, |past|, maxNew, |tokens|);
            var row := PadLeft(past, width) + NewColumns(m, PadLeft(past, width), mask,
                                                         PadRight(tokens, maxNew, padId),
                                                             PositionRow(mask, width, maxNew), maxNew);
            row[width..width + |tokens|] == Extend(m, past, tokens)
  {
    var mask := MaskRow(width, |past|, maxNew, |tokens|);
    var ids, pos := PadRight(tokens, maxNew, padId), PositionRow(mask, width, maxNew);
    RowColumns(m, past, tokens, width, maxNew, padId, |tokens|);
    ColumnsPrefix(m, PadLeft(past, width), mask, ids, pos, |tokens|, maxNew);
    assert tokens[..|tokens|] == tokens;
    var columns := NewColumns(m, PadLeft(past, width), mask, ids, pos, maxNew);
    assert (PadLeft(past, width) + columns)[width..width + |tokens|] == columns[..|tokens|];
  }

  /** The column gathered for a row with at least one new token is its last real one. */
  lemma RowGather(m: Model, past: seq<Cell>, tokens: seq<int>, width: nat, maxNew: nat, padId: int)
    requires |past| <= width && |tokens| <= maxNew && tokens != []
    ensures var mask := MaskRow(width, |past|, maxNew, |tokens|);
            RowLogits(m, PadLeft(past, width), mask, PadRight(tokens, maxNew, padId), PositionRow(mask, width, maxNew),
                      |tokens| - 1)
            == NextLogits(m, past, tokens)
  {
    var n := |tokens| - 1;
    RowColumns(m, past, tokens, width, maxNew, padId, n);
    RealColumns(past, tokens, Extend(m, past, tokens[..n]), width, maxNew);
  }

  /** `b`'s row `i` is laid out for the given past and new tokens. */
  ghost predicate LaidOut(b: BatchInputs, i: nat, past: seq<Cell>, tokens: seq<int>, width: nat, maxNew: nat,
                          padId: int)
    requires WellShaped(b) && i < |b.inputIds|
  {
    && |past| <= width && |tokens| <= maxNew
    && b.pastWidth == width && b.newLengths[i] == |tokens| && |b.inputIds[0]| == maxNew
    && PastRow(b, i) == PadLeft(past, width)
    && b.inputIds[i] == PadRight(tokens, maxNew, padId)
    && b.attentionMask[i] == MaskRow(width, |past|, maxNew, |tokens|)
    && b.positionIds[i] == PositionRow(b.attentionMask[i], width, maxNew)
    && b.logitGatherIndices[i] == |tokens| - 1
  }

  lemma RowIsAlone(m: Model, b: BatchInputs, i: nat, past: seq<Cell>, tokens: seq<int>, width: nat, maxNew: nat,
                   padId: int)
    requires WellShaped(b) && i < |b.inputIds| && LaidOut(b, i, past, tokens, width, maxNew, padId)
    requires maxNew > 0
    ensures tokens != [] ==> RowOutput(m, b, i).0 == NextLogits(m, past, tokens)
    ensures |RowOutput(m, b, i).1| == width + maxNew
    ensures RowOutput(m, b, i).1[width..width + |tokens|] == Extend(m, past, tokens)
  {
    if tokens != [] {
      RowGather(m, past, tokens, width, maxNew, padId);
    }
    RowSlice(m, past, tokens, width, maxNew, padId);
  }

  lemma BatchIsLaidOut(pasts: seq<seq<Cell>>, news: seq<seq<int>>, padId: int, i: nat)
    requires |pasts| == |news| && i < |news|
    ensures var b := BatchFor(pasts, news, padId);
            WellShaped(b) && |b.inputIds| == |news|
            && LaidOut(b, i, pasts[i], news[i], MaxLength(RowLengths(pasts)), MaxLength(RowLengths(news)), padId)
  {
    BatchIsWellShaped(pasts, news, padId);
    BatchShape(pasts, news, padId, i);
    BatchShape(pasts, news, padId, 0);
  }

  /** Row `i` of a batch: what the forward pass and the slicing give it. */
  lemma RowInBatch(m: Model, pasts: seq<seq<Cell>>, news: seq<seq<int>>, padId: int, i: nat)
    requires |pasts| == |news| && i < |news|
    ensures var b := BatchFor(pasts, news, padId);
            && WellShaped(b) && |b.inputIds| == |news|
            && var r := Forward(m, b);
            && (news[i] != [] ==> r.Some? && r.value.logits[i] == NextLogits(m, pasts[i], news[i]))
            && (r.Some? ==>
                  |r.value.newPast[i]| >= b.pastWidth + |news[i]|
                  && ExtractNewKv(Some(r.value.newPast), i, b.pastWidth, |news[i]|)
                      == Some(Extend(m, pasts[i], news[i])))
  {
    hide BatchFor, RowOutput, RowShaped, RowLengths, MaxLength;
    BatchIsLaidOut(pasts, news, padId, i);
    var b := BatchFor(pasts, news, padId);
    if |b.inputIds[0]| > 0 {
      RowIsAlone(m, b, i, pasts[i], news[i], MaxLength(RowLengths(pasts)), MaxLength(RowLengths(news)), padId);
    }
  }

  /** Row `i` succeeds in a batch of one, and gets the same logits and cells as in the big batch. */
  ghost predicate SameAsAlone(m: Model, pasts: seq<seq<Cell>>, news: seq<seq<int>>, padId: int, i: nat)
    requires |pasts| == |news| && i < |news|
  {
    RowInBatch(m, pasts, news, padId, i);
    RowInBatch(m, [pasts[i]], [news[i]], padId, 0);
    var b, one := BatchFor(pasts, news, padId), BatchFor([pasts[i]], [news[i]], padId);
    var r, alone := Forward(m, b), Forward(m, one);
    && r.Some? && alone.Some?
    && r.value.logits[i] == alone.value.logits[0]
    && ExtractNewKv(Some(r.value.newPast), i, b.pastWidth, |news[i]|)
       == ExtractNewKv(Some(alone.value.newPast), 0, one.pastWidth, |news[i]|)
  }

  /** Batching is invisible to a row exactly when the row brings at least one new token: a prompt
      that tokenizes to nothing fails alone, yet is sampled from padding beside another row. */
  lemma BatchingIsInvisible(m: Model, pasts: seq<seq<Cell>>, news: seq<seq<int>>, padId: int, i: nat)
    requires |pasts| == |news| && i < |news|
    ensures SameAsAlone(m, pasts, news, padId, i) <==> news[i] != []
  {
    hide RowOutput, RowShaped, PastRow, NextLogits, Extend, MaskRow, PositionRow, PadBatch;
    RowInBatch(m, pasts, news, padId, i);
    RowInBatch(m, [pasts[i]], [news[i]], padId, 0);
    if news[i] == [] {
      BatchShape([pasts[i]], [news[i]], padId, 0);
      assert RowLengths([news[i]]) == [0];
    }
  }

  /** The padding row at work: an empty prompt next to a one-token prompt gets the logits of the
      pad token at position 0. */
  lemma EmptyPromptReadsPadding(m: Model, token: int, padId: int)
    ensures var b := BatchFor([[], []], [[], [token]], padId);
            && WellShaped(b) && |b.inputIds| == 2
            && Forward(m, b).Some?
            && Forward(m, b).value.logits[0] == m.logits([], padId, 0)
            && Forward(m, BatchFor([[]], [[]], padId)).None?
  {
    hide BatchFor, RowShaped, NextLogits, Extend, PadBatch;
    var pasts, news := [[], []], [[], [token]];
    RowInBatch(m, pasts, news, padId, 1);
    BatchShape(pasts, news, padId, 0);
    assert RowLengths(news) == [0, 1] && RowLengths(pasts) == [0, 0];
    MaskSum(0, 0, 1, 0, 0);
    MaskAt(0, 0, 1, 0, 0);
    BatchingIsInvisible(m, [[]], [[]], padId, 0);
    RowInBatch(m, [[]], [[]], padId, 0);
  }
}
