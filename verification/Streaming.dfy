/** Streaming a request's output as text (streaming/stream_manager.py): incremental
    detokenization, stop sequences, and the emission buffer. */
module Streaming {
  import opened Common
  import opened StopSequences
  import opened Requests

  // ---------------------------------------------------------------- the tokenizer

  type Byte = b: int | 0 <= b < 256

  /** A byte-level tokenizer. Each token stands for some bytes; `feed` turns bytes into text one at a
      time, keeping the bytes of a character that is not complete yet. */
  datatype Tokenizer = Tokenizer(
    bytes: int -> seq<Byte>,
    feed: (seq<Byte>, Byte) -> (seq<Byte>, string),
    special: set<int>)

  /** U+FFFD, which stands for bytes that do not make a character. */
  const REPLACEMENT: char := '\U{FFFD}'

  function FeedAll(tok: Tokenizer, pending: seq<Byte>, bytes: seq<Byte>): (seq<Byte>, string)
    decreases |bytes|
  {
    if bytes == [] then (pending, "")
    else
      var (p, text) := tok.feed(pending, bytes[0]);
      var (rest, more) := FeedAll(tok, p, bytes[1..]);
      (rest, text + more)
  }

  /** What `tokens` add to a text that so far ends in the incomplete bytes `pending`. */
  function Absorb(tok: Tokenizer, pending: seq<Byte>, tokens: seq<int>): (seq<Byte>, string) {
    if tokens == [] then (pending, "")
    else
      var n := |tokens| - 1;
      var (p, text) := Absorb(tok, pending, tokens[..n]);
      var (p', more) := FeedAll(tok, p, tok.bytes(tokens[n]));
      (p', text + more)
  }

  function DropLeadingSpace(text: string): string {
    if text != "" && text[0] == ' ' then text[1..] else text
  }

  function Unfinished(pending: seq<Byte>): string {
    if pending == [] then "" else [REPLACEMENT]
  }

  /** A whole decode: the bytes as text, U+FFFD for a character cut off at the end, and one leading
      space dropped. */
  function Decode(tok: Tokenizer, tokens: seq<int>): string {
    var (pending, text) := Absorb(tok, [], tokens);
    DropLeadingSpace(text + Unfinished(pending))
  }

  predicate EndsIncomplete(text: string) {
    text != "" && text[|text| - 1] == REPLACEMENT
  }

  lemma {:induction false} AbsorbSplit(tok: Tokenizer, pending: seq<Byte>, a: seq<int>, b: seq<int>)
    ensures var (p, text) := Absorb(tok, pending, a);
            var (p', more) := Absorb(tok, p, b);
            Absorb(tok, pending, a + b) == (p', text + more)
  {
    if b == [] {
      assert a + b == a && Absorb(tok, pending, a).1 + "" == Absorb(tok, pending, a).1;
    } else {
      var n := |b| - 1;
      AbsorbSplit(tok, pending, a, b[..n]);
      assert (a + b)[..|a + b| - 1] == a + b[..n];
      var (p, text) := Absorb(tok, pending, a);
      var (p', more) := Absorb(tok, p, b[..n]);
      var (p'', last) := FeedAll(tok, p', tok.bytes(b[n]));
      assert text + (more + last) == text + more + last;
    }
  }

  /** The bytes of `tokens` end at a character boundary. */
  predicate Whole(tok: Tokenizer, tokens: seq<int>) {
    Absorb(tok, [], tokens).0 == []
  }

  function TextOf(tok: Tokenizer, tokens: seq<int>): string {
    Absorb(tok, [], tokens).1
  }

  /** Behind a character boundary, decoding starts afresh. */
  lemma WholeSplit(tok: Tokenizer, a: seq<int>, b: seq<int>)
    requires Whole(tok, a)
    ensures TextOf(tok, a + b) == TextOf(tok, a) + TextOf(tok, b)
    ensures Absorb(tok, [], a + b).0 == Absorb(tok, [], b).0
  {
    AbsorbSplit(tok, [], a, b);
  }

  /** Text after some text: nothing is dropped from it. */
  lemma DropAfter(a: string, b: string)
    requires a != ""
    ensures DropLeadingSpace(a + b) == DropLeadingSpace(a) + b
  {
  }

  /** Where the two offsets may stand: both at character boundaries, with some text between them
      unless nothing has been read yet. */
  ghost predicate OffsetsFit(tok: Tokenizer, tokens: seq<int>, prefix: nat, read: nat) {
    && prefix <= read <= |tokens|
    && Whole(tok, tokens[..prefix]) && Whole(tok, tokens[prefix..read])
    && (read == 0 || TextOf(tok, tokens[prefix..read]) != "")
  }

  /** The overlapping decodes, and the whole ones: they agree on whether there is new text, and on
      what it is. */
  lemma WindowDecodes(tok: Tokenizer, before: seq<int>, window: seq<int>, new_: seq<int>)
    requires Whole(tok, before) && Whole(tok, window)
    requires before + window == [] || TextOf(tok, window) != ""
    ensures var (p, n) := (Decode(tok, window), Decode(tok, window + new_));
            var (d, w) := (Decode(tok, before + window), Decode(tok, before + window + new_));
            && (|n| <= |p| <==> |w| <= |d|)
            && (|n| > |p| ==> p <= n && d <= w && n[|p|..] == w[|d|..] && (EndsIncomplete(n) <==> EndsIncomplete(w)))
  {
    WholeSplit(tok, before, window);
    WholeSplit(tok, window, new_);
    WholeSplit(tok, before + window, new_);
    var more := TextOf(tok, new_) + Unfinished(Absorb(tok, [], new_).0);
    var (a, t) := (TextOf(tok, window), TextOf(tok, before));
    if before + window == [] {
      assert before == [] && window == [];
    } else {
      DropAfter(a, more);
      DropAfter(t + a, more);
      assert a + TextOf(tok, new_) + Unfinished(Absorb(tok, [], new_).0) == a + more;
      assert t + a + TextOf(tok, new_) + Unfinished(Absorb(tok, [], new_).0) == t + a + more;
      assert Decode(tok, window) == DropLeadingSpace(a) by { assert a + "" == a; }
      assert Decode(tok, before + window) == DropLeadingSpace(t + a) by { assert t + a + "" == t + a; }
      assert Decode(tok, window + new_) == DropLeadingSpace(a) + more;
      assert Decode(tok, before + window + new_) == DropLeadingSpace(t + a) + more;
    }
  }

  /** Text that grows and does not end in U+FFFD ends at a character boundary, behind new text. */
  lemma AcceptedIsWhole(tok: Tokenizer, window: seq<int>, new_: seq<int>)
    requires Whole(tok, window) && (window == [] || TextOf(tok, window) != "")
    requires |Decode(tok, window + new_)| > |Decode(tok, window)| && !EndsIncomplete(Decode(tok, window + new_))
    ensures Whole(tok, new_) && TextOf(tok, new_) != ""
  {
    WholeSplit(tok, window, new_);
    CutOffShows(tok, window + new_);
    assert TextOf(tok, new_) == "" ==> TextOf(tok, window + new_) == TextOf(tok, window);
  }

  /** A character cut off at the end shows. */
  lemma CutOffShows(tok: Tokenizer, tokens: seq<int>)
    ensures !Whole(tok, tokens) ==> EndsIncomplete(Decode(tok, tokens))
  {
    var all := TextOf(tok, tokens) + [REPLACEMENT];
    assert all[|all| - 1] == REPLACEMENT;
    assert DropLeadingSpace(all)[|DropLeadingSpace(all)| - 1] == REPLACEMENT;
  }

  // ---------------------------------------------------------------- the reference stream

  datatype Status = Live | HitStop | Finished | Broke(message: string)

  /** The stream as its client sees it (`out`), over the text decoded so far. */
  datatype Stream = Stream(tokens: seq<int>, read: nat, decoded: string, yielded: string, out: seq<string>,
                           status: Status)

  predicate ShouldEmit(delta: string)
    requires delta != ""
  {
    delta[|delta| - 1] == ' ' || delta[|delta| - 1] in ".,;:!?" || |delta| >= 16
  }

  /** One token in the reference: decode everything, search everything. */
  ghost function TakeToken(tok: Tokenizer, stops: seq<string>, st: Stream, id: int): (r: Stream)
    requires |st.yielded| <= |st.decoded|
    ensures |r.yielded| <= |r.decoded|
  {
    var tokens := st.tokens + [id];
    var text := Decode(tok, tokens);
    if |text| <= |st.decoded| || EndsIncomplete(text) then st.(tokens := tokens)
    else Show(stops, st.(tokens := tokens, read := |tokens|, decoded := text))
  }

  /** What to do with newly decoded text: stop, emit, or keep it for later. */
  ghost function Show(stops: seq<string>, st: Stream): (r: Stream)
    requires |st.yielded| < |st.decoded|
    ensures |r.yielded| <= |r.decoded|
  {
    var stop := EarliestStop(st.decoded, stops);
    var delta := st.decoded[|st.yielded|..];
    if stop.Some? then
      EarliestStopIs(st.decoded, stops);
      if stop.value > |st.yielded|
      then st.(yielded := st.yielded + st.decoded[|st.yielded|..stop.value],
               out := st.out + [st.decoded[|st.yielded|..stop.value]], status := HitStop)
      else st.(status := HitStop)
    else if ShouldEmit(delta) then st.(yielded := st.yielded + delta, out := st.out + [delta])
    else st
  }

  ghost function TakeItem(tok: Tokenizer, stops: seq<string>, st: Stream, item: Item): (r: Stream)
    requires |st.yielded| <= |st.decoded|
    ensures |r.yielded| <= |r.decoded|
  {
    if st.status != Live then st
    else
      match item
      case Token(id) => if id in tok.special then st else TakeToken(tok, stops, st, id)
      case Done => st.(status := Finished)
      case Failed(message) => st.(status := Broke(message))
  }

  ghost function Reference(tok: Tokenizer, stops: seq<string>, items: seq<Item>): (st: Stream)
    ensures |st.yielded| <= |st.decoded|
  {
    if items == [] then Stream([], 0, "", "", [], Live)
    else TakeItem(tok, stops, Reference(tok, stops, items[..|items| - 1]), items[|items| - 1])
  }

  function Flatten(parts: seq<string>): string {
    if parts == [] then "" else Flatten(parts[..|parts| - 1]) + parts[|parts| - 1]
  }

  /** What holds of the stream at all times. */
  ghost predicate Sound(tok: Tokenizer, stops: seq<string>, st: Stream) {
    && st.read <= |st.tokens|
    && st.decoded == Decode(tok, st.tokens[..st.read]) && Whole(tok, st.tokens[..st.read])
    && st.yielded <= st.decoded
    && Flatten(st.out) == st.yielded
    && Clean(st.yielded, stops)
    && (st.status != HitStop ==> Clean(st.decoded, stops) && |st.decoded| - |st.yielded| <= 15)
    && (st.status == HitStop ==>
          var stop := EarliestStop(st.decoded, stops);
          stop.Some? && stop.value <= |st.decoded|
              && (st.yielded == st.decoded[..stop.value] || stop.value < |st.yielded|))
  }

  lemma FlattenMore(parts: seq<string>, part: string)
    ensures Flatten(parts + [part]) == Flatten(parts) + part
  {
    assert (parts + [part])[..|parts|] == parts;
  }

  lemma Extend(st: Stream, text: string, n: nat)
    requires st.yielded <= text && |st.yielded| <= n <= |text| && Flatten(st.out) == st.yielded
    ensures st.yielded + text[|st.yielded|..n] == text[..n]
    ensures Flatten(st.out + [text[|st.yielded|..n]]) == text[..n]
  {
    FlattenMore(st.out, text[|st.yielded|..n]);
    assert text[..|st.yielded|] == st.yielded;
  }

  lemma ShowIsSound(tok: Tokenizer, stops: seq<string>, st: Stream, text: string)
    requires Sound(tok, stops, st) && st.status == Live && |text| > |st.decoded| && st.decoded <= text
    requires text == Decode(tok, st.tokens) && Whole(tok, st.tokens)
    ensures Sound(tok, stops, Show(stops, st.(read := |st.tokens|, decoded := text)))
  {
    hide Decode, Clean, EarliestStop, ShouldEmit, Absorb;
    var stop := EarliestStop(text, stops);
    EarliestStopIs(text, stops);
    assert st.tokens[..|st.tokens|] == st.tokens;
    if stop.Some? {
      CutIsClean(text, stops);
      if stop.value > |st.yielded| {
        Extend(st, text, stop.value);
      }
    } else {
      Extend(st, text, |text|);
      KeptIsShort(text[|st.yielded|..]);
      assert text[..|text|] == text;
    }
  }

  lemma KeptIsShort(delta: string)
    requires delta != ""
    ensures !ShouldEmit(delta) ==> |delta| <= 15
  {
  }

  lemma DecodeGrows(tok: Tokenizer, a: seq<int>, b: seq<int>)
    requires Whole(tok, a)
    ensures Decode(tok, a) <= Decode(tok, a + b)
  {
    WholeSplit(tok, a, b);
    var (text, more) := (TextOf(tok, a), TextOf(tok, b) + Unfinished(Absorb(tok, [], b).0));
    assert text + "" == text;
    assert TextOf(tok, a + b) + Unfinished(Absorb(tok, [], b).0) == text + more;
    if text != "" {
      DropAfter(text, more);
    }
  }

  lemma TakeTokenIsSound(tok: Tokenizer, stops: seq<string>, st: Stream, id: int)
    requires Sound(tok, stops, st) && st.status == Live
    ensures Sound(tok, stops, TakeToken(tok, stops, st, id))
  {
    hide Decode, Clean, EarliestStop, ShouldEmit, Absorb, Show, Flatten;
    var tokens := st.tokens + [id];
    assert tokens[..st.read] == st.tokens[..st.read];
    assert tokens == tokens[..st.read] + tokens[st.read..];
    DecodeGrows(tok, st.tokens[..st.read], tokens[st.read..]);
    CutOffShows(tok, tokens);
    var text := Decode(tok, tokens);
    if |text| > |st.decoded| && !EndsIncomplete(text) {
      ShowIsSound(tok, stops, st.(tokens := tokens), text);
    }
  }

  lemma NothingIsClean(stops: seq<string>)
    ensures Clean("", stops)
  {
  }

  /** At every moment: the decoded text is exactly the decode of the tokens read; the client has a
      prefix of it, with no complete stop sequence in it; and while the stream is live that prefix is
      at most 15 characters behind. */
  lemma {:induction false} ReferenceIsSound(tok: Tokenizer, stops: seq<string>, items: seq<Item>)
    ensures Sound(tok, stops, Reference(tok, stops, items))
  {
    if items == [] {
      NothingIsClean(stops);
    } else {
      var n := |items| - 1;
      ReferenceIsSound(tok, stops, items[..n]);
      hide Decode, Clean, EarliestStop, Absorb, TakeToken, Flatten;
      if items[n].Token? && Reference(tok, stops, items[..n]).status == Live {
        TakeTokenIsSound(tok, stops, Reference(tok, stops, items[..n]), items[n].id);
      }
    }
  }

  // ---------------------------------------------------------------- the stream itself

  /** The two overlapping decodes: the new text, or nothing while a character is incomplete. */
  method NewText(tok: Tokenizer, tokens: seq<int>, prefixOffset: nat, readOffset: nat)
      returns (delta: Option<string>)
    requires tokens != [] && OffsetsFit(tok, tokens[..|tokens| - 1], prefixOffset, readOffset)
    ensures var (text, before) := (Decode(tok, tokens), Decode(tok, tokens[..readOffset]));
            && (delta.None? <==> |text| <= |before| || EndsIncomplete(text))
            && (delta.Some? ==>
                delta.value != "" && text == before + delta.value && OffsetsFit(tok, tokens, readOffset, |tokens|))
  {
    hide Decode, Absorb;
    var prefixText := Decode(tok, tokens[prefixOffset..readOffset]);
    var newText := Decode(tok, tokens[prefixOffset..]);
    Windows(tok, tokens, prefixOffset, readOffset);
    if |newText| <= |prefixText| || EndsIncomplete(newText) {
      delta := None;
    } else {
      delta := Some(newText[|prefixText|..]);
    }
  }

  /** What the overlapping decodes say, in terms of the whole ones. */
  lemma Windows(tok: Tokenizer, tokens: seq<int>, prefix: nat, read: nat)
    requires tokens != [] && OffsetsFit(tok, tokens[..|tokens| - 1], prefix, read)
    ensures var (p, n) := (Decode(tok, tokens[prefix..read]), Decode(tok, tokens[prefix..]));
            var (d, w) := (Decode(tok, tokens[..read]), Decode(tok, tokens));
            && (|n| <= |p| <==> |w| <= |d|)
            && (|n| > |p| ==> w == d + n[|p|..] && (EndsIncomplete(n) <==> EndsIncomplete(w)))
            && (|n| > |p| && !EndsIncomplete(n) ==> OffsetsFit(tok, tokens, read, |tokens|))
  {
    hide Decode, Absorb;
    var front := tokens[..|tokens| - 1];
    var (before, window, new_) := (tokens[..prefix], tokens[prefix..read], tokens[read..]);
    assert front[..prefix] == before && front[prefix..read] == window;
    assert before + window == tokens[..read] && window + new_ == tokens[prefix..] && tokens[..read] + new_ == tokens;
    WindowDecodes(tok, before, window, new_);
    var (p, n) := (Decode(tok, window), Decode(tok, window + new_));
    if |n| > |p| && !EndsIncomplete(n) {
      AcceptedIsWhole(tok, window, new_);
      WholeSplit(tok, before, window);
      assert tokens[read..|tokens|] == new_;
    }
  }

  /** Searches only the region that a new match could occupy. */
  method NewStop(decodedText: string, delta: string, stops: seq<string>, maxStopLength: nat)
      returns (stopIdx: Option<nat>)
    requires delta != "" && |delta| <= |decodedText| && decodedText[|decodedText| - |delta|..] == delta
    requires maxStopLength == MaxStopLength(stops) && Clean(decodedText[..|decodedText| - |delta|], stops)
    ensures stopIdx == EarliestStop(decodedText, stops)
  {
    var searchFrom := if |decodedText| - |delta| - maxStopLength + 1 > 0 then
        |decodedText| - |delta| - maxStopLength + 1 else 0;
    var relative := FindStopIndex(decodedText[searchFrom..], stops);
    stopIdx := if relative.Some? then Some(searchFrom + relative.value) else None;
    assert decodedText == decodedText[..|decodedText| - |delta|] + delta;
    NarrowedSearch(decodedText[..|decodedText| - |delta|], delta, stops, searchFrom);
  }

  /** The stream after sending `part`, if any, and stopping if told to. */
  ghost function Sent(st: Stream, part: Option<string>, stopped: bool): Stream {
    st.(yielded := st.yielded + (if part.Some? then part.value else ""),
        out := st.out + (if part.Some? then [part.value] else []),
        status := if stopped then HitStop else st.status)
  }

  /** What happens to newly decoded text: the part to send now, if any, and whether a stop was hit. */
  method Emission(decodedText: string, newDelta: string, yieldedText: string, stops: seq<string>, maxStopLength: nat,
                  ghost st: Stream)
      returns (part: Option<string>, stopped: bool)
    requires newDelta != "" && |newDelta| <= |decodedText| && decodedText[|decodedText| - |newDelta|..] == newDelta
    requires maxStopLength == MaxStopLength(stops) && Clean(decodedText[..|decodedText| - |newDelta|], stops)
    requires st.decoded == decodedText && st.yielded == yieldedText && st.status == Live
             && |yieldedText| < |decodedText|
    ensures Show(stops, st) == Sent(st, part, stopped)
  {
    part, stopped := None, false;
    EarliestStopIs(decodedText, stops);
    if stops != [] {
      var stopIdx := NewStop(decodedText, newDelta, stops, maxStopLength);
      if stopIdx.Some? {
        if stopIdx.value > |yieldedText| {
          part := Some(decodedText[|yieldedText|..stopIdx.value]);
        }
        return part, true;
      }
    }
    assert EarliestStop(decodedText, stops).None?;
    var delta := decodedText[|yieldedText|..];
    if ShouldEmit(delta) {
      part := Some(delta);
    }
  }

  /** One token: decode around the seam, search around the seam, send what is ready. */
  method OnToken(tok: Tokenizer, stops: seq<string>, maxStopLength: nat, id: int, tokens: seq<int>, prefixOffset: nat,
                 readOffset: nat, decodedText: string, yieldedText: string, ghost st: Stream)
      returns (tokens': seq<int>, prefixOffset': nat, readOffset': nat, decodedText': string, part: Option<string>,
               stopped: bool)
    requires maxStopLength == MaxStopLength(stops) && OffsetsFit(tok, tokens, prefixOffset, readOffset)
    requires st == Stream(tokens, readOffset, decodedText, yieldedText, st.out, Live) && Sound(tok, stops, st)
    ensures TakeToken(tok, stops, st, id) == Sent(st.(tokens := tokens', read := readOffset', decoded := decodedText'),
                                                  part, stopped)
    ensures OffsetsFit(tok, tokens', prefixOffset', readOffset')
  {
    hide Decode, Clean, EarliestStop, ShouldEmit, Absorb, Flatten, Show;
    tokens', prefixOffset', readOffset', decodedText', part, stopped := tokens + [id], prefixOffset, readOffset,
        decodedText, None, false;
    assert tokens'[..|tokens'| - 1] == tokens && tokens'[..readOffset] == tokens[..readOffset];
    var delta := NewText(tok, tokens', prefixOffset, readOffset);
    if delta.Some? {
      decodedText' := decodedText + delta.value;
      prefixOffset', readOffset' := readOffset, |tokens'|;
      assert decodedText'[..|decodedText'| - |delta.value|] == decodedText;
      part, stopped := Emission(decodedText', delta.value, yieldedText, stops, maxStopLength,
                                st.(tokens := tokens', read := readOffset', decoded := decodedText'));
    } else {
      HeldStillFits(tok, tokens, id, prefixOffset, readOffset);
    }
  }

  lemma HeldStillFits(tok: Tokenizer, tokens: seq<int>, id: int, prefix: nat, read: nat)
    requires OffsetsFit(tok, tokens, prefix, read)
    ensures OffsetsFit(tok, tokens + [id], prefix, read)
  {
    assert (tokens + [id])[..prefix] == tokens[..prefix] && (tokens + [id])[prefix..read] == tokens[prefix..read];
  }

  /** The stream manager's loop. Whatever the items, it sends what the reference sends: the one that
      decodes and searches the whole history at every token. */
  method StreamResponse(tok: Tokenizer, stops: seq<string>, maxStopLength: nat, queue: seq<Item>)
      returns (out: seq<string>, error: Option<string>)
    requires maxStopLength == MaxStopLength(stops)
    ensures var st := Reference(tok, stops, queue);
            out == st.out && error == (if st.status.Broke? then Some(st.status.message) else None)
    // only before a stop sequence is a piece sent that neither pauses nor is long
    ensures forall i :: 0 <= i < |out| ==>
              && out[i] != ""
              && (Pauses(out[i]) || |out[i]| > 15 || (Reference(tok, stops, queue).status == HitStop && i == |out| - 1))
  {
    hide TakeToken, Sound, Pauses;
    ReferenceIsPrompt(tok, stops, queue);
    var tokens, yieldedText, decodedText := [], "", "";
    var prefixOffset: nat, readOffset: nat := 0, 0;
    out, error := [], None;
    NothingRead(tok);
    for i := 0 to |queue|
      invariant Reference(tok, stops, queue[..i]) == Stream(tokens, readOffset, decodedText, yieldedText, out, Live)
      invariant OffsetsFit(tok, tokens, prefixOffset, readOffset) && error.None?
    {
      ghost var st := Reference(tok, stops, queue[..i]);
      ReferenceIsSound(tok, stops, queue[..i]);
      ReferenceNext(tok, stops, queue, i);
      match queue[i] {
        case Done =>
          NothingAfter(tok, stops, queue, i + 1);
          return;
        case Failed(message) =>
          NothingAfter(tok, stops, queue, i + 1);
          error := Some(message);
          return;
        case Token(id) =>
          if id !in tok.special {
            var part, stopped;
            tokens, prefixOffset, readOffset, decodedText, part, stopped :=
              OnToken(tok, stops, maxStopLength, id, tokens, prefixOffset, readOffset, decodedText, yieldedText, st);
            if part.Some? {
              yieldedText := yieldedText + part.value;
              out := out + [part.value];
            }
            if stopped {
              NothingAfter(tok, stops, queue, i + 1);
              return;
            }
          }
      }
    }
    assert queue[..|queue|] == queue;
  }

  lemma NothingRead(tok: Tokenizer)
    ensures OffsetsFit(tok, [], 0, 0)
  {
  }

  lemma ReferenceNext(tok: Tokenizer, stops: seq<string>, items: seq<Item>, i: nat)
    requires i < |items|
    ensures Reference(tok, stops, items[..i + 1]) == TakeItem(tok, stops, Reference(tok, stops, items[..i]), items[i])
  {
    assert items[..i + 1][..i] == items[..i];
  }

  /** Once a stream has ended, what is still on the queue does not matter. */
  lemma {:induction false} NothingAfter(tok: Tokenizer, stops: seq<string>, items: seq<Item>, i: nat)
    requires i <= |items| && Reference(tok, stops, items[..i]).status != Live
    ensures Reference(tok, stops, items) == Reference(tok, stops, items[..i])
    decreases |items| - i
  {
    if i == |items| {
      assert items[..i] == items;
    } else {
      ReferenceNext(tok, stops, items, i);
      NothingAfter(tok, stops, items, i + 1);
    }
  }

  // ---------------------------------------------------------------- the end of a stream

  /** The rule for one more token: its text is sent at once, or it adds none and none was held back. */
  ghost predicate NothingKept(tok: Tokenizer, st: Stream, id: int)
    requires |st.yielded| <= |st.decoded|
  {
    var text := Decode(tok, st.tokens + [id]);
    if |text| <= |st.decoded| then st.yielded == st.decoded
    else !EndsIncomplete(text) && ShouldEmit(text[|st.yielded|..])
  }

  /** After one more token, the client has everything that was generated exactly when nothing is kept. */
  lemma EverythingIsSent(tok: Tokenizer, stops: seq<string>, st: Stream, id: int)
    requires Sound(tok, stops, st) && st.status == Live && TakeToken(tok, stops, st, id).status == Live
    ensures Flatten(TakeToken(tok, stops, st, id).out) == Decode(tok, st.tokens + [id]) <==> NothingKept(tok, st, id)
  {
    hide Decode, Clean, EarliestStop, ShouldEmit, Absorb, Flatten;
    var text := Decode(tok, st.tokens + [id]);
    TakeTokenIsSound(tok, stops, st, id);
    var tokens := st.tokens + [id];
    assert tokens[..st.read] == st.tokens[..st.read] && tokens == tokens[..st.read] + tokens[st.read..];
    DecodeGrows(tok, st.tokens[..st.read], tokens[st.read..]);
    if |text| > |st.decoded| && !EndsIncomplete(text) {
      assert st.yielded + text[|st.yielded|..] == text;
    }
  }

  /** The token ids on a queue, without the special ones. */
  function Spoken(tok: Tokenizer, items: seq<Item>): seq<int> {
    if items == [] then []
    else
      var n := |items| - 1;
      if items[n].Token? && items[n].id !in tok.special then Spoken(tok, items[..n]) + [items[n].id]
          else Spoken(tok, items[..n])
  }

  lemma {:induction false} LiveHasHeardAll(tok: Tokenizer, stops: seq<string>, items: seq<Item>)
    requires Reference(tok, stops, items).status == Live
    ensures Reference(tok, stops, items).tokens == Spoken(tok, items)
  {
    hide TakeToken;
    if items != [] {
      var n := |items| - 1;
      LiveHasHeardAll(tok, stops, items[..n]);
      if items[n].Token? {
        TakeTokenHears(tok, stops, Reference(tok, stops, items[..n]), items[n].id);
      }
    }
  }

  lemma TakeTokenHears(tok: Tokenizer, stops: seq<string>, st: Stream, id: int)
    requires |st.yielded| <= |st.decoded|
    ensures TakeToken(tok, stops, st, id).tokens == st.tokens + [id]
  {
    hide Decode, EarliestStop;
  }

  /** A whole stream that ends without a stop sequence: the client has the decode of all its tokens
      exactly when its last token left nothing kept. The end marker sends nothing. */
  lemma WholeStreamIsSent(tok: Tokenizer, stops: seq<string>, items: seq<Item>, id: int)
    requires id !in tok.special && Reference(tok, stops, items + [Token(id)]).status == Live
    ensures var st := Reference(tok, stops, items);
            var whole := items + [Token(id)] + [Done];
            && Reference(tok, stops, whole).status == Finished
            && (Flatten(Reference(tok, stops, whole).out) == Decode(tok, Spoken(tok, whole))
                <==> NothingKept(tok, st, id))
  {
    var more := items + [Token(id)];
    var whole := more + [Done];
    assert more[..|items|] == items && whole[..|more|] == more;
    LiveHasHeardAll(tok, stops, more);
    LiveHasHeardAll(tok, stops, items);
    ReferenceIsSound(tok, stops, items);
    hide TakeToken, Sound, NothingKept, Decode, Flatten;
    EverythingIsSent(tok, stops, Reference(tok, stops, items), id);
  }

  // ---------------------------------------------------------------- how prompt a stream is

  /** Text that ends where a reader may pause: at a space or at punctuation. */
  ghost predicate Pauses(text: string) {
    text != "" && text[|text| - 1] in {' ', '.', ',', ';', ':', '!', '?'}
  }

  /** What is not a replacement character is text for good. */
  ghost predicate Complete(text: string) {
    text == "" || text[|text| - 1] != '\U{FFFD}'
  }

  /** Everything that can be decoded is; it has all been sent when it pauses; nothing is sent in between,
      unless there are 16 characters of it, or a stop sequence has just been hit. No special token
      counts. */
  ghost predicate Prompt(tok: Tokenizer, st: Stream) {
    && (st.status != HitStop ==>
          && (Complete(Decode(tok, st.tokens)) ==> st.decoded == Decode(tok, st.tokens))
          && (Pauses(st.decoded) ==> st.yielded == st.decoded))
    && (forall i :: 0 <= i < |st.out| ==>
          st.out[i] != "" && (Pauses(st.out[i]) || |st.out[i]| > 15 || (st.status == HitStop && i == |st.out| - 1)))
    && (forall id :: id in st.tokens ==> id !in tok.special)
  }

  lemma ShowIsPrompt(tok: Tokenizer, stops: seq<string>, st: Stream)
    requires |st.yielded| < |st.decoded| && st.yielded <= st.decoded && st.status == Live
    requires st.decoded == Decode(tok, st.tokens) && (forall id :: id in st.tokens ==> id !in tok.special)
    requires forall i :: 0 <= i < |st.out| ==> st.out[i] != "" && (Pauses(st.out[i]) || |st.out[i]| > 15)
    ensures Prompt(tok, Show(stops, st))
  {
    hide Decode, EarliestStop;
    EarliestStopIs(st.decoded, stops);
    var delta := st.decoded[|st.yielded|..];
    assert st.yielded + delta == st.decoded && delta[|delta| - 1] == st.decoded[|st.decoded| - 1];
  }

  lemma TakeTokenIsPrompt(tok: Tokenizer, stops: seq<string>, st: Stream, id: int)
    requires Sound(tok, stops, st) && Prompt(tok, st) && st.status == Live && id !in tok.special
    ensures Prompt(tok, TakeToken(tok, stops, st, id))
  {
    hide Decode, Clean, EarliestStop, Absorb, Flatten, Show, ShouldEmit, Pauses;
    var tokens := st.tokens + [id];
    var text := Decode(tok, tokens);
    assert tokens[..st.read] == st.tokens[..st.read] && tokens == tokens[..st.read] + tokens[st.read..];
    DecodeGrows(tok, st.tokens[..st.read], tokens[st.read..]);
    if |text| > |st.decoded| && !EndsIncomplete(text) {
      ShowIsPrompt(tok, stops, st.(tokens := tokens, read := |tokens|, decoded := text));
    }
  }

  /** The buffer keeps nothing back for longer than it should, and sends nothing sooner. */
  lemma {:induction false} ReferenceIsPrompt(tok: Tokenizer, stops: seq<string>, items: seq<Item>)
    ensures Prompt(tok, Reference(tok, stops, items))
  {
    hide TakeToken, Sound, Pauses, Complete;
    if items == [] {
      NoTokensNoText(tok);
    } else {
      var n := |items| - 1;
      ReferenceIsPrompt(tok, stops, items[..n]);
      ReferenceIsSound(tok, stops, items[..n]);
      if items[n].Token? && items[n].id !in tok.special && Reference(tok, stops, items[..n]).status == Live {
        TakeTokenIsPrompt(tok, stops, Reference(tok, stops, items[..n]), items[n].id);
      }
    }
  }

  lemma NoTokensNoText(tok: Tokenizer)
    ensures Decode(tok, []) == ""
  {
  }

  /** A stream whose text pauses at its end is sent whole, end marker or not. */
  lemma PausingTextIsSent(tok: Tokenizer, stops: seq<string>, items: seq<Item>)
    requires Reference(tok, stops, items).status == Live && Pauses(Decode(tok, Spoken(tok, items)))
    ensures Flatten(Reference(tok, stops, items).out) == Decode(tok, Spoken(tok, items))
    ensures Reference(tok, stops, items + [Done]).out == Reference(tok, stops, items).out
  {
    hide Decode, Flatten, Absorb, TakeToken;
    LiveHasHeardAll(tok, stops, items);
    ReferenceIsPrompt(tok, stops, items);
    ReferenceIsSound(tok, stops, items);
    assert (items + [Done])[..|items|] == items;
  }

  /** The end marker and a failure end a stream that is still live; neither sends any text. */
  lemma WhatEndsAStream(tok: Tokenizer, stops: seq<string>, items: seq<Item>, message: string)
    requires Reference(tok, stops, items).status == Live
    ensures Reference(tok, stops, items + [Done]) == Reference(tok, stops, items).(status := Finished)
    ensures Reference(tok, stops, items + [Failed(message)]) == Reference(tok, stops, items).(status := Broke(message))
  {
    assert (items + [Done])[..|items|] == items && (items + [Failed(message)])[..|items|] == items;
  }

  /** A special token changes nothing, whenever it comes. */
  lemma SpecialTokensAreSkipped(tok: Tokenizer, stops: seq<string>, items: seq<Item>, id: int)
    requires id in tok.special
    ensures Reference(tok, stops, items + [Token(id)]) == Reference(tok, stops, items)
    ensures Spoken(tok, items + [Token(id)]) == Spoken(tok, items)
  {
    assert (items + [Token(id)])[..|items|] == items;
  }

  /** A one-token answer without punctuation is lost: nothing is sent before the end, or at it. */
  lemma DoneDropsTheTail(tok: Tokenizer, id: int, b: Byte)
    requires tok.bytes(id) == [b] && tok.feed([], b) == ([], "H") && id !in tok.special
    ensures Decode(tok, [id]) == "H"
    ensures Reference(tok, [], [Token(id), Done]) == Stream([id], 1, "H", "", [], Finished)
  {
    OneLetter(tok, id, b);
    EarliestStopIs("H", []);
    assert Clean("H", []);
    hide Decode, EarliestStop, Clean;
    var items := [Token(id), Done];
    assert items[..1] == [Token(id)] && [Token(id)][..0] == [];
    assert [] + [id] == [id];
    assert "H"[0..] == "H" && !ShouldEmit("H");
    assert TakeToken(tok, [], Stream([], 0, "", "", [], Live), id) == Stream([id], 1, "H", "", [], Live);
    assert Reference(tok, [], [Token(id)]) == Stream([id], 1, "H", "", [], Live);
  }

  lemma OneLetter(tok: Tokenizer, id: int, b: Byte)
    requires tok.bytes(id) == [b] && tok.feed([], b) == ([], "H")
    ensures Decode(tok, [id]) == "H"
  {
    assert [b][1..] == [] && [id][..0] == [];
    assert FeedAll(tok, [], [b]) == ([], "H" + "");
    assert Absorb(tok, [], [id]) == ([], "" + ("H" + ""));
    assert "" + ("H" + "") + "" == "H";
  }
}
