/** Stop sequences: the search both the scheduler and the stream use (utils/stop_sequences.py),
    and the two narrowed searches built on it. */
module StopSequences {
  import opened Common

  predicate MatchesAt(text: string, stop: string, i: nat) {
    i + |stop| <= |text| && text[i..i + |stop|] == stop
  }

  /** Some non-empty stop sequence begins at index `i`. */
  ghost predicate StopAt(text: string, stops: seq<string>, i: nat) {
    exists s :: s in stops && s != "" && MatchesAt(text, s, i)
  }

  /** No stop sequence occurs anywhere. */
  ghost predicate Clean(text: string, stops: seq<string>) {
    forall i :: 0 <= i <= |text| ==> !StopAt(text, stops, i)
  }

  /** The earliest index, from `from` on, where some stop sequence begins. */
  ghost function EarliestFrom(text: string, stops: seq<string>, from: nat): Option<nat>
    requires from <= |text|
    decreases |text| - from
  {
    if StopAt(text, stops, from) then Some(from)
    else if from == |text| then None
    else EarliestFrom(text, stops, from + 1)
  }

  ghost function EarliestStop(text: string, stops: seq<string>): Option<nat> {
    EarliestFrom(text, stops, 0)
  }

  lemma {:induction false} EarliestFromIs(text: string, stops: seq<string>, from: nat)
    requires from <= |text|
    ensures var r := EarliestFrom(text, stops, from);
            && (r.Some? ==> from <= r.value <= |text| && StopAt(text, stops, r.value))
            && forall i :: from <= i <= |text| && (r.Some? ==> i < r.value) ==> !StopAt(text, stops, i)
    decreases |text| - from
  {
    if !StopAt(text, stops, from) && from < |text| {
      EarliestFromIs(text, stops, from + 1);
    }
  }

  /** What `EarliestStop` means: a match, with none before it; or no match at all. */
  lemma EarliestStopIs(text: string, stops: seq<string>)
    ensures var r := EarliestStop(text, stops);
            && (r.Some? ==> r.value <= |text| && StopAt(text, stops, r.value)
                            && forall i :: 0 <= i < r.value ==> !StopAt(text, stops, i))
            && (r.None? <==> Clean(text, stops))
  {
    EarliestFromIs(text, stops, 0);
  }

  /** `stop` stands in `text`, with `i` characters before it. */
  ghost predicate OccursAt(text: string, stop: string, i: nat) {
    exists before, after :: text == before + stop + after && |before| == i
  }

  lemma MatchIsOccurrence(text: string, stop: string, i: nat)
    ensures MatchesAt(text, stop, i) <==> OccursAt(text, stop, i)
  {
    if MatchesAt(text, stop, i) {
      assert text == text[..i] + stop + text[i + |stop|..];
    }
    if OccursAt(text, stop, i) {
      var before, after :| text == before + stop + after && |before| == i;
      assert text[i..i + |stop|] == stop;
    }
  }

  /** The earliest stop is where one occurs, none of them occurring before; if there is none, none of
      them occurs at all. */
  lemma EarliestOccurrence(text: string, stops: seq<string>)
    ensures var r := EarliestStop(text, stops);
            && (r.Some? ==> exists s :: s in stops && s != "" && OccursAt(text, s, r.value))
            && forall i: nat, s :: s in stops && s != "" && (r.None? || i < r.value) ==> !OccursAt(text, s, i)
  {
    var r := EarliestStop(text, stops);
    EarliestStopIs(text, stops);
    if r.Some? {
      var s :| s in stops && s != "" && MatchesAt(text, s, r.value);
      MatchIsOccurrence(text, s, r.value);
    }
    forall i: nat, s | s in stops && s != "" && (r.None? || i < r.value) ensures !OccursAt(text, s, i) {
      MatchIsOccurrence(text, s, i);
      if MatchesAt(text, s, i) {
        assert StopAt(text, stops, i);
      }
    }
  }

  /** Python's `str.find`, with None for -1. */
  method Find(text: string, stop: string) returns (r: Option<nat>)
    ensures r.Some? ==> MatchesAt(text, stop, r.value) && forall i :: 0 <= i < r.value ==> !MatchesAt(text, stop, i)
    ensures r.None? ==> forall i :: 0 <= i ==> !MatchesAt(text, stop, i)
  {
    var i := 0;
    while i + |stop| <= |text|
      invariant forall j :: 0 <= j < i ==> !MatchesAt(text, stop, j)
    {
      if text[i..i + |stop|] == stop {
        return Some(i);
      }
      i := i + 1;
    }
    return None;
  }

  /** `find_stop_index`: the earliest index where any of the stop sequences begins. */
  method FindStopIndex(text: string, stops: seq<string>) returns (earliest: Option<nat>)
    ensures earliest == EarliestStop(text, stops)
    ensures earliest.Some? ==> earliest.value <= |text|
  {
    earliest := None;
    for k := 0 to |stops|
      invariant earliest.Some? ==> earliest.value <= |text| && StopAt(text, stops, earliest.value)
      invariant forall j, i :: 0 <= j < k && stops[j] != "" && 0 <= i && (earliest.Some? ==> i < earliest.value)
                  ==> !MatchesAt(text, stops[j], i)
    {
      var stop := stops[k];
      if stop != "" {
        var idx := Find(text, stop);
        if idx.Some? && (earliest.None? || idx.value < earliest.value) {
          earliest := idx;
        }
      }
    }
    EarliestIsUnique(text, stops, earliest);
  }

  lemma EarliestIsUnique(text: string, stops: seq<string>, r: Option<nat>)
    requires r.Some? ==> r.value <= |text| && StopAt(text, stops, r.value)
    requires forall j, i :: 0 <= j < |stops| && stops[j] != "" && 0 <= i && (r.Some? ==> i < r.value)
               ==> !MatchesAt(text, stops[j], i)
    ensures r == EarliestStop(text, stops)
  {
    EarliestStopIs(text, stops);
    forall i | 0 <= i <= |text| && (r.Some? ==> i < r.value)
      ensures !StopAt(text, stops, i)
    {
    }
  }

  /** Cutting at the earliest match leaves text that contains no stop sequence. */
  lemma CutIsClean(text: string, stops: seq<string>)
    requires EarliestStop(text, stops).Some?
    ensures EarliestStop(text, stops).value <= |text|
    ensures Clean(text[..EarliestStop(text, stops).value], stops)
  {
    EarliestStopIs(text, stops);
    PrefixMatch(text, stops, EarliestStop(text, stops).value);
  }

  /** A match inside a prefix is a match in the whole, so a prefix of clean text is clean. */
  lemma PrefixMatch(text: string, stops: seq<string>, n: nat)
    requires n <= |text|
    ensures forall i :: 0 <= i <= n && StopAt(text[..n], stops, i) ==> StopAt(text, stops, i) && i < n
    ensures Clean(text, stops) ==> Clean(text[..n], stops)
  {
    forall i | 0 <= i <= n && StopAt(text[..n], stops, i)
      ensures StopAt(text, stops, i) && i < n
    {
      var s :| s in stops && s != "" && MatchesAt(text[..n], s, i);
      assert text[i..i + |s|] == text[..n][i..i + |s|];
      assert MatchesAt(text, s, i);
    }
  }

  // ---------------------------------------------------------------- searching only the new end

  function MaxStopLength(stops: seq<string>): (r: nat)
    ensures forall s :: s in stops ==> |s| <= r
    ensures if stops == [] then r == 0 else exists s :: s in stops && |s| == r
  {
    if stops == [] then 0
    else
      var rest := MaxStopLength(stops[1..]);
      if |stops[0]| > rest then |stops[0]| else rest
  }

  /** Matches in a suffix are the matches of the whole from there on. */
  lemma SuffixMatch(text: string, stops: seq<string>, from: nat, i: nat)
    requires from <= i && from <= |text|
    ensures StopAt(text[from..], stops, i - from) <==> StopAt(text, stops, i)
  {
    forall s | s in stops
      ensures MatchesAt(text[from..], s, i - from) <==> MatchesAt(text, s, i)
    {
      if i + |s| <= |text| {
        assert text[from..][i - from..i - from + |s|] == text[i..i + |s|];
      }
    }
  }

  /** Text that was clean before `delta` was added can only match where the match reaches into `delta`. */
  lemma NewMatchReachesDelta(old_: string, delta: string, stops: seq<string>, i: nat)
    requires Clean(old_, stops) && StopAt(old_ + delta, stops, i)
    ensures i + MaxStopLength(stops) > |old_|
  {
    var s :| s in stops && s != "" && MatchesAt(old_ + delta, s, i);
    if i + |s| <= |old_| {
      assert old_[i..i + |s|] == (old_ + delta)[i..i + |s|];
      assert StopAt(old_, stops, i);
    }
  }

  /** Searching any suffix that covers the places a new match can start finds what searching
      everything finds. */
  lemma NarrowedSearch(old_: string, delta: string, stops: seq<string>, from: nat)
    requires Clean(old_, stops)
    requires from <= |old_ + delta| && (from == 0 || from + MaxStopLength(stops) <= |old_| + 1)
    ensures var (whole, part) := (EarliestStop(old_ + delta, stops), EarliestStop((old_ + delta)[from..], stops));
            && (whole.Some? <==> part.Some?)
            && (whole.Some? ==> whole.value == from + part.value)
  {
    var text := old_ + delta;
    var whole, part := EarliestStop(text, stops), EarliestStop(text[from..], stops);
    EarliestStopIs(text, stops);
    EarliestStopIs(text[from..], stops);
    if whole.Some? {
      NewMatchReachesDelta(old_, delta, stops, whole.value);
      SuffixMatch(text, stops, from, whole.value);
    }
    if part.Some? {
      SuffixMatch(text, stops, from, from + part.value);
    }
  }

  // ---------------------------------------------------------------- the scheduler's token window

  type Decoder = seq<int> -> string

  /** Python's `tokens[-window:]`: a window of 0 is the whole list. */
  function LastTokens(tokens: seq<int>, window: nat): seq<int> {
    if window == 0 || window >= |tokens| then tokens else tokens[|tokens| - window..]
  }

  lemma LastTokensSplit(tokens: seq<int>, window: nat) returns (head: seq<int>)
    ensures tokens == head + LastTokens(tokens, window)
    ensures tokens != [] ==> LastTokens(tokens, window) != []
    ensures head == [] || |LastTokens(tokens, window)| == window > 0
  {
    head := tokens[..|tokens| - |LastTokens(tokens, window)|];
  }

  /** The text a stop sequence trims the output to, decoding everything. */
  ghost function FullStopText(decode: Decoder, generated: seq<int>, stops: seq<string>): Option<string> {
    var text := decode(generated);
    var idx := EarliestStop(text, stops);
    EarliestStopIs(text, stops);
    if idx.Some? then Some(text[..idx.value]) else None
  }

  /** Decoding everything leaves text with no stop sequence in it, trimmed or not. */
  lemma FullStopIs(decode: Decoder, generated: seq<int>, stops: seq<string>)
    ensures FullStopText(decode, generated, stops).None? <==> Clean(decode(generated), stops)
    ensures FullStopText(decode, generated, stops).Some? ==> Clean(FullStopText(decode, generated, stops).value, stops)
  {
    var text := decode(generated);
    EarliestStopIs(text, stops);
    if EarliestStop(text, stops).Some? {
      CutIsClean(text, stops);
    }
  }

  /** The same decision behind the scheduler's filter: decode a bounded tail first, and everything
      only when the tail matches (continuous_scheduler.py:488-496). */
  ghost function WindowedStopText(decode: Decoder, generated: seq<int>, stops: seq<string>,
                                  slack: nat): Option<string> {
    if stops == [] then None
    else
      var tail := decode(LastTokens(generated, MaxStopLength(stops) + slack));
      if EarliestStop(tail, stops).None? then None else FullStopText(decode, generated, stops)
  }

  method FindStopText(decode: Decoder, generated: seq<int>, stops: seq<string>, maxStopLength: nat, slack: nat)
      returns (stopText: Option<string>)
    requires maxStopLength == MaxStopLength(stops)
    ensures stopText == WindowedStopText(decode, generated, stops, slack)
  {
    stopText := None;
    if stops != [] {
      var window := maxStopLength + slack;
      var tail := FindStopIndex(decode(LastTokens(generated, window)), stops);
      if tail.Some? {
        var decoded := decode(generated);
        var stopIdx := FindStopIndex(decoded, stops);
        if stopIdx.Some? {
          stopText := Some(decoded[..stopIdx.value]);
        }
      }
    }
  }

  /** A tokenizer whose text is the concatenation of its tokens' texts. */
  function Joined(piece: int -> string, tokens: seq<int>): string {
    if tokens == [] then "" else Joined(piece, tokens[..|tokens| - 1]) + piece(tokens[|tokens| - 1])
  }

  ghost predicate Concatenates(decode: Decoder, piece: int -> string) {
    forall ts {:trigger decode(ts)} :: decode(ts) == Joined(piece, ts)
  }

  /** How many of the tokens decode to nothing. */
  function Silent(piece: int -> string, tokens: seq<int>): nat {
    if tokens == [] then 0
    else Silent(piece, tokens[..|tokens| - 1]) + if piece(tokens[|tokens| - 1]) == "" then 1 else 0
  }

  lemma {:induction false} JoinedSplit(piece: int -> string, a: seq<int>, b: seq<int>)
    ensures Joined(piece, a + b) == Joined(piece, a) + Joined(piece, b)
  {
    if b == [] {
      assert a + b == a;
    } else {
      JoinedSplit(piece, a, b[..|b| - 1]);
      assert (a + b)[..|a + b| - 1] == a + b[..|b| - 1] && (a + b)[|a + b| - 1] == b[|b| - 1];
      var (x, y, z) := (Joined(piece, a), Joined(piece, b[..|b| - 1]), piece(b[|b| - 1]));
      assert x + (y + z) == x + y + z;
    }
  }

  lemma {:induction false} JoinedLength(piece: int -> string, tokens: seq<int>)
    ensures |Joined(piece, tokens)| + Silent(piece, tokens) >= |tokens|
  {
    if tokens != [] {
      JoinedLength(piece, tokens[..|tokens| - 1]);
    }
  }

  /** The window's text reaches back at least as far as a new match can start. */
  lemma WindowReaches(piece: int -> string, head: seq<int>, tail: seq<int>, maxStop: nat, slack: nat)
    requires tail != [] && Silent(piece, tail) <= slack && |tail| == maxStop + slack
    ensures |Joined(piece, head)| + maxStop <= |Joined(piece, head + tail[..|tail| - 1])| + 1
  {
    var front := tail[..|tail| - 1];
    JoinedSplit(piece, head, front);
    JoinedLength(piece, front);
  }

  /** The filter on texts: `head + tail` is the old text with `delta` added. */
  lemma TailFilter(old_: string, delta: string, head: string, tail: string, stops: seq<string>)
    requires Clean(old_, stops) && old_ + delta == head + tail
    requires head == "" || |head| + MaxStopLength(stops) <= |old_| + 1
    ensures EarliestStop(tail, stops).None? <==> EarliestStop(old_ + delta, stops).None?
  {
    assert (head + tail)[|head|..] == tail;
    NarrowedSearch(old_, delta, stops, |head|);
  }

  lemma WindowFilter(piece: int -> string, head: seq<int>, tail: seq<int>, stops: seq<string>, slack: nat)
    requires tail != [] && Clean(Joined(piece, head + tail[..|tail| - 1]), stops)
    requires head == [] || |tail| == MaxStopLength(stops) + slack
    requires Silent(piece, tail) <= slack
    ensures EarliestStop(Joined(piece, tail), stops).None? <==> EarliestStop(Joined(piece, head + tail), stops).None?
  {
    hide Clean, EarliestStop, MaxStopLength, Silent, Joined;
    var front := tail[..|tail| - 1];
    if head != [] {
      WindowReaches(piece, head, tail, MaxStopLength(stops), slack);
    }
    JoinedSplit(piece, head, tail);
    JoinedSplit(piece, head, front);
    JoinedSplit(piece, front, [tail[|tail| - 1]]);
    assert tail == front + [tail[|tail| - 1]];
    NoText(piece);
    var (h, f, last) := (Joined(piece, head), Joined(piece, front), Joined(piece, [tail[|tail| - 1]]));
    assert h + f + last == h + (f + last);
    TailFilter(h + f, last, h, f + last, stops);
  }

  lemma NoText(piece: int -> string)
    ensures Joined(piece, []) == ""
  {
  }

  lemma DecodedFilter(decode: Decoder, piece: int -> string, head: seq<int>, tail: seq<int>, stops: seq<string>,
                      slack: nat)
    requires Concatenates(decode, piece)
    requires tail != [] && FullStopText(decode, head + tail[..|tail| - 1], stops).None?
    requires head == [] || |tail| == MaxStopLength(stops) + slack
    requires Silent(piece, tail) <= slack
    ensures EarliestStop(decode(tail), stops).None? <==> EarliestStop(decode(head + tail), stops).None?
  {
    hide Clean, EarliestStop, MaxStopLength, Silent;
    FullStopIs(decode, head + tail[..|tail| - 1], stops);
    WindowFilter(piece, head, tail, stops, slack);
  }

  lemma WindowAgrees(decode: Decoder, piece: int -> string, generated: seq<int>, stops: seq<string>, slack: nat)
    requires Concatenates(decode, piece) && generated != []
    requires FullStopText(decode, generated[..|generated| - 1], stops).None?
    requires Silent(piece, LastTokens(generated, MaxStopLength(stops) + slack)) <= slack
    ensures EarliestStop(decode(LastTokens(generated, MaxStopLength(stops) + slack)), stops).None?
            <==> EarliestStop(decode(generated), stops).None?
  {
    hide *;
    var tail := LastTokens(generated, MaxStopLength(stops) + slack);
    var head := LastTokensSplit(generated, MaxStopLength(stops) + slack);
    assert generated[..|generated| - 1] == head + tail[..|tail| - 1];
    DecodedFilter(decode, piece, head, tail, stops, slack);
  }

  /** One token further, the tail filter decides what decoding everything decides, as long as at
      most `slack` tokens of the window decode to nothing. */
  lemma WindowIsEnough(decode: Decoder, piece: int -> string, generated: seq<int>, stops: seq<string>, slack: nat)
    requires Concatenates(decode, piece) && generated != []
    requires FullStopText(decode, generated[..|generated| - 1], stops).None?
    requires Silent(piece, LastTokens(generated, MaxStopLength(stops) + slack)) <= slack
    ensures WindowedStopText(decode, generated, stops, slack) == FullStopText(decode, generated, stops)
  {
    WindowAgrees(decode, piece, generated, stops, slack);
    FullStopIs(decode, generated, stops);
    if stops == [] {
      EarliestStopIs(decode(generated), stops);
      assert Clean(decode(generated), stops);
    }
  }

  /** The token at which a stream of tokens stops, and its trimmed text, under either check. */
  ghost function FullRun(decode: Decoder, tokens: seq<int>, stops: seq<string>): Option<(nat, string)> {
    if tokens == [] then None
    else
      var before := FullRun(decode, tokens[..|tokens| - 1], stops);
      var now := FullStopText(decode, tokens, stops);
      if before.Some? then before else if now.Some? then Some((|tokens|, now.value)) else None
  }

  ghost function WindowedRun(decode: Decoder, tokens: seq<int>, stops: seq<string>, slack: nat): Option<(nat, string)> {
    if tokens == [] then None
    else
      var before := WindowedRun(decode, tokens[..|tokens| - 1], stops, slack);
      var now := WindowedStopText(decode, tokens, stops, slack);
      if before.Some? then before else if now.Some? then Some((|tokens|, now.value)) else None
  }

  /** At every token, at most `slack` tokens of the window decode to nothing. */
  ghost predicate EnoughSlack(piece: int -> string, tokens: seq<int>, stops: seq<string>, slack: nat) {
    tokens == [] ||
    (Silent(piece, LastTokens(tokens, MaxStopLength(stops) + slack)) <= slack
     && EnoughSlack(piece, tokens[..|tokens| - 1], stops, slack))
  }

  /** Over a whole stream: the same token, the same text, and no stop sequence in it. */
  lemma {:induction false} WindowedStopIsFullStop(decode: Decoder, piece: int -> string, tokens: seq<int>,
                                                  stops: seq<string>, slack: nat)
    requires Concatenates(decode, piece) && EnoughSlack(piece, tokens, stops, slack)
    ensures WindowedRun(decode, tokens, stops, slack) == FullRun(decode, tokens, stops)
    ensures FullRun(decode, tokens, stops).None? ==> Clean(decode(tokens), stops)
    ensures FullRun(decode, tokens, stops).Some? ==> Clean(FullRun(decode, tokens, stops).value.1, stops)
  {
    hide FullStopText, WindowedStopText, Silent, EarliestStop, MaxStopLength;
    if tokens == [] {
      assert decode(tokens) == Joined(piece, tokens) == "";
      assert Clean("", stops);
    } else {
      var front := tokens[..|tokens| - 1];
      WindowedStopIsFullStop(decode, piece, front, stops, slack);
      FullStopIs(decode, tokens, stops);
      if FullRun(decode, front, stops).None? {
        FullStopIs(decode, front, stops);
        WindowIsEnough(decode, piece, tokens, stops, slack);
      }
    }
  }

  // ---------------------------------------------------------------- when the window is enough

  function Times(token: int, n: nat): (r: seq<int>)
    ensures |r| == n && forall i :: 0 <= i < n ==> r[i] == token
  {
    seq(n, _ => token)
  }

  /** A loud token, `n` silent ones, and the loud one again. */
  function Hiding(loud: int, silent: int, n: nat): (r: seq<int>)
    ensures |r| == n + 2
  {
    [loud] + Times(silent, n) + [loud]
  }

  lemma {:induction false} SilentText(piece: int -> string, silent: int, n: nat)
    requires piece(silent) == ""
    ensures Joined(piece, Times(silent, n)) == ""
  {
    if n > 0 {
      SilentText(piece, silent, n - 1);
      assert Times(silent, n)[..n - 1] == Times(silent, n - 1);
    }
  }

  lemma OneToken(piece: int -> string, token: int)
    ensures Joined(piece, [token]) == piece(token)
  {
    assert [token][..0] == [] && "" + piece(token) == piece(token);
  }

  /** Text shorter than the only stop sequence has none in it. */
  lemma TooShort(text: string, stop: string)
    requires |text| < |stop|
    ensures EarliestStop(text, [stop]).None?
  {
    EarliestStopIs(text, [stop]);
  }

  lemma DoubledStop(p: string)
    requires p != ""
    ensures EarliestStop(p + p, [p + p]) == Some(0) && MaxStopLength([p + p]) == 2 * |p|
  {
    var stops := [p + p];
    assert stops[0] in stops && MatchesAt(p + p, stops[0], 0) && StopAt(p + p, stops, 0);
    assert stops[1..] == [];
  }

  /** Whatever the slack, silent tokens can push the first half of a stop sequence out of the window,
      so that the filter misses it: exactly when they and the two loud ones are more than it holds. If
      the loud token is one character, that is one silent token more than the slack. */
  lemma SilentTokensHideAStop(decode: Decoder, piece: int -> string, loud: int, silent: int, slack: nat, n: nat)
    requires Concatenates(decode, piece) && piece(loud) != "" && piece(silent) == ""
    ensures var (tokens, stops) := (Hiding(loud, silent, n), [piece(loud) + piece(loud)]);
            && FullStopText(decode, tokens, stops) == Some("")
            && (WindowedStopText(decode, tokens, stops, slack).None? <==> n + 2 > 2 * |piece(loud)| + slack)
            && (|piece(loud)| == 1 ==> (WindowedStopText(decode, tokens, stops, slack).None? <==> n > slack))
  {
    var (p, tokens) := (piece(loud), Hiding(loud, silent, n));
    var (stops, window) := ([p + p], 2 * |p| + slack);
    HidingText(piece, loud, silent, n);
    DoubledStop(p);
    TooShort(p, p + p);
    assert decode(tokens) == p + p && (p + p)[..0] == "";
    var tail := LastTokens(tokens, window);
    if n + 2 <= window {
      assert tail == tokens;
    } else {
      assert tail == Times(silent, window - 1) + [loud];
      JoinedSplit(piece, Times(silent, window - 1), [loud]);
      SilentText(piece, silent, window - 1);
      OneToken(piece, loud);
      assert decode(tail) == "" + p == p;
    }
  }

  lemma HidingText(piece: int -> string, loud: int, silent: int, n: nat)
    requires piece(silent) == ""
    ensures Joined(piece, Hiding(loud, silent, n)) == piece(loud) + piece(loud)
  {
    FrontText(piece, loud, silent, n);
    JoinedSplit(piece, [loud] + Times(silent, n), [loud]);
    OneToken(piece, loud);
  }

  lemma FrontText(piece: int -> string, loud: int, silent: int, n: nat)
    requires piece(silent) == ""
    ensures Joined(piece, [loud] + Times(silent, n)) == piece(loud)
  {
    JoinedSplit(piece, [loud], Times(silent, n));
    SilentText(piece, silent, n);
    OneToken(piece, loud);
    assert piece(loud) + "" == piece(loud);
  }

  /** The filter never stops a stream that decoding everything lets run. */
  lemma {:induction false} NeverTooEarly(decode: Decoder, tokens: seq<int>, stops: seq<string>, slack: nat)
    requires FullRun(decode, tokens, stops).None?
    ensures WindowedRun(decode, tokens, stops, slack).None?
  {
    if tokens != [] {
      NeverTooEarly(decode, tokens[..|tokens| - 1], stops, slack);
    }
  }

  /** Up to the second loud token nothing stops. */
  lemma {:induction false} FrontRuns(decode: Decoder, piece: int -> string, loud: int, silent: int, n: nat)
    requires Concatenates(decode, piece) && piece(loud) != "" && piece(silent) == ""
    ensures FullRun(decode, [loud] + Times(silent, n), [piece(loud) + piece(loud)]).None?
  {
    var tokens := [loud] + Times(silent, n);
    FrontText(piece, loud, silent, n);
    assert decode(tokens) == piece(loud);
    TooShort(piece(loud), piece(loud) + piece(loud));
    if n == 0 {
      assert tokens == [loud] && tokens[..0] == [];
    } else {
      FrontRuns(decode, piece, loud, silent, n - 1);
      assert tokens[..|tokens| - 1] == [loud] + Times(silent, n - 1);
    }
  }

  /** So the two checks part ways on that stream. */
  lemma RunsDiffer(decode: Decoder, piece: int -> string, loud: int, silent: int, slack: nat)
    requires Concatenates(decode, piece) && piece(loud) != "" && piece(silent) == ""
    ensures var (tokens, stops) := (Hiding(loud, silent, 2 * |piece(loud)| + slack), [piece(loud) + piece(loud)]);
            WindowedRun(decode, tokens, stops, slack) != FullRun(decode, tokens, stops)
  {
    hide FullStopText, WindowedStopText, EarliestStop, MaxStopLength, Joined;
    var (n, stops) := (2 * |piece(loud)| + slack, [piece(loud) + piece(loud)]);
    var tokens := Hiding(loud, silent, n);
    assert tokens[..|tokens| - 1] == [loud] + Times(silent, n);
    FrontRuns(decode, piece, loud, silent, n);
    NeverTooEarly(decode, tokens[..|tokens| - 1], stops, slack);
    SilentTokensHideAStop(decode, piece, loud, silent, slack, n);
  }

  lemma {:induction false} NoneSilent(piece: int -> string, tokens: seq<int>)
    requires forall t :: piece(t) != ""
    ensures Silent(piece, tokens) == 0
  {
    if tokens != [] {
      NoneSilent(piece, tokens[..|tokens| - 1]);
    }
  }

  lemma {:induction false} AlwaysEnoughSlack(piece: int -> string, tokens: seq<int>, stops: seq<string>, slack: nat)
    requires forall t :: piece(t) != ""
    ensures EnoughSlack(piece, tokens, stops, slack)
  {
    if tokens != [] {
      NoneSilent(piece, LastTokens(tokens, MaxStopLength(stops) + slack));
      AlwaysEnoughSlack(piece, tokens[..|tokens| - 1], stops, slack);
    }
  }

  /** For a tokenizer that concatenates, the window is enough for every stream and all stop sequences,
      whatever the slack, exactly when no token decodes to nothing. */
  lemma WindowIsEnoughIff(decode: Decoder, piece: int -> string, slack: nat)
    requires Concatenates(decode, piece) && exists t :: piece(t) != ""
    ensures (forall tokens, stops :: WindowedRun(decode, tokens, stops, slack) == FullRun(decode, tokens, stops))
            <==> forall t :: piece(t) != ""
  {
    if silent :| piece(silent) == "" {
      var loud :| piece(loud) != "";
      RunsDiffer(decode, piece, loud, silent, slack);
    } else {
      forall tokens, stops
        ensures WindowedRun(decode, tokens, stops, slack) == FullRun(decode, tokens, stops)
      {
        AlwaysEnoughSlack(piece, tokens, stops, slack);
        WindowedStopIsFullStop(decode, piece, tokens, stops, slack);
      }
    }
  }
}
