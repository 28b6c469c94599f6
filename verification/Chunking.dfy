/**
 The chunk packer (app/core/chunking.py) over opaque tokens, from the list of
 tokenised paragraphs on.
 */
module Chunking {
  import opened Common

  type Token = int
  type Tokens = seq<Token>

  /** `overlap` is the clamped one. */
  datatype Config = Config(maxTokens: nat, overlap: nat, separator: Tokens)

  function Min(a: int, b: int): int { if a < b then a else b }
  function Max(a: int, b: int): int { if a < b then b else a }

  // ---- oversized paragraphs ------------------------------------------------------------

  function WindowsOf(tokens: Tokens, size: nat, step: nat): seq<Tokens>
    requires step >= 1
    decreases |tokens|
  {
    if tokens == [] then []
    else [tokens[..Min(size, |tokens|)]] + WindowsOf(tokens[Min(step, |tokens|)..], size, step)
  }

  method Windows(tokens: Tokens, size: nat, step: nat) returns (windows: seq<Tokens>)
    requires step >= 1
    ensures windows == WindowsOf(tokens, size, step)
  {
    windows := [];
    var start := 0;
    while start < |tokens|
      invariant 0 <= start
      invariant windows + WindowsOf(tokens[Min(start, |tokens|)..], size, step) == WindowsOf(tokens, size, step)
      decreases |tokens| - start
    {
      NextWindow(tokens, start, size, step);
      windows := windows + [tokens[start..Min(start + size, |tokens|)]];
      start := start + step;
    }
  }

  lemma NextWindow(tokens: Tokens, start: nat, size: nat, step: nat)
    requires step >= 1 && start < |tokens|
    ensures WindowsOf(tokens[start..], size, step)
         == [tokens[start..Min(start + size, |tokens|)]] + WindowsOf(tokens[Min(start + step, |tokens|)..], size, step)
  {
    var rest := tokens[start..];
    assert rest[Min(step, |rest|)..] == tokens[Min(start + step, |tokens|)..];
    assert rest[..Min(size, |rest|)] == tokens[start..Min(start + size, |tokens|)];
  }

  /** The first `step` tokens of every window, in order. */
  function Heads(windows: seq<Tokens>, step: nat): Tokens {
    if windows == [] then [] else windows[0][..Min(step, |windows[0]|)] + Heads(windows[1..], step)
  }

  lemma {:induction false} WindowsRebuild(tokens: Tokens, size: nat, step: nat)
    requires 1 <= step <= size
    ensures Heads(WindowsOf(tokens, size, step), step) == tokens
    decreases |tokens|
  {
    if tokens != [] {
      var k := Min(step, |tokens|);
      var windows := WindowsOf(tokens, size, step);
      WindowsRebuild(tokens[k..], size, step);
      assert windows[1..] == WindowsOf(tokens[k..], size, step);
      HeadOfFirst(tokens, size, step);
      assert tokens[..k] + tokens[k..] == tokens;
    }
  }

  lemma HeadOfFirst(tokens: Tokens, size: nat, step: nat)
    requires 1 <= step <= size
    ensures var first := tokens[..Min(size, |tokens|)]; first[..Min(step, |first|)] == tokens[..Min(step, |tokens|)]
  {
  }

  lemma {:induction false} WindowsSized(tokens: Tokens, size: nat, step: nat)
    requires 1 <= step && 1 <= size
    ensures forall w :: w in WindowsOf(tokens, size, step) ==> 1 <= |w| <= size
    decreases |tokens|
  {
    if tokens != [] {
      WindowsSized(tokens[Min(step, |tokens|)..], size, step);
    }
  }

  /** k steps in. */
  function Start(k: nat, step: nat): nat {
    if k == 0 then 0 else Start(k - 1, step) + step
  }

  lemma {:induction false} StartIs(k: nat, step: nat)
    ensures Start(k, step) == k * step
  {
    if k > 0 {
      StartIs(k - 1, step);
    }
  }

  /** The k-th window starts k steps in, and there are just enough to reach the end. */
  lemma {:induction false} WindowAt(tokens: Tokens, size: nat, step: nat, k: nat)
    requires step >= 1 && k < |WindowsOf(tokens, size, step)|
    ensures Start(k, step) < |tokens|
    ensures WindowsOf(tokens, size, step)[k] == tokens[Start(k, step)..Min(Start(k, step) + size, |tokens|)]
    decreases |tokens|
  {
    if k > 0 {
      var rest := tokens[Min(step, |tokens|)..];
      WindowAt(rest, size, step, k - 1);
      assert rest == tokens[step..];
      ShiftedSlice(tokens, step, Start(k - 1, step), Min(Start(k - 1, step) + size, |rest|));
    }
  }

  lemma ShiftedSlice(tokens: Tokens, offset: nat, from: nat, to: nat)
    requires offset <= |tokens| && from <= to <= |tokens| - offset
    ensures tokens[offset..][from..to] == tokens[offset + from..offset + to]
  {
  }

  lemma {:induction false} WindowsReachTheEnd(tokens: Tokens, size: nat, step: nat)
    requires step >= 1
    ensures var n := |WindowsOf(tokens, size, step)|;
      |tokens| <= Start(n, step) && (if n == 0 then tokens == [] else Start(n - 1, step) < |tokens|)
    decreases |tokens|
  {
    if tokens != [] {
      var rest := tokens[Min(step, |tokens|)..];
      WindowsReachTheEnd(rest, size, step);
    }
  }

  // ---- units ---------------------------------------------------------------------------------

  function WindowSize(c: Config): nat {
    Max(1, c.maxTokens - c.overlap - |c.separator|)
  }

  function StepSize(c: Config): nat
    ensures 1 <= StepSize(c) <= WindowSize(c)
  {
    Max(1, WindowSize(c) - c.overlap)
  }

  function UnitsOfOne(paragraph: Tokens, c: Config): seq<Tokens> {
    if paragraph == [] then []
    else if |paragraph| <= c.maxTokens then [paragraph]
    else WindowsOf(paragraph, WindowSize(c), StepSize(c))
  }

  function UnitsOf(paragraphs: seq<Tokens>, c: Config): seq<Tokens> {
    if paragraphs == [] then []
    else UnitsOf(paragraphs[..|paragraphs| - 1], c) + UnitsOfOne(paragraphs[|paragraphs| - 1], c)
  }

  ghost predicate Sized(units: seq<Tokens>, bound: int) {
    forall u :: u in units ==> 1 <= |u| <= bound
  }

  lemma {:induction false} UnitsFit(paragraphs: seq<Tokens>, c: Config)
    requires c.maxTokens >= 1
    ensures Sized(UnitsOf(paragraphs, c), c.maxTokens)
  {
    if paragraphs != [] {
      UnitsFit(paragraphs[..|paragraphs| - 1], c);
      WindowsSized(paragraphs[|paragraphs| - 1], WindowSize(c), StepSize(c));
    }
  }

  // ---- packing ----------------------------------------------------------------------------------

  datatype Packing = Packing(chunks: seq<Tokens>, current: Tokens)

  /** current[-overlap:] if overlap else [] */
  function Tail(current: Tokens, overlap: nat): Tokens {
    if overlap >= |current| then (if overlap == 0 then [] else current) else current[|current| - overlap..]
  }

  predicate Flushes(current: Tokens, unit: Tokens, c: Config) {
    current != [] && |current| + |c.separator| + |unit| > c.maxTokens
  }

  function Extended(current: Tokens, unit: Tokens, c: Config): Tokens {
    if current == [] then unit else current + c.separator + unit
  }

  function PackOne(p: Packing, unit: Tokens, c: Config): Packing {
    if Flushes(p.current, unit, c)
    then Packing(p.chunks + [p.current], Extended(Tail(p.current, c.overlap), unit, c))
    else Packing(p.chunks, Extended(p.current, unit, c))
  }

  function Pack(units: seq<Tokens>, c: Config): Packing {
    if units == [] then Packing([], []) else PackOne(Pack(units[..|units| - 1], c), units[|units| - 1], c)
  }

  function ChunksOf(units: seq<Tokens>, c: Config): seq<Tokens> {
    var p := Pack(units, c);
    if p.current == [] then p.chunks else p.chunks + [p.current]
  }

  /** chunk_text, from the tokenised paragraphs; None is the ValueError. */
  method ChunkText(paragraphs: seq<Tokens>, maxTokens: int, overlapTokens: int, separator: Tokens)
    returns (chunks: Option<seq<Tokens>>)
    ensures chunks.None? <==> maxTokens <= 0
    ensures chunks.Some? ==>
      var c := Config(maxTokens, Max(0, Min(overlapTokens, maxTokens - 1)), separator);
      chunks.value == ChunksOf(UnitsOf(paragraphs, c), c)
  {
    if maxTokens <= 0 {
      return None;
    }
    var c := Config(maxTokens, Max(0, Min(overlapTokens, maxTokens - 1)), separator);
    var units := SplitParagraphs(paragraphs, c);
    var packed := PackUnits(units, c);
    return Some(packed);
  }

  method SplitParagraphs(paragraphs: seq<Tokens>, c: Config) returns (units: seq<Tokens>)
    ensures units == UnitsOf(paragraphs, c)
  {
    units := [];
    for i := 0 to |paragraphs|
      invariant units == UnitsOf(paragraphs[..i], c)
    {
      assert paragraphs[..i + 1][..i] == paragraphs[..i];
      var tokens := paragraphs[i];
      if tokens == [] {
        continue;
      }
      if |tokens| <= c.maxTokens {
        units := units + [tokens];
      } else {
        var windows := Windows(tokens, WindowSize(c), StepSize(c));
        units := units + windows;
      }
    }
    assert paragraphs[..|paragraphs|] == paragraphs;
  }

  method PackUnits(units: seq<Tokens>, c: Config) returns (chunks: seq<Tokens>)
    ensures chunks == ChunksOf(units, c)
  {
    chunks := [];
    var current: Tokens := [];
    for i := 0 to |units|
      invariant Packing(chunks, current) == Pack(units[..i], c)
    {
      assert units[..i + 1][..i] == units[..i];
      var unit := units[i];
      if current != [] && |current| + |c.separator| + |unit| > c.maxTokens {
        chunks := chunks + [current];
        current := Tail(current, c.overlap);
      }
      current := if current != [] then current + c.separator + unit else unit;
    }
    assert units[..|units|] == units;
    if current != [] {
      chunks := chunks + [current];
    }
  }

  // ---- where each chunk lies in the text ------------------------------------------------------------

  /** The whole text: the units with separators between them. */
  function Joined(units: seq<Tokens>, separator: Tokens): Tokens {
    if units == [] then []
    else if |units| == 1 then units[0]
    else Joined(units[..|units| - 1], separator) + separator + units[|units| - 1]
  }

  datatype Span = Span(from: nat, to: nat)

  /** Where the chunk after `last` starts: at the repeated tail, or past the separator when nothing is repeated. */
  function NextStart(last: Span, c: Config): int {
    if c.overlap == 0 then last.to + |c.separator| else last.to - Min(c.overlap, last.to - last.from)
  }

  /** Chunk k is the stretch spans[k] of the text; the stretches start where the previous one says and reach the end. */
  ghost predicate Tiles(text: Tokens, spans: seq<Span>, chunks: seq<Tokens>, c: Config) {
    && |spans| == |chunks| >= 1
    && spans[0].from == 0 && spans[|spans| - 1].to == |text|
    && (forall k :: 0 <= k < |spans| ==> LiesAt(text, spans[k], chunks[k]))
    && (forall k :: 0 < k < |spans| ==> Follows(text, spans[k - 1], spans[k], c))
  }

  predicate LiesAt(text: Tokens, s: Span, chunk: Tokens) {
    s.from < s.to <= |text| && text[s.from..s.to] == chunk
  }

  predicate Follows(text: Tokens, a: Span, b: Span, c: Config) {
    && b.from == NextStart(a, c) && a.to < b.to && a.to <= |text|
    && (c.overlap == 0 ==> b.from <= |text| && text[a.to..b.from] == c.separator)
  }

  lemma TilesGrow(text: Tokens, more: Tokens, spans: seq<Span>, chunks: seq<Tokens>, c: Config, k: nat)
    requires Tiles(text, spans, chunks, c) && k < |spans|
    ensures LiesAt(text + more, spans[k], chunks[k])
    ensures k > 0 ==> Follows(text + more, spans[k - 1], spans[k], c)
  {
  }

  lemma TilesExtend(text: Tokens, spans: seq<Span>, chunks: seq<Tokens>, c: Config, unit: Tokens)
    requires Tiles(text, spans, chunks, c) && unit != []
    ensures var n := |spans| - 1;
      var text' := text + c.separator + unit;
      Tiles(text', spans[..n] + [Span(spans[n].from, |text'|)], chunks[..n] + [chunks[n] + c.separator + unit], c)
  {
    hide LiesAt, Follows;
    var n := |spans| - 1;
    var text' := text + c.separator + unit;
    assert text' == text + (c.separator + unit);
    var spans' := spans[..n] + [Span(spans[n].from, |text'|)];
    var chunks' := chunks[..n] + [chunks[n] + c.separator + unit];
    LongerTile(text, spans[n], chunks[n], c, unit);
    forall k | 0 <= k < |spans'| ensures LiesAt(text', spans'[k], chunks'[k]) && (k > 0 ==> Follows(text', spans'[k - 1], spans'[k], c)) {
      TilesGrow(text, c.separator + unit, spans, chunks, c, k);
      if k == n && k > 0 {
        ReachesFurther(text', spans[n - 1], spans[n], Span(spans[n].from, |text'|), c);
      }
    }
  }

  /** The last chunk, made longer, still lies where it began and follows the one before. */
  lemma LongerTile(text: Tokens, last: Span, chunk: Tokens, c: Config, unit: Tokens)
    requires LiesAt(text, last, chunk) && last.to == |text| && unit != []
    ensures var text' := text + c.separator + unit; LiesAt(text', Span(last.from, |text'|), chunk + c.separator + unit)
  {
    var text' := text + c.separator + unit;
    assert text'[last.from..] == text[last.from..] + c.separator + unit;
  }

  lemma ReachesFurther(text: Tokens, a: Span, b: Span, further: Span, c: Config)
    requires Follows(text, a, b, c) && further.from == b.from && b.to <= further.to
    ensures Follows(text, a, further, c)
  {
  }

  /** The chunk opened by a flush lies where NextStart says, and follows the one flushed. */
  lemma NewTile(text: Tokens, last: Span, chunk: Tokens, c: Config, unit: Tokens)
    requires LiesAt(text, last, chunk) && last.to == |text| && unit != []
    ensures var text' := text + c.separator + unit;
      && 0 <= NextStart(last, c)
      && LiesAt(text', Span(NextStart(last, c), |text'|), Extended(Tail(chunk, c.overlap), unit, c))
      && Follows(text', last, Span(NextStart(last, c), |text'|), c)
  {
    var text' := text + c.separator + unit;
    var from := NextStart(last, c);
    if c.overlap == 0 {
      assert text'[from..] == unit;
      assert text'[last.to..from] == c.separator;
    } else {
      assert Tail(chunk, c.overlap) == text[from..];
      assert text'[from..] == text[from..] + c.separator + unit;
    }
  }

  lemma TilesFlush(text: Tokens, spans: seq<Span>, chunks: seq<Tokens>, c: Config, unit: Tokens)
    requires Tiles(text, spans, chunks, c) && unit != []
    ensures var n := |spans| - 1;
      var text' := text + c.separator + unit;
      && NextStart(spans[n], c) >= 0
      && Tiles(text', spans + [Span(NextStart(spans[n], c), |text'|)], chunks + [Extended(Tail(chunks[n], c.overlap), unit, c)], c)
  {
    hide NextStart, Tail, Extended, LiesAt, Follows;
    var n := |spans| - 1;
    var more := c.separator + unit;
    var text' := text + c.separator + unit;
    assert text' == text + more;
    NewTile(text, spans[n], chunks[n], c, unit);
    var spans' := spans + [Span(NextStart(spans[n], c), |text'|)];
    var chunks' := chunks + [Extended(Tail(chunks[n], c.overlap), unit, c)];
    forall k | 0 <= k < |spans'| ensures LiesAt(text', spans'[k], chunks'[k]) && (k > 0 ==> Follows(text', spans'[k - 1], spans'[k], c)) {
      if k <= n {
        TilesGrow(text, more, spans, chunks, c, k);
      }
    }
  }

  /** Where the chunks of these units lie. */
  function Spans(units: seq<Tokens>, c: Config): seq<Span> {
    if units == [] then []
    else
      var before := Spans(units[..|units| - 1], c);
      var end := |Joined(units, c.separator)|;
      if before == [] then [Span(0, end)]
      else
        var last := before[|before| - 1];
        if last.to - last.from + |c.separator| + |units[|units| - 1]| > c.maxTokens
        then before + [Span(Max(0, NextStart(last, c)), end)]
        else before[..|before| - 1] + [Span(last.from, end)]
  }

  lemma LastLength(text: Tokens, spans: seq<Span>, chunks: seq<Tokens>, c: Config)
    requires Tiles(text, spans, chunks, c)
    ensures |spans| == |chunks| >= 1
    ensures var m := |spans| - 1; chunks[m] != [] && spans[m].to - spans[m].from == |chunks[m]| && spans[m].to == |text|
    ensures NextStart(spans[|spans| - 1], c) >= 0
  {
    assert LiesAt(text, spans[|spans| - 1], chunks[|spans| - 1]);
  }

  /** One unit more, whatever has been packed so far. */
  lemma TilesStep(text: Tokens, spans: seq<Span>, p: Packing, c: Config, unit: Tokens)
    requires Tiles(text, spans, p.chunks + [p.current], c) && unit != []
    ensures var p' := PackOne(p, unit, c);
      var text' := text + c.separator + unit;
      var last := spans[|spans| - 1];
      && p'.current != []
      && Tiles(text', if last.to - last.from + |c.separator| + |unit| > c.maxTokens
                      then spans + [Span(Max(0, NextStart(last, c)), |text'|)]
                      else spans[..|spans| - 1] + [Span(last.from, |text'|)], p'.chunks + [p'.current], c)
  {
    hide Tiles, NextStart, Tail;
    var chunks := p.chunks + [p.current];
    LastLength(text, spans, chunks, c);
    assert chunks[..|spans| - 1] == p.chunks;
    if Flushes(p.current, unit, c) {
      TilesFlush(text, spans, chunks, c, unit);
    } else {
      TilesExtend(text, spans, chunks, c, unit);
    }
  }

  lemma FirstTile(unit: Tokens, c: Config)
    requires unit != []
    ensures Tiles(unit, [Span(0, |unit|)], [unit], c)
  {
  }

  lemma {:induction false} ChunksTile(units: seq<Tokens>, c: Config)
    requires Sized(units, c.maxTokens) && units != []
    ensures Tiles(Joined(units, c.separator), Spans(units, c), ChunksOf(units, c), c)
    ensures Pack(units, c).current != [] && |ChunksOf(units, c)| <= |units|
  {
    hide Tiles, NextStart, PackOne;
    var n := |units| - 1;
    var before, unit := units[..n], units[n];
    assert unit in units;
    if n == 0 {
      assert before == [];
      FirstPacked(unit, c);
      FirstTile(unit, c);
      assert ChunksOf(units, c) == [unit] && Spans(units, c) == [Span(0, |unit|)];
    } else {
      assert Sized(before, c.maxTokens) by {
        forall u | u in before ensures u in units {}
      }
      ChunksTile(before, c);
      LastLength(Joined(before, c.separator), Spans(before, c), ChunksOf(before, c), c);
      TilesStep(Joined(before, c.separator), Spans(before, c), Pack(before, c), c, unit);
      OneMoreAtMost(Pack(before, c), unit, c);
    }
  }

  lemma FirstPacked(unit: Tokens, c: Config)
    ensures PackOne(Packing([], []), unit, c) == Packing([], unit)
  {
  }

  lemma OneMoreAtMost(p: Packing, unit: Tokens, c: Config)
    ensures |PackOne(p, unit, c).chunks| <= |p.chunks| + 1
  {
  }

  // ---- nothing is lost -----------------------------------------------------------------------------

  /** Drop from each later chunk the tokens repeated from the one before, and concatenate. */
  function Rebuilt(chunks: seq<Tokens>, overlap: nat): Tokens {
    if chunks == [] then []
    else if |chunks| == 1 then chunks[0]
    else
      var n := |chunks| - 1;
      var repeated := Min(overlap, |chunks[n - 1]|);
      Rebuilt(chunks[..n], overlap) + (if repeated <= |chunks[n]| then chunks[n][repeated..] else [])
  }

  lemma {:induction false} RebuiltTo(text: Tokens, spans: seq<Span>, chunks: seq<Tokens>, c: Config, k: nat)
    requires Tiles(text, spans, chunks, c) && k < |spans| && c.overlap > 0
    ensures Rebuilt(chunks[..k + 1], c.overlap) == text[..spans[k].to]
  {
    hide LiesAt, Follows;
    assert LiesAt(text, spans[k], chunks[k]);
    if k == 0 {
      assert chunks[..1] == [chunks[0]];
      FirstStretch(text, spans[0], chunks[0]);
    } else {
      RebuiltTo(text, spans, chunks, c, k - 1);
      assert LiesAt(text, spans[k - 1], chunks[k - 1]) && Follows(text, spans[k - 1], spans[k], c);
      NextStretch(text, spans[k - 1], spans[k], chunks[k - 1], chunks[k], c);
      assert chunks[..k + 1][..k] == chunks[..k];
    }
  }

  lemma FirstStretch(text: Tokens, s: Span, chunk: Tokens)
    requires LiesAt(text, s, chunk) && s.from == 0
    ensures chunk == text[..s.to]
  {
  }

  /** Behind the repeated tokens, a chunk continues the text where the one before it stopped. */
  lemma NextStretch(text: Tokens, a: Span, b: Span, before: Tokens, chunk: Tokens, c: Config)
    requires c.overlap > 0 && LiesAt(text, a, before) && LiesAt(text, b, chunk) && Follows(text, a, b, c)
    ensures var repeated := Min(c.overlap, |before|);
      0 <= repeated <= |chunk| && a.to <= b.to <= |text| && text[..a.to] + chunk[repeated..] == text[..b.to]
  {
    var repeated := Min(c.overlap, |before|);
    assert chunk[repeated..] == text[b.from..b.to][repeated..] == text[a.to..b.to];
  }

  lemma {:induction false} JoinedTo(text: Tokens, spans: seq<Span>, chunks: seq<Tokens>, c: Config, k: nat)
    requires Tiles(text, spans, chunks, c) && k < |spans| && c.overlap == 0
    ensures Joined(chunks[..k + 1], c.separator) == text[..spans[k].to]
  {
    assert LiesAt(text, spans[k], chunks[k]);
    if k > 0 {
      JoinedTo(text, spans, chunks, c, k - 1);
      assert LiesAt(text, spans[k - 1], chunks[k - 1]) && Follows(text, spans[k - 1], spans[k], c);
      assert chunks[..k + 1][..k] == chunks[..k];
      assert text[..spans[k - 1].to] + c.separator + chunks[k] == text[..spans[k].to];
    }
  }

  /** The chunks give back exactly the units joined by the separator, and there are no more chunks than units. */
  lemma NothingLost(units: seq<Tokens>, c: Config)
    requires Sized(units, c.maxTokens)
    ensures c.overlap > 0 ==> Rebuilt(ChunksOf(units, c), c.overlap) == Joined(units, c.separator)
    ensures c.overlap == 0 ==> Joined(ChunksOf(units, c), c.separator) == Joined(units, c.separator)
    ensures |ChunksOf(units, c)| <= |units|
  {
    if units != [] {
      ChunksTile(units, c);
      var text, spans, chunks := Joined(units, c.separator), Spans(units, c), ChunksOf(units, c);
      var n := |spans| - 1;
      assert chunks[..n + 1] == chunks && text[..|text|] == text;
      if c.overlap > 0 {
        RebuiltTo(text, spans, chunks, c, n);
      } else {
        JoinedTo(text, spans, chunks, c, n);
      }
    }
  }

  // ---- what straddles a boundary is whole somewhere ---------------------------------------------------

  /** A chunk that is the first to reach past a short stretch also starts before it. */
  lemma {:induction false} StartsBefore(text: Tokens, spans: seq<Span>, chunks: seq<Tokens>, c: Config, k: nat, from: nat, to: nat)
    requires Tiles(text, spans, chunks, c) && k < |spans| && c.overlap > 0
    requires from < to <= from + c.overlap + 1 && (k > 0 ==> spans[k - 1].to < to)
    ensures spans[k].from <= from
  {
    if k > 0 {
      assert Follows(text, spans[k - 1], spans[k], c) && LiesAt(text, spans[k - 1], chunks[k - 1]);
      if spans[k].from == spans[k - 1].from {
        if k > 1 {
          assert Follows(text, spans[k - 2], spans[k - 1], c);
        }
        StartsBefore(text, spans, chunks, c, k - 1, from, to);
      }
    }
  }

  lemma {:induction false} FirstToReach(text: Tokens, spans: seq<Span>, chunks: seq<Tokens>, c: Config, to: nat, k: nat) returns (first: nat)
    requires Tiles(text, spans, chunks, c) && k < |spans| && to <= spans[k].to
    ensures first <= k && to <= spans[first].to && (first > 0 ==> spans[first - 1].to < to)
  {
    if k == 0 || spans[k - 1].to < to {
      first := k;
    } else {
      first := FirstToReach(text, spans, chunks, c, to, k - 1);
    }
  }

  predicate OccursAt(piece: Tokens, chunk: Tokens, i: nat) {
    i + |piece| <= |chunk| && chunk[i..i + |piece|] == piece
  }

  ghost predicate WholeIn(piece: Tokens, chunk: Tokens) {
    exists i :: OccursAt(piece, chunk, i)
  }

  ghost predicate InSome(piece: Tokens, chunks: seq<Tokens>) {
    exists k :: 0 <= k < |chunks| && WholeIn(piece, chunks[k])
  }

  /** Any stretch of up to overlap + 1 tokens of the joined units, wherever the boundaries fall, is whole in at least one chunk. */
  lemma StraddlersSurvive(units: seq<Tokens>, c: Config, from: nat, to: nat)
    requires Sized(units, c.maxTokens) && c.overlap > 0
    requires from < to <= from + c.overlap + 1 && to <= |Joined(units, c.separator)|
    ensures InSome(Joined(units, c.separator)[from..to], ChunksOf(units, c))
  {
    assert units != [];
    hide WholeIn, ChunksOf, Spans, Joined;
    ChunksTile(units, c);
    var text, spans, chunks := Joined(units, c.separator), Spans(units, c), ChunksOf(units, c);
    var k := FirstToReach(text, spans, chunks, c, to, |spans| - 1);
    StartsBefore(text, spans, chunks, c, k, from, to);
    SliceOccurs(text, spans[k], chunks[k], from, to);
  }

  lemma SliceOccurs(text: Tokens, s: Span, chunk: Tokens, from: nat, to: nat)
    requires LiesAt(text, s, chunk) && s.from <= from <= to <= s.to
    ensures WholeIn(text[from..to], chunk)
  {
    var piece, i := text[from..to], from - s.from;
    SliceOfSlice(text, s.from, s.to, from, to);
    assert OccursAt(piece, chunk, i);
  }

  lemma SliceOfSlice(text: Tokens, a: nat, b: nat, from: nat, to: nat)
    requires a <= from <= to <= b <= |text|
    ensures text[a..b][from - a..to - a] == text[from..to]
  {
    var l, r := text[a..b][from - a..to - a], text[from..to];
    assert |l| == |r|;
    forall q | 0 <= q < |l| ensures l[q] == r[q] {
    }
  }

  // ---- what stands in a paragraph is whole somewhere --------------------------------------------------

  lemma FoundIn(piece: Tokens, chunks: seq<Tokens>, k: nat)
    requires k < |chunks| && WholeIn(piece, chunks[k])
    ensures InSome(piece, chunks)
  {
  }

  lemma Within(piece: Tokens, before: Tokens, middle: Tokens, after: Tokens)
    requires WholeIn(piece, middle)
    ensures WholeIn(piece, before + middle + after)
  {
    var i: nat :| OccursAt(piece, middle, i);
    assert (before + middle + after)[|before| + i..|before| + i + |piece|] == middle[i..i + |piece|];
    assert OccursAt(piece, before + middle + after, |before| + i);
  }

  /** Packing one more unit breaks nothing that is whole, and keeps the unit whole. */
  lemma PackKeepsWhole(p: Packing, unit: Tokens, c: Config, piece: Tokens)
    requires InSome(piece, p.chunks + [p.current]) || WholeIn(piece, unit)
    ensures var p' := PackOne(p, unit, c); InSome(piece, p'.chunks + [p'.current])
  {
    hide WholeIn, Tail;
    var p' := PackOne(p, unit, c);
    var was, now, m := p.chunks + [p.current], p'.chunks + [p'.current], |p.chunks|;
    if WholeIn(piece, unit) {
      var kept := if Flushes(p.current, unit, c) then Tail(p.current, c.overlap) else p.current;
      var before := if kept == [] then [] else kept + c.separator;
      Within(piece, before, unit, []);
      assert before + unit + [] == p'.current;
      FoundIn(piece, now, |p'.chunks|);
    } else {
      var k :| 0 <= k < |was| && WholeIn(piece, was[k]);
      if k < m || Flushes(p.current, unit, c) {
        assert now[k] == was[k];
        FoundIn(piece, now, k);
      } else {
        Within(piece, [], p.current, if p.current == [] then unit else c.separator + unit);
        assert [] + p.current + (if p.current == [] then unit else c.separator + unit) == p'.current;
        FoundIn(piece, now, m);
      }
    }
  }

  lemma {:induction false} UnitsStayWhole(units: seq<Tokens>, c: Config, i: nat, piece: Tokens)
    requires i < |units| && WholeIn(piece, units[i])
    ensures var p := Pack(units, c); InSome(piece, p.chunks + [p.current])
  {
    hide WholeIn, InSome, PackOne;
    var n := |units| - 1;
    if i < n {
      UnitsStayWhole(units[..n], c, i, piece);
    }
    PackKeepsWhole(Pack(units[..n], c), units[n], c, piece);
  }

  /** Windows overlap by enough for any stretch of size - step + 1 tokens. */
  lemma {:induction false} WindowHolds(tokens: Tokens, size: nat, step: nat, from: nat, to: nat)
    requires 1 <= step <= size && from < to <= |tokens| && to - from <= size - step + 1
    ensures InSome(tokens[from..to], WindowsOf(tokens, size, step))
    decreases |tokens|
  {
    hide WholeIn;
    var windows, piece := WindowsOf(tokens, size, step), tokens[from..to];
    if to <= size {
      SliceOccurs(tokens, Span(0, Min(size, |tokens|)), tokens[..Min(size, |tokens|)], from, to);
      FoundIn(piece, windows, 0);
    } else {
      var rest := tokens[step..];
      WindowHolds(rest, size, step, from - step, to - step);
      assert rest[from - step..to - step] == piece;
      var k :| 0 <= k < |WindowsOf(rest, size, step)| && WholeIn(piece, WindowsOf(rest, size, step)[k]);
      FoundIn(piece, windows, k + 1);
    }
  }

  /**
   How long a stretch of a paragraph is sure to be whole in one of its units: any in a paragraph that
   fits, overlap + 1 tokens of a longer one, or a window if that is less.
   */
  function Reach(paragraph: Tokens, c: Config): nat {
    if |paragraph| <= c.maxTokens then |paragraph| else Min(c.overlap + 1, Max(1, c.maxTokens - c.overlap - |c.separator|))
  }

  lemma UnitHolds(paragraph: Tokens, c: Config, from: nat, to: nat)
    requires from < to <= |paragraph| && to - from <= Reach(paragraph, c)
    ensures InSome(paragraph[from..to], UnitsOfOne(paragraph, c))
  {
    hide WholeIn, WindowsOf;
    if |paragraph| <= c.maxTokens {
      SliceOccurs(paragraph, Span(0, |paragraph|), paragraph, from, to);
      FoundIn(paragraph[from..to], [paragraph], 0);
    } else {
      WindowHolds(paragraph, WindowSize(c), StepSize(c), from, to);
    }
  }

  lemma {:induction false} SomeUnitHolds(paragraphs: seq<Tokens>, c: Config, p: nat, piece: Tokens)
    requires p < |paragraphs| && InSome(piece, UnitsOfOne(paragraphs[p], c))
    ensures InSome(piece, UnitsOf(paragraphs, c))
  {
    hide WholeIn, UnitsOfOne;
    var n := |paragraphs| - 1;
    var before, last := UnitsOf(paragraphs[..n], c), UnitsOfOne(paragraphs[n], c);
    if p < n {
      SomeUnitHolds(paragraphs[..n], c, p, piece);
      var k :| 0 <= k < |before| && WholeIn(piece, before[k]);
      FoundIn(piece, before + last, k);
    } else {
      var k :| 0 <= k < |last| && WholeIn(piece, last[k]);
      FoundIn(piece, before + last, |before| + k);
    }
  }

  /**
   Every paragraph within max_tokens is whole in some chunk, and so is every stretch of a longer
   one of up to overlap + 1 tokens, or of up to a window if that is shorter.
   */
  lemma ParagraphsSurvive(paragraphs: seq<Tokens>, c: Config, p: nat, from: nat, to: nat)
    requires c.maxTokens >= 1 && p < |paragraphs|
    requires from < to <= |paragraphs[p]| && to - from <= Reach(paragraphs[p], c)
    ensures InSome(paragraphs[p][from..to], ChunksOf(UnitsOf(paragraphs, c), c))
  {
    hide WholeIn, UnitsOfOne, UnitsOf, Pack;
    var piece, units := paragraphs[p][from..to], UnitsOf(paragraphs, c);
    UnitHolds(paragraphs[p], c, from, to);
    SomeUnitHolds(paragraphs, c, p, piece);
    var i :| 0 <= i < |units| && WholeIn(piece, units[i]);
    UnitsStayWhole(units, c, i, piece);
    UnitsFit(paragraphs, c);
    ChunksTile(units, c);
  }

  // ---- and exactly when overlap + 1 tokens of a paragraph are ------------------------------------------

  ghost predicate Uniform(s: Tokens, x: Token) {
    forall i :: 0 <= i < |s| ==> s[i] == x
  }

  /** No stretch of x alone is longer than the bound. */
  ghost predicate NoRun(text: Tokens, x: Token, bound: nat) {
    forall i, j | 0 <= i <= j <= |text| && Uniform(text[i..j], x) :: j - i <= bound
  }

  lemma NotAcross(text: Tokens, separator: Tokens, x: Token, m: nat, i: nat, j: nat)
    requires separator != [] && !(x in separator) && m + |separator| <= |text| && text[m..m + |separator|] == separator
    requires m < j <= |text| && i < j && Uniform(text[i..j], x)
    ensures i >= m + |separator|
  {
    hide Uniform;
    var k := Max(i, m);
    if k < m + |separator| {
      assert text[k] == text[m..m + |separator|][k - m];
    }
    UniformAt(text, x, i, j, k);
  }

  lemma UniformAt(text: Tokens, x: Token, i: nat, j: nat, k: nat)
    requires i <= k < j <= |text| && Uniform(text[i..j], x)
    ensures text[k] == x
  {
    assert text[i..j][k - i] == text[k];
  }

  lemma SeparatorStops(a: Tokens, separator: Tokens, b: Tokens, x: Token, bound: nat)
    requires separator != [] && !(x in separator) && NoRun(a, x, bound) && |b| <= bound
    ensures NoRun(a + separator + b, x, bound)
  {
    var text, m, n := a + separator + b, |a|, |a| + |separator|;
    forall i, j | 0 <= i <= j <= |text| && Uniform(text[i..j], x) ensures j - i <= bound {
      if j <= m {
        assert text[i..j] == a[i..j];
      } else if i < j {
        assert i >= n by { NotAcross(text, separator, x, m, i, j); }
      }
    }
  }

  lemma {:induction false} JoinedHasNoRun(units: seq<Tokens>, separator: Tokens, x: Token, bound: nat)
    requires separator != [] && !(x in separator) && Sized(units, bound)
    ensures NoRun(Joined(units, separator), x, bound)
  {
    hide NoRun;
    var n := |units| - 1;
    if n < 0 {
      ShortHasNoRun([], x, bound);
    } else {
      assert units[n] in units;
      if n == 0 {
        ShortHasNoRun(units[0], x, bound);
      } else {
        assert Sized(units[..n], bound) by {
          forall u | u in units[..n] ensures u in units {}
        }
        JoinedHasNoRun(units[..n], separator, x, bound);
        SeparatorStops(Joined(units[..n], separator), separator, units[n], x, bound);
      }
    }
  }

  lemma ShortHasNoRun(text: Tokens, x: Token, bound: nat)
    requires |text| <= bound
    ensures NoRun(text, x, bound)
  {
  }

  lemma RunIsNowhere(text: Tokens, s: Span, chunk: Tokens, x: Token, bound: nat, piece: Tokens)
    requires NoRun(text, x, bound) && LiesAt(text, s, chunk) && Uniform(piece, x) && |piece| > bound
    ensures !WholeIn(piece, chunk)
  {
    hide NoRun, LiesAt;
    if i: nat :| OccursAt(piece, chunk, i) {
      OccursInText(text, s, chunk, piece, i);
      RunsAreShort(text, x, bound, s.from + i, s.from + i + |piece|);
    }
  }

  lemma OccursInText(text: Tokens, s: Span, chunk: Tokens, piece: Tokens, i: nat)
    requires LiesAt(text, s, chunk) && OccursAt(piece, chunk, i)
    ensures s.from + i + |piece| <= |text| && text[s.from + i..s.from + i + |piece|] == piece
  {
    SliceOfSlice(text, s.from, s.to, s.from + i, s.from + i + |piece|);
  }

  lemma RunsAreShort(text: Tokens, x: Token, bound: nat, i: nat, j: nat)
    requires NoRun(text, x, bound) && i <= j <= |text| && Uniform(text[i..j], x)
    ensures j - i <= bound
  {
  }

  lemma LongRunIsLost(units: seq<Tokens>, c: Config, x: Token, bound: nat, piece: Tokens)
    requires units != [] && Sized(units, bound) && Sized(units, c.maxTokens)
    requires c.separator != [] && !(x in c.separator) && Uniform(piece, x) && |piece| > bound
    ensures !InSome(piece, ChunksOf(units, c))
  {
    hide ChunksOf, Spans, Joined, WholeIn, NoRun, Tiles, LiesAt, Uniform, Sized;
    JoinedHasNoRun(units, c.separator, x, bound);
    ChunksTile(units, c);
    var text, spans, chunks := Joined(units, c.separator), Spans(units, c), ChunksOf(units, c);
    forall k | 0 <= k < |chunks| ensures !WholeIn(piece, chunks[k]) {
      ChunkLies(text, spans, chunks, c, k);
      RunIsNowhere(text, spans[k], chunks[k], x, bound, piece);
    }
  }

  lemma LongerBound(units: seq<Tokens>, size: nat, bound: nat)
    requires Sized(units, size) && size <= bound
    ensures Sized(units, bound)
  {
  }

  /** A long paragraph of one token, in windows no longer than the overlap. */
  lemma ShortWindowsLose(c: Config, x: Token, paragraph: Tokens)
    requires c.maxTokens > c.overlap && c.separator != [] && !(x in c.separator) && WindowSize(c) <= c.overlap
    requires |paragraph| == c.maxTokens + 1 && Uniform(paragraph, x)
    ensures !InSome(paragraph[..c.overlap + 1], ChunksOf(UnitsOf([paragraph], c), c))
  {
    var piece := paragraph[..c.overlap + 1];
    assert Uniform(piece, x);
    hide WindowsOf, ChunksOf, InSome, Uniform, Sized;
    OneParagraph(paragraph, c);
    WindowsFit(paragraph, c);
    var units := UnitsOf([paragraph], c);
    LongerBound(units, WindowSize(c), c.maxTokens);
    LongRunIsLost(units, c, x, WindowSize(c), piece);
  }

  lemma WindowsFit(paragraph: Tokens, c: Config)
    ensures Sized(WindowsOf(paragraph, WindowSize(c), StepSize(c)), WindowSize(c))
  {
    WindowsSized(paragraph, WindowSize(c), StepSize(c));
  }

  lemma ChunkLies(text: Tokens, spans: seq<Span>, chunks: seq<Tokens>, c: Config, k: nat)
    requires Tiles(text, spans, chunks, c) && k < |chunks|
    ensures k < |spans| && LiesAt(text, spans[k], chunks[k])
  {
  }

  lemma OneParagraph(paragraph: Tokens, c: Config)
    requires |paragraph| > c.maxTokens
    ensures UnitsOf([paragraph], c) == WindowsOf(paragraph, WindowSize(c), StepSize(c)) != []
    ensures 1 <= StepSize(c) <= WindowSize(c) <= Max(1, c.maxTokens)
  {
    assert UnitsOf([], c) == [] && [paragraph][..0] == [];
  }

  /** A token larger than all of them. */
  function Above(s: Tokens): Token {
    if s == [] then 0 else Max(s[0] + 1, Above(s[1..]))
  }

  lemma {:induction false} AboveIsNew(s: Tokens)
    ensures forall x :: x in s ==> x < Above(s)
  {
    if s != [] {
      AboveIsNew(s[1..]);
      assert s == [s[0]] + s[1..];
    }
  }

  /**
   With a separator that has a token, every stretch of up to overlap + 1 tokens of every
   paragraph is whole in some chunk, whatever the paragraphs, if and only if max_tokens
   leaves room for two overlaps and the separator, or there is no overlap.
   */
  lemma OverlapReachesIff(c: Config)
    requires c.overlap < c.maxTokens && c.separator != []
    ensures c.overlap == 0 || c.maxTokens > 2 * c.overlap + |c.separator| <==>
      forall paragraphs: seq<Tokens>, p: nat, from: nat, to: nat
        | p < |paragraphs| && from < to <= |paragraphs[p]| && to - from <= c.overlap + 1 ::
        InSome(paragraphs[p][from..to], ChunksOf(UnitsOf(paragraphs, c), c))
  {
    hide InSome, ChunksOf, UnitsOf;
    if c.overlap == 0 || c.maxTokens > 2 * c.overlap + |c.separator| {
      forall paragraphs: seq<Tokens>, p: nat, from: nat, to: nat
        | p < |paragraphs| && from < to <= |paragraphs[p]| && to - from <= c.overlap + 1
        ensures InSome(paragraphs[p][from..to], ChunksOf(UnitsOf(paragraphs, c), c))
      {
        ParagraphsSurvive(paragraphs, c, p, from, to);
      }
    } else {
      var x := Above(c.separator);
      AboveIsNew(c.separator);
      var paragraph := seq(c.maxTokens + 1, _ => x);
      ShortWindowsLose(c, x, paragraph);
      assert [paragraph][0][0..c.overlap + 1] == paragraph[..c.overlap + 1];
    }
  }

  // ---- no chunk is closed too early ---------------------------------------------------------------------

  /** The stretch of the text that two neighbours cover. */
  function Together(a: Tokens, b: Tokens, c: Config): int {
    if c.overlap == 0 then |a| + |c.separator| + |b| else |a| + |b| - Min(c.overlap, |a|)
  }

  ghost predicate NoneMergeable(chunks: seq<Tokens>, c: Config) {
    forall k :: 0 < k < |chunks| ==> Together(chunks[k - 1], chunks[k], c) > c.maxTokens
  }

  lemma PackKeepsApart(p: Packing, unit: Tokens, c: Config)
    requires NoneMergeable(p.chunks + [p.current], c) && p.current != []
    ensures var p' := PackOne(p, unit, c); NoneMergeable(p'.chunks + [p'.current], c)
  {
    var p' := PackOne(p, unit, c);
    var was, now, m := p.chunks + [p.current], p'.chunks + [p'.current], |p.chunks|;
    assert forall k :: 0 <= k < m ==> was[k] == p.chunks[k] && now[k] == p.chunks[k];
    assert was[m] == p.current;
    forall k | 0 < k < |now| ensures Together(now[k - 1], now[k], c) > c.maxTokens {
      if k <= m {
        assert Together(was[k - 1], was[k], c) > c.maxTokens;
      }
    }
  }

  /** Two neighbouring chunks never fit into one: a chunk is closed only when the next unit does not fit. */
  lemma {:induction false} ChunksAreFull(units: seq<Tokens>, c: Config)
    requires Sized(units, c.maxTokens)
    ensures NoneMergeable(ChunksOf(units, c), c)
  {
    if units != [] {
      hide NoneMergeable, PackOne;
      var n := |units| - 1;
      assert units[n] in units;
      assert Sized(units[..n], c.maxTokens) by {
        forall u | u in units[..n] ensures u in units {}
      }
      ChunksAreFull(units[..n], c);
      ChunksTile(units, c);
      if n == 0 {
        assert units[..n] == [];
        FirstPacked(units[0], c);
        OneIsFull(units[0], c);
      } else {
        ChunksTile(units[..n], c);
        PackKeepsApart(Pack(units[..n], c), units[n], c);
      }
    }
  }

  lemma OneIsFull(chunk: Tokens, c: Config)
    ensures NoneMergeable([chunk], c)
  {
  }

  // ---- how long a chunk can get ---------------------------------------------------------------------

  ghost predicate AllWithin(chunks: seq<Tokens>, bound: int) {
    forall k :: 0 <= k < |chunks| ==> |chunks[k]| <= bound
  }

  /** The shortest chunk that can open with unit i: the repeated tail, the separator and the unit. */
  function Opening(units: seq<Tokens>, c: Config, i: nat): nat
    requires i < |units|
  {
    Min(c.overlap, |Joined(units[..i], c.separator)|) + |c.separator| + |units[i]|
  }

  ghost predicate OpeningsFit(units: seq<Tokens>, c: Config) {
    c.overlap == 0 || forall i :: 1 <= i < |units| ==> Opening(units, c, i) <= c.maxTokens
  }

  lemma OpeningsOneMore(units: seq<Tokens>, c: Config)
    requires |units| >= 2
    ensures var n := |units| - 1;
      OpeningsFit(units, c) <==> OpeningsFit(units[..n], c) && (c.overlap == 0 || Opening(units, c, n) <= c.maxTokens)
  {
    var n := |units| - 1;
    forall i | 1 <= i < n ensures Opening(units[..n], c, i) == Opening(units, c, i) {
      assert units[..n][..i] == units[..i];
    }
  }

  lemma {:induction false} LengthsExactly(units: seq<Tokens>, c: Config)
    requires Sized(units, c.maxTokens) && units != []
    ensures AllWithin(ChunksOf(units, c), c.maxTokens) <==> OpeningsFit(units, c)
    ensures Min(c.overlap, |Pack(units, c).current|) == Min(c.overlap, |Joined(units, c.separator)|)
  {
    var n := |units| - 1;
    var before, unit := units[..n], units[n];
    assert unit in units;
    if n == 0 {
      assert before == [] && Pack(before, c) == Packing([], []);
      assert ChunksOf(units, c) == [unit];
    } else {
      assert Sized(before, c.maxTokens) by {
        forall u | u in before ensures u in units {}
      }
      LengthsExactly(before, c);
      OpeningsOneMore(units, c);
      ChunksTile(before, c);
      PackedLengths(Pack(before, c), unit, c);
    }
  }

  /** One more unit: the chunks stay within the bound exactly if they were and, on a flush, the new one is. */
  lemma PackedLengths(p: Packing, unit: Tokens, c: Config)
    requires p.current != [] && 1 <= |unit| <= c.maxTokens
    ensures var p' := PackOne(p, unit, c);
      var opening := Min(c.overlap, |p.current|) + |c.separator| + |unit|;
      && (AllWithin(p'.chunks + [p'.current], c.maxTokens) <==>
            AllWithin(p.chunks + [p.current], c.maxTokens) && (c.overlap == 0 || opening <= c.maxTokens))
      && Min(c.overlap, |p'.current|) == Min(c.overlap, |p.current| + |c.separator| + |unit|)
  {
    var p' := PackOne(p, unit, c);
    var was, now := p.chunks + [p.current], p'.chunks + [p'.current];
    var m := |p.chunks|;
    assert forall k :: 0 <= k < m ==> was[k] == p.chunks[k] && now[k] == p.chunks[k];
    assert was[m] == p.current;
    if Flushes(p.current, unit, c) {
      assert now[m] == p.current && now[m + 1] == p'.current;
    } else {
      assert now[m] == p'.current;
    }
  }

  /**
   max_tokens is a hard bound exactly when every later unit, behind the tail that
   would be repeated before it, fits; a caller can tell from the units.
   */
  lemma HardBoundIff(units: seq<Tokens>, c: Config)
    requires Sized(units, c.maxTokens)
    ensures AllWithin(ChunksOf(units, c), c.maxTokens) <==> OpeningsFit(units, c)
  {
    if units != [] {
      LengthsExactly(units, c);
    }
  }

  /** In particular when no unit is longer than a window of an oversized paragraph is meant to be. */
  lemma ShortUnitsAreBounded(units: seq<Tokens>, c: Config)
    requires c.maxTokens - c.overlap - |c.separator| >= 1 && Sized(units, c.maxTokens - c.overlap - |c.separator|)
    ensures AllWithin(ChunksOf(units, c), c.maxTokens)
  {
    assert Sized(units, c.maxTokens);
    forall i | 1 <= i < |units| ensures Opening(units, c, i) <= c.maxTokens {
      assert units[i] in units;
    }
    HardBoundIff(units, c);
  }

  /**
   An oversized paragraph becomes windows that leave room for the repeated tail and the separator,
   each starting the overlap before the last one's end: unit k in plain numbers.
   */
  lemma OversizedUnits(paragraph: Tokens, c: Config, k: nat)
    requires |paragraph| > c.maxTokens && k < |UnitsOfOne(paragraph, c)|
    ensures var size := Max(1, c.maxTokens - c.overlap - |c.separator|);
      var step := Max(1, size - c.overlap);
      && k * step < |paragraph| && UnitsOfOne(paragraph, c)[k] == paragraph[k * step..Min(k * step + size, |paragraph|)]
      && (|UnitsOfOne(paragraph, c)| - 1) * step < |paragraph| <= |UnitsOfOne(paragraph, c)| * step
  {
    WindowAt(paragraph, WindowSize(c), StepSize(c), k);
    WindowsReachTheEnd(paragraph, WindowSize(c), StepSize(c));
    var n := |UnitsOfOne(paragraph, c)|;
    StartIs(k, StepSize(c));
    StartIs(n, StepSize(c));
    StartIs(n - 1, StepSize(c));
  }

  /** Then no chunk is ever too long, whatever the paragraphs, as long as those left whole leave the same room. */
  lemma {:induction false} UnitsLeaveRoom(paragraphs: seq<Tokens>, c: Config)
    requires c.overlap + |c.separator| + 1 <= c.maxTokens
    requires forall p :: p in paragraphs ==> |p| > c.maxTokens || |p| <= c.maxTokens - c.overlap - |c.separator|
    ensures Sized(UnitsOf(paragraphs, c), c.maxTokens - c.overlap - |c.separator|)
  {
    if paragraphs != [] {
      var n := |paragraphs| - 1;
      assert forall p :: p in paragraphs[..n] ==> p in paragraphs;
      UnitsLeaveRoom(paragraphs[..n], c);
      assert paragraphs[n] in paragraphs;
      WindowsSized(paragraphs[n], WindowSize(c), StepSize(c));
    }
  }

  lemma ChunksLeaveRoom(paragraphs: seq<Tokens>, c: Config)
    requires c.overlap + |c.separator| + 1 <= c.maxTokens
    requires forall p :: p in paragraphs ==> |p| > c.maxTokens || |p| <= c.maxTokens - c.overlap - |c.separator|
    ensures AllWithin(ChunksOf(UnitsOf(paragraphs, c), c), c.maxTokens)
  {
    hide ChunksOf, UnitsOf;
    UnitsLeaveRoom(paragraphs, c);
    ShortUnitsAreBounded(UnitsOf(paragraphs, c), c);
  }

  /** But a paragraph of exactly max_tokens is never shortened, so two of them in a row overflow. */
  lemma FullParagraphsOverflow(a: Tokens, b: Tokens, c: Config)
    requires c.overlap >= 1 && c.maxTokens >= 1 && |a| == |b| == c.maxTokens
    ensures !AllWithin(ChunksOf(UnitsOf([a, b], c), c), c.maxTokens)
  {
    assert [a, b][..1] == [a] && [a][..0] == [];
    assert UnitsOf([a], c) == [a];
    var units := UnitsOf([a, b], c);
    assert units == [a, b] && units[..1] == [a];
    assert Joined([a], c.separator) == a;
    assert Opening(units, c, 1) > c.maxTokens;
    HardBoundIff(units, c);
  }

  /** The bound that always holds. */
  lemma {:induction false} ChunksBounded(units: seq<Tokens>, c: Config, longest: nat)
    requires Sized(units, longest)
    ensures var bound := Max(c.maxTokens, c.overlap + |c.separator| + longest);
      AllWithin(Pack(units, c).chunks, bound) && |Pack(units, c).current| <= bound && AllWithin(ChunksOf(units, c), bound)
  {
    if units != [] {
      var n := |units| - 1;
      assert Sized(units[..n], longest) by {
        forall u | u in units[..n] ensures u in units {}
      }
      ChunksBounded(units[..n], c, longest);
      assert units[n] in units;
    }
  }
}
