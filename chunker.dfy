/**
 * The chunker of main.py (`chunk_text`): a window of `chunkSize` characters
 * slides over the text; a window that stops short of the end of the text is
 * cut back to just after its last '.' or '\n' when that break lies far
 * enough in; every chunk is stripped; the next window starts `overlap`
 * characters before the end of the previous one.
 *
 * The model keeps two behaviours of the code exactly as written:
 * - the break is found by `rfind` on the window, so its index is relative to
 *   the window, yet it is compared with the absolute offset
 *   `start + chunkSize / 2` and used as an absolute slice end; only when
 *   `start == 0` does snapping reliably cut just after a break (see
 *   `LaterWindowCutsBesideBreak`);
 * - a window that reaches the end of the text does not end the loop: the next
 *   start `end - overlap` can still lie inside the text, which yields a
 *   trailing chunk (see `TrailingChunk` and `DefaultSlidingWindow`).
 */
module Chunker {
  import opened PyText

  /** The defaults of `chunk_text`, the only values its callers use. */
  const DefaultChunkSize: nat := 1000
  const DefaultOverlap: nat := 200

  /**
   * The parameters under which the loop is guaranteed to advance. Outside them
   * it can stall: see `StallBeyondHalfOverlap`.
   */
  predicate ValidParams(chunkSize: nat, overlap: nat) {
    0 < chunkSize && overlap <= chunkSize / 2
  }

  predicate IsBreak(c: char) {
    c == '.' || c == '\n'
  }

  /** The index of the last '.' or '\n' in `chunk`, or -1 when there is none. */
  function BreakPoint(chunk: string): (r: int)
    ensures -1 <= r < |chunk|
  {
    if chunk == [] then -1
    else if IsBreak(chunk[|chunk| - 1]) then |chunk| - 1
    else BreakPoint(chunk[..|chunk| - 1])
  }

  /** `BreakPoint` is the index of the last break in `chunk`: no break follows it. */
  lemma {:induction false} BreakPointSpec(chunk: string)
    ensures BreakPoint(chunk) >= 0 ==> IsBreak(chunk[BreakPoint(chunk)])
    ensures forall k :: BreakPoint(chunk) < k < |chunk| ==> !IsBreak(chunk[k])
  {
    if chunk != [] && !IsBreak(chunk[|chunk| - 1]) {
      var init := chunk[..|chunk| - 1];
      BreakPointSpec(init);
      assert forall k :: 0 <= k < |init| ==> init[k] == chunk[k];
    }
  }

  /**
   * The code finds the break as `max(chunk.rfind('.'), chunk.rfind('\n'))`
   * (main.py:129-131): the later of the last '.' and the last '\n'.
   */
  lemma {:induction false} BreakPointIsMaxRFind(chunk: string)
    ensures BreakPoint(chunk) == Max(RFind(chunk, '.'), RFind(chunk, '\n'))
  {
    if chunk != [] && !IsBreak(chunk[|chunk| - 1]) {
      BreakPointIsMaxRFind(chunk[..|chunk| - 1]);
    }
  }

  /** The full window `text[start:start + chunkSize]` of a window that stops short of the end. */
  function Window(text: string, chunkSize: nat, start: nat): string
    requires start + chunkSize < |text|
  {
    text[start..start + chunkSize]
  }

  /**
   * Whether the window at `start` is cut back to its last break: it stops short
   * of the end of the text and the break's index within the window exceeds the
   * absolute offset `start + chunkSize / 2`.
   */
  predicate Snaps(text: string, chunkSize: nat, start: nat) {
    start + chunkSize < |text| && BreakPoint(Window(text, chunkSize, start)) > start + chunkSize / 2
  }

  /**
   * The value of `end` after one pass of the loop body at `start`: never more
   * than `chunkSize` past `start` and always more than half a window past it.
   */
  function WindowEnd(text: string, chunkSize: nat, start: nat): (end: nat)
    requires 0 < chunkSize && start < |text|
    ensures start + chunkSize / 2 < end <= start + chunkSize
  {
    if Snaps(text, chunkSize, start) then BreakPoint(Window(text, chunkSize, start)) + 1
    else start + chunkSize
  }

  /**
   * Where a window is cut. When it snaps, `end` lies just after the window's
   * last break counted from the START OF THE WINDOW, more than one past the
   * midpoint offset; otherwise `end` is the hard window end `start + chunkSize`.
   */
  lemma WindowEndCut(text: string, chunkSize: nat, start: nat)
    requires 0 < chunkSize && start < |text|
    ensures Snaps(text, chunkSize, start) ==>
      && start + chunkSize / 2 + 1 < WindowEnd(text, chunkSize, start) <= chunkSize
      && IsBreak(Window(text, chunkSize, start)[WindowEnd(text, chunkSize, start) - 1])
      && forall k :: WindowEnd(text, chunkSize, start) <= k < chunkSize ==>
           !IsBreak(Window(text, chunkSize, start)[k])
    ensures !Snaps(text, chunkSize, start) ==> WindowEnd(text, chunkSize, start) == start + chunkSize
  {
    if start + chunkSize < |text| {
      BreakPointSpec(Window(text, chunkSize, start));
    }
  }

  /**
   * The raw chunks `text[start:end]` the loop cuts from `start` on, before they
   * are stripped (main.py:123-141).
   */
  function RawFrom(text: string, chunkSize: nat, overlap: nat, start: nat): (raw: seq<string>)
    requires ValidParams(chunkSize, overlap)
    ensures raw == [] <==> start >= |text|
    decreases |text| - start
  {
    if start >= |text| then []
    else
      var end := WindowEnd(text, chunkSize, start);
      [Slice(text, start, end)] + RawFrom(text, chunkSize, overlap, end - overlap)
  }

  /**
   * `chunk_text(text, chunkSize, overlap)`: every raw chunk, stripped, in order.
   * Only the empty text yields no chunks.
   */
  function Chunks(text: string, chunkSize: nat, overlap: nat): (chunks: seq<string>)
    requires ValidParams(chunkSize, overlap)
    ensures chunks == [] <==> text == []
  {
    StripAll(RawFrom(text, chunkSize, overlap, 0))
  }

  /** Every raw chunk stripped, in order. */
  function StripAll(raw: seq<string>): (chunks: seq<string>)
    ensures |chunks| == |raw|
  {
    if raw == [] then [] else StripAll(raw[..|raw| - 1]) + [Strip(raw[|raw| - 1])]
  }

  /** Stripping a list that starts with `a` starts with `a` stripped. */
  lemma {:induction false} StripAllPrepend(a: string, rest: seq<string>)
    ensures StripAll([a] + rest) == [Strip(a)] + StripAll(rest)
  {
    if rest == [] {
      assert StripAll([a]) == StripAll([]) + [Strip(a)];
    } else {
      var init := rest[..|rest| - 1];
      assert ([a] + rest)[..|rest|] == [a] + init;
      StripAllPrepend(a, init);
    }
  }

  lemma StripAllPair(a: string, b: string)
    ensures StripAll([a, b]) == [Strip(a), Strip(b)]
  {
    StripAllPrepend(a, [b]);
    StripAllPrepend(b, []);
  }

  /** Chunk `i` is raw chunk `i`, stripped. */
  lemma {:induction false} StripAllIndex(raw: seq<string>, i: nat)
    requires i < |raw|
    ensures StripAll(raw)[i] == Strip(raw[i])
  {
    if i < |raw| - 1 {
      StripAllIndex(raw[..|raw| - 1], i);
    }
  }

  /** The range `text[start:end]` a chunk was cut from. */
  datatype Span = Span(start: nat, end: nat)

  /** The ranges the loop visits from `start` on; at most one per character left. */
  ghost function SpansFrom(text: string, chunkSize: nat, overlap: nat, start: nat): (spans: seq<Span>)
    requires ValidParams(chunkSize, overlap)
    ensures start + |spans| <= Max(start, |text|)
    decreases |text| - start
  {
    if start >= |text| then []
    else
      var end := WindowEnd(text, chunkSize, start);
      [Span(start, end)] + SpansFrom(text, chunkSize, overlap, end - overlap)
  }

  /**
   * One pass of the loop moves `start` forward, keeps `raw + RawFrom(start)`
   * unchanged and adds the stripped chunk to the stripped list.
   */
  lemma RawStep(text: string, chunkSize: nat, overlap: nat, start: nat, end: nat,
                chunk: string, raw: seq<string>)
    requires ValidParams(chunkSize, overlap) && start < |text|
    requires end == WindowEnd(text, chunkSize, start) && chunk == Slice(text, start, end)
    ensures start + overlap < end
    ensures raw + [chunk] + RawFrom(text, chunkSize, overlap, end - overlap)
         == raw + RawFrom(text, chunkSize, overlap, start)
    ensures StripAll(raw + [chunk]) == StripAll(raw) + [Strip(chunk)]
  {
    assert RawFrom(text, chunkSize, overlap, start) == [chunk] + RawFrom(text, chunkSize, overlap, end - overlap);
    assert (raw + [chunk])[..|raw|] == raw;
  }

  /** The loop from `start` cuts one window and goes on from its end, less the overlap. */
  lemma Step(text: string, chunkSize: nat, overlap: nat, start: nat)
    requires ValidParams(chunkSize, overlap) && start < |text|
    ensures var end := WindowEnd(text, chunkSize, start);
      && RawFrom(text, chunkSize, overlap, start)
         == [Slice(text, start, end)] + RawFrom(text, chunkSize, overlap, end - overlap)
      && SpansFrom(text, chunkSize, overlap, start)
         == [Span(start, end)] + SpansFrom(text, chunkSize, overlap, end - overlap)
  {
  }

  /**
   * One window of the loop of `chunk_text` (main.py:125-135): the raw chunk
   * `text[start:end]` and its end, cut back to the last break when the window
   * snaps.
   */
  method CutWindow(text: string, chunkSize: nat, start: nat) returns (chunk: string, end: nat)
    requires 0 < chunkSize && start < |text|
    ensures end == WindowEnd(text, chunkSize, start)
    ensures chunk == Slice(text, start, end)
  {
    end := start + chunkSize;
    chunk := Slice(text, start, end);
    if end < |text| {
      assert chunk == Window(text, chunkSize, start);
      var lastPeriod := RFind(chunk, '.');
      var lastNewline := RFind(chunk, '\n');
      var breakPoint := Max(lastPeriod, lastNewline);
      BreakPointIsMaxRFind(chunk);
      if breakPoint > start + chunkSize / 2 {
        chunk := text[start..breakPoint + 1];
        end := breakPoint + 1;
      }
    }
  }

  /**
   * The loop of `chunk_text` (main.py:118-143). Its result is `Chunks`; what
   * `Chunks` emits is described by the lemmas below.
   */
  method ChunkText(text: string, chunkSize: nat, overlap: nat) returns (chunks: seq<string>)
    requires ValidParams(chunkSize, overlap)
    ensures chunks == Chunks(text, chunkSize, overlap)
  {
    chunks := [];
    ghost var raw: seq<string> := [];
    ghost var all := RawFrom(text, chunkSize, overlap, 0);
    var start: nat := 0;
    while start < |text|
      invariant raw + RawFrom(text, chunkSize, overlap, start) == all
      invariant chunks == StripAll(raw)
      decreases |text| - start
    {
      var chunk, end := CutWindow(text, chunkSize, start);
      RawStep(text, chunkSize, overlap, start, end, chunk, raw);
      raw := raw + [chunk];
      chunks := chunks + [Strip(chunk)];
      start := end - overlap;
      if start >= |text| {
        break;
      }
    }
    assert RawFrom(text, chunkSize, overlap, start) == [];
    assert raw == all;
  }

  /**
   * Each range starts inside the text, no earlier than `start`, and is
   * nonempty and at most `chunkSize` long.
   */
  predicate InsideText(spans: seq<Span>, text: string, chunkSize: nat, start: nat) {
    forall i :: 0 <= i < |spans| ==>
      && start <= spans[i].start < |text|
      && spans[i].start < spans[i].end <= spans[i].start + chunkSize
  }

  /**
   * The ranges follow each other: the first starts at `start`; each next one
   * starts `overlap` before the previous one's end and strictly after the
   * previous one's start; after the last one the next start is at or past
   * the end of the text.
   */
  predicate Chained(spans: seq<Span>, text: string, overlap: nat, start: nat) {
    && (|spans| > 0 ==> spans[0].start == start)
    && (forall i :: 0 <= i < |spans| - 1 ==>
          spans[i].start < spans[i + 1].start == spans[i].end - overlap)
    && (|spans| > 0 ==> spans[|spans| - 1].end - overlap >= |text|)
  }

  /** `pieces[i]` is the text of range `i`, stripped when `stripped` holds; one piece per range. */
  predicate CutAlong(pieces: seq<string>, spans: seq<Span>, text: string, stripped: bool) {
    && |pieces| == |spans|
    && forall i :: 0 <= i < |spans| ==>
         && spans[i].start <= spans[i].end && spans[i].start <= |text|
         && pieces[i] == (var piece := Slice(text, spans[i].start, spans[i].end);
                          if stripped then Strip(piece) else piece)
  }

  /**
   * Each range the loop visits starts inside the text, no earlier than the
   * loop's start, and is nonempty and at most `chunkSize` long.
   */
  lemma {:induction false} SpansInside(text: string, chunkSize: nat, overlap: nat, start: nat)
    requires ValidParams(chunkSize, overlap)
    ensures InsideText(SpansFrom(text, chunkSize, overlap, start), text, chunkSize, start)
    decreases |text| - start
  {
    if start < |text| {
      var end := WindowEnd(text, chunkSize, start);
      var rest := SpansFrom(text, chunkSize, overlap, end - overlap);
      SpansInside(text, chunkSize, overlap, end - overlap);
      Step(text, chunkSize, overlap, start);
      var spans := SpansFrom(text, chunkSize, overlap, start);
      assert forall i :: 1 <= i < |spans| ==> spans[i] == rest[i - 1];
    }
  }

  /**
   * The ranges follow each other: the first starts where the loop started;
   * each next range starts `overlap` before the previous range's end (so
   * exactly `chunkSize - overlap` later when the window did not snap), and
   * strictly later than the previous start; after the last range the next
   * start is at or past the end of the text.
   */
  lemma {:induction false} SpansChain(text: string, chunkSize: nat, overlap: nat, start: nat)
    requires ValidParams(chunkSize, overlap)
    ensures Chained(SpansFrom(text, chunkSize, overlap, start), text, overlap, start)
    decreases |text| - start
  {
    if start < |text| {
      var end := WindowEnd(text, chunkSize, start);
      var rest := SpansFrom(text, chunkSize, overlap, end - overlap);
      SpansChain(text, chunkSize, overlap, end - overlap);
      var spans := SpansFrom(text, chunkSize, overlap, start);
      assert spans == [Span(start, end)] + rest;
      forall i | 0 <= i < |spans| - 1
        ensures spans[i].start < spans[i + 1].start == spans[i].end - overlap
      {
        assert spans[i + 1] == rest[i];
        if i > 0 {
          assert spans[i] == rest[i - 1];
        }
      }
    }
  }

  /** The raw chunks are exactly the text's ranges visited from `start` on. */
  lemma {:induction false} RawSpans(text: string, chunkSize: nat, overlap: nat, start: nat)
    requires ValidParams(chunkSize, overlap)
    ensures CutAlong(RawFrom(text, chunkSize, overlap, start), SpansFrom(text, chunkSize, overlap, start), text, false)
    decreases |text| - start
  {
    if start < |text| {
      var end := WindowEnd(text, chunkSize, start);
      var rawRest := RawFrom(text, chunkSize, overlap, end - overlap);
      var spanRest := SpansFrom(text, chunkSize, overlap, end - overlap);
      RawSpans(text, chunkSize, overlap, end - overlap);
      assert RawFrom(text, chunkSize, overlap, start) == [Slice(text, start, end)] + rawRest;
      assert SpansFrom(text, chunkSize, overlap, start) == [Span(start, end)] + spanRest;
      CutAlongCons(Slice(text, start, end), Span(start, end), rawRest, spanRest, text);
    }
  }

  /** A raw piece cut along its span, in front of pieces cut along theirs. */
  lemma CutAlongCons(piece: string, span: Span, pieces: seq<string>, spans: seq<Span>, text: string)
    requires span.start <= span.end && span.start <= |text|
    requires piece == Slice(text, span.start, span.end)
    requires CutAlong(pieces, spans, text, false)
    ensures CutAlong([piece] + pieces, [span] + spans, text, false)
  {
    var ps, ss := [piece] + pieces, [span] + spans;
    forall i | 1 <= i < |ss|
      ensures ps[i] == pieces[i - 1] && ss[i] == spans[i - 1]
    {
    }
  }

  /**
   * Chunk `i` is the stripped text of span `i`, so it is never longer than
   * `chunkSize`; there is one chunk per span.
   */
  lemma ChunkSpans(text: string, chunkSize: nat, overlap: nat)
    requires ValidParams(chunkSize, overlap)
    ensures CutAlong(Chunks(text, chunkSize, overlap), SpansFrom(text, chunkSize, overlap, 0), text, true)
    ensures forall i :: 0 <= i < |Chunks(text, chunkSize, overlap)| ==> |Chunks(text, chunkSize, overlap)[i]| <= chunkSize
  {
    RawSpans(text, chunkSize, overlap, 0);
    SpansInside(text, chunkSize, overlap, 0);
    var raw := RawFrom(text, chunkSize, overlap, 0);
    forall i | 0 <= i < |raw|
      ensures Chunks(text, chunkSize, overlap)[i] == Strip(raw[i])
    {
      StripAllIndex(raw, i);
    }
  }

  /** Position `p` lies inside one of `spans`. */
  predicate Covered(spans: seq<Span>, p: nat) {
    exists i :: 0 <= i < |spans| && spans[i].start <= p < spans[i].end
  }

  /**
   * The ranges cover the whole text from `start` on: every character lies
   * inside the span of some chunk.
   */
  lemma {:induction false} SpansCover(text: string, chunkSize: nat, overlap: nat, start: nat, p: nat)
    requires ValidParams(chunkSize, overlap)
    requires start <= p < |text|
    ensures Covered(SpansFrom(text, chunkSize, overlap, start), p)
    decreases |text| - start
  {
    var spans := SpansFrom(text, chunkSize, overlap, start);
    var end := WindowEnd(text, chunkSize, start);
    var rest := SpansFrom(text, chunkSize, overlap, end - overlap);
    assert spans == [Span(start, end)] + rest;
    if p < end {
      assert spans[0].start <= p < spans[0].end;
    } else {
      SpansCover(text, chunkSize, overlap, end - overlap, p);
      var i :| 0 <= i < |rest| && rest[i].start <= p < rest[i].end;
      assert spans[i + 1] == rest[i];
    }
  }

  /**
   * A window that reaches the end of the text is taken whole, and the loop
   * still goes on from `start + chunkSize - overlap`.
   */
  lemma ReachesEnd(text: string, chunkSize: nat, overlap: nat, start: nat)
    requires ValidParams(chunkSize, overlap)
    requires start < |text| <= start + chunkSize
    ensures RawFrom(text, chunkSize, overlap, start)
         == [text[start..]] + RawFrom(text, chunkSize, overlap, start + chunkSize - overlap)
    ensures SpansFrom(text, chunkSize, overlap, start)
         == [Span(start, start + chunkSize)] + SpansFrom(text, chunkSize, overlap, start + chunkSize - overlap)
  {
    assert !Snaps(text, chunkSize, start);
    assert Slice(text, start, start + chunkSize) == text[start..];
  }

  /** A text no longer than one window step is a single chunk: the stripped text. */
  lemma SingleChunk(text: string, chunkSize: nat, overlap: nat)
    requires ValidParams(chunkSize, overlap)
    requires 0 < |text| <= chunkSize - overlap
    ensures Chunks(text, chunkSize, overlap) == [Strip(text)]
  {
    ReachesEnd(text, chunkSize, overlap, 0);
    assert RawFrom(text, chunkSize, overlap, chunkSize - overlap) == [];
    assert RawFrom(text, chunkSize, overlap, 0) == [text];
  }

  /** The raw chunks of a text that fits in one window but is longer than one step. */
  lemma TrailingRaw(text: string, chunkSize: nat, overlap: nat)
    requires ValidParams(chunkSize, overlap)
    requires chunkSize - overlap < |text| <= chunkSize
    ensures RawFrom(text, chunkSize, overlap, 0) == [text, text[chunkSize - overlap..]]
  {
    var second := chunkSize - overlap;
    ReachesEnd(text, chunkSize, overlap, 0);
    ReachesEnd(text, chunkSize, overlap, second);
    assert RawFrom(text, chunkSize, overlap, second + chunkSize - overlap) == [];
  }

  /**
   * A text that fits in one window but is longer than one step yields a second,
   * trailing chunk: the last `|text| - (chunkSize - overlap)` characters again.
   */
  lemma TrailingChunk(text: string, chunkSize: nat, overlap: nat)
    requires ValidParams(chunkSize, overlap)
    requires chunkSize - overlap < |text| <= chunkSize
    ensures Chunks(text, chunkSize, overlap) == [Strip(text), Strip(text[chunkSize - overlap..])]
  {
    TrailingRaw(text, chunkSize, overlap);
    StripAllPair(text, text[chunkSize - overlap..]);
  }

  /** A window without any '.' or '\n' in it is never cut back. */
  lemma NoBreakNoSnap(text: string, chunkSize: nat, start: nat)
    requires 0 < chunkSize && start < |text|
    requires forall k :: start <= k < start + chunkSize && k < |text| ==> !IsBreak(text[k])
    ensures WindowEnd(text, chunkSize, start) == start + chunkSize
  {
    if start + chunkSize < |text| {
      var window := Window(text, chunkSize, start);
      BreakPointSpec(window);
    }
  }

  /**
   * How a window that stops short of the end is cut when its last break lies
   * at index `b` of the window: `b` is compared with the absolute offset
   * `start + chunkSize / 2`, and when it passes, `b + 1` becomes the absolute
   * end, whatever `start` is.
   */
  lemma SnapAt(text: string, chunkSize: nat, start: nat, b: nat)
    requires 0 < chunkSize && start + chunkSize < |text|
    requires b < chunkSize && IsBreak(text[start + b])
    requires forall k :: start + b < k < start + chunkSize ==> !IsBreak(text[k])
    ensures WindowEnd(text, chunkSize, start) == if b > start + chunkSize / 2 then b + 1 else start + chunkSize
  {
    var window := Window(text, chunkSize, start);
    BreakPointSpec(window);
    assert forall k :: 0 <= k < chunkSize ==> window[k] == text[start + k];
    assert BreakPoint(window) == b;
  }

  /** The raw chunks and ranges of 2500 characters without breaks, under the defaults. */
  lemma DefaultSlidingRaw(text: string)
    requires |text| == 2500
    requires forall k :: 0 <= k < |text| ==> !IsBreak(text[k])
    ensures SpansFrom(text, 1000, 200, 0)
         == [Span(0, 1000), Span(800, 1800), Span(1600, 2600), Span(2400, 3400)]
    ensures RawFrom(text, 1000, 200, 0)
         == [text[0..1000], text[800..1800], text[1600..], text[2400..]]
  {
    NoBreakNoSnap(text, 1000, 0);
    NoBreakNoSnap(text, 1000, 800);
    Step(text, 1000, 200, 0);
    Step(text, 1000, 200, 800);
    ReachesEnd(text, 1000, 200, 1600);
    ReachesEnd(text, 1000, 200, 2400);
    assert RawFrom(text, 1000, 200, 3200) == [];
    assert SpansFrom(text, 1000, 200, 3200) == [];
  }

  /**
   * With the defaults, 2500 characters without '.' or '\n' give four windows,
   * starting at 0, 800, 1600 and 2400: the window at 1600 reaches the end of the
   * text, yet the loop goes on once more.
   */
  lemma DefaultSlidingWindow(text: string)
    requires |text| == 2500
    requires forall k :: 0 <= k < |text| ==> !IsBreak(text[k])
    ensures SpansFrom(text, DefaultChunkSize, DefaultOverlap, 0)
         == [Span(0, 1000), Span(800, 1800), Span(1600, 2600), Span(2400, 3400)]
    ensures Chunks(text, DefaultChunkSize, DefaultOverlap)
         == [Strip(text[0..1000]), Strip(text[800..1800]), Strip(text[1600..]), Strip(text[2400..])]
  {
    DefaultSlidingRaw(text);
    var raw := RawFrom(text, 1000, 200, 0);
    assert raw == [raw[0]] + [raw[1], raw[2], raw[3]];
    StripAllPrepend(raw[0], [raw[1], raw[2], raw[3]]);
    assert [raw[1], raw[2], raw[3]] == [raw[1]] + [raw[2], raw[3]];
    StripAllPrepend(raw[1], [raw[2], raw[3]]);
    StripAllPair(raw[2], raw[3]);
  }

  /** A 15-character text whose only breaks are at 6 and 11, as in "aaaaaa.aaaa.bbb". */
  predicate BreaksAt6And11(text: string) {
    && |text| == 15
    && IsBreak(text[6]) && IsBreak(text[11])
    && forall k :: 0 <= k < |text| && k != 6 && k != 11 ==> !IsBreak(text[k])
  }

  /** The raw chunks of such a text with windows of 10 and an overlap of 5. */
  lemma LaterWindowRaw(text: string)
    requires BreaksAt6And11(text)
    ensures RawFrom(text, 10, 5, 0) == [text[0..7], text[2..10], text[5..], text[10..]]
  {
    SnapAt(text, 10, 0, 6);
    SnapAt(text, 10, 2, 9);
    Step(text, 10, 5, 0);
    Step(text, 10, 5, 2);
    ReachesEnd(text, 10, 5, 5);
    ReachesEnd(text, 10, 5, 10);
    assert RawFrom(text, 10, 5, 15) == [];
  }

  /**
   * In a window that does not start at 0, snapping cuts at the break's index
   * within the window taken as an absolute offset. For "aaaaaa.aaaa.bbb" with
   * windows of 10 and an overlap of 5, the first window is cut just after its
   * break at 6, but the window `text[2:12]`, whose last break is at 11, gives
   * the chunk `text[2:10]`, which ends in the middle of a word.
   */
  lemma LaterWindowCutsBesideBreak(text: string)
    requires BreaksAt6And11(text)
    ensures Chunks(text, 10, 5) == [Strip(text[0..7]), Strip(text[2..10]), Strip(text[5..]), Strip(text[10..])]
  {
    LaterWindowRaw(text);
    var raw := RawFrom(text, 10, 5, 0);
    assert raw == [raw[0]] + [raw[1], raw[2], raw[3]];
    StripAllPrepend(raw[0], [raw[1], raw[2], raw[3]]);
    assert [raw[1], raw[2], raw[3]] == [raw[1]] + [raw[2], raw[3]];
    StripAllPrepend(raw[1], [raw[2], raw[3]]);
    StripAllPair(raw[2], raw[3]);
  }

  /** "aaaaaa.aaaa.bbb" is such a text. */
  lemma SampleBreaksAt6And11()
    ensures BreaksAt6And11("aaaaaa.aaaa.bbb")
  {
  }

  /**
   * Without `overlap <= chunkSize / 2` the loop can stall: here the first window
   * snaps to `end == 8`, so an overlap of 8 brings the next start back to 0.
   */
  lemma StallBeyondHalfOverlap()
    ensures WindowEnd("aaaaaaa.aaaa", 10, 0) - 8 == 0
  {
    SnapAt("aaaaaaa.aaaa", 10, 0, 7);
  }

  lemma DefaultsValid()
    ensures ValidParams(DefaultChunkSize, DefaultOverlap)
  {
  }
}
