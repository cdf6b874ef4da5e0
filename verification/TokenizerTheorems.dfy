/** Chunk invariance, exact losslessness, bounded buffering and field fidelity of the tokenizer. */
module TokenizerTheorems {
  import opened Common
  import opened Tokenizer

  // ---- What every reachable scanner satisfies ----

  /** Text is buffered only in ground and a sequence only outside it; a pending
      sequence stays within one code unit of the cap. */
  ghost predicate Reachable(s: Scanner) {
    match s.mode
    case Ground => s.pending == []
    case Esc => s.text == [] && s.pending == [ESC]
    case Csi | Osc | Dcs => s.text == [] && 1 <= |s.pending| <= MAX_SEQUENCE_BYTES
    case OscEsc | DcsEsc => s.text == [] && 2 <= |s.pending| <= MAX_SEQUENCE_BYTES + 1 && s.pending[|s.pending| - 1] == ESC
  }

  lemma StepReachable(s: Scanner, c: CodeUnit)
    requires Reachable(s)
    ensures Reachable(Step(s, c, [c]).next)
  {
  }

  /** An aborted OSC: the OSC without its trailing ESC, then `c` as if after a bare, textless ESC. */
  lemma AbortStep(s: Scanner, c: CodeUnit)
    requires Reachable(s) && s.mode == OscEsc && c != ST_FINAL
    ensures
      var osc, next := ParseOsc(s.pending[..|s.pending| - 1], false), OnEsc(Scanner(Esc, [], []), [c]);
      && Step(s, c, [c]) == Emission(next.next, [osc] + next.out)
      && (next == Emission(Scanner(next.next.mode, [], [c]), []) || next == Emission(Fresh, [EscToken([c], [c])]))
      && (next.out == [] ==> next.next.mode == Csi || next.next.mode == Osc || next.next.mode == Dcs)
  {
    hide ParseOsc;
    assert [] + [c] == [c];
    var restart := OnGround(Reset(s), ESC, []);
    assert restart == Emission(Scanner(Esc, [], []), []);
    var osc, next := ParseOsc(DropLast(s.pending, 1), false), OnEsc(restart.next, [c]);
    assert [osc] + restart.out + next.out == [osc] + next.out;
  }

  lemma {:induction false} FeedReachable(s: Scanner, chunk: Text)
    requires Reachable(s)
    ensures Reachable(Feed(s, chunk).next)
    decreases |chunk|
  {
    if chunk != [] {
      StepReachable(s, chunk[0]);
      FeedReachable(Step(s, chunk[0], [chunk[0]]).next, chunk[1..]);
    }
  }

  /** Over every stream: text is empty outside ground and a pending sequence
      never exceeds 8193 code units. */
  lemma {:induction false} BufferBounded(s: Scanner, chunks: seq<Text>)
    requires Reachable(s)
    ensures
      var e := PushAll(s, chunks).next;
      && Reachable(e) && |e.pending| <= 8193
      && (e.mode != Ground ==> e.text == [])
      && (chunks != [] ==> e.text == [])
    decreases |chunks|
  {
    if chunks != [] {
      FeedReachable(s, chunks[0]);
      BufferBounded(Push(s, chunks[0]).next, chunks[1..]);
    }
  }

  lemma {:induction false} FeedConcat(s: Scanner, a: Text, b: Text)
    ensures
      var e := Feed(s, a);
      Feed(s, a + b) == Emission(Feed(e.next, b).next, e.out + Feed(e.next, b).out)
    decreases |a|
  {
    hide Step;
    if a == [] {
      assert a + b == b;
    } else {
      assert (a + b)[0] == a[0] && (a + b)[1..] == a[1..] + b;
      var e := Step(s, a[0], [a[0]]);
      FeedConcat(e.next, a[1..], b);
    }
  }

  // ---- Merging adjacent text ----

  /** Puts a text run in front of a merged stream. */
  function Prepend(text: Text, ts: seq<Token>): seq<Token> {
    if text == [] then ts
    else if ts != [] && ts[0].TextToken? then [TextToken(text + ts[0].raw)] + ts[1..]
    else [TextToken(text)] + ts
  }

  /** A token stream with adjacent text tokens joined. */
  function Merge(ts: seq<Token>): seq<Token> {
    if ts == [] then []
    else if ts[0].TextToken? then Prepend(ts[0].raw, Merge(ts[1..]))
    else [ts[0]] + Merge(ts[1..])
  }

  lemma PrependTwice(a: Text, b: Text, ts: seq<Token>)
    ensures Prepend(a, Prepend(b, ts)) == Prepend(a + b, ts)
  {
    if a == [] {
      assert a + b == b;
    } else if b == [] {
      assert a + b == a;
    } else if ts != [] && ts[0].TextToken? {
      assert a + (b + ts[0].raw) == a + b + ts[0].raw;
    }
  }

  lemma {:induction false} MergePrefix(pre: seq<Token>, a: seq<Token>, b: seq<Token>)
    requires Merge(a) == Merge(b)
    ensures Merge(pre + a) == Merge(pre + b)
    decreases |pre|
  {
    if pre == [] {
      assert pre + a == a && pre + b == b;
    } else {
      assert (pre + a)[0] == pre[0] && (pre + a)[1..] == pre[1..] + a;
      assert (pre + b)[0] == pre[0] && (pre + b)[1..] == pre[1..] + b;
      MergePrefix(pre[1..], a, b);
    }
  }

  lemma MergeRun(text: Text, ts: seq<Token>)
    ensures Merge(TextRun(text) + ts) == Prepend(text, Merge(ts))
  {
    if text == [] {
      assert TextRun(text) + ts == ts;
    } else {
      assert (TextRun(text) + ts)[0] == TextToken(text) && (TextRun(text) + ts)[1..] == ts;
    }
  }

  // ---- Chunk invariance ----

  /** All tokens from here on, the rest of the stream fed at once. */
  function Remaining(s: Scanner, input: Text): seq<Token> {
    var e := Feed(s, input);
    e.out + Flush(e.next).out
  }

  lemma RemainingStep(s: Scanner, input: Text)
    requires input != []
    ensures
      var e := Step(s, input[0], [input[0]]);
      Remaining(s, input) == e.out + Remaining(e.next, input[1..])
  {
  }

  /** Text that is already buffered comes out in front, merged with what follows. */
  lemma {:induction false} BufferedTextFirst(text: Text, input: Text)
    ensures Merge(Remaining(Scanner(Ground, text, []), input)) == Prepend(text, Merge(Remaining(Fresh, input)))
    decreases |input|
  {
    var s := Scanner(Ground, text, []);
    if input == [] {
      MergeRun(text, []);
      assert Remaining(s, input) == TextRun(text) + [] && Remaining(Fresh, input) == [];
      return;
    }
    var c, rest := input[0], input[1..];
    RemainingStep(s, input);
    RemainingStep(Fresh, input);
    var e, f := Step(s, c, [c]), Step(Fresh, c, [c]);
    if c == ESC || c == BEL {
      assert e.next == f.next;
      var tail := f.out + Remaining(f.next, rest);
      assert e.out + Remaining(e.next, rest) == TextRun(text) + tail;
      MergeRun(text, tail);
    } else {
      assert e.next == Scanner(Ground, text + [c], []) && f.next == Scanner(Ground, [c], []) by { assert [] + [c] == [c]; }
      assert Remaining(s, input) == Remaining(e.next, rest) && Remaining(Fresh, input) == Remaining(f.next, rest);
      BufferedTextFirst(text + [c], rest);
      BufferedTextFirst([c], rest);
      PrependTwice(text, [c], Merge(Remaining(Fresh, rest)));
    }
  }

  /** Flushing the text buffer at a chunk end changes nothing but where text tokens split. */
  lemma FlushPointIrrelevant(s: Scanner, input: Text)
    requires Reachable(s)
    ensures Merge(TextRun(s.text) + Remaining(FlushText(s).next, input)) == Merge(Remaining(s, input))
  {
    if s.mode == Ground {
      BufferedTextFirst(s.text, input);
      MergeRun(s.text, Remaining(FlushText(s).next, input));
      assert s == Scanner(Ground, s.text, []) && FlushText(s).next == Fresh;
    } else {
      assert TextRun(s.text) + Remaining(FlushText(s).next, input) == Remaining(s, input);
    }
  }

  lemma {:induction false} ChunksMerge(s: Scanner, chunks: seq<Text>)
    requires Reachable(s)
    ensures
      var e := PushAll(s, chunks);
      Merge(e.out + Flush(e.next).out) == Merge(Remaining(s, Flatten(chunks)))
    decreases |chunks|
  {
    hide Flush, Merge, Feed, Reachable;
    if chunks == [] {
      assert Remaining(s, []) == Feed(s, []).out + Flush(Feed(s, []).next).out;
      FeedNothing(s);
      return;
    }
    var fed, pushed := Feed(s, chunks[0]), Push(s, chunks[0]);
    var rest := Flatten(chunks[1..]);
    FeedReachable(s, chunks[0]);
    FlushReachable(fed.next);
    ChunksMerge(pushed.next, chunks[1..]);
    FlushPointIrrelevant(fed.next, rest);
    FeedConcat(s, chunks[0], rest);
    var later := PushAll(pushed.next, chunks[1..]);
    ChunkJoin(fed.out, TextRun(fed.next.text), later.out, Flush(later.next).out,
              Remaining(pushed.next, rest), Remaining(fed.next, rest));
    assert fed.out + Feed(fed.next, rest).out + Flush(Feed(fed.next, rest).next).out
        == fed.out + (Feed(fed.next, rest).out + Flush(Feed(fed.next, rest).next).out);
  }

  lemma FeedNothing(s: Scanner)
    ensures Feed(s, []) == Emission(s, [])
  {
  }

  lemma FlushReachable(s: Scanner)
    requires Reachable(s)
    ensures Reachable(FlushText(s).next)
  {
  }

  /** Gluing one pushed chunk to the tokens of the chunks after it. */
  lemma ChunkJoin(fed: seq<Token>, run: seq<Token>, later: seq<Token>, flush: seq<Token>,
                  whole: seq<Token>, all: seq<Token>)
    requires Merge(later + flush) == Merge(whole) && Merge(run + whole) == Merge(all)
    ensures Merge(fed + run + later + flush) == Merge(fed + all)
  {
    hide Merge;
    MergePrefix(fed + run, later + flush, whole);
    MergePrefix(fed, run + whole, all);
    assert fed + run + later + flush == fed + run + (later + flush);
    assert fed + run + whole == fed + (run + whole);
  }

  /**
   * However a stream is cut into chunks, its tokens, every parsed field
   * included, are those of a single push once adjacent text is joined.
   */
  lemma ChunkInvariance(chunks: seq<Text>)
    ensures Merge(Tokens(chunks)) == Merge(Tokens([Flatten(chunks)]))
  {
    ChunksMerge(Fresh, chunks);
    ChunksMerge(Fresh, [Flatten(chunks)]);
    assert Flatten([Flatten(chunks)]) == Flatten(chunks) by {
      assert [Flatten(chunks)][1..] == [];
      assert Flatten([Flatten(chunks)]) == Flatten(chunks) + Flatten<CodeUnit>([]) == Flatten(chunks);
    }
  }

  /** Two cuts of one stream give one merged token stream. */
  lemma SameStreamSameTokens(a: seq<Text>, b: seq<Text>)
    requires Flatten(a) == Flatten(b)
    ensures Merge(Tokens(a)) == Merge(Tokens(b))
  {
    ChunkInvariance(a);
    ChunkInvariance(b);
  }

  // ---- Losslessness ----

  function Raws(ts: seq<Token>): Text {
    if ts == [] then [] else ts[0].raw + Raws(ts[1..])
  }

  predicate Aborted(t: Token) { t.OscToken? && !t.terminated }

  function AbortCount(ts: seq<Token>): nat {
    if ts == [] then 0 else (if Aborted(ts[0]) then 1 else 0) + AbortCount(ts[1..])
  }

  /** The raws, with one ESC put back after every aborted OSC. */
  function Rebuild(ts: seq<Token>): Text {
    if ts == [] then []
    else ts[0].raw + (if Aborted(ts[0]) then [ESC] else []) + Rebuild(ts[1..])
  }

  lemma {:induction false} RebuildConcat(a: seq<Token>, b: seq<Token>)
    ensures Rebuild(a + b) == Rebuild(a) + Rebuild(b)
    ensures Raws(a + b) == Raws(a) + Raws(b)
    ensures AbortCount(a + b) == AbortCount(a) + AbortCount(b)
    decreases |a|
  {
    if a == [] {
      assert a + b == b;
    } else {
      assert (a + b)[0] == a[0] && (a + b)[1..] == a[1..] + b;
      RebuildConcat(a[1..], b);
    }
  }

  /** Rebuilding adds exactly one code unit per aborted OSC. */
  lemma {:induction false} RebuildLength(ts: seq<Token>)
    ensures |Rebuild(ts)| == |Raws(ts)| + AbortCount(ts)
    ensures AbortCount(ts) == 0 ==> Rebuild(ts) == Raws(ts)
    decreases |ts|
  {
    if ts != [] { RebuildLength(ts[1..]); }
  }

  function Held(s: Scanner): Text { s.text + s.pending }

  lemma RebuildOne(t: Token)
    ensures Rebuild([t]) == t.raw + (if Aborted(t) then [ESC] else [])
    ensures Raws([t]) == t.raw
  {
  }

  lemma RebuildText(text: Text)
    ensures Rebuild(TextRun(text)) == text && Raws(TextRun(text)) == text
  {
  }

  /** One code unit is either in what came out or in what is held, and an
      aborted OSC takes exactly its ESC away. */
  lemma StepLossless(s: Scanner, c: CodeUnit)
    requires Reachable(s)
    ensures var e := Step(s, c, [c]); Held(s) + [c] == Rebuild(e.out) + Held(e.next)
  {
    if s.mode == Ground {
      GroundLossless(s, c);
    } else if s.mode == OscEsc && c != ST_FINAL {
      AbortLossless(s, c);
    } else {
      SequenceLossless(s, c);
    }
  }

  lemma GroundLossless(s: Scanner, c: CodeUnit)
    requires Reachable(s) && s.mode == Ground
    ensures var e := OnGround(s, c, [c]); Held(s) + [c] == Rebuild(e.out) + Held(e.next)
  {
    RebuildText(s.text);
    RebuildConcat(TextRun(s.text), [ExecuteToken([c], c)]);
    RebuildOne(ExecuteToken([c], c));
    assert Held(s) == s.text;
  }

  /** What follows a replayed, textless ESC accounts for exactly one code unit. */
  lemma AfterAbort(c: CodeUnit)
    ensures var next := OnEsc(Scanner(Esc, [], []), [c]); Rebuild(next.out) + Held(next.next) == [c]
  {
  }

  lemma OscRaw(whole: Text, terminated: bool)
    ensures ParseOsc(whole, terminated).raw == whole && ParseOsc(whole, terminated).OscToken?
    ensures Aborted(ParseOsc(whole, terminated)) <==> !terminated
  {
  }

  lemma AbortLossless(s: Scanner, c: CodeUnit)
    requires Reachable(s) && s.mode == OscEsc && c != ST_FINAL
    ensures var e := Step(s, c, [c]); Held(s) + [c] == Rebuild(e.out) + Held(e.next)
  {
    hide Step, ParseOsc, Rebuild, OnEsc, Aborted;
    var body := s.pending[..|s.pending| - 1];
    var osc, next := ParseOsc(body, false), OnEsc(Scanner(Esc, [], []), [c]);
    assert Held(s) == body + [ESC];
    AbortStep(s, c);
    OscRaw(body, false);
    hide *;
    RebuildOne(osc);
    RebuildConcat([osc], next.out);
    AfterAbort(c);
    JoinHeld(body + [ESC], [], Rebuild([osc]), [], [c], Rebuild(next.out), Held(next.next));
    assert [] + [c] == [c];
  }

  /** Inside a sequence a step emits at most one token, whose raw is all that was held. */
  lemma SequenceStep(s: Scanner, c: CodeUnit)
    requires Reachable(s) && s.mode != Ground && !(s.mode == OscEsc && c != ST_FINAL)
    ensures
      var e := Step(s, c, [c]);
      || (e.out == [] && e.next.text == [] && e.next.pending == s.pending + [c])
      || (|e.out| == 1 && e.out[0].raw == s.pending + [c] && !Aborted(e.out[0]) && e.next == Fresh)
  {
  }

  lemma SequenceLossless(s: Scanner, c: CodeUnit)
    requires Reachable(s) && s.mode != Ground && !(s.mode == OscEsc && c != ST_FINAL)
    ensures var e := Step(s, c, [c]); Held(s) + [c] == Rebuild(e.out) + Held(e.next)
  {
    hide Step;
    SequenceStep(s, c);
    var e := Step(s, c, [c]);
    assert Held(s) == s.pending;
    if e.out != [] {
      RebuildOne(e.out[0]);
      assert e.out == [e.out[0]];
    }
  }

  lemma {:induction false} FeedLossless(s: Scanner, chunk: Text)
    requires Reachable(s)
    ensures var e := Feed(s, chunk); Held(s) + chunk == Rebuild(e.out) + Held(e.next)
    decreases |chunk|
  {
    hide Step, Reachable, Held, Rebuild;
    if chunk == [] {
      RebuildText([]);
      assert Rebuild([]) == [] && Held(s) + [] == Held(s) == [] + Held(s);
      return;
    }
    var c, rest := chunk[0], chunk[1..];
    var e := Step(s, c, [c]);
    StepLossless(s, c);
    StepReachable(s, c);
    FeedLossless(e.next, rest);
    var r := Feed(e.next, rest);
    RebuildConcat(e.out, r.out);
    assert chunk == [c] + rest;
    JoinHeld(Held(s), [c], Rebuild(e.out), Held(e.next), rest, Rebuild(r.out), Held(r.next));
  }

  lemma JoinHeld(before: Text, first: Text, out: Text, held: Text, rest: Text, later: Text, after: Text)
    requires before + first == out + held && held + rest == later + after
    ensures before + (first + rest) == out + later + after
  {
    calc {
      before + (first + rest);
      before + first + rest;
      out + held + rest;
      out + (held + rest);
      out + (later + after);
      out + later + after;
    }
  }

  lemma PushLossless(s: Scanner, chunk: Text)
    requires Reachable(s)
    ensures var e := Push(s, chunk); Reachable(e.next) && Held(s) + chunk == Rebuild(e.out) + Held(e.next)
  {
    hide Feed, Step, Reachable, Rebuild, TextRun;
    var fed := Feed(s, chunk);
    FeedLossless(s, chunk);
    FeedReachable(s, chunk);
    FlushReachable(fed.next);
    RebuildText(fed.next.text);
    RebuildConcat(fed.out, TextRun(fed.next.text));
    assert Rebuild(fed.out) + (fed.next.text + fed.next.pending) == Rebuild(fed.out) + fed.next.text + fed.next.pending;
    assert [] + fed.next.pending == fed.next.pending;
  }

  lemma {:induction false} PushesLossless(s: Scanner, chunks: seq<Text>)
    requires Reachable(s)
    ensures
      var e := PushAll(s, chunks);
      Held(s) + Flatten(chunks) == Rebuild(e.out) + Held(e.next)
    decreases |chunks|
  {
    hide Push, Reachable, Held, Rebuild;
    if chunks == [] {
      RebuildText([]);
      assert Rebuild([]) == [] && Held(s) + [] == Held(s) == [] + Held(s);
      return;
    }
    var e := Push(s, chunks[0]);
    PushLossless(s, chunks[0]);
    PushesLossless(e.next, chunks[1..]);
    var r := PushAll(e.next, chunks[1..]);
    RebuildConcat(e.out, r.out);
    JoinHeld(Held(s), chunks[0], Rebuild(e.out), Held(e.next), Flatten(chunks[1..]), Rebuild(r.out), Held(r.next));
  }

  lemma FlushLossless(s: Scanner)
    requires Reachable(s)
    ensures Raws(Flush(s).out) == Held(s)
  {
  }

  /**
   * The exact losslessness of every stream: the input is the raws of the
   * pushed tokens with one ESC put back after each OSC that a push ended
   * unterminated, followed by the raws of the flushed tokens.
   */
  lemma ExactLosslessness(chunks: seq<Text>)
    ensures
      var e := PushAll(Fresh, chunks);
      Flatten(chunks) == Rebuild(e.out) + Raws(Flush(e.next).out)
  {
    PushesLossless(Fresh, chunks);
    BufferBounded(Fresh, chunks);
    FlushLossless(PushAll(Fresh, chunks).next);
  }

  /** The raws reproduce the input exactly when no pushed OSC was aborted; each
      aborted one costs exactly one code unit. */
  lemma LosslessIff(chunks: seq<Text>)
    ensures
      var e := PushAll(Fresh, chunks);
      && (Raws(Tokens(chunks)) == Flatten(chunks) <==> AbortCount(e.out) == 0)
      && |Raws(Tokens(chunks))| + AbortCount(e.out) == |Flatten(chunks)|
  {
    var e := PushAll(Fresh, chunks);
    ExactLosslessness(chunks);
    RebuildLength(e.out);
    RebuildConcat(e.out, Flush(e.next).out);
  }

  // ---- Which inputs abort an OSC ----

  /** A scan of the input that keeps no buffer: the mode and the length of the pending sequence. */
  datatype Trace = Trace(mode: Mode, size: nat)

  function Capped(mode: Mode, size: nat): Trace {
    if size > 8192 then Trace(Ground, 0) else Trace(mode, size)
  }

  function AfterEsc(size: nat, c: CodeUnit): Trace {
    if c == CSI_INTRO then Trace(Csi, size + 1)
    else if c == OSC_INTRO then Trace(Osc, size + 1)
    else if c == DCS_INTRO then Trace(Dcs, size + 1)
    else Trace(Ground, 0)
  }

  function Advance(t: Trace, c: CodeUnit): Trace {
    match t.mode
    case Ground => if c == ESC then Trace(Esc, 1) else t
    case Esc => AfterEsc(t.size, c)
    case Csi => if 0x40 <= c <= 0x7e then Trace(Ground, 0) else Capped(Csi, t.size + 1)
    case Osc =>
      if c == BEL then Trace(Ground, 0)
      else if c == ESC then Trace(OscEsc, t.size + 1)
      else Capped(Osc, t.size + 1)
    case OscEsc => if c == ST_FINAL then Trace(Ground, 0) else AfterEsc(0, c)
    case Dcs => if c == ESC then Trace(DcsEsc, t.size + 1) else Capped(Dcs, t.size + 1)
    case DcsEsc => if c == ST_FINAL then Trace(Ground, 0) else Capped(Dcs, t.size + 1)
  }

  /** How many OSCs of the input are cut off by an ESC that no backslash follows. */
  function AbortsIn(t: Trace, input: Text): nat
    decreases |input|
  {
    if input == [] then 0
    else (if t.mode == OscEsc && input[0] != ST_FINAL then 1 else 0) + AbortsIn(Advance(t, input[0]), input[1..])
  }

  function TraceOf(s: Scanner): Trace { Trace(s.mode, |s.pending|) }

  lemma CountOne(t: Token)
    ensures AbortCount([t]) == if Aborted(t) then 1 else 0
  {
  }

  lemma StepTrace(s: Scanner, c: CodeUnit)
    requires Reachable(s)
    ensures TraceOf(Step(s, c, [c]).next) == Advance(TraceOf(s), c)
    ensures AbortCount(Step(s, c, [c]).out) == if s.mode == OscEsc && c != ST_FINAL then 1 else 0
  {
    var e := Step(s, c, [c]);
    if s.mode == OscEsc && c != ST_FINAL {
      AbortStep(s, c);
      var osc, next := ParseOsc(s.pending[..|s.pending| - 1], false), OnEsc(Scanner(Esc, [], []), [c]);
      RebuildConcat([osc], next.out);
      CountOne(osc);
      CountOne(EscToken([c], [c]));
    } else if s.mode == Ground {
      RebuildConcat(TextRun(s.text), [ExecuteToken([c], c)]);
      CountOne(TextToken(s.text));
      CountOne(ExecuteToken([c], c));
    } else {
      SequenceStep(s, c);
      if e.out != [] { CountOne(e.out[0]); assert e.out == [e.out[0]]; }
    }
  }

  lemma {:induction false} FeedTrace(s: Scanner, input: Text)
    requires Reachable(s)
    ensures TraceOf(Feed(s, input).next) == AdvanceAll(TraceOf(s), input)
    ensures AbortCount(Feed(s, input).out) == AbortsIn(TraceOf(s), input)
    decreases |input|
  {
    hide Step, Reachable, Advance;
    if input == [] { return; }
    var e := Step(s, input[0], [input[0]]);
    StepTrace(s, input[0]);
    StepReachable(s, input[0]);
    FeedTrace(e.next, input[1..]);
    RebuildConcat(e.out, Feed(e.next, input[1..]).out);
  }

  function AdvanceAll(t: Trace, input: Text): Trace
    decreases |input|
  {
    if input == [] then t else AdvanceAll(Advance(t, input[0]), input[1..])
  }

  lemma {:induction false} AbortsConcat(t: Trace, a: Text, b: Text)
    ensures AbortsIn(t, a + b) == AbortsIn(t, a) + AbortsIn(AdvanceAll(t, a), b)
    decreases |a|
  {
    hide Advance;
    if a == [] {
      assert a + b == b;
    } else {
      assert (a + b)[0] == a[0] && (a + b)[1..] == a[1..] + b;
      AbortsConcat(Advance(t, a[0]), a[1..], b);
    }
  }

  lemma {:induction false} PushesTrace(s: Scanner, chunks: seq<Text>)
    requires Reachable(s)
    ensures AbortCount(PushAll(s, chunks).out) == AbortsIn(TraceOf(s), Flatten(chunks))
    decreases |chunks|
  {
    if chunks == [] { return; }
    var fed, pushed := Feed(s, chunks[0]), Push(s, chunks[0]);
    FeedTrace(s, chunks[0]);
    FeedReachable(s, chunks[0]);
    PushesTrace(pushed.next, chunks[1..]);
    AbortsConcat(TraceOf(s), chunks[0], Flatten(chunks[1..]));
    CountOne(TextToken(fed.next.text));
    RebuildConcat(fed.out, TextRun(fed.next.text));
    RebuildConcat(pushed.out, PushAll(pushed.next, chunks[1..]).out);
  }

  /** The header's promise holds of an input, for every way of cutting it,
      exactly when the input aborts no OSC. */
  lemma LosslessInputs(chunks: seq<Text>)
    ensures Raws(Tokens(chunks)) == Flatten(chunks) <==> AbortsIn(Trace(Ground, 0), Flatten(chunks)) == 0
  {
    PushesTrace(Fresh, chunks);
    LosslessIff(chunks);
  }

  // ---- Skipping a chunk ----

  /** No code unit that could start a sequence or be a token of its own. */
  predicate MarkerFree(chunk: Text) { ESC !in chunk && BEL !in chunk }

  lemma {:induction false} GroundSkips(s: Scanner, chunk: Text)
    requires s.mode == Ground && s.pending == [] && MarkerFree(chunk)
    ensures Feed(s, chunk) == Emission(s.(text := s.text + chunk), [])
    decreases |chunk|
  {
    if chunk == [] {
      assert s.text + chunk == s.text;
    } else {
      assert chunk[0] in chunk && (forall c :: c in chunk[1..] ==> c in chunk);
      assert s.text + [chunk[0]] + chunk[1..] == s.text + chunk;
      GroundSkips(s.(text := s.text + [chunk[0]]), chunk[1..]);
    }
  }

  ghost predicate Inside(mode: Mode) { mode == Csi || mode == Osc || mode == Dcs }

  /** Inside a sequence every such code unit ends it or lengthens it. */
  lemma {:induction false} InsideGrows(s: Scanner, chunk: Text)
    requires Reachable(s) && (Inside(s.mode) || s.mode == Ground) && MarkerFree(chunk)
    ensures
      var e := Feed(s, chunk).next;
      e.mode == Ground || (Inside(e.mode) && e.mode == s.mode && |e.pending| == |s.pending| + |chunk|)
    decreases |chunk|
  {
    if chunk != [] {
      assert chunk[0] in chunk && (forall c :: c in chunk[1..] ==> c in chunk);
      StepReachable(s, chunk[0]);
      InsideGrows(Step(s, chunk[0], [chunk[0]]).next, chunk[1..]);
    }
  }

  lemma FirstInside(s: Scanner, c: CodeUnit)
    requires Reachable(s) && s.mode != Ground && c != ESC && c != BEL
    ensures
      var e := Step(s, c, [c]).next;
      && Reachable(e) && (e.mode == Ground || Inside(e.mode))
      && (e.mode == s.mode ==> |e.pending| > |s.pending|)
  {
    StepReachable(s, c);
  }

  /**
   * What `HasPending` tells a caller between two pushes: a chunk without ESC
   * and BEL may be passed on unseen, as one text token, exactly when nothing is
   * pending. Otherwise skipping it would lose part of a sequence.
   */
  lemma SkipSafeIff(s: Scanner, chunk: Text)
    requires Reachable(s) && s.text == [] && chunk != [] && MarkerFree(chunk)
    ensures Push(s, chunk) == Emission(s, [TextToken(chunk)]) <==> !Pending(s)
  {
    if s.mode == Ground {
      GroundSkips(s, chunk);
      assert [] + chunk == chunk;
    } else {
      PendingMoves(s, chunk);
      hide Feed;
    }
  }

  /** Inside a sequence such a chunk always changes what is held. */
  lemma PendingMoves(s: Scanner, chunk: Text)
    requires Reachable(s) && s.mode != Ground && chunk != [] && MarkerFree(chunk)
    ensures
      var e := Feed(s, chunk).next;
      e.mode == Ground || e.mode != s.mode || |e.pending| > |s.pending|
  {
    hide Step;
    assert chunk[0] in chunk && (forall c :: c in chunk[1..] ==> c in chunk);
    FirstInside(s, chunk[0]);
    InsideGrows(Step(s, chunk[0], [chunk[0]]).next, chunk[1..]);
  }

  // ---- After a flush ----

  /**
   * A flush keeps the sequence it emitted: a second one emits the same code
   * units again, now as text, and only if there was a sequence.
   */
  lemma SecondFlush(s: Scanner)
    ensures
      var once := Flush(s);
      && Flush(once.next) == Emission(once.next, if s.pending == [] then [] else [TextToken(s.pending)])
      && Raws(Flush(once.next).out) == s.pending
      && (Pending(once.next) <==> s.pending != [])
  {
    assert TextRun([]) == [];
    RebuildOne(TextToken(s.pending));
  }

  lemma {:induction false} StaleFeed(text: Text, stale: Text, chunk: Text)
    ensures
      var kept, clean := Feed(Scanner(Ground, text, stale), chunk), Feed(Scanner(Ground, text, []), chunk);
      && kept.out == clean.out
      && (if ESC in chunk then kept.next == clean.next
          else kept.next.mode == Ground && kept.next.pending == stale && clean.next == kept.next.(pending := []))
    decreases |chunk|
  {
    if chunk != [] && chunk[0] != ESC {
      assert ESC in chunk <==> ESC in chunk[1..];
      StaleFeed(if chunk[0] == BEL then [] else text + [chunk[0]], stale, chunk[1..]);
    }
  }

  /**
   * A push after a flush: the tokens are those of a fresh scanner, and so is
   * what is held, exactly when nothing was pending or the chunk has an ESC,
   * which overwrites the stale sequence.
   */
  lemma PushAfterFlush(s: Scanner, chunk: Text)
    ensures
      var kept, clean := Push(Flush(s).next, chunk), Push(Fresh, chunk);
      && kept.out == clean.out
      && (kept == clean <==> s.pending == [] || ESC in chunk)
  {
    StaleFeed([], s.pending, chunk);
  }
}
