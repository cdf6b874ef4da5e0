/**
 * Which tokens an input contains: every token that is not text, with its kind
 * and raw, read off a scan of the input that knows only the mode and the length
 * of the pending sequence.
 */
module TokenizerMarks {
  import opened Common
  import opened Tokenizer
  import opened TokenizerTheorems

  datatype Kind =
    | Executed(code: CodeUnit)
    | Escape(final: Text)
    | ControlSequence
    | OperatingSystem(terminated: bool)
    | DeviceControl(terminated: bool)

  datatype Mark = Mark(kind: Kind, raw: Text)

  // ---- The marks of a token stream ----

  function MarkOf(t: Token): seq<Mark> {
    match t
    case ExecuteToken(raw, code) => [Mark(Executed(code), raw)]
    case CsiToken(raw, _, _, _) => [Mark(ControlSequence, raw)]
    case OscToken(raw, _, _, terminated) => [Mark(OperatingSystem(terminated), raw)]
    case DcsToken(raw, _, terminated) => [Mark(DeviceControl(terminated), raw)]
    case EscToken(raw, final) => [Mark(Escape(final), raw)]
    case TextToken(_) => []
  }

  function Marks(ts: seq<Token>): seq<Mark> {
    if ts == [] then [] else MarkOf(ts[0]) + Marks(ts[1..])
  }

  lemma {:induction false} MarksConcat(a: seq<Token>, b: seq<Token>)
    ensures Marks(a + b) == Marks(a) + Marks(b)
    decreases |a|
  {
    if a == [] {
      assert a + b == b;
    } else {
      assert (a + b)[0] == a[0] && (a + b)[1..] == a[1..] + b;
      MarksConcat(a[1..], b);
    }
  }

  lemma MarksOne(t: Token)
    ensures Marks([t]) == MarkOf(t)
  {
    assert [t][1..] == [];
  }

  lemma MarksText(text: Text)
    ensures Marks(TextRun(text)) == []
  {
    MarksOne(TextToken(text));
  }

  // ---- The marks of an input ----

  predicate Introduces(c: CodeUnit) { c == CSI_INTRO || c == OSC_INTRO || c == DCS_INTRO }

  /** The marks that `c` completes behind `seen`, of which the last `t.size` code units are pending. */
  function MarkAt(t: Trace, seen: Text, c: CodeUnit): seq<Mark>
    requires t.size <= |seen|
  {
    var start := |seen| - t.size;
    var whole := seen[start..] + [c];
    match t.mode
    case Ground => if c == BEL then [Mark(Executed(BEL), [BEL])] else []
    case Esc => if Introduces(c) then [] else [Mark(Escape([c]), whole)]
    case Csi => if 0x40 <= c <= 0x7e then [Mark(ControlSequence, whole)] else []
    case Osc => if c == BEL then [Mark(OperatingSystem(true), whole)] else []
    case OscEsc =>
      if c == ST_FINAL then [Mark(OperatingSystem(true), whole)]
      else [Mark(OperatingSystem(false), DropLast(seen[start..], 1))] + (if Introduces(c) then [] else [Mark(Escape([c]), [c])])
    case Dcs => []
    case DcsEsc => if c == ST_FINAL then [Mark(DeviceControl(true), whole)] else []
  }

  lemma AdvanceSize(t: Trace, c: CodeUnit)
    ensures Advance(t, c).size <= t.size + 1
  {
  }

  /** All marks completed in `input` behind `seen`. */
  function MarksIn(t: Trace, seen: Text, input: Text): seq<Mark>
    requires t.size <= |seen|
    decreases |input|
  {
    if input == [] then []
    else
      AdvanceSize(t, input[0]);
      MarkAt(t, seen, input[0]) + MarksIn(Advance(t, input[0]), seen + [input[0]], input[1..])
  }

  lemma {:induction false} AdvanceAllSize(t: Trace, input: Text)
    ensures AdvanceAll(t, input).size <= t.size + |input|
    decreases |input|
  {
    if input != [] {
      AdvanceSize(t, input[0]);
      AdvanceAllSize(Advance(t, input[0]), input[1..]);
    }
  }

  lemma {:induction false} MarksInConcat(t: Trace, seen: Text, a: Text, b: Text)
    requires t.size <= |seen|
    ensures AdvanceAll(t, a).size <= |seen + a|
    ensures MarksIn(t, seen, a + b) == MarksIn(t, seen, a) + MarksIn(AdvanceAll(t, a), seen + a, b)
    decreases |a|
  {
    hide Advance, MarkAt;
    AdvanceAllSize(t, a);
    if a == [] {
      assert a + b == b && seen + a == seen;
    } else {
      AdvanceSize(t, a[0]);
      assert (a + b)[0] == a[0] && (a + b)[1..] == a[1..] + b;
      assert seen + [a[0]] + a[1..] == seen + a;
      MarksInConcat(Advance(t, a[0]), seen + [a[0]], a[1..], b);
    }
  }

  // ---- One code unit ----

  /** What is pending is the end of what was read. */
  ghost predicate Holds(s: Scanner, seen: Text) {
    Reachable(s) && |s.pending| <= |seen| && s.pending == seen[|seen| - |s.pending|..]
  }

  lemma PendingMoves(s: Scanner, c: CodeUnit)
    requires Reachable(s)
    ensures
      var p := Step(s, c, [c]).next.pending;
      p == s.pending + [c] || p == [c] || p == []
  {
    hide ParseCsi, ParseOsc, ParseDcs;
    if s.mode == OscEsc && c != ST_FINAL { AbortStep(s, c); }
  }

  lemma StepHolds(s: Scanner, seen: Text, c: CodeUnit)
    requires Holds(s, seen)
    ensures Holds(Step(s, c, [c]).next, seen + [c])
  {
    StepReachable(s, c);
    PendingMoves(s, c);
    hide Step, Reachable;
    assert s.pending + [c] == (seen + [c])[|seen| - |s.pending|..];
    assert [c] == (seen + [c])[|seen|..] && [] == (seen + [c])[|seen| + 1..];
  }

  lemma ParsedKinds(raw: Text, terminated: bool)
    ensures MarkOf(ParseCsi(raw)) == [Mark(ControlSequence, raw)]
    ensures MarkOf(ParseOsc(raw, terminated)) == [Mark(OperatingSystem(terminated), raw)]
    ensures MarkOf(ParseDcs(raw, terminated)) == [Mark(DeviceControl(terminated), raw)]
  {
    hide Decimal, AllDigits, OscInner;
  }

  lemma StepMarks(s: Scanner, seen: Text, c: CodeUnit)
    requires Holds(s, seen)
    ensures Marks(Step(s, c, [c]).out) == MarkAt(TraceOf(s), seen, c)
  {
    hide ParseCsi, ParseOsc, ParseDcs, Marks;
    var e, whole := Step(s, c, [c]), s.pending + [c];
    ParsedKinds(whole, true);
    assert Marks([]) == [] by { MarksText([]); }
    if s.mode == Ground {
      GroundMarks(s, seen, c);
    } else if s.mode == OscEsc && c != ST_FINAL {
      AbortMarks(s, seen, c);
    } else {
      SequenceStep(s, c);
      if e.out != [] {
        MarksOne(e.out[0]);
        assert e.out == [e.out[0]];
      }
    }
  }

  lemma GroundMarks(s: Scanner, seen: Text, c: CodeUnit)
    requires Holds(s, seen) && s.mode == Ground
    ensures Marks(Step(s, c, [c]).out) == MarkAt(TraceOf(s), seen, c)
  {
    hide Marks;
    MarksText(s.text);
    MarksText([]);
    MarksOne(ExecuteToken([c], c));
    MarksConcat(TextRun(s.text), [ExecuteToken([c], c)]);
  }

  lemma AbortMarks(s: Scanner, seen: Text, c: CodeUnit)
    requires Holds(s, seen) && s.mode == OscEsc && c != ST_FINAL
    ensures Marks(Step(s, c, [c]).out) == MarkAt(TraceOf(s), seen, c)
  {
    hide ParseOsc, Marks, Step;
    var body := s.pending[..|s.pending| - 1];
    var osc, next := ParseOsc(body, false), OnEsc(Scanner(Esc, [], []), [c]);
    AbortStep(s, c);
    ParsedKinds(body, false);
    MarksOne(osc);
    MarksOne(EscToken([c], [c]));
    MarksText([]);
    MarksConcat([osc], next.out);
  }

  // ---- Whole streams ----

  lemma {:induction false} FeedMarks(s: Scanner, seen: Text, input: Text)
    requires Holds(s, seen)
    ensures Holds(Feed(s, input).next, seen + input)
    ensures Marks(Feed(s, input).out) == MarksIn(TraceOf(s), seen, input)
    decreases |input|
  {
    hide Step, Holds, Advance, MarkAt, Reachable;
    assert |s.pending| <= |seen| && Reachable(s) by { HeldSize(s, seen); }
    if input == [] {
      assert seen + input == seen;
      MarksText([]);
      return;
    }
    var c := input[0];
    var e := Step(s, c, [c]);
    StepTrace(s, c);
    StepHolds(s, seen, c);
    StepMarks(s, seen, c);
    FeedMarks(e.next, seen + [c], input[1..]);
    MarksConcat(e.out, Feed(e.next, input[1..]).out);
    assert seen + [c] + input[1..] == seen + input;
  }

  lemma HeldSize(s: Scanner, seen: Text)
    requires Holds(s, seen)
    ensures TraceOf(s).size == |s.pending| <= |seen| && Reachable(s)
  {
  }

  lemma PushMarks(s: Scanner, seen: Text, chunk: Text)
    requires Holds(s, seen)
    ensures Holds(Push(s, chunk).next, seen + chunk)
    ensures TraceOf(Push(s, chunk).next) == AdvanceAll(TraceOf(s), chunk)
    ensures Marks(Push(s, chunk).out) == MarksIn(TraceOf(s), seen, chunk)
  {
    hide Feed, MarksIn;
    var fed := Feed(s, chunk);
    FeedMarks(s, seen, chunk);
    FeedTrace(s, chunk);
    MarksText(fed.next.text);
    MarksConcat(fed.out, TextRun(fed.next.text));
    assert Marks(fed.out) + [] == Marks(fed.out);
  }

  lemma {:induction false} PushAllMarks(s: Scanner, seen: Text, chunks: seq<Text>)
    requires Holds(s, seen)
    ensures
      var e := PushAll(s, chunks);
      && Holds(e.next, seen + Flatten(chunks))
      && TraceOf(e.next) == AdvanceAll(TraceOf(s), Flatten(chunks))
      && Marks(e.out) == MarksIn(TraceOf(s), seen, Flatten(chunks))
    decreases |chunks|
  {
    hide *;
    HeldSize(s, seen);
    if chunks == [] {
      PushNothing(s, seen);
      return;
    }
    var e, rest := Push(s, chunks[0]), Flatten(chunks[1..]);
    var r := PushAll(e.next, chunks[1..]);
    PushAllStep(s, chunks);
    PushMarks(s, seen, chunks[0]);
    HeldSize(e.next, seen + chunks[0]);
    PushAllMarks(e.next, seen + chunks[0], chunks[1..]);
    MarksConcat(e.out, r.out);
    MarksInConcat(TraceOf(s), seen, chunks[0], rest);
    AdvanceConcat(TraceOf(s), chunks[0], rest);
    assert seen + chunks[0] + rest == seen + (chunks[0] + rest);
  }

  lemma PushNothing(s: Scanner, seen: Text)
    requires Holds(s, seen)
    ensures TraceOf(s).size <= |seen|
    ensures
      var e := PushAll(s, []);
      && Holds(e.next, seen + Flatten<CodeUnit>([])) && TraceOf(e.next) == AdvanceAll(TraceOf(s), Flatten<CodeUnit>([]))
      && Marks(e.out) == MarksIn(TraceOf(s), seen, Flatten<CodeUnit>([]))
  {
    assert seen + [] == seen;
    MarksText([]);
  }

  lemma PushAllStep(s: Scanner, chunks: seq<Text>)
    requires chunks != []
    ensures
      var e := Push(s, chunks[0]);
      var r := PushAll(e.next, chunks[1..]);
      PushAll(s, chunks) == Emission(r.next, e.out + r.out) && Flatten(chunks) == chunks[0] + Flatten(chunks[1..])
  {
  }

  lemma {:induction false} AdvanceConcat(t: Trace, a: Text, b: Text)
    ensures AdvanceAll(t, a + b) == AdvanceAll(AdvanceAll(t, a), b)
    decreases |a|
  {
    hide Advance;
    if a == [] {
      assert a + b == b;
    } else {
      assert (a + b)[0] == a[0] && (a + b)[1..] == a[1..] + b;
      AdvanceConcat(Advance(t, a[0]), a[1..], b);
    }
  }

  /**
   * However a stream is cut, its pushed tokens that are not text are exactly
   * the marks of the input, in order, with the raw text they have there: one
   * execute token for each BEL met in ground, one escape, control sequence or
   * device control for each one completed, one terminated OSC for each BEL or
   * backslash that ends it and an unterminated one for each that is aborted.
   */
  lemma PushedMarks(chunks: seq<Text>)
    ensures Marks(PushAll(Fresh, chunks).out) == MarksIn(Trace(Ground, 0), [], Flatten(chunks))
  {
    PushAllMarks(Fresh, [], chunks);
  }

  /** The marks of the ground bells of an input. */
  function Bells(t: Trace, input: Text): nat
    decreases |input|
  {
    if input == [] then 0
    else (if t.mode == Ground && input[0] == BEL then 1 else 0) + Bells(Advance(t, input[0]), input[1..])
  }

  function ExecuteCount(marks: seq<Mark>): nat {
    if marks == [] then 0 else (if marks[0].kind.Executed? then 1 else 0) + ExecuteCount(marks[1..])
  }

  lemma {:induction false} ExecuteConcat(a: seq<Mark>, b: seq<Mark>)
    ensures ExecuteCount(a + b) == ExecuteCount(a) + ExecuteCount(b)
    decreases |a|
  {
    if a == [] {
      assert a + b == b;
    } else {
      assert (a + b)[0] == a[0] && (a + b)[1..] == a[1..] + b;
      ExecuteConcat(a[1..], b);
    }
  }

  lemma {:induction false} BellsCounted(t: Trace, seen: Text, input: Text)
    requires t.size <= |seen|
    ensures ExecuteCount(MarksIn(t, seen, input)) == Bells(t, input)
    decreases |input|
  {
    hide Advance;
    if input == [] { return; }
    AdvanceSize(t, input[0]);
    BellsCounted(Advance(t, input[0]), seen + [input[0]], input[1..]);
    ExecuteConcat(MarkAt(t, seen, input[0]), MarksIn(Advance(t, input[0]), seen + [input[0]], input[1..]));
  }

  /** One execute token for each BEL in ground, whatever the cut. */
  lemma OneTokenPerBell(chunks: seq<Text>)
    ensures ExecuteCount(Marks(PushAll(Fresh, chunks).out)) == Bells(Trace(Ground, 0), Flatten(chunks))
  {
    PushedMarks(chunks);
    BellsCounted(Trace(Ground, 0), [], Flatten(chunks));
  }

  // ---- The end of the stream ----

  lemma FlushedKinds(s: Scanner)
    requires Reachable(s) && s.text == []
    ensures
      Flush(s).out ==
        match s.mode
        case Ground => []
        case Esc => [TextToken(s.pending)]
        case Csi => [ParseCsi(s.pending)]
        case Osc | OscEsc => [ParseOsc(s.pending, false)]
        case Dcs | DcsEsc => [ParseDcs(s.pending, false)]
    ensures
      Marks(Flush(s).out) ==
        match s.mode
        case Ground | Esc => []
        case Csi => [Mark(ControlSequence, s.pending)]
        case Osc | OscEsc => [Mark(OperatingSystem(false), s.pending)]
        case Dcs | DcsEsc => [Mark(DeviceControl(false), s.pending)]
  {
    hide ParseCsi, ParseOsc, ParseDcs, Marks;
    ParsedKinds(s.pending, false);
    MarksText([]);
    MarksOne(FinishSequence(s));
  }

  lemma StreamEnd(chunks: seq<Text>)
    ensures
      var input, s := Flatten(chunks), PushAll(Fresh, chunks).next;
      var t := AdvanceAll(Trace(Ground, 0), input);
      && Reachable(s) && s.text == [] && TraceOf(s) == t && t.size <= |input| && s.pending == input[|input| - t.size..]
  {
    hide *;
    FreshHolds();
    PushAllMarks(Fresh, [], chunks);
    BufferBounded(Fresh, chunks);
    assert [] + Flatten(chunks) == Flatten(chunks);
    EndOf(PushAll(Fresh, chunks).next, Flatten(chunks), chunks);
  }

  lemma EndOf(s: Scanner, seen: Text, chunks: seq<Text>)
    requires Holds(s, seen) && (chunks == [] || s.text == []) && (chunks == [] ==> s == Fresh)
    ensures s.text == [] && TraceOf(s).size <= |seen| && s.pending == seen[|seen| - TraceOf(s).size..]
  {
  }

  lemma FreshHolds()
    ensures Reachable(Fresh) && Holds(Fresh, []) && TraceOf(Fresh) == Trace(Ground, 0)
    ensures PushAll(Fresh, []).next == Fresh
  {
  }

  /**
   * What a flush makes of the sequence cut off by the end of the input: its
   * kind is the one it was opened as, unterminated; a lone ESC becomes text.
   * Its raw is the end of the input.
   */
  lemma FlushedMarks(chunks: seq<Text>)
    ensures
      var input, e := Flatten(chunks), PushAll(Fresh, chunks);
      var t := AdvanceAll(Trace(Ground, 0), input);
      && t.size <= |input|
      && var rest := input[|input| - t.size..];
         Flush(e.next).out ==
           match t.mode
           case Ground => []
           case Esc => [TextToken(rest)]
           case Csi => [ParseCsi(rest)]
           case Osc | OscEsc => [ParseOsc(rest, false)]
           case Dcs | DcsEsc => [ParseDcs(rest, false)]
    ensures
      var input, t := Flatten(chunks), AdvanceAll(Trace(Ground, 0), Flatten(chunks));
      && t.size <= |input|
      && Marks(Flush(PushAll(Fresh, chunks).next).out) ==
           match t.mode
           case Ground | Esc => []
           case Csi => [Mark(ControlSequence, input[|input| - t.size..])]
           case Osc | OscEsc => [Mark(OperatingSystem(false), input[|input| - t.size..])]
           case Dcs | DcsEsc => [Mark(DeviceControl(false), input[|input| - t.size..])]
  {
    StreamEnd(chunks);
    FlushedKinds(PushAll(Fresh, chunks).next);
    hide *;
  }
}
