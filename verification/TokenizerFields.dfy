/** When the parsed fields of a token spell its raw text, and the streams on which they do not. */
module TokenizerFields {
  import opened Common
  import opened Tokenizer
  import opened TokenizerTheorems

  /** One of `?`, `>`, `<` and `=`. */
  ghost predicate PrivateMark(c: CodeUnit) { c in {0x3f as CodeUnit, 0x3e as CodeUnit, 0x3c as CodeUnit, 0x3d as CodeUnit} }

  ghost predicate CsiFaithful(t: Token)
    requires t.CsiToken?
  {
    && t.raw == [ESC, CSI_INTRO] + t.prefix + t.params + t.final
    && |t.final| == 1 && 0x40 <= t.final[0] <= 0x7e
    && (t.prefix == [] || (|t.prefix| == 1 && PrivateMark(t.prefix[0])))
    && (t.prefix == [] && t.params != [] ==> !PrivateMark(t.params[0]))
  }

  /** `raw` is the introducer, the command, the payload behind the first semicolon, and a terminator. */
  ghost predicate OscSpelling(t: Token, command: Text, rest: Text, end: Text)
    requires t.OscToken?
  {
    && t.raw == [ESC, OSC_INTRO] + (command + rest) + end
    && (forall k :: 0 <= k < |command| ==> command[k] != SEMICOLON)
    && (if rest == [] then t.payload == [] else rest == [SEMICOLON] + t.payload)
    && (if command != [] && forall k :: 0 <= k < |command| ==> 0x30 <= command[k] <= 0x39
        then t.command == Some(Decimal(command)) else t.command == None)
    && (if t.terminated then end == [BEL] || end == [ESC, ST_FINAL] else end == [])
  }

  /** A decimal number is ten times the one without its last digit, plus that digit. */
  lemma DecimalSpelled(digits: Text, last: CodeUnit)
    requires (forall k :: 0 <= k < |digits| ==> 0x30 <= digits[k] <= 0x39) && 0x30 <= last <= 0x39
    ensures Decimal([last]) == last as int - 0x30 && Decimal(digits + [last]) == 10 * Decimal(digits) + Decimal([last])
  {
    assert (digits + [last])[..|digits|] == digits && [last][..0] == [];
  }

  ghost predicate OscFaithful(t: Token)
    requires t.OscToken?
  {
    exists command, rest, end :: OscSpelling(t, command, rest, end)
  }

  ghost predicate DcsFaithful(t: Token)
    requires t.DcsToken?
  {
    t.terminated && t.raw == [ESC, DCS_INTRO] + t.payload + [ESC, ST_FINAL]
  }

  /** The fields of a pushed token spell its raw text. */
  ghost predicate Faithful(t: Token) {
    match t
    case ExecuteToken(raw, code) => raw == [code] == [BEL]
    case CsiToken(_, _, _, _) => CsiFaithful(t)
    case OscToken(_, _, _, _) => OscFaithful(t)
    case DcsToken(_, _, _) => DcsFaithful(t)
    case EscToken(raw, final) => |final| == 1 && raw == [ESC] + final
    case TextToken(raw) => raw != []
  }

  /** A sequence whose introducing ESC went into the OSC it aborted. */
  ghost predicate Headless(t: Token) {
    match t
    case CsiToken(raw, _, _, _) => raw != [] && raw[0] == CSI_INTRO
    case OscToken(raw, _, _, _) => raw != [] && raw[0] == OSC_INTRO
    case DcsToken(raw, _, _) => raw != [] && raw[0] == DCS_INTRO
    case EscToken(raw, final) => |final| == 1 && raw == final
    case _ => false
  }

  /** A pending sequence starts with its introducer, with or without the ESC. */
  ghost predicate Introduced(pending: Text, intro: CodeUnit) {
    || (|pending| >= 2 && pending[0] == ESC && pending[1] == intro)
    || (|pending| >= 1 && pending[0] == intro)
  }

  ghost predicate Shaped(s: Scanner) {
    Reachable(s) &&
    match s.mode
    case Ground | Esc => true
    case Csi => Introduced(s.pending, CSI_INTRO)
    case Osc => Introduced(s.pending, OSC_INTRO)
    case OscEsc => Introduced(s.pending[..|s.pending| - 1], OSC_INTRO)
    case Dcs => Introduced(s.pending, DCS_INTRO)
    case DcsEsc => Introduced(s.pending[..|s.pending| - 1], DCS_INTRO)
  }

  ghost predicate Sound(t: Token) { Faithful(t) || Headless(t) }

  // ---- The three parsers on a complete sequence ----

  lemma OscSpelled(t: Token, inner: Text, semi: nat, end: Text)
    requires t.OscToken? && semi <= |inner|
    requires forall k :: 0 <= k < semi ==> inner[k] != SEMICOLON
    requires semi < |inner| ==> inner[semi] == SEMICOLON
    requires t.raw == [ESC, OSC_INTRO] + inner + end
    requires t.payload == if semi < |inner| then inner[semi + 1..] else []
    requires t.command == if AllDigits(inner[..semi]) then Some(Decimal(inner[..semi])) else None
    requires if t.terminated then (end == [BEL] || end == [ESC, ST_FINAL]) else end == []
    ensures OscFaithful(t)
  {
    hide Decimal;
    var command, rest := inner[..semi], inner[semi..];
    assert command + rest == inner;
    if semi < |inner| { assert rest == [SEMICOLON] + t.payload; }
    assert AllDigits(command) <==> command != [] && forall k :: 0 <= k < |command| ==> 0x30 <= command[k] <= 0x39;
    assert OscSpelling(t, command, rest, end);
  }

  lemma OscParsed(inner: Text, end: Text, terminated: bool)
    requires if terminated then (end == [BEL] || end == [ESC, ST_FINAL]) else end == []
    ensures OscFaithful(ParseOsc([ESC, OSC_INTRO] + inner + end, terminated))
  {
    var whole := [ESC, OSC_INTRO] + inner + end;
    InnerOf(inner, end, terminated);
    hide OscInner, Decimal, AllDigits, OscFaithful;
    OscSpelled(ParseOsc(whole, terminated), inner, IndexOf(inner, SEMICOLON), end);
  }

  lemma InnerOf(inner: Text, end: Text, terminated: bool)
    requires if terminated then (end == [BEL] || end == [ESC, ST_FINAL]) else end == []
    ensures OscInner([ESC, OSC_INTRO] + inner + end, terminated) == inner
  {
  }

  // ---- Every pushed token ----

  lemma OscStep(s: Scanner, c: CodeUnit)
    requires Shaped(s) && s.mode == Osc
    ensures
      var e := Step(s, c, [c]);
      Shaped(e.next) && forall i :: 0 <= i < |e.out| ==> Sound(e.out[i])
  {
    hide ParseOsc, OscFaithful;
    if c == BEL {
      if s.pending[0] == ESC {
        assert s.pending + [c] == [ESC, OSC_INTRO] + s.pending[2..] + [BEL];
        OscParsed(s.pending[2..], [BEL], true);
      }
      OscRaw(s.pending + [c], true);
    } else if c == ESC {
      assert (s.pending + [c])[..|s.pending|] == s.pending;
    }
  }

  lemma OscEscStep(s: Scanner, c: CodeUnit)
    requires Shaped(s) && s.mode == OscEsc
    ensures
      var e := Step(s, c, [c]);
      Shaped(e.next) && forall i :: 0 <= i < |e.out| ==> Sound(e.out[i])
  {
    hide ParseOsc, OscFaithful;
    var body := s.pending[..|s.pending| - 1];
    assert s.pending == body + [ESC];
    if c == ST_FINAL {
      if body[0] == ESC {
        assert s.pending + [c] == [ESC, OSC_INTRO] + body[2..] + [ESC, ST_FINAL];
        OscParsed(body[2..], [ESC, ST_FINAL], true);
      }
      OscRaw(s.pending + [c], true);
    } else {
      AbortStep(s, c);
      if body[0] == ESC {
        assert body == [ESC, OSC_INTRO] + body[2..] + [];
        OscParsed(body[2..], [], false);
      }
      OscRaw(body, false);
      AbortedNext(c);
    }
  }

  /** What follows an aborted OSC has lost its ESC. */
  lemma AbortedNext(c: CodeUnit)
    ensures
      var next := OnEsc(Scanner(Esc, [], []), [c]);
      Shaped(next.next) && forall i :: 0 <= i < |next.out| ==> Headless(next.out[i])
  {
  }

  lemma DcsStep(s: Scanner, c: CodeUnit)
    requires Shaped(s) && (s.mode == Dcs || s.mode == DcsEsc)
    ensures
      var e := Step(s, c, [c]);
      Shaped(e.next) && forall i :: 0 <= i < |e.out| ==> Sound(e.out[i])
  {
  }

  lemma PlainStep(s: Scanner, c: CodeUnit)
    requires Shaped(s) && (s.mode == Ground || s.mode == Esc)
    ensures
      var e := Step(s, c, [c]);
      Shaped(e.next) && forall i :: 0 <= i < |e.out| ==> Faithful(e.out[i])
  {
  }

  lemma CsiStep(s: Scanner, c: CodeUnit)
    requires Shaped(s) && s.mode == Csi
    ensures
      var e := Step(s, c, [c]);
      Shaped(e.next) && forall i :: 0 <= i < |e.out| ==> Sound(e.out[i])
  {
  }

  lemma StepSound(s: Scanner, c: CodeUnit)
    requires Shaped(s)
    ensures
      var e := Step(s, c, [c]);
      Shaped(e.next) && forall i :: 0 <= i < |e.out| ==> Sound(e.out[i])
  {
    match s.mode
    case Ground | Esc => PlainStep(s, c);
    case Csi => CsiStep(s, c);
    case Osc => OscStep(s, c);
    case OscEsc => OscEscStep(s, c);
    case Dcs | DcsEsc => DcsStep(s, c);
  }

  // ---- Which inputs push an unfaithful token ----

  /** A scan of the input that keeps no buffer: besides mode and size, whether
      the pending sequence has its ESC. */
  datatype Lead = Lead(trace: Trace, headed: bool)

  function AdvanceLead(l: Lead, c: CodeUnit): Lead {
    var next := Advance(l.trace, c);
    Lead(next, next.mode == Ground || (l.trace.mode != OscEsc && l.headed))
  }

  /** A sequence ends with this code unit, other than by being aborted or given up. */
  predicate Completes(mode: Mode, c: CodeUnit) {
    match mode
    case Ground => false
    case Esc => c != CSI_INTRO && c != OSC_INTRO && c != DCS_INTRO
    case Csi => 0x40 <= c <= 0x7e
    case Osc => c == BEL
    case OscEsc | DcsEsc => c == ST_FINAL
    case Dcs => false
  }

  /** A sequence without its ESC is pushed: it completes, it is an OSC that is
      aborted in its turn, or it is the one code unit behind an aborted OSC. */
  predicate HeadlessAt(l: Lead, c: CodeUnit) {
    if l.trace.mode == OscEsc && c != ST_FINAL then !l.headed || Completes(Esc, c)
    else !l.headed && Completes(l.trace.mode, c)
  }

  predicate HeadlessIn(l: Lead, input: Text)
    decreases |input|
  {
    input != [] && (HeadlessAt(l, input[0]) || HeadlessIn(AdvanceLead(l, input[0]), input[1..]))
  }

  function AdvanceLeadAll(l: Lead, input: Text): Lead
    decreases |input|
  {
    if input == [] then l else AdvanceLeadAll(AdvanceLead(l, input[0]), input[1..])
  }

  lemma {:induction false} HeadlessConcat(l: Lead, a: Text, b: Text)
    ensures HeadlessIn(l, a + b) <==> HeadlessIn(l, a) || HeadlessIn(AdvanceLeadAll(l, a), b)
    decreases |a|
  {
    hide AdvanceLead, HeadlessAt;
    if a == [] {
      assert a + b == b;
    } else {
      assert (a + b)[0] == a[0] && (a + b)[1..] == a[1..] + b;
      HeadlessConcat(AdvanceLead(l, a[0]), a[1..], b);
    }
  }

  function LeadOf(s: Scanner): Lead {
    Lead(TraceOf(s), s.mode == Ground || (s.pending != [] && s.pending[0] == ESC))
  }

  ghost predicate AllSound(ts: seq<Token>) { forall i :: 0 <= i < |ts| ==> Sound(ts[i]) }

  ghost predicate AllFaithful(ts: seq<Token>) { forall i :: 0 <= i < |ts| ==> Faithful(ts[i]) }

  lemma AllConcat(a: seq<Token>, b: seq<Token>)
    ensures AllSound(a) && AllSound(b) ==> AllSound(a + b)
    ensures AllFaithful(a) && AllFaithful(b) <==> AllFaithful(a + b)
  {
    assert forall i :: 0 <= i < |a| ==> (a + b)[i] == a[i];
    assert forall i :: 0 <= i < |b| ==> (a + b)[|a| + i] == b[i];
  }

  lemma NoTokens()
    ensures AllSound([]) && AllFaithful([])
  {
  }

  lemma OneToken(t: Token)
    ensures AllFaithful([t]) <==> Faithful(t)
  {
    assert [t][0] == t;
  }

  /** Of a sound sequence of two code units or more the ESC in front decides. */
  lemma FaithfulIffHeaded(t: Token)
    requires Sound(t) && |t.raw| >= 2 && !t.TextToken? && !t.ExecuteToken?
    ensures Faithful(t) <==> t.raw[0] == ESC
  {
  }

  /** What a step inside a sequence emits: text if it is given up, its token if it completes. */
  lemma SequenceKind(s: Scanner, c: CodeUnit)
    requires Reachable(s) && s.mode != Ground && !(s.mode == OscEsc && c != ST_FINAL)
    ensures
      var e := Step(s, c, [c]);
      && (Completes(s.mode, c) <==> e.out != [] && !e.out[0].TextToken?)
      && (e.out != [] ==> !e.out[0].ExecuteToken?)
  {
  }

  lemma SequenceFaithfulIff(s: Scanner, c: CodeUnit)
    requires Shaped(s) && s.mode != Ground && !(s.mode == OscEsc && c != ST_FINAL)
    ensures
      var e := Step(s, c, [c]);
      && (AllFaithful(e.out) <==> !HeadlessAt(LeadOf(s), c))
      && (e.next.mode != Ground ==> e.next.pending == s.pending + [c])
  {
    hide Step, Sound, Faithful, Completes;
    ShapedReachable(s);
    StepSound(s, c);
    SequenceStep(s, c);
    SequenceKind(s, c);
    var e := Step(s, c, [c]);
    if e.out == [] {
      NoTokens();
    } else {
      var t := e.out[0];
      assert e.out == [t] && t.raw == s.pending + [c] && t.raw[0] == s.pending[0] && Sound(t);
      OneToken(t);
      if t.TextToken? { TextFaithful(t); } else { FaithfulIffHeaded(t); }
    }
  }

  lemma TextFaithful(t: Token)
    requires t.TextToken? && t.raw != []
    ensures Faithful(t)
  {
  }

  /** An aborted OSC takes the ESC of what follows it: only a successor that is still open does no harm. */
  lemma AbortFaithfulIff(s: Scanner, c: CodeUnit)
    requires Shaped(s) && s.mode == OscEsc && c != ST_FINAL
    ensures
      var e := Step(s, c, [c]);
      && (AllFaithful(e.out) <==> !HeadlessAt(LeadOf(s), c))
      && (e.next.mode != Ground ==> e.next.pending == [c] && c != ESC)
  {
    hide Step, ParseOsc, Sound, Faithful;
    var body := s.pending[..|s.pending| - 1];
    var osc, next := ParseOsc(body, false), OnEsc(Scanner(Esc, [], []), [c]);
    AbortStep(s, c);
    StepSound(s, c);
    OscRaw(body, false);
    AbortedPair(osc, next.out, s.pending);
    if next.out == [] { NoTokens(); } else { LoneEscape(c); }
  }

  lemma LoneEscape(c: CodeUnit)
    ensures !AllFaithful([EscToken([c], [c])])
  {
    OneToken(EscToken([c], [c]));
  }

  lemma AbortedPair(osc: Token, rest: seq<Token>, pending: Text)
    requires |pending| >= 2 && Introduced(pending[..|pending| - 1], OSC_INTRO)
    requires osc.OscToken? && osc.raw == pending[..|pending| - 1] && forall i :: 0 <= i < |[osc] + rest| ==> Sound(([osc] + rest)[i])
    ensures AllFaithful([osc] + rest) <==> pending[0] == ESC && AllFaithful(rest)
  {
    assert ([osc] + rest)[0] == osc && Sound(osc);
    hide Sound, Faithful;
    AllConcat([osc], rest);
    OneToken(osc);
    AbortedOsc(osc, pending);
  }

  lemma AbortedOsc(osc: Token, pending: Text)
    requires |pending| >= 2 && Introduced(pending[..|pending| - 1], OSC_INTRO)
    requires osc.OscToken? && osc.raw == pending[..|pending| - 1] && Sound(osc)
    ensures Faithful(osc) <==> pending[0] == ESC
  {
    if Faithful(osc) {
      var command, rest, end :| OscSpelling(osc, command, rest, end);
      assert osc.raw[0] == ESC;
    }
  }

  lemma StepFaithfulIff(s: Scanner, c: CodeUnit)
    requires Shaped(s)
    ensures
      var e := Step(s, c, [c]);
      && (AllFaithful(e.out) <==> !HeadlessAt(LeadOf(s), c))
      && LeadOf(e.next) == AdvanceLead(LeadOf(s), c)
  {
    hide Faithful;
    ShapedReachable(s);
    StepTrace(s, c);
    if s.mode == Ground {
      PlainStep(s, c);
    } else if s.mode == OscEsc && c != ST_FINAL {
      AbortFaithfulIff(s, c);
      hide Step;
    } else {
      SequenceFaithfulIff(s, c);
      hide Step;
    }
  }

  lemma {:induction false} FeedFaithfulIff(s: Scanner, input: Text)
    requires Shaped(s)
    ensures
      var e := Feed(s, input);
      && Shaped(e.next) && AllSound(e.out)
      && LeadOf(e.next) == AdvanceLeadAll(LeadOf(s), input)
      && (AllFaithful(e.out) <==> !HeadlessIn(LeadOf(s), input))
    decreases |input|
  {
    hide Step, Shaped, Sound, Faithful, AdvanceLead, HeadlessAt, LeadOf;
    if input == [] { NoTokens(); return; }
    var e := Step(s, input[0], [input[0]]);
    StepSound(s, input[0]);
    StepFaithfulIff(s, input[0]);
    FeedFaithfulIff(e.next, input[1..]);
    AllConcat(e.out, Feed(e.next, input[1..]).out);
  }

  lemma ShapedReachable(s: Scanner)
    requires Shaped(s)
    ensures Reachable(s)
  {
  }

  lemma FlushShaped(s: Scanner)
    requires Shaped(s)
    ensures Shaped(FlushText(s).next) && LeadOf(FlushText(s).next) == LeadOf(s)
    ensures AllFaithful(TextRun(s.text)) && AllSound(TextRun(s.text))
  {
  }

  lemma {:induction false} PushesFaithfulIff(s: Scanner, chunks: seq<Text>)
    requires Shaped(s)
    ensures
      var e := PushAll(s, chunks);
      && AllSound(e.out)
      && (AllFaithful(e.out) <==> !HeadlessIn(LeadOf(s), Flatten(chunks)))
    decreases |chunks|
  {
    hide Feed, Shaped, AllSound, AllFaithful, TextRun, LeadOf, HeadlessIn;
    if chunks == [] {
      NoTokens();
      NothingHeadless(LeadOf(s));
      return;
    }
    var fed, pushed := Feed(s, chunks[0]), Push(s, chunks[0]);
    FeedFaithfulIff(s, chunks[0]);
    FlushShaped(fed.next);
    HeadlessConcat(LeadOf(s), chunks[0], Flatten(chunks[1..]));
    PushesFaithfulIff(pushed.next, chunks[1..]);
    AllConcat(fed.out, TextRun(fed.next.text));
    AllConcat(pushed.out, PushAll(pushed.next, chunks[1..]).out);
  }

  lemma NothingHeadless(l: Lead)
    ensures !HeadlessIn(l, [])
  {
  }

  /**
   * Over every chunking, each pushed token either has fields that spell its
   * raw text or is missing the ESC it lent to an aborted OSC; and all are of
   * the first kind exactly when no sequence behind an aborted OSC completes in
   * the input. One that stays open or is given up as text does no harm.
   */
  lemma PushedFields(chunks: seq<Text>)
    ensures
      var e := PushAll(Fresh, chunks);
      && AllSound(e.out)
      && (AllFaithful(e.out) <==> !HeadlessIn(Lead(Trace(Ground, 0), true), Flatten(chunks)))
  {
    PushesFaithfulIff(Fresh, chunks);
  }

  // ---- The sequence a stream ends in ----

  lemma {:induction false} PushesShaped(s: Scanner, chunks: seq<Text>)
    requires Shaped(s)
    ensures Shaped(PushAll(s, chunks).next)
    decreases |chunks|
  {
    hide Shaped, Feed;
    if chunks != [] {
      FeedFaithfulIff(s, chunks[0]);
      FlushShaped(Feed(s, chunks[0]).next);
      PushesShaped(Push(s, chunks[0]).next, chunks[1..]);
    }
  }

  /** The fields of an unfinished sequence spell what there is of it. */
  ghost predicate Unfinished(t: Token) {
    match t
    case CsiToken(raw, prefix, params, final) =>
      && raw == [ESC, CSI_INTRO] + prefix + params + final && |final| <= 1 && (params != [] ==> final != [])
      && (prefix == [] || (|prefix| == 1 && PrivateMark(prefix[0]))) && (prefix == [] && params != [] ==> !PrivateMark(params[0]))
    case OscToken(_, _, _, terminated) => !terminated && OscFaithful(t)
    case DcsToken(raw, payload, terminated) => !terminated && raw == [ESC, DCS_INTRO] + payload
    case _ => t.TextToken?
  }

  lemma UnfinishedParsed(whole: Text)
    requires |whole| >= 2 && whole[0] == ESC
    ensures whole[1] == CSI_INTRO ==> Unfinished(ParseCsi(whole))
    ensures whole[1] == OSC_INTRO ==> Unfinished(ParseOsc(whole, false))
    ensures whole[1] == DCS_INTRO ==> Unfinished(ParseDcs(whole, false))
  {
    hide ParseOsc, OscFaithful;
    var body := whole[2..];
    OscParsed(body, [], false);
    OscRaw(whole, false);
    assert whole == [whole[0], whole[1]] + body && whole == [whole[0], whole[1]] + body + [];
    if body != [] { assert body == body[..|body| - 1] + [body[|body| - 1]]; }
  }

  /** A flush ends every stream with at most one token, whose fields, unless it
      lost its ESC to an aborted OSC, spell what there is of the sequence. */
  lemma FlushedFields(chunks: seq<Text>)
    ensures
      var out := Flush(PushAll(Fresh, chunks).next).out;
      |out| <= 1 && forall t :: t in out && |t.raw| >= 2 && t.raw[0] == ESC ==> Unfinished(t)
  {
    hide *;
    FreshShaped();
    PushesShaped(Fresh, chunks);
    BufferBounded(Fresh, chunks);
    FlushedSpelling(PushAll(Fresh, chunks).next);
  }

  lemma FreshShaped()
    ensures Shaped(Fresh) && Reachable(Fresh) && Fresh.text == [] && PushAll(Fresh, []).next == Fresh
  {
  }

  lemma FlushedSpelling(s: Scanner)
    requires Shaped(s) && s.text == []
    ensures var out := Flush(s).out; |out| <= 1 && forall t :: t in out && |t.raw| >= 2 && t.raw[0] == ESC ==> Unfinished(t)
  {
    hide Unfinished, ParseOsc, ParseCsi, ParseDcs;
    if |s.pending| >= 2 && s.pending[0] == ESC { UnfinishedParsed(s.pending); }
    ParsedRaw(s.pending);
  }

  lemma ParsedRaw(whole: Text)
    ensures ParseCsi(whole).raw == whole && ParseOsc(whole, false).raw == whole && ParseDcs(whole, false).raw == whole
  {
    hide OscInner, Decimal, AllDigits;
  }

  /** A headless CSI is misread: `ESC ] ESC [ ? h` yields a CSI whose private
      prefix is gone, although the same CSI on its own carries it. */
  lemma AbortedOscLosesPrefix()
    ensures
      var cut := Push(Fresh, [ESC, OSC_INTRO, ESC, CSI_INTRO, 0x3f, 0x68]).out;
      |cut| == 2 && Aborted(cut[0]) && cut[1] == CsiToken([CSI_INTRO, 0x3f, 0x68], [], [], [0x68])
    ensures Push(Fresh, [ESC, CSI_INTRO, 0x3f, 0x68]).out == [CsiToken([ESC, CSI_INTRO, 0x3f, 0x68], [0x3f], [], [0x68])]
  {
    CutStream();
    WholeCsi();
    HeadlessSetMode();
    WholeSetMode();
    hide Feed, ParseCsi;
  }

  lemma WholeSetMode()
    ensures ParseCsi([ESC, CSI_INTRO, 0x3f, 0x68]) == CsiToken([ESC, CSI_INTRO, 0x3f, 0x68], [0x3f], [], [0x68])
  {
  }

  lemma HeadlessSetMode()
    ensures ParseCsi([CSI_INTRO, 0x3f, 0x68]) == CsiToken([CSI_INTRO, 0x3f, 0x68], [], [], [0x68])
  {
  }

  lemma WholeCsi()
    ensures Feed(Fresh, [ESC, CSI_INTRO, 0x3f, 0x68]) == Emission(Fresh, [ParseCsi([ESC, CSI_INTRO, 0x3f, 0x68])])
  {
    hide ParseCsi;
    FeedFour(Fresh, ESC, CSI_INTRO, 0x3f, 0x68);
    assert Step(Fresh, ESC, [ESC]) == Emission(Scanner(Esc, [], [ESC]), []);
    assert [ESC] + [CSI_INTRO] == [ESC, CSI_INTRO];
    assert Step(Scanner(Esc, [], [ESC]), CSI_INTRO, [CSI_INTRO]) == Emission(Scanner(Csi, [], [ESC, CSI_INTRO]), []);
    assert [ESC, CSI_INTRO] + [0x3f] == [ESC, CSI_INTRO, 0x3f];
    assert Step(Scanner(Csi, [], [ESC, CSI_INTRO]), 0x3f, [0x3f]) == Emission(Scanner(Csi, [], [ESC, CSI_INTRO, 0x3f]), []);
    assert [ESC, CSI_INTRO, 0x3f] + [0x68] == [ESC, CSI_INTRO, 0x3f, 0x68];
    assert Step(Scanner(Csi, [], [ESC, CSI_INTRO, 0x3f]), 0x68, [0x68]) == Emission(Fresh, [ParseCsi([ESC, CSI_INTRO, 0x3f, 0x68])]);
  }

  lemma CutStream()
    ensures
      var e := Feed(Fresh, [ESC, OSC_INTRO, ESC, CSI_INTRO, 0x3f, 0x68]);
      e == Emission(Fresh, [ParseOsc([ESC, OSC_INTRO], false), ParseCsi([CSI_INTRO, 0x3f, 0x68])])
  {
    OscOpened();
    CutTail();
    hide Feed, ParseOsc, ParseCsi;
    FeedConcat(Fresh, [ESC, OSC_INTRO], [ESC, CSI_INTRO, 0x3f, 0x68]);
    assert [ESC, OSC_INTRO] + [ESC, CSI_INTRO, 0x3f, 0x68] == [ESC, OSC_INTRO, ESC, CSI_INTRO, 0x3f, 0x68];
  }

  lemma OscOpened()
    ensures Feed(Fresh, [ESC, OSC_INTRO]) == Emission(Scanner(Osc, [], [ESC, OSC_INTRO]), [])
  {
    FeedTwo(Fresh, ESC, OSC_INTRO);
    assert [ESC] + [OSC_INTRO] == [ESC, OSC_INTRO];
  }

  lemma CutTail()
    ensures
      Feed(Scanner(Osc, [], [ESC, OSC_INTRO]), [ESC, CSI_INTRO, 0x3f, 0x68])
      == Emission(Fresh, [ParseOsc([ESC, OSC_INTRO], false), ParseCsi([CSI_INTRO, 0x3f, 0x68])])
  {
    hide ParseOsc, ParseCsi;
    var osc, cut := Scanner(Osc, [], [ESC, OSC_INTRO]), Scanner(OscEsc, [], [ESC, OSC_INTRO, ESC]);
    FeedFour(osc, ESC, CSI_INTRO, 0x3f, 0x68);
    assert Step(osc, ESC, [ESC]) == Emission(cut, []);
    AbortStep(cut, CSI_INTRO);
    assert [ESC, OSC_INTRO, ESC][..2] == [ESC, OSC_INTRO];
    assert Step(cut, CSI_INTRO, [CSI_INTRO]) == Emission(Scanner(Csi, [], [CSI_INTRO]), [ParseOsc([ESC, OSC_INTRO], false)]);
    assert Step(Scanner(Csi, [], [CSI_INTRO]), 0x3f, [0x3f]) == Emission(Scanner(Csi, [], [CSI_INTRO, 0x3f]), []);
    assert [CSI_INTRO, 0x3f] + [0x68] == [CSI_INTRO, 0x3f, 0x68];
    assert Step(Scanner(Csi, [], [CSI_INTRO, 0x3f]), 0x68, [0x68]) == Emission(Fresh, [ParseCsi([CSI_INTRO, 0x3f, 0x68])]);
  }

  lemma FeedTwo(s: Scanner, a: CodeUnit, b: CodeUnit)
    ensures
      var s1 := Step(s, a, [a]);
      var s2 := Step(s1.next, b, [b]);
      Feed(s, [a, b]) == Emission(s2.next, s1.out + s2.out)
  {
    hide Step;
    assert [a, b][1..] == [b] && [b][1..] == [];
    var s1 := Step(s, a, [a]);
    var s2 := Step(s1.next, b, [b]);
    assert Feed(s2.next, []) == Emission(s2.next, []);
    assert Feed(s1.next, [b]) == Emission(s2.next, s2.out + []);
  }

  lemma FeedFour(s: Scanner, a: CodeUnit, b: CodeUnit, c: CodeUnit, d: CodeUnit)
    ensures
      var s1 := Step(s, a, [a]);
      var s2 := Step(s1.next, b, [b]);
      var s3 := Step(s2.next, c, [c]);
      var s4 := Step(s3.next, d, [d]);
      Feed(s, [a, b, c, d]) == Emission(s4.next, s1.out + s2.out + (s3.out + s4.out))
  {
    hide Step;
    assert [a, b, c, d] == [a, b] + [c, d];
    FeedConcat(s, [a, b], [c, d]);
    FeedTwo(s, a, b);
    FeedTwo(Step(Step(s, a, [a]).next, b, [b]).next, c, d);
  }
}
