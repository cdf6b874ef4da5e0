/**
 * The incremental tokenizer of terminal output
 * (src/shared/terminalSequenceTokenizer.ts): control sequences and control
 * strings in the style of sections 5.4 and 5.6 of ECMA-48, carried across
 * arbitrary chunk boundaries. Text is a sequence of UTF-16 code units.
 */
module Tokenizer {
  import opened Common

  type CodeUnit = n: int | 0 <= n < 0x1_0000
  type Text = seq<CodeUnit>

  const ESC: CodeUnit := 0x1b
  const BEL: CodeUnit := 0x07
  const ST_FINAL: CodeUnit := 0x5c
  const CSI_INTRO: CodeUnit := 0x5b
  const OSC_INTRO: CodeUnit := 0x5d
  const DCS_INTRO: CodeUnit := 0x50
  const SEMICOLON: CodeUnit := 0x3b
  const MAX_SEQUENCE_BYTES := 8192

  /** `command` is `None` where the program yields NaN. */
  datatype Token =
    | ExecuteToken(raw: Text, code: CodeUnit)
    | CsiToken(raw: Text, prefix: Text, params: Text, final: Text)
    | OscToken(raw: Text, command: Option<nat>, payload: Text, terminated: bool)
    | DcsToken(raw: Text, payload: Text, terminated: bool)
    | EscToken(raw: Text, final: Text)
    | TextToken(raw: Text)

  datatype Mode = Ground | Esc | Csi | Osc | OscEsc | Dcs | DcsEsc

  /** What the tokenizer holds between two code units. */
  datatype Scanner = Scanner(mode: Mode, text: Text, pending: Text)

  datatype Emission = Emission(next: Scanner, out: seq<Token>)

  const Fresh := Scanner(Ground, [], [])

  /** `slice(n)` */
  function Drop(s: Text, n: nat): Text { if n <= |s| then s[n..] else [] }

  /** `slice(0, -n)` */
  function DropLast(s: Text, n: nat): Text { if n <= |s| then s[..|s| - n] else [] }

  /** `slice(-1)` */
  function Last(s: Text): Text { if s == [] then [] else s[|s| - 1..] }

  function EndsWith(s: Text, c: CodeUnit): bool { s != [] && s[|s| - 1] == c }

  function IndexOf(s: Text, c: CodeUnit): (i: nat)
    ensures i <= |s| && (forall k :: 0 <= k < i ==> s[k] != c) && (i < |s| ==> s[i] == c)
  {
    if s == [] || s[0] == c then 0 else 1 + IndexOf(s[1..], c)
  }

  predicate IsDigit(c: CodeUnit) { 0x30 <= c <= 0x39 }

  predicate AllDigits(s: Text) { s != [] && forall i :: 0 <= i < |s| ==> IsDigit(s[i]) }

  function Decimal(s: Text): nat
    requires forall i :: 0 <= i < |s| ==> IsDigit(s[i])
  {
    if s == [] then 0 else
      assert IsDigit(s[|s| - 1]);
      10 * Decimal(s[..|s| - 1]) + (s[|s| - 1] as int - 0x30)
  }

  predicate IsPrefixMark(c: CodeUnit) { c == 0x3f || c == 0x3e || c == 0x3c || c == 0x3d }

  function ParseCsi(seqn: Text): Token {
    var body := Drop(seqn, 2);
    var rest := DropLast(body, 1);
    if rest != [] && IsPrefixMark(rest[0])
    then CsiToken(seqn, [rest[0]], rest[1..], Last(body))
    else CsiToken(seqn, [], rest, Last(body))
  }

  function OscInner(seqn: Text, terminated: bool): Text {
    var inner := Drop(seqn, 2);
    if !terminated then inner
    else if EndsWith(inner, ST_FINAL) then DropLast(inner, 2)
    else DropLast(inner, 1)
  }

  function ParseOsc(seqn: Text, terminated: bool): Token {
    var inner := OscInner(seqn, terminated);
    var semi := IndexOf(inner, SEMICOLON);
    var command := inner[..semi];
    var payload := if semi < |inner| then inner[semi + 1..] else [];
    OscToken(seqn, if AllDigits(command) then Some(Decimal(command)) else None, payload, terminated)
  }

  function ParseDcs(seqn: Text, terminated: bool): Token {
    var inner := Drop(seqn, 2);
    DcsToken(seqn, if terminated && EndsWith(inner, ST_FINAL) then DropLast(inner, 2) else inner, terminated)
  }

  function TextRun(text: Text): seq<Token> { if text == [] then [] else [TextToken(text)] }

  function FlushText(s: Scanner): Emission { Emission(s.(text := []), TextRun(s.text)) }

  function Reset(s: Scanner): Scanner { s.(mode := Ground, pending := []) }

  function GiveUpOr(s: Scanner): Emission {
    if |s.pending| > MAX_SEQUENCE_BYTES then Emission(Reset(s), [TextToken(s.pending)]) else Emission(s, [])
  }

  function Grow(s: Scanner, ch: Text): Scanner { s.(pending := s.pending + ch) }

  function OnGround(s: Scanner, code: CodeUnit, ch: Text): Emission {
    if code == ESC then Emission(Scanner(Esc, [], ch), TextRun(s.text))
    else if code == BEL then Emission(s.(text := []), TextRun(s.text) + [ExecuteToken(ch, code)])
    else Emission(s.(text := s.text + ch), [])
  }

  function OnEsc(s: Scanner, ch: Text): Emission {
    if ch == [CSI_INTRO] then Emission(Grow(s, ch).(mode := Csi), [])
    else if ch == [OSC_INTRO] then Emission(Grow(s, ch).(mode := Osc), [])
    else if ch == [DCS_INTRO] then Emission(Grow(s, ch).(mode := Dcs), [])
    else Emission(Reset(s), [EscToken(s.pending + ch, ch)])
  }

  function OnCsi(s: Scanner, code: CodeUnit, ch: Text): Emission {
    if 0x40 <= code <= 0x7e then Emission(Reset(s), [ParseCsi(s.pending + ch)]) else GiveUpOr(Grow(s, ch))
  }

  function OnOsc(s: Scanner, code: CodeUnit, ch: Text): Emission {
    if code == BEL then Emission(Reset(s), [ParseOsc(s.pending + ch, true)])
    else if code == ESC then Emission(Grow(s, ch).(mode := OscEsc), [])
    else GiveUpOr(Grow(s, ch))
  }

  /** An ESC that no backslash follows ends the OSC without it; the ESC is
      replayed with an empty text, then the code unit itself. */
  function OnOscEsc(s: Scanner, code: CodeUnit, ch: Text): Emission {
    if code == ST_FINAL then Emission(Reset(s), [ParseOsc(s.pending + ch, true)])
    else
      var restart := OnGround(Reset(s), ESC, []);
      var next := OnEsc(restart.next, ch);
      Emission(next.next, [ParseOsc(DropLast(s.pending, 1), false)] + restart.out + next.out)
  }

  function OnDcs(s: Scanner, code: CodeUnit, ch: Text): Emission {
    if code == ESC then Emission(Grow(s, ch).(mode := DcsEsc), []) else GiveUpOr(Grow(s, ch))
  }

  function OnDcsEsc(s: Scanner, code: CodeUnit, ch: Text): Emission {
    if code == ST_FINAL then Emission(Reset(s), [ParseDcs(s.pending + ch, true)])
    else GiveUpOr(Grow(s, ch).(mode := Dcs))
  }

  function Step(s: Scanner, code: CodeUnit, ch: Text): Emission {
    match s.mode
    case Ground => OnGround(s, code, ch)
    case Esc => OnEsc(s, ch)
    case Csi => OnCsi(s, code, ch)
    case Osc => OnOsc(s, code, ch)
    case OscEsc => OnOscEsc(s, code, ch)
    case Dcs => OnDcs(s, code, ch)
    case DcsEsc => OnDcsEsc(s, code, ch)
  }

  function Feed(s: Scanner, chunk: Text): Emission
    decreases |chunk|
  {
    if chunk == [] then Emission(s, []) else
      var e := Step(s, chunk[0], [chunk[0]]);
      var r := Feed(e.next, chunk[1..]);
      Emission(r.next, e.out + r.out)
  }

  function Push(s: Scanner, chunk: Text): Emission {
    var e := Feed(s, chunk);
    Emission(FlushText(e.next).next, e.out + FlushText(e.next).out)
  }

  function FinishSequence(s: Scanner): Token {
    match s.mode
    case Csi => ParseCsi(s.pending)
    case Osc | OscEsc => ParseOsc(s.pending, false)
    case Dcs | DcsEsc => ParseDcs(s.pending, false)
    case _ => TextToken(s.pending)
  }

  /** The end of the stream; what is pending is emitted but, as in the program, not cleared. */
  function Flush(s: Scanner): Emission {
    Emission(Scanner(Ground, [], s.pending),
             TextRun(s.text) + if s.pending == [] then [] else [FinishSequence(s)])
  }

  function PushAll(s: Scanner, chunks: seq<Text>): Emission
    decreases |chunks|
  {
    if chunks == [] then Emission(s, []) else
      var e := Push(s, chunks[0]);
      var r := PushAll(e.next, chunks[1..]);
      Emission(r.next, e.out + r.out)
  }

  /** Every token of a stream: all its chunks, then one flush. */
  function Tokens(chunks: seq<Text>): seq<Token> {
    var e := PushAll(Fresh, chunks);
    e.out + Flush(e.next).out
  }

  predicate Pending(s: Scanner) { s.mode != Ground || s.pending != [] }

  // ---- The tokenizer object ----

  class TerminalSequenceTokenizer {
    var mode: Mode
    var text: Text
    var pending: Text

    ghost function State(): Scanner
      reads this
    {
      Scanner(mode, text, pending)
    }

    constructor ()
      ensures State() == Fresh
    {
      mode, text, pending := Ground, [], [];
    }

    method HasPending() returns (r: bool)
      ensures r <==> Pending(State())
    {
      r := mode != Ground || |pending| > 0;
    }

    method FlushBufferedText() returns (out: seq<Token>)
      modifies this`text
      ensures State() == FlushText(old(State())).next && out == FlushText(old(State())).out
    {
      out := [];
      if |text| > 0 {
        out := [TextToken(text)];
        text := [];
      }
    }

    method ResetSequence()
      modifies this`mode, this`pending
      ensures State() == Reset(old(State()))
    {
      pending := [];
      mode := Ground;
    }

    method GiveUpWhenTooLong() returns (out: seq<Token>)
      modifies this`mode, this`pending
      ensures State() == GiveUpOr(old(State())).next && out == GiveUpOr(old(State())).out
    {
      out := [];
      if |pending| > MAX_SEQUENCE_BYTES {
        out := [TextToken(pending)];
        ResetSequence();
      }
    }

    /** One code unit; an aborted OSC replays its ESC through the method itself. */
    method Consume(code: CodeUnit, ch: Text) returns (out: seq<Token>)
      modifies this
      ensures Emission(State(), out) == Step(old(State()), code, ch)
      decreases if mode == OscEsc then 1 else 0
    {
      out := [];
      match mode {
        case Ground =>
          if code == ESC {
            out := FlushBufferedText();
            pending := ch;
            mode := Esc;
          } else if code == BEL {
            out := FlushBufferedText();
            out := out + [ExecuteToken(ch, code)];
          } else {
            text := text + ch;
          }
        case Esc =>
          pending := pending + ch;
          if ch == [CSI_INTRO] {
            mode := Csi;
          } else if ch == [OSC_INTRO] {
            mode := Osc;
          } else if ch == [DCS_INTRO] {
            mode := Dcs;
          } else {
            out := [EscToken(pending, ch)];
            ResetSequence();
          }
        case Csi =>
          pending := pending + ch;
          if 0x40 <= code <= 0x7e {
            out := [ParseCsi(pending)];
            ResetSequence();
          } else {
            out := GiveUpWhenTooLong();
          }
        case Osc =>
          pending := pending + ch;
          if code == BEL {
            out := [ParseOsc(pending, true)];
            ResetSequence();
          } else if code == ESC {
            mode := OscEsc;
          } else {
            out := GiveUpWhenTooLong();
          }
        case OscEsc =>
          if code == ST_FINAL {
            pending := pending + ch;
            out := [ParseOsc(pending, true)];
            ResetSequence();
          } else {
            pending := DropLast(pending, 1);
            out := [ParseOsc(pending, false)];
            ResetSequence();
            var restarted := Consume(ESC, []);
            var rest := Consume(code, ch);
            out := out + restarted + rest;
          }
        case Dcs =>
          pending := pending + ch;
          if code == ESC {
            mode := DcsEsc;
          } else {
            out := GiveUpWhenTooLong();
          }
        case DcsEsc =>
          pending := pending + ch;
          if code == ST_FINAL {
            out := [ParseDcs(pending, true)];
            ResetSequence();
          } else {
            mode := Dcs;
            out := GiveUpWhenTooLong();
          }
      }
    }

    method PushChunk(chunk: Text) returns (out: seq<Token>)
      modifies this
      ensures Emission(State(), out) == Push(old(State()), chunk)
    {
      out := [];
      for i := 0 to |chunk|
        invariant out + Feed(State(), chunk[i..]).out == Feed(old(State()), chunk).out
        invariant Feed(State(), chunk[i..]).next == Feed(old(State()), chunk).next
      {
        assert chunk[i..][0] == chunk[i] && chunk[i..][1..] == chunk[i + 1..];
        var tokens := Consume(chunk[i], [chunk[i]]);
        out := out + tokens;
      }
      var tail := FlushBufferedText();
      out := out + tail;
    }

    method FlushStream() returns (out: seq<Token>)
      modifies this
      ensures Emission(State(), out) == Flush(old(State()))
    {
      out := FlushBufferedText();
      if |pending| > 0 {
        out := out + [FinishSequence(Scanner(mode, text, pending))];
      }
      mode := Ground;
    }
  }
}
