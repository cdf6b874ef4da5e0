/**
 * The bounded scan of a provider's JSON-lines transcript and the newest-first
 * order of its numbered directories, from `src/server/providerSessionEvidence.ts`.
 */
module Evidence {
  import opened Common

  newtype Byte = b: int | 0 <= b < 256

  const MAX_RECORDS := 64
  const MAX_LINE_BYTES := 65536
  const MAX_PREFIX_BYTES := 262144
  const NEWLINE: Byte := 0x0a

  /** What decoding a line, parsing it and asking for eligibility comes to. */
  datatype LineClass = Unparsable | Eligible | NotEligible

  datatype Verdict = Accepted | Malformed | OversizedLine | BoundExhausted | Mismatch

  type Classify = seq<Byte> -> LineClass

  // ---- The scan as the source runs it ----

  /** One complete line, with the number of lines inspected before it. */
  method InspectCompleteLine(line: seq<Byte>, classify: Classify, inspected: nat) returns (verdict: Option<Verdict>, next: nat)
    ensures verdict == LineVerdict(line, classify, inspected)
    ensures next == if inspected >= MAX_RECORDS then inspected else inspected + 1
  {
    next := inspected;
    if inspected >= MAX_RECORDS { return Some(BoundExhausted), next; }
    next := inspected + 1;
    if |line| == 0 { return Some(Malformed), next; }
    if |line| > MAX_LINE_BYTES { return Some(OversizedLine), next; }
    match classify(line) {
      case Unparsable => verdict := Some(Malformed);
      case Eligible => verdict := Some(Accepted);
      case NotEligible => verdict := None;
    }
  }

  method InspectBoundedJsonl(content: seq<Byte>, truncated: bool, classify: Classify) returns (verdict: Verdict)
    ensures verdict == Scan(content, truncated, classify)
  {
    var inspected, lineStart, index := 0, 0, 0;
    assert content[0..] == content;
    assert Scan(content, truncated, classify) == ScanFrom(content[0..], truncated, classify, 0);
    assert OneLineIn(content, 0, 0);
    hide *;
    while index < |content|
      invariant lineStart <= index <= |content| && OneLineIn(content, lineStart, index)
      invariant Scan(content, truncated, classify) == ScanFrom(content[lineStart..], truncated, classify, inspected)
    {
      LineGoesOn(content, lineStart, index);
      if content[index] == NEWLINE {
        ScanLine(content, lineStart, index, truncated, classify, inspected);
        var line, next := InspectCompleteLine(content[lineStart..index], classify, inspected);
        if line.Some? { return line.value; }
        lineStart, inspected := index + 1, next;
      }
      index := index + 1;
    }
    ScanTail(content, lineStart, truncated, classify, inspected);
    if lineStart < |content| {
      if truncated {
        if |content| - lineStart > MAX_LINE_BYTES { return OversizedLine; }
      } else {
        var line, _ := InspectCompleteLine(content[lineStart..], classify, inspected);
        if line.Some? { return line.value; }
      }
    }
    return if truncated then BoundExhausted else Mismatch;
  }

  ghost predicate OneLineIn(content: seq<Byte>, start: nat, end: nat)
    requires start <= end <= |content|
  {
    forall i :: start <= i < end ==> content[i] != NEWLINE
  }

  /** Reading one more byte continues the line, or ends it and starts an empty one. */
  lemma LineGoesOn(content: seq<Byte>, start: nat, index: nat)
    requires start <= index < |content| && OneLineIn(content, start, index)
    ensures content[index] != NEWLINE ==> OneLineIn(content, start, index + 1)
    ensures OneLineIn(content, index + 1, index + 1)
  {
  }

  // ---- The specification: split into lines, then look at them in order ----

  function LineVerdict(line: seq<Byte>, classify: Classify, inspected: nat): Option<Verdict> {
    if inspected >= MAX_RECORDS then Some(BoundExhausted)
    else if |line| == 0 then Some(Malformed)
    else if |line| > MAX_LINE_BYTES then Some(OversizedLine)
    else match classify(line)
      case Unparsable => Some(Malformed)
      case Eligible => Some(Accepted)
      case NotEligible => None
  }

  /** The newline-terminated lines of the content, and what follows the last newline. */
  datatype Parts = Parts(lines: seq<seq<Byte>>, tail: seq<Byte>)

  predicate OneLine(s: seq<Byte>) { forall i :: 0 <= i < |s| ==> s[i] != NEWLINE }

  function Split(content: seq<Byte>): Parts {
    if OneLine(content) then Parts([], content)
    else
      var k := FirstNewline(content);
      var rest := Split(content[k + 1..]);
      Parts([content[..k]] + rest.lines, rest.tail)
  }

  predicate FirstNewlineAt(content: seq<Byte>, k: nat) {
    k < |content| && content[k] == NEWLINE && forall i :: 0 <= i < k ==> content[i] != NEWLINE
  }

  function FirstNewline(content: seq<Byte>): (k: nat)
    requires !OneLine(content)
    ensures FirstNewlineAt(content, k)
  {
    if content[0] == NEWLINE then 0
    else
      assert exists i :: 0 < i < |content| && content[i] == NEWLINE && content[1..][i - 1] == NEWLINE;
      var k := FirstNewline(content[1..]);
      assert forall i :: 0 < i <= k ==> content[i] == content[1..][i - 1];
      k + 1
  }

  /** The verdict of the first line that has one. */
  function FirstVerdict(lines: seq<seq<Byte>>, classify: Classify, inspected: nat): Option<Verdict> {
    if lines == [] then None
    else
      var v := LineVerdict(lines[0], classify, inspected);
      if v.Some? then v else FirstVerdict(lines[1..], classify, inspected + 1)
  }

  function TailVerdict(tail: seq<Byte>, truncated: bool, classify: Classify, inspected: nat): Verdict {
    if truncated then (if |tail| > MAX_LINE_BYTES then OversizedLine else BoundExhausted)
    else
      var v := if tail == [] then None else LineVerdict(tail, classify, inspected);
      if v.Some? then v.value else Mismatch
  }

  function ScanFrom(content: seq<Byte>, truncated: bool, classify: Classify, inspected: nat): Verdict {
    var parts := Split(content);
    var v := FirstVerdict(parts.lines, classify, inspected);
    if v.Some? then v.value else TailVerdict(parts.tail, truncated, classify, inspected + |parts.lines|)
  }

  function Scan(content: seq<Byte>, truncated: bool, classify: Classify): Verdict {
    ScanFrom(content, truncated, classify, 0)
  }

  // ---- The split and the first verdict mean what they should ----

  function Joined(p: Parts): seq<Byte>
    decreases p.lines
  {
    if p.lines == [] then p.tail else p.lines[0] + [NEWLINE] + Joined(Parts(p.lines[1..], p.tail))
  }

  ghost predicate OneLineEach(lines: seq<seq<Byte>>) {
    forall i :: 0 <= i < |lines| ==> OneLine(lines[i])
  }

  lemma JoinedLine(content: seq<Byte>, k: nat, rest: Parts)
    requires FirstNewlineAt(content, k) && Joined(rest) == content[k + 1..] && OneLineEach(rest.lines)
    ensures Joined(Parts([content[..k]] + rest.lines, rest.tail)) == content
    ensures OneLineEach([content[..k]] + rest.lines)
  {
    var whole := Parts([content[..k]] + rest.lines, rest.tail);
    assert whole.lines[1..] == rest.lines;
    assert content == content[..k] + [NEWLINE] + content[k + 1..];
  }

  /** The split loses nothing and leaves no newline in any line. */
  lemma {:induction false} SplitJoins(content: seq<Byte>)
    ensures Joined(Split(content)) == content
    ensures OneLine(Split(content).tail) && OneLineEach(Split(content).lines)
    decreases |content|
  {
    if !OneLine(content) {
      var k := FirstNewline(content);
      SplitJoins(content[k + 1..]);
      JoinedLine(content, k, Split(content[k + 1..]));
    }
    hide Joined, OneLineEach, OneLine, FirstNewlineAt;
  }

  /** Line `k` is the first one with a verdict. */
  ghost predicate DecidedAt(lines: seq<seq<Byte>>, classify: Classify, inspected: nat, k: nat, v: Verdict) {
    && k < |lines| && LineVerdict(lines[k], classify, inspected + k) == Some(v)
    && forall i :: 0 <= i < k ==> LineVerdict(lines[i], classify, inspected + i) == None
  }

  /** No line has a verdict. */
  ghost predicate Undecided(lines: seq<seq<Byte>>, classify: Classify, inspected: nat) {
    forall i :: 0 <= i < |lines| ==> LineVerdict(lines[i], classify, inspected + i) == None
  }

  lemma DecidedLater(lines: seq<seq<Byte>>, classify: Classify, inspected: nat, k: nat, v: Verdict)
    requires lines != [] && LineVerdict(lines[0], classify, inspected) == None
    requires DecidedAt(lines[1..], classify, inspected + 1, k, v)
    ensures DecidedAt(lines, classify, inspected, k + 1, v)
  {
  }

  /** The first verdict is that of the first line that is past the cap, empty, oversized, unparsable or eligible. */
  lemma {:induction false} FirstVerdictMeaning(lines: seq<seq<Byte>>, classify: Classify, inspected: nat)
    ensures FirstVerdict(lines, classify, inspected).None? ==> Undecided(lines, classify, inspected)
    ensures FirstVerdict(lines, classify, inspected).Some? ==>
      exists k: nat :: DecidedAt(lines, classify, inspected, k, FirstVerdict(lines, classify, inspected).value)
  {
    if lines != [] {
      var first, rest := LineVerdict(lines[0], classify, inspected), FirstVerdict(lines[1..], classify, inspected + 1);
      if first.Some? {
        assert DecidedAt(lines, classify, inspected, 0, first.value);
      } else {
        FirstVerdictMeaning(lines[1..], classify, inspected + 1);
        if rest.Some? {
          var k: nat :| DecidedAt(lines[1..], classify, inspected + 1, k, rest.value);
          DecidedLater(lines, classify, inspected, k, rest.value);
        } else {
        }
      }
    }
    hide LineVerdict, DecidedAt, Undecided;
  }

  // ---- What a scan says ----

  /** A record that is looked at and passed over. */
  predicate PassedOver(line: seq<Byte>, classify: Classify) { 1 <= |line| <= 65536 && classify(line).NotEligible? }

  /** The lines a scan looks at: the unfinished last one only if the file ends with it. */
  function LinesSeen(content: seq<Byte>, truncated: bool): seq<seq<Byte>> {
    var parts := Split(content);
    if truncated || parts.tail == [] then parts.lines else parts.lines + [parts.tail]
  }

  lemma {:induction false} VerdictAt(lines: seq<seq<Byte>>, classify: Classify, inspected: nat, k: nat)
    requires k <= |lines| && inspected + k <= 64 && forall i :: 0 <= i < k ==> PassedOver(lines[i], classify)
    ensures FirstVerdict(lines, classify, inspected) == FirstVerdict(lines[k..], classify, inspected + k)
    decreases k
  {
    if k == 0 {
      assert lines[0..] == lines;
    } else {
      VerdictAt(lines[1..], classify, inspected + 1, k - 1);
      assert lines[1..][k - 1..] == lines[k..];
    }
  }

  /**
   * The first `k` lines are passed over. What the scan says is then decided by
   * the next one: beyond 64 records it says exhausted; else an empty or
   * unparsable record is malformed, one of more than 65536 bytes oversized, an
   * eligible one accepted. Without a next one the whole file is a mismatch, and
   * a truncated one exhausted, unless the fragment it ends in is oversized.
   */
  lemma ScanOutcome(content: seq<Byte>, truncated: bool, classify: Classify, k: nat)
    requires k <= 64 && k <= |LinesSeen(content, truncated)|
    requires forall i :: 0 <= i < k ==> PassedOver(LinesSeen(content, truncated)[i], classify)
    ensures
      var lines, v := LinesSeen(content, truncated), Scan(content, truncated, classify);
      if k < |lines| then
        && (k == 64 ==> v == BoundExhausted)
        && (k < 64 && |lines[k]| == 0 ==> v == Malformed)
        && (k < 64 && |lines[k]| > 65536 ==> v == OversizedLine)
        && (k < 64 && 1 <= |lines[k]| <= 65536 && classify(lines[k]).Unparsable? ==> v == Malformed)
        && (k < 64 && 1 <= |lines[k]| <= 65536 && classify(lines[k]).Eligible? ==> v == Accepted)
      else if !truncated then v == Mismatch
      else if |Split(content).tail| > 65536 then v == OversizedLine
      else v == BoundExhausted
  {
    var parts, lines := Split(content), LinesSeen(content, truncated);
    hide Split;
    assert forall i :: 0 <= i < |parts.lines| ==> lines[i] == parts.lines[i];
    if k <= |parts.lines| {
      VerdictAt(parts.lines, classify, 0, k);
      if k == |parts.lines| && k < |lines| { assert lines[k] == parts.tail; }
    } else {
      VerdictAt(parts.lines, classify, 0, k - 1);
      assert lines[k - 1] == parts.tail;
    }
  }

  /** Either every line up to the 64th is passed over, or some line before is the first that is not. */
  lemma {:induction false} LinesPassed(lines: seq<seq<Byte>>, classify: Classify) returns (k: nat)
    ensures k <= 64 && k <= |lines| && forall i :: 0 <= i < k ==> PassedOver(lines[i], classify)
    ensures k == |lines| || k == 64 || !PassedOver(lines[k], classify)
  {
    k := 0;
    while k < |lines| && k < 64 && PassedOver(lines[k], classify)
      invariant k <= 64 && k <= |lines| && forall i :: 0 <= i < k ==> PassedOver(lines[i], classify)
    {
      k := k + 1;
    }
  }

  // ---- Lemmas for the loop ----

  lemma SplitLine(content: seq<Byte>, k: nat)
    requires FirstNewlineAt(content, k)
    ensures Split(content).lines == [content[..k]] + Split(content[k + 1..]).lines
    ensures Split(content).tail == Split(content[k + 1..]).tail
  {
  }

  lemma ScanLine(content: seq<Byte>, lineStart: nat, index: nat, truncated: bool, classify: Classify, inspected: nat)
    requires lineStart <= index < |content| && content[index] == NEWLINE && OneLineIn(content, lineStart, index)
    ensures ScanFrom(content[lineStart..], truncated, classify, inspected)
         == var v := LineVerdict(content[lineStart..index], classify, inspected);
            if v.Some? then v.value else ScanFrom(content[index + 1..], truncated, classify, inspected + 1)
    ensures LineVerdict(content[lineStart..index], classify, inspected).None? ==> inspected < MAX_RECORDS
  {
    var rest := content[lineStart..];
    assert rest[..index - lineStart] == content[lineStart..index];
    assert rest[index - lineStart + 1..] == content[index + 1..];
    hide ScanFrom;
  }

  lemma ScanTail(content: seq<Byte>, lineStart: nat, truncated: bool, classify: Classify, inspected: nat)
    requires lineStart <= |content| && OneLineIn(content, lineStart, |content|)
    ensures
      var tail := content[lineStart..];
      ScanFrom(tail, truncated, classify, inspected)
      == if truncated then (if |content| - lineStart > MAX_LINE_BYTES then OversizedLine else BoundExhausted)
         else if lineStart < |content| && LineVerdict(tail, classify, inspected).Some? then LineVerdict(tail, classify, inspected).value
         else Mismatch
  {
    var tail := content[lineStart..];
    forall i | 0 <= i < |tail| ensures tail[i] != NEWLINE { assert tail[i] == content[lineStart + i]; }
    assert OneLine(tail) && Split(tail) == Parts([], tail);
    hide LineVerdict, Split;
  }

  // ---- Extensions and truncation ----

  ghost predicate Extends(content: seq<Byte>, more: seq<Byte>) {
    && Split(content + more).lines == Split(content).lines + Split(Split(content).tail + more).lines
    && Split(content + more).tail == Split(Split(content).tail + more).tail
  }

  lemma ExtendsBehindLine(content: seq<Byte>, more: seq<Byte>, k: nat)
    requires FirstNewlineAt(content, k)
    requires Split(content[k + 1..] + more).lines == Split(content[k + 1..]).lines + Split(Split(content[k + 1..]).tail + more).lines
    ensures Split(content + more).lines == Split(content).lines + Split(Split(content).tail + more).lines
    ensures Split(content + more).tail == Split(content[k + 1..] + more).tail && Split(content).tail == Split(content[k + 1..]).tail
  {
    LineStays(content, more, k);
    SplitLine(content, k);
    SplitLine(content + more, k);
    var line, rest := content[..k], content[k + 1..];
    hide *;
    AssocLines(line, Split(rest).lines, Split(Split(rest).tail + more).lines);
  }

  lemma AssocLines(line: seq<Byte>, a: seq<seq<Byte>>, b: seq<seq<Byte>>)
    ensures [line] + (a + b) == [line] + a + b
  {
  }

  lemma LineStays(content: seq<Byte>, more: seq<Byte>, k: nat)
    requires FirstNewlineAt(content, k)
    ensures FirstNewlineAt(content + more, k)
    ensures (content + more)[..k] == content[..k] && (content + more)[k + 1..] == content[k + 1..] + more
  {
  }

  /** Appending bytes keeps the complete lines and continues the unfinished one. */
  lemma {:induction false} SplitExtends(content: seq<Byte>, more: seq<Byte>)
    ensures Extends(content, more)
    decreases |content|
  {
    if !OneLine(content) {
      var k := FirstNewline(content);
      SplitExtends(content[k + 1..], more);
      ExtendsBehindLine(content, more, k);
    }
  }

  lemma {:induction false} FirstVerdictAppend(a: seq<seq<Byte>>, b: seq<seq<Byte>>, classify: Classify, inspected: nat)
    ensures FirstVerdict(a + b, classify, inspected)
         == if FirstVerdict(a, classify, inspected).Some? then FirstVerdict(a, classify, inspected)
            else FirstVerdict(b, classify, inspected + |a|)
  {
    if a == [] {
      assert a + b == b;
    } else {
      assert (a + b)[0] == a[0] && (a + b)[1..] == a[1..] + b;
      FirstVerdictAppend(a[1..], b, classify, inspected + 1);
    }
  }

  /** A verdict reached at a complete line survives every extension, truncated or not. */
  lemma DecidedIsFinal(content: seq<Byte>, more: seq<Byte>, classify: Classify, t1: bool, t2: bool)
    requires FirstVerdict(Split(content).lines, classify, 0).Some?
    ensures Scan(content + more, t1, classify) == Scan(content, t2, classify)
  {
    SplitExtends(content, more);
    FirstVerdictAppend(Split(content).lines, Split(Split(content).tail + more).lines, classify, 0);
    hide FirstVerdict, Split;
  }

  /** A truncated scan never reports a mismatch, and accepts only at a complete line. */
  lemma TruncatedVerdicts(content: seq<Byte>, classify: Classify)
    ensures Scan(content, true, classify) != Mismatch
    ensures Scan(content, true, classify) in {Accepted, Malformed} ==> FirstVerdict(Split(content).lines, classify, 0).Some?
  {
    FirstVerdictMeaning(Split(content).lines, classify, 0);
    hide Split, FirstVerdict;
  }

  /** The one case in which a truncated scan looks past the record cap: an oversized fragment after the last allowed record. */
  predicate OversizedPastCap(content: seq<Byte>, classify: Classify) {
    var parts := Split(content);
    && FirstVerdict(parts.lines, classify, 0).None?
    && |parts.lines| == MAX_RECORDS && |parts.tail| > MAX_LINE_BYTES
  }

  lemma UndecidedWithinCap(lines: seq<seq<Byte>>, classify: Classify)
    requires FirstVerdict(lines, classify, 0).None?
    ensures |lines| <= MAX_RECORDS
  {
    FirstVerdictMeaning(lines, classify, 0);
    hide FirstVerdict;
    if lines != [] { assert LineVerdict(lines[|lines| - 1], classify, 0 + (|lines| - 1)) == None; }
  }

  /**
   * A truncated scan that did not exhaust its budget agrees with the scan of
   * the whole file exactly outside that one case.
   */
  lemma TruncatedAgreesIff(content: seq<Byte>, more: seq<Byte>, classify: Classify)
    requires Scan(content, true, classify) != BoundExhausted
    ensures Scan(content + more, false, classify) == Scan(content, true, classify) <==> !OversizedPastCap(content, classify)
  {
    var parts := Split(content);
    if FirstVerdict(parts.lines, classify, 0).Some? {
      DecidedIsFinal(content, more, classify, false, true);
    } else {
      SplitExtends(content, more);
      FirstVerdictAppend(parts.lines, Split(parts.tail + more).lines, classify, 0);
      SplitJoins(content);
      UndecidedWithinCap(parts.lines, classify);
      hide FirstVerdict, Split, Joined;
    }
  }

  /** `n` copies of a one-byte record. */
  function Records(n: nat): seq<Byte> { if n == 0 then [] else [0x31, NEWLINE] + Records(n - 1) }

  function Filler(n: nat): (s: seq<Byte>)
    ensures |s| == n && OneLine(s)
  {
    if n == 0 then [] else [0x31] + Filler(n - 1)
  }

  lemma RecordLine(n: nat, tail: seq<Byte>)
    requires n > 0
    ensures var whole := Records(n) + tail;
      FirstNewlineAt(whole, 1) && whole[..1] == [0x31] && whole[2..] == Records(n - 1) + tail
  {
  }

  lemma {:induction false} RecordsSplit(n: nat, tail: seq<Byte>, classify: Classify, inspected: nat)
    requires OneLine(tail) && classify([0x31]) == NotEligible && n + inspected <= MAX_RECORDS
    ensures Split(Records(n) + tail).tail == tail && |Split(Records(n) + tail).lines| == n
    ensures FirstVerdict(Split(Records(n) + tail).lines, classify, inspected) == None
  {
    hide *;
    if n == 0 {
      NoRecords(tail, classify, inspected);
    } else {
      var whole := Records(n) + tail;
      RecordLine(n, tail);
      SplitLine(whole, 1);
      RecordsSplit(n - 1, tail, classify, inspected + 1);
      VerdictFront([0x31], Split(whole[2..]).lines, classify, inspected);
      PlainRecord(classify, inspected);
    }
  }

  lemma NoRecords(tail: seq<Byte>, classify: Classify, inspected: nat)
    requires OneLine(tail)
    ensures Split(Records(0) + tail) == Parts([], tail) && FirstVerdict([], classify, inspected) == None
  {
  }

  lemma PlainRecord(classify: Classify, inspected: nat)
    requires classify([0x31]) == NotEligible && inspected < MAX_RECORDS
    ensures LineVerdict([0x31], classify, inspected) == None
  {
  }

  lemma VerdictFront(line: seq<Byte>, rest: seq<seq<Byte>>, classify: Classify, inspected: nat)
    ensures FirstVerdict([line] + rest, classify, inspected)
         == if LineVerdict(line, classify, inspected).Some? then LineVerdict(line, classify, inspected)
            else FirstVerdict(rest, classify, inspected + 1)
  {
  }

  /** In that case the whole file exhausts the record cap, whatever follows the prefix. */
  lemma PastCapExhausts(content: seq<Byte>, more: seq<Byte>, classify: Classify)
    requires OversizedPastCap(content, classify)
    ensures Scan(content, true, classify) == OversizedLine && Scan(content + more, false, classify) == BoundExhausted
  {
    var parts := Split(content);
    SplitExtends(content, more);
    var rest := Split(parts.tail + more);
    FirstVerdictAppend(parts.lines, rest.lines, classify, 0);
    SplitJoins(parts.tail + more);
    hide Split, Joined;
    if rest.lines == [] {
      assert Joined(rest) == rest.tail by { JoinedTail(rest.tail); assert rest == Parts([], rest.tail); }
    }
  }

  lemma JoinedTail(tail: seq<Byte>)
    ensures Joined(Parts([], tail)) == tail
  {
  }

  lemma {:induction false} RecordsLength(n: nat)
    ensures |Records(n)| == 2 * n
    decreases n
  {
    if n > 0 { RecordsLength(n - 1); }
  }

  /** A full prefix of sixty-four unremarkable records and one long fragment: the
      truncated scan says oversized, that of every longer file exhausted. */
  lemma PastCapExample(classify: Classify, more: seq<Byte>)
    requires classify([0x31]) == NotEligible
    ensures
      var content := Records(MAX_RECORDS) + Filler(MAX_PREFIX_BYTES - 2 * MAX_RECORDS);
      && |content| == MAX_PREFIX_BYTES
      && Scan(content, true, classify) == OversizedLine && Scan(content + more, false, classify) == BoundExhausted
  {
    var tail := Filler(MAX_PREFIX_BYTES - 2 * MAX_RECORDS);
    hide Split, FirstVerdict, Records, Filler, Scan;
    RecordsLength(MAX_RECORDS);
    RecordsSplit(MAX_RECORDS, tail, classify, 0);
    PastCapExhausts(Records(MAX_RECORDS) + tail, more, classify);
  }

  // ---- The newest-first order of numbered directories ----

  predicate Digits(s: string) { s != "" && forall i :: 0 <= i < |s| ==> '0' <= s[i] <= '9' }

  function DigitValue(c: char): int { c as int - '0' as int }

  /** Drops every zero that another digit follows. */
  function Normalized(s: string): (r: string)
    ensures Digits(s) ==> Digits(r) && |r| <= |s| && (|r| > 1 ==> r[0] != '0')
  {
    if |s| > 1 && s[0] == '0' then Normalized(s[1..]) else s
  }

  /** The collation order of digit strings: character by character, a prefix first. */
  function Collate(a: string, b: string): int {
    if a == "" then (if b == "" then 0 else -1)
    else if b == "" then 1
    else if a[0] != b[0] then a[0] as int - b[0] as int
    else Collate(a[1..], b[1..])
  }

  function CompareNewestFirst(left: string, right: string): int {
    var l, r := Normalized(left), Normalized(right);
    if |l| != |r| then |r| - |l|
    else if Collate(r, l) != 0 then Collate(r, l)
    else Collate(right, left)
  }

  function Power(n: nat): nat { if n == 0 then 1 else 10 * Power(n - 1) }

  /** The number a digit string denotes. */
  function Value(s: string): int { if s == "" then 0 else DigitValue(s[0]) * Power(|s| - 1) + Value(s[1..]) }

  lemma Scaled(d: int, p: nat)
    requires 0 <= d <= 9
    ensures 0 <= d * p <= 9 * p && (d >= 1 ==> d * p >= p)
  {
  }

  lemma ScaledLess(x: int, y: int, p: nat)
    requires x < y
    ensures x * p + p <= y * p
  {
    assert (x + 1) * p <= y * p;
  }

  lemma {:induction false} ValueRange(s: string)
    requires s == "" || Digits(s)
    ensures 0 <= Value(s) < Power(|s|)
    ensures s != "" && s[0] != '0' ==> Value(s) >= Power(|s| - 1)
  {
    if s != "" {
      ValueRange(s[1..]);
      Scaled(DigitValue(s[0]), Power(|s| - 1));
    }
  }

  lemma {:induction false} NormalizedValue(s: string)
    requires Digits(s)
    ensures Value(Normalized(s)) == Value(s)
  {
    if |s| > 1 && s[0] == '0' {
      NormalizedValue(s[1..]);
      assert DigitValue(s[0]) == 0;
    }
  }

  lemma {:induction false} PowerGrows(m: nat, n: nat)
    requires m <= n
    ensures Power(m) <= Power(n)
  {
    if m < n { PowerGrows(m, n - 1); }
  }

  /** Strings of one length collate as the numbers they denote. */
  lemma {:induction false} CollateIsValue(a: string, b: string)
    requires |a| == |b| && (a == "" || (Digits(a) && Digits(b)))
    ensures (Collate(a, b) < 0 <==> Value(a) < Value(b)) && (Collate(a, b) == 0 <==> a == b)
    ensures Value(a) == Value(b) <==> a == b
  {
    if a != "" {
      CollateIsValue(a[1..], b[1..]);
      ValueRange(a[1..]);
      ValueRange(b[1..]);
      var x, y, p := DigitValue(a[0]), DigitValue(b[0]), Power(|a| - 1);
      if x < y { ScaledLess(x, y, p); }
      if y < x { ScaledLess(y, x, p); }
      assert a == [a[0]] + a[1..] && b == [b[0]] + b[1..];
    }
  }

  /**
   * Spellings of one number differ in their leading zeros. The shorter one
   * collates higher, except among the spellings of zero, where it is a prefix.
   */
  lemma {:induction false} CollateZeros(a: string, b: string)
    requires Digits(a) && Digits(b) && Normalized(a) == Normalized(b)
    ensures Collate(a, b) < 0 <==> if Normalized(a) == "0" then |a| < |b| else |a| > |b|
    ensures (Collate(a, b) == 0 <==> a == b) && (|a| == |b| <==> a == b)
  {
    if |a| > 1 && a[0] == '0' && |b| > 1 && b[0] == '0' {
      CollateZeros(a[1..], b[1..]);
      assert a == [a[0]] + a[1..] && b == [b[0]] + b[1..];
    } else if |a| > 1 && a[0] == '0' {
      assert |b| < |a| && (b == "0" ==> b[1..] == "");
    } else if |b| > 1 && b[0] == '0' {
      assert |a| < |b| && (a == "0" ==> a[1..] == "");
    } else {
      CollateIsValue(a, b);
    }
  }

  /** Larger numbers first; spellings of one number by length. */
  predicate Before(l: string, r: string) {
    || Value(l) > Value(r)
    || (Value(l) == Value(r) && (if Value(l) == 0 then |l| > |r| else |l| < |r|))
  }

  lemma ShorterIsSmaller(a: string, b: string)
    requires Digits(a) && Digits(b) && |a| < |b| && b[0] != '0'
    ensures Value(a) < Value(b)
  {
    ValueRange(a);
    ValueRange(b);
    PowerGrows(|a|, |b| - 1);
  }

  lemma ZeroNormalized(s: string)
    requires Digits(s)
    ensures Value(s) == 0 <==> Normalized(s) == "0"
  {
    NormalizedValue(s);
    ValueRange(Normalized(s));
    PowerGrows(0, |Normalized(s)| - 1);
  }

  /** The comparison of the source is the order of the numbers, with equality only between equal names. */
  lemma ComparesNumbers(l: string, r: string)
    requires Digits(l) && Digits(r)
    ensures (CompareNewestFirst(l, r) < 0 <==> Before(l, r)) && (CompareNewestFirst(l, r) == 0 <==> l == r)
  {
    var a, b := Normalized(l), Normalized(r);
    NormalizedValue(l);
    NormalizedValue(r);
    ZeroNormalized(l);
    if |a| < |b| {
      ShorterIsSmaller(a, b);
    } else if |b| < |a| {
      ShorterIsSmaller(b, a);
    } else {
      CollateIsValue(b, a);
      if a == b { CollateZeros(r, l); }
    }
    hide Value, Collate, Digits, Normalized;
  }
}
