/**
 * The durable session identity of `src/shared/sessionId.ts`: the grammar,
 * minting an id from a name, and the uniqueness check of a manifest's ids.
 *
 * A name is given already lower-cased, as a string of UTF-16 code units.
 */
module SessionId {
  import opened Common

  const MAX_LENGTH := 64
  /** Two to the power 53: the counter of the minting loop is exact below it. */
  const EXACT_NUMBERS := 9007199254740992

  predicate Letter(c: char) { 'a' <= c <= 'z' }

  predicate Digit(c: char) { '0' <= c <= '9' }

  predicate Alnum(c: char) { Letter(c) || Digit(c) }

  /** The grammar `^[a-z][a-z0-9-]{2,63}$`. */
  predicate IsValidSessionId(id: string) {
    && 3 <= |id| <= MAX_LENGTH && Letter(id[0])
    && forall i :: 1 <= i < |id| ==> Alnum(id[i]) || id[i] == '-'
  }

  // ---- The slug of a name ----

  /** Every maximal run of other characters becomes one dash. */
  function Dashed(s: string): (r: string) {
    if s == "" then ""
    else if Alnum(s[0]) then [s[0]] + Dashed(s[1..])
    else if |s| > 1 && !Alnum(s[1]) then Dashed(s[1..])
    else "-" + Dashed(s[1..])
  }

  /** Every run of dashes becomes one dash. */
  function Collapsed(s: string): (r: string) {
    if s == "" then ""
    else if |s| > 1 && s[0] == '-' && s[1] == '-' then Collapsed(s[1..])
    else [s[0]] + Collapsed(s[1..])
  }

  function WithoutFirstDash(s: string): string { if s != "" && s[0] == '-' then s[1..] else s }

  function WithoutLastDash(s: string): string { if s != "" && s[|s| - 1] == '-' then s[..|s| - 1] else s }

  function Clamped(s: string, n: int): string { if 0 <= n < |s| then s[..n] else s }

  function Trimmed(s: string): string { WithoutLastDash(WithoutFirstDash(s)) }

  function Lettered(s: string): string { if s == "" || !Letter(s[0]) then WithoutLastDash("s-" + s) else s }

  function Padded(s: string): string { if |s| < 3 then Clamped(s + "-x", MAX_LENGTH) else s }

  /** The id a name asks for, before any collision. */
  function Base(lowered: string): string {
    WithoutLastDash(Clamped(Padded(Lettered(Trimmed(Collapsed(Dashed(lowered))))), MAX_LENGTH))
  }

  predicate DashesAt(s: string, i: nat)
    requires i + 1 < |s|
  {
    s[i] == '-' && s[i + 1] == '-'
  }

  /** Letters, digits and single dashes. */
  predicate Slug(s: string) {
    && (forall i :: 0 <= i < |s| ==> Alnum(s[i]) || s[i] == '-')
    && (forall i :: 0 <= i < |s| - 1 ==> !DashesAt(s, i))
  }

  /** A slug that neither begins nor ends with a dash. */
  predicate Tidy(s: string) { Slug(s) && (s != "" ==> s[0] != '-' && s[|s| - 1] != '-') }

  lemma SlugPart(s: string, i: nat, j: nat)
    requires Slug(s) && i <= j <= |s|
    ensures Slug(s[i..j])
  {
    var t := s[i..j];
    forall k | 0 <= k < |t| - 1 ensures !DashesAt(t, k) {
      assert !DashesAt(s, i + k);
    }
  }

  /** Two slugs joined by anything but a double dash make a slug. */
  lemma SlugJoin(a: string, b: string)
    requires Slug(a) && Slug(b) && (a != "" && b != "" ==> a[|a| - 1] != '-' || b[0] != '-')
    ensures Slug(a + b)
  {
    forall k | 0 <= k < |a + b| - 1 ensures !DashesAt(a + b, k) {
      assert k < |a| - 1 ==> !DashesAt(a, k);
      assert k >= |a| ==> !DashesAt(b, k - |a|);
    }
  }

  lemma {:induction false} DashedSlug(s: string)
    ensures Slug(Dashed(s)) && (s == "" <==> Dashed(s) == "")
    ensures s != "" ==> (Alnum(s[0]) <==> Dashed(s)[0] != '-')
  {
    if s != "" {
      DashedSlug(s[1..]);
      assert Slug([s[0]]) || !Alnum(s[0]);
      assert Slug("-");
      SlugJoin(if Alnum(s[0]) then [s[0]] else "-", if |s| > 1 && !Alnum(s[0]) && !Alnum(s[1]) then "" else Dashed(s[1..]));
    }
  }

  /** The step that collapses dashes finds nothing left to collapse. */
  lemma {:induction false} CollapsedSlug(s: string)
    requires Slug(s)
    ensures Collapsed(s) == s
  {
    if s != "" {
      SlugPart(s, 1, |s|);
      assert s[1..] == s[1..|s|] && (|s| > 1 ==> !DashesAt(s, 0));
      CollapsedSlug(s[1..]);
      assert s == [s[0]] + s[1..];
    }
  }

  lemma {:induction false} DashedFixed(s: string)
    requires Slug(s)
    ensures Dashed(s) == s
  {
    if s != "" {
      SlugPart(s, 1, |s|);
      assert s[1..] == s[1..|s|] && (|s| > 1 ==> !DashesAt(s, 0));
      DashedFixed(s[1..]);
      assert s == [s[0]] + s[1..];
    }
  }

  /** Tidy ids are exactly the names whose slug is the name itself. */
  predicate Canonical(s: string) { IsValidSessionId(s) && Tidy(s) }

  lemma TrimmedTidy(s: string)
    requires Slug(s)
    ensures Tidy(Trimmed(s))
  {
    if s != "" {
      SlugPart(s, 1, |s|);
      var t := WithoutFirstDash(s);
      assert s[1..] == s[1..|s|];
      assert t != "" && s[0] == '-' ==> !DashesAt(s, 0);
      if t != "" {
        SlugPart(t, 0, |t| - 1);
        assert |t| > 1 ==> !DashesAt(t, |t| - 2);
      }
    }
  }

  lemma LetteredTidy(s: string)
    requires Tidy(s)
    ensures Tidy(Lettered(s)) && Lettered(s) != "" && Letter(Lettered(s)[0])
  {
    assert Slug("s-") && Slug("s");
    SlugJoin("s-", s);
  }

  lemma ClampedCanonical(s: string)
    requires Tidy(s) && |s| >= 3 && Letter(s[0])
    ensures Canonical(WithoutLastDash(Clamped(s, MAX_LENGTH)))
  {
    var c := Clamped(s, MAX_LENGTH);
    SlugPart(s, 0, |c|);
    SlugPart(c, 0, |c| - 1);
    assert !DashesAt(c, |c| - 2);
  }

  lemma BaseCanonical(lowered: string)
    ensures Canonical(Base(lowered))
  {
    DashedSlug(lowered);
    CollapsedSlug(Dashed(lowered));
    TrimmedTidy(Dashed(lowered));
    var slug := Trimmed(Dashed(lowered));
    LetteredTidy(slug);
    ClampedCanonical(Padded(Lettered(slug)));
    hide Trimmed, Lettered, Padded, WithoutLastDash, Canonical;
  }

  /** A name is its own slug exactly when it is a valid id without a dangling or doubled dash. */
  lemma BaseFixedIff(lowered: string)
    ensures Base(lowered) == lowered <==> Canonical(lowered)
  {
    BaseCanonical(lowered);
    if Canonical(lowered) {
      DashedFixed(lowered);
      CollapsedSlug(lowered);
    }
  }

  // ---- What any name becomes ----

  /** A run of other characters, however long, is one dash. */
  lemma {:induction false} DashedRun(s: string)
    requires s != "" && forall i :: 0 <= i < |s| ==> !('a' <= s[i] <= 'z' || '0' <= s[i] <= '9')
    ensures Dashed(s) == "-"
    decreases |s|
  {
    if |s| > 1 { DashedRun(s[1..]); } else { assert s[1..] == ""; }
  }

  /** Letters and digits stay as they are. */
  lemma {:induction false} DashedWord(s: string)
    requires forall i :: 0 <= i < |s| ==> 'a' <= s[i] <= 'z' || '0' <= s[i] <= '9'
    ensures Dashed(s) == s
    decreases |s|
  {
    if s != "" {
      DashedWord(s[1..]);
      assert s == [s[0]] + s[1..];
    }
  }

  /**
   * A name falls into runs of letters and digits and runs of other characters;
   * what each becomes is put together. With the two lemmas above this
   * determines the result for every name.
   */
  lemma {:induction false} DashedJoins(a: string, b: string)
    requires a != "" && b != "" && (Alnum(a[|a| - 1]) || Alnum(b[0]))
    ensures Dashed(a + b) == Dashed(a) + Dashed(b)
    decreases |a|
  {
    hide Alnum;
    if |a| == 1 {
      assert (a + b)[1..] == b && a[1..] == "";
    } else {
      assert (a + b)[0] == a[0] && (a + b)[1] == a[1] && (a + b)[1..] == a[1..] + b;
      DashedJoins(a[1..], b);
    }
  }

  /** The id without its limit of length: `s-` goes in front of a word that starts with no letter, `-x` behind one that is too short. */
  function Named(word: string): string {
    if word == "" then "s-x"
    else if !('a' <= word[0] <= 'z') then "s-" + word
    else if |word| < 3 then word + "-x"
    else word
  }

  /** The id a name asks for: its slug without a dash at either end, named and
      cut at 64 characters, again without a dash at the end. */
  lemma BaseOutcome(lowered: string, front: string, word: string, back: string)
    requires Dashed(lowered) == front + word + back && (front == "" || front == "-") && (back == "" || back == "-")
    requires word == "" ==> back == ""
    requires Tidy(word)
    ensures
      var id := Named(word);
      Base(lowered) == if |id| <= 64 then id else if id[63] == '-' then id[..63] else id[..64]
  {
    hide *;
    DashedSlug(lowered);
    CollapsedSlug(Dashed(lowered));
    BaseOf(lowered);
    TrimmedWord(front, word, back);
    NamedLettered(word);
    CutAt(Named(word));
  }

  lemma BaseOf(lowered: string)
    ensures Base(lowered) == WithoutLastDash(Clamped(Padded(Lettered(Trimmed(Collapsed(Dashed(lowered))))), MAX_LENGTH))
  {
  }

  lemma CutAt(id: string)
    requires id != "" && id[|id| - 1] != '-'
    ensures WithoutLastDash(Clamped(id, MAX_LENGTH)) == if |id| <= 64 then id else if id[63] == '-' then id[..63] else id[..64]
  {
  }

  lemma TrimmedWord(front: string, word: string, back: string)
    requires (front == "" || front == "-") && (back == "" || back == "-") && (word == "" ==> back == "") && Tidy(word)
    ensures Trimmed(front + word + back) == word
  {
    hide Slug;
    assert WithoutFirstDash(front + word + back) == word + back;
    assert WithoutLastDash(word + back) == word;
  }

  lemma NamedLettered(word: string)
    requires Tidy(word)
    ensures Padded(Lettered(word)) == Named(word) && Named(word) != "" && Named(word)[|Named(word)| - 1] != '-'
  {
    hide Slug;
    assert WithoutLastDash("s-") == "s" && "s" + "-x" == "s-x";
    if word == "" {
      assert "s-" + word == "s-";
    } else {
      assert ("s-" + word)[|word| + 1] == word[|word| - 1];
    }
  }

  /** Every name has such a word. */
  lemma WordOf(lowered: string) returns (front: string, word: string, back: string)
    ensures Dashed(lowered) == front + word + back && (front == "" || front == "-") && (back == "" || back == "-")
    ensures (word == "" ==> back == "") && Tidy(word)
  {
    DashedSlug(lowered);
    var s := Dashed(lowered);
    TrimmedTidy(s);
    word := Trimmed(s);
    var t := WithoutFirstDash(s);
    front := if s != "" && s[0] == '-' then "-" else "";
    back := if t != "" && t[|t| - 1] == '-' then "-" else "";
    if |s| > 1 { assert !DashesAt(s, 0); }
  }

  // ---- Suffixes ----

  function Decimal(n: nat): (s: string)
    ensures s != "" && forall i :: 0 <= i < |s| ==> Digit(s[i])
  {
    if n < 10 then [DigitChar(n)] else Decimal(n / 10) + [DigitChar(n % 10)]
  }

  function DigitChar(d: nat): (c: char)
    requires d < 10
    ensures Digit(c)
  {
    "0123456789"[d]
  }

  function Pow10(k: nat): nat { if k == 0 then 1 else 10 * Pow10(k - 1) }

  lemma {:induction false} DecimalInjective(m: nat, n: nat)
    requires Decimal(m) == Decimal(n)
    ensures m == n
  {
    if m >= 10 && n >= 10 {
      assert Decimal(m / 10) == Decimal(m)[..|Decimal(m)| - 1] == Decimal(n / 10);
      DecimalInjective(m / 10, n / 10);
      assert DigitChar(m % 10) == Decimal(m)[|Decimal(m)| - 1] == DigitChar(n % 10);
    } else if m < 10 && n < 10 {
      assert DigitChar(m) == Decimal(m)[0] == DigitChar(n);
    }
  }

  lemma {:induction false} DecimalLength(n: nat, k: nat)
    requires n < Pow10(k) && k > 0
    ensures |Decimal(n)| <= k
  {
    if n >= 10 {
      assert k > 1 by { assert Pow10(1) == 10; }
      DecimalLength(n / 10, k - 1);
    }
  }

  function Candidate(base: string, n: nat): string {
    var suffix := "-" + Decimal(n);
    Clamped(base, MAX_LENGTH - |suffix|) + suffix
  }

  lemma ShortSuffix(n: nat)
    requires n < EXACT_NUMBERS
    ensures |Decimal(n)| <= 16
  {
    assert Pow10(4) == 10000 by { assert Pow10(2) == 100; }
    assert Pow10(8) == 100000000 by { assert Pow10(6) == 1000000; }
    assert Pow10(12) == 1000000000000 by { assert Pow10(10) == 10000000000; }
    assert Pow10(16) == 10000000000000000 by { assert Pow10(14) == 100000000000000; }
    DecimalLength(n, 16);
  }

  lemma CandidateValid(base: string, n: nat)
    requires IsValidSessionId(base) && n < EXACT_NUMBERS
    ensures IsValidSessionId(Candidate(base, n))
  {
    ShortSuffix(n);
    var c, head := Candidate(base, n), Clamped(base, MAX_LENGTH - 1 - |Decimal(n)|);
    assert c == head + ("-" + Decimal(n)) && |head| > 0;
    forall i | 1 <= i < |c| ensures Alnum(c[i]) || c[i] == '-' {
      if i > |head| { assert c[i] == Decimal(n)[i - |head| - 1]; }
    }
  }

  /** The last dash of a candidate stands right before its number. */
  lemma LastDash(base: string, n: nat)
    ensures var c := Candidate(base, n); var at := |c| - |Decimal(n)| - 1;
      && at >= 0 && c[at] == '-' && c[at + 1..] == Decimal(n)
      && forall i :: at < i < |c| ==> c[i] != '-'
  {
  }

  /** Distinct numbers give distinct candidates, even where the base is cut short. */
  lemma CandidateInjective(base: string, m: nat, n: nat)
    requires Candidate(base, m) == Candidate(base, n)
    ensures m == n
  {
    LastDash(base, m);
    LastDash(base, n);
    var c := Candidate(base, m);
    var p, q := |c| - |Decimal(m)| - 1, |c| - |Decimal(n)| - 1;
    assert p == q;
    DecimalInjective(m, n);
  }

  lemma {:induction false} SubsetSize<T>(a: set<T>, b: set<T>)
    requires a <= b
    ensures |a| <= |b|
    decreases b
  {
    if a != {} {
      var x :| x in a;
      SubsetSize(a - {x}, b - {x});
    }
  }

  /** `id` is the candidate with the least number from 2 on that is free. */
  ghost predicate FirstFree(base: string, taken: set<string>, id: string, n: nat) {
    && 2 <= n <= |taken| + 2 && id == Candidate(base, n) && id !in taken
    && forall m :: 2 <= m < n ==> Candidate(base, m) in taken
  }

  /** The candidates with the numbers from 2 up to `n` are all taken: these are `tried`. */
  ghost predicate Tried(base: string, taken: set<string>, tried: set<string>, n: nat) {
    && n >= 2 && tried <= taken && |tried| == n - 2
    && (forall m :: 2 <= m < n ==> Candidate(base, m) in tried)
    && (forall c :: c in tried ==> exists m :: 2 <= m < n && c == Candidate(base, m))
  }

  lemma TriedFew(base: string, taken: set<string>, tried: set<string>, n: nat)
    requires Tried(base, taken, tried, n)
    ensures 2 <= n <= |taken| + 2
  {
    SubsetSize(tried, taken);
  }

  /** A candidate with a new number is itself new: the pigeonhole step. */
  lemma TriedOneMore(base: string, taken: set<string>, tried: set<string>, n: nat)
    requires Tried(base, taken, tried, n) && Candidate(base, n) in taken
    ensures Candidate(base, n) !in tried && Tried(base, taken, tried + {Candidate(base, n)}, n + 1)
  {
    if Candidate(base, n) in tried {
      var m :| 2 <= m < n && Candidate(base, n) == Candidate(base, m);
      CandidateInjective(base, m, n);
    }
    hide Candidate;
  }

  lemma IsFirstFree(base: string, taken: set<string>, tried: set<string>, n: nat)
    requires Tried(base, taken, tried, n) && Candidate(base, n) !in taken
    ensures FirstFree(base, taken, Candidate(base, n), n)
  {
    TriedFew(base, taken, tried, n);
  }

  /** What minting an id for a name promises. */
  ghost predicate Mints(lowered: string, taken: set<string>, id: string) {
    && IsValidSessionId(id) && id !in taken
    && (Base(lowered) !in taken ==> id == Base(lowered))
    && (Base(lowered) in taken ==> exists n :: FirstFree(Base(lowered), taken, id, n))
  }

  lemma MintsBase(lowered: string, taken: set<string>)
    ensures IsValidSessionId(Base(lowered))
    ensures Base(lowered) !in taken ==> Mints(lowered, taken, Base(lowered))
  {
    BaseCanonical(lowered);
    hide Base;
  }

  lemma MintsCandidate(lowered: string, taken: set<string>, tried: set<string>, n: nat)
    requires Base(lowered) in taken && Tried(Base(lowered), taken, tried, n)
    requires Candidate(Base(lowered), n) !in taken && IsValidSessionId(Candidate(Base(lowered), n))
    ensures Mints(lowered, taken, Candidate(Base(lowered), n))
  {
    IsFirstFree(Base(lowered), taken, tried, n);
    hide Base, Candidate, IsValidSessionId, Tried;
  }

  method MintSessionId(lowered: string, taken: set<string>) returns (id: string)
    requires |taken| + 2 < EXACT_NUMBERS
    ensures Mints(lowered, taken, id)
  {
    MintsBase(lowered, taken);
    var base := Dashed(lowered);
    base := Collapsed(base);
    base := Trimmed(base);
    if base == "" || !Letter(base[0]) { base := WithoutLastDash("s-" + base); }
    if |base| < 3 { base := Clamped(base + "-x", MAX_LENGTH); }
    base := Clamped(base, MAX_LENGTH);
    base := WithoutLastDash(base);
    assert base == Base(lowered);
    hide *;
    if base !in taken && IsValidSessionId(base) { return base; }
    var n := 2;
    ghost var tried: set<string> := {};
    while true
      invariant Tried(base, taken, tried, n)
      decreases taken - tried
    {
      TriedFew(base, taken, tried, n);
      CandidateValid(base, n);
      var candidate := Candidate(base, n);
      if candidate !in taken && IsValidSessionId(candidate) {
        MintsCandidate(lowered, taken, tried, n);
        return candidate;
      }
      TriedOneMore(base, taken, tried, n);
      tried, n := tried + {candidate}, n + 1;
    }
  }

  // ---- Global uniqueness ----

  datatype Uniqueness = Unique | Duplicate(id: string)

  /** `id` is the first element that occurred before. */
  ghost predicate FirstRepeat(ids: seq<string>, k: nat, id: string) {
    k < |ids| && ids[k] == id && id in ids[..k] && NoDup(ids[..k])
  }

  method CheckGlobalUniqueness(ids: seq<string>) returns (verdict: Uniqueness)
    ensures verdict.Unique? <==> NoDup(ids)
    ensures verdict.Duplicate? ==> exists k :: FirstRepeat(ids, k, verdict.id)
  {
    var seen: set<string> := {};
    for i := 0 to |ids|
      invariant NoDup(ids[..i]) && seen == set id | id in ids[..i]
    {
      if ids[i] in seen {
        assert FirstRepeat(ids, i, ids[i]);
        return Duplicate(ids[i]);
      }
      seen := seen + {ids[i]};
      assert ids[..i + 1] == ids[..i] + [ids[i]];
    }
    assert ids[..|ids|] == ids;
    return Unique;
  }
}
