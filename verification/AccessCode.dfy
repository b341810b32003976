/** Rotating room codes: how a code is written and read, and how long it is accepted. */
module AccessCode {
  import opened Wrappers

  // ---------- short codes ----------

  const CODE_LENGTH: nat := 12
  const ALPHABET := "0123456789ABCDEFGHJKMNPQRSTVWXYZ"

  /** Case folding as far as it can end in the alphabet: besides the Latin letters,
      the long s becomes a capital S. */
  function ToUpper(c: char): char {
    if 'a' <= c <= 'z' then c - 'a' + 'A' else if c == '\U{017F}' then 'S' else c
  }

  predicate IsSpace(c: char) {
    || '\U{0009}' <= c <= '\U{000D}' || c in {'\U{0020}', '\U{0085}', '\U{00A0}', '\U{1680}'}
    || '\U{2000}' <= c <= '\U{200A}' || c in {'\U{2028}', '\U{2029}', '\U{202F}', '\U{205F}', '\U{3000}'}
  }

  /** Without hyphens and white space, and in upper case. */
  function Stripped(code: string): (r: string)
    ensures |r| <= |code|
  {
    if code == "" then ""
    else (if code[0] == '-' || IsSpace(code[0]) then "" else [ToUpper(code[0])]) + Stripped(code[1..])
  }

  predicate Plain(code: string) {
    forall i :: 0 <= i < |code| ==> code[i] in ALPHABET
  }

  predicate Canonical(code: string) { |code| == CODE_LENGTH && Plain(code) }

  function Normalize(code: string): (r: Option<string>)
    ensures r.Some? ==> Canonical(r.value)
  {
    var canonical := Stripped(code);
    if Canonical(canonical) then Some(canonical) else None
  }

  function Format(code: string): Option<string> {
    match Normalize(code)
    case None => None
    case Some(c) => Some(Dashed(c[..4], c[4..8], c[8..]))
  }

  function Dashed(a: string, b: string, c: string): string { a + ("-" + (b + ("-" + c))) }

  lemma {:induction false} StrippedConcat(a: string, b: string)
    ensures Stripped(a + b) == Stripped(a) + Stripped(b)
    decreases |a|
  {
    if a == "" {
      assert a + b == b;
    } else {
      assert (a + b)[1..] == a[1..] + b;
      StrippedConcat(a[1..], b);
    }
  }

  lemma {:induction false} AlphabetPlain(c: char)
    requires c in ALPHABET
    ensures !IsSpace(c) && c != '-' && ToUpper(c) == c
  {
  }

  lemma {:induction false} StrippedPlain(code: string)
    requires Plain(code)
    ensures Stripped(code) == code
    decreases |code|
  {
    if code != "" {
      AlphabetPlain(code[0]);
      StrippedPlain(code[1..]);
    }
  }

  lemma {:induction false} StrippedHyphen(rest: string)
    ensures Stripped("-" + rest) == Stripped(rest)
  {
    var all := "-" + rest;
    assert all[0] == '-' && all[1..] == rest;
  }

  lemma {:induction false} DashedReadsBack(a: string, b: string, c: string)
    requires Plain(a) && Plain(b) && Plain(c)
    ensures Stripped(Dashed(a, b, c)) == a + b + c
  {
    StrippedConcat(a, "-" + (b + ("-" + c)));
    StrippedHyphen(b + ("-" + c));
    StrippedConcat(b, "-" + c);
    StrippedHyphen(c);
    StrippedPlain(a);
    StrippedPlain(b);
    StrippedPlain(c);
  }

  lemma {:induction false} PlainPart(code: string, from: nat, to: nat)
    requires Plain(code) && from <= to <= |code|
    ensures Plain(code[from..to])
  {
    assert forall i :: 0 <= i < to - from ==> code[from..to][i] == code[from + i];
  }

  lemma {:induction false} CanonicalReadsBack(code: string)
    requires Canonical(code)
    ensures Normalize(Dashed(code[..4], code[4..8], code[8..])) == Some(code)
  {
    var a, b, c := code[..4], code[4..8], code[8..];
    PlainPart(code, 0, 4);
    PlainPart(code, 4, 8);
    PlainPart(code, 8, |code|);
    DashedReadsBack(a, b, c);
    assert a + b + c == code;
  }

  /** Round trip: whatever can be formatted reads back as its canonical form. */
  lemma {:induction false} FormatReadsBack(code: string)
    ensures Format(code).Some? <==> Normalize(code).Some?
    ensures Format(code).Some? ==> Normalize(Format(code).value) == Normalize(code)
  {
    if Normalize(code).Some? {
      CanonicalReadsBack(Normalize(code).value);
    }
  }

  lemma {:induction false} CanonicalReadsAsItself(code: string)
    requires Canonical(code)
    ensures Normalize(code) == Some(code)
  {
    StrippedPlain(code);
  }

  predicate IsGap(c: char) { c == '-' || c == ' ' || c == '\t' || c == '\n' || c == '\r' }

  /** The code is written with letters in either case, and with hyphens and blanks anywhere. */
  predicate Spells(written: string, code: string)
    decreases |written|
  {
    if written == "" then code == ""
    else if IsGap(written[0]) then Spells(written[1..], code)
    else
      && code != "" && Spells(written[1..], code[1..])
      && (written[0] == code[0] || ('A' <= code[0] <= 'Z' && written[0] == code[0] - 'A' + 'a'))
  }

  lemma {:induction false} SpelledChar(w: char, c: char)
    requires c in ALPHABET && (w == c || ('A' <= c <= 'Z' && w == c - 'A' + 'a'))
    ensures !IsSpace(w) && w != '-' && ToUpper(w) == c
  {
    AlphabetPlain(c);
  }

  lemma {:induction false} GapStripped(written: string)
    requires written != "" && IsGap(written[0])
    ensures Stripped(written) == Stripped(written[1..])
  {
  }

  lemma {:induction false} CharStripped(written: string, c: char)
    requires written != "" && !IsSpace(written[0]) && written[0] != '-' && ToUpper(written[0]) == c
    ensures Stripped(written) == [c] + Stripped(written[1..])
  {
  }

  lemma {:induction false} SpelledStripped(written: string, code: string)
    requires Spells(written, code) && Plain(code)
    ensures Stripped(written) == code
    decreases |written|
  {
    if written != "" {
      if IsGap(written[0]) {
        GapStripped(written);
        SpelledStripped(written[1..], code);
      } else {
        SpelledChar(written[0], code[0]);
        CharStripped(written, code[0]);
        PlainPart(code, 1, |code|);
        SpelledStripped(written[1..], code[1..]);
        assert code == [code[0]] + code[1..];
      }
    }
  }

  /** However it is written, a code reads as itself. */
  lemma {:induction false} SpellingReads(written: string, code: string)
    requires Canonical(code) && Spells(written, code)
    ensures Normalize(written) == Some(code)
  {
    SpelledStripped(written, code);
  }

  /** Of the plain characters, these are blanks; the rest are none. */
  lemma {:induction false} PlainBlanks(c: char)
    requires c < '\U{0080}'
    ensures IsSpace(c) <==> c == ' ' || '\t' <= c <= '\r'
    ensures ToUpper(c) == if 'a' <= c <= 'z' then c - 'a' + 'A' else c
  {
  }

  /** A formatted code is its twelve characters in three groups of four. */
  lemma {:induction false} FormatGroups(code: string)
    requires Canonical(code)
    ensures Format(code).Some?
    ensures var f := Format(code).value;
      && |f| == CODE_LENGTH + 2 && f[4] == '-' && f[9] == '-'
      && f[..4] == code[..4] && f[5..9] == code[4..8] && f[10..] == code[8..]
  {
    CanonicalReadsAsItself(code);
  }

  // ---------- encoding ----------

  function Pow2(n: nat): (p: nat)
    ensures p >= 1
  {
    if n == 0 then 1 else 2 * Pow2(n - 1)
  }

  /** The k-th bit, the most significant of the first octet first; zero beyond the end. */
  function Bit(raw: seq<int>, k: nat): (b: int)
    ensures b == 0 || b == 1
  {
    if k / 8 < |raw| then (raw[k / 8] / Pow2(7 - k % 8)) % 2 else 0
  }

  function LeadingBits(raw: seq<int>): (bits: seq<int>)
    ensures |bits| == 60 && forall i :: 0 <= i < 60 ==> bits[i] == 0 || bits[i] == 1
    ensures forall i :: 0 <= i < 60 ==> bits[i] == Bit(raw, i)
  {
    seq(60, i requires 0 <= i < 60 => Bit(raw, i))
  }

  /** The value of the k-th five bits. */
  function Symbol(bits: seq<int>, k: nat): (v: int)
    requires |bits| == 60 && k < CODE_LENGTH && (forall i :: 0 <= i < 60 ==> bits[i] == 0 || bits[i] == 1)
    ensures 0 <= v < 32
  {
    16 * bits[5 * k] + 8 * bits[5 * k + 1] + 4 * bits[5 * k + 2] + 2 * bits[5 * k + 3] + bits[5 * k + 4]
  }

  /** The first twelve symbols; seven octets are the least that give as many. */
  function Encode(raw: seq<int>): (r: Option<string>)
    ensures r.Some? <==> |raw| >= 7
    ensures r.Some? ==> Canonical(r.value)
  {
    if |raw| < 7 then None
    else
      var bits := LeadingBits(raw);
      Some(seq(CODE_LENGTH, k requires 0 <= k < CODE_LENGTH => ALPHABET[Symbol(bits, k)]))
  }

  /** Where a character of the alphabet stands in it. */
  function Place(c: char): int {
    if c <= '9' then c as int - '0' as int
    else if c <= 'H' then c as int - 'A' as int + 10
    else if c <= 'K' then c as int - 'J' as int + 18
    else if c <= 'N' then c as int - 'M' as int + 20
    else if c <= 'T' then c as int - 'P' as int + 22
    else c as int - 'V' as int + 27
  }

  lemma {:induction false} PlaceIs(i: nat)
    requires i < 32
    ensures '0' <= ALPHABET[i] <= 'Z' && Place(ALPHABET[i]) == i
  {
  }

  lemma {:induction false} FiveBits(a: seq<int>, b: seq<int>, k: nat)
    requires |a| == 60 && |b| == 60 && k < CODE_LENGTH
    requires forall i :: 0 <= i < 60 ==> (a[i] == 0 || a[i] == 1) && (b[i] == 0 || b[i] == 1)
    requires Symbol(a, k) == Symbol(b, k)
    ensures forall i :: 5 * k <= i < 5 * k + 5 ==> a[i] == b[i]
  {
  }

  /** Two digests have the same code exactly when their first sixty bits agree. */
  lemma {:induction false} EncodeTakesSixtyBits(a: seq<int>, b: seq<int>)
    requires |a| >= 7 && |b| >= 7
    ensures Encode(a) == Encode(b) <==> LeadingBits(a) == LeadingBits(b)
  {
    if Encode(a) == Encode(b) {
      forall i | 0 <= i < 60
        ensures LeadingBits(a)[i] == LeadingBits(b)[i]
      {
        var k := i / 5;
        assert Encode(a).value[k] == Encode(b).value[k];
        PlaceIs(Symbol(LeadingBits(a), k));
        PlaceIs(Symbol(LeadingBits(b), k));
        FiveBits(LeadingBits(a), LeadingBits(b), k);
      }
    }
  }

  // ---------- a code as a number ----------

  /** The number the bits are, the first one the most significant. */
  function BitsValue(bits: seq<int>): int {
    if bits == [] then 0 else 2 * BitsValue(bits[..|bits| - 1]) + bits[|bits| - 1]
  }

  /** The number a code is in base thirty-two. */
  function CodeValue(code: string): int {
    if code == "" then 0 else 32 * CodeValue(code[..|code| - 1]) + Place(code[|code| - 1])
  }

  /** The number the octets are in base two hundred and fifty-six. */
  function OctetsValue(raw: seq<int>): int {
    if raw == [] then 0 else 256 * OctetsValue(raw[..|raw| - 1]) + raw[|raw| - 1]
  }

  lemma {:induction false} FiveMoreBits(bits: seq<int>, k: nat)
    requires |bits| == 60 && k < CODE_LENGTH && (forall i :: 0 <= i < 60 ==> bits[i] == 0 || bits[i] == 1)
    ensures BitsValue(bits[..5 * k + 5]) == 32 * BitsValue(bits[..5 * k]) + Symbol(bits, k)
  {
    OneMoreBit(bits, 5 * k);
    FourMoreBits(bits, 5 * k + 1);
  }

  lemma {:induction false} OneMoreBit(bits: seq<int>, n: nat)
    requires n < |bits|
    ensures BitsValue(bits[..n + 1]) == 2 * BitsValue(bits[..n]) + bits[n]
  {
    assert bits[..n + 1][..n] == bits[..n];
  }

  lemma {:induction false} OneMoreCharacter(code: string, k: nat)
    requires k < |code|
    ensures CodeValue(code[..k + 1]) == 32 * CodeValue(code[..k]) + Place(code[k])
  {
    assert code[..k + 1][..k] == code[..k];
  }

  lemma {:induction false} CharacterIs(raw: seq<int>, k: nat)
    requires |raw| >= 7 && k < CODE_LENGTH
    ensures Place(Encode(raw).value[k]) == Symbol(LeadingBits(raw), k)
  {
    PlaceIs(Symbol(LeadingBits(raw), k));
  }

  lemma {:induction false} CodeSoFar(raw: seq<int>, k: nat)
    requires |raw| >= 7 && k <= CODE_LENGTH
    ensures CodeValue(Encode(raw).value[..k]) == BitsValue(LeadingBits(raw)[..5 * k])
    decreases k
  {
    if k > 0 {
      CodeSoFar(raw, k - 1);
      FiveMoreBits(LeadingBits(raw), k - 1);
      CharacterIs(raw, k - 1);
      OneMoreCharacter(Encode(raw).value, k - 1);
    }
  }

  lemma {:induction false} BitOf(raw: seq<int>, j: nat, i: nat)
    requires j < |raw| && i < 8
    ensures Bit(raw, 8 * j + i) == raw[j] / Pow2(7 - i) % 2
  {
    assert (8 * j + i) / 8 == j && (8 * j + i) % 8 == i;
  }

  lemma {:induction false} Powers()
    ensures Pow2(0) == 1 && Pow2(1) == 2 && Pow2(2) == 4 && Pow2(3) == 8
    ensures Pow2(4) == 16 && Pow2(5) == 32 && Pow2(6) == 64 && Pow2(7) == 128
  {
    assert Pow2(4) == 16;
  }

  lemma {:induction false} HighHalf(x: int)
    requires 0 <= x < 256
    ensures 8 * (x / 128 % 2) + 4 * (x / 64 % 2) + 2 * (x / 32 % 2) + x / 16 % 2 == x / 16
  {
  }

  lemma {:induction false} LowHalf(x: int)
    requires 0 <= x < 256
    ensures 16 * (x / 16) + 8 * (x / 8 % 2) + 4 * (x / 4 % 2) + 2 * (x / 2 % 2) + x / 1 % 2 == x
  {
    assert x / 8 == 2 * (x / 16) + x / 8 % 2;
    assert x / 4 == 2 * (x / 8) + x / 4 % 2;
    assert x / 2 == 2 * (x / 4) + x / 2 % 2;
    assert x == 2 * (x / 2) + x % 2;
  }

  predicate Octets(raw: seq<int>) { forall i :: 0 <= i < |raw| ==> 0 <= raw[i] < 256 }

  lemma {:induction false} FourBits(raw: seq<int>, j: nat)
    requires Octets(raw) && j < |raw| && 8 * j + 4 <= 60
    ensures BitsValue(LeadingBits(raw)[..8 * j + 4]) == 16 * BitsValue(LeadingBits(raw)[..8 * j]) + raw[j] / 16
  {
    Powers();
    HighHalf(raw[j]);
    BitOf(raw, j, 0);
    BitOf(raw, j, 1);
    BitOf(raw, j, 2);
    BitOf(raw, j, 3);
    FourMoreBits(LeadingBits(raw), 8 * j);
  }

  lemma {:induction false} FourMoreBits(bits: seq<int>, n: nat)
    requires n + 4 <= |bits|
    ensures BitsValue(bits[..n + 4])
         == 16 * BitsValue(bits[..n]) + 8 * bits[n] + 4 * bits[n + 1] + 2 * bits[n + 2] + bits[n + 3]
  {
    OneMoreBit(bits, n);
    OneMoreBit(bits, n + 1);
    OneMoreBit(bits, n + 2);
    OneMoreBit(bits, n + 3);
  }

  lemma {:induction false} EightBits(raw: seq<int>, j: nat)
    requires Octets(raw) && j < |raw| && 8 * j + 8 <= 60
    ensures BitsValue(LeadingBits(raw)[..8 * j + 8]) == 256 * BitsValue(LeadingBits(raw)[..8 * j]) + raw[j]
  {
    FourBits(raw, j);
    Powers();
    LowHalf(raw[j]);
    BitOf(raw, j, 4);
    BitOf(raw, j, 5);
    BitOf(raw, j, 6);
    BitOf(raw, j, 7);
    FourMoreBits(LeadingBits(raw), 8 * j + 4);
  }

  lemma {:induction false} OctetsSoFar(raw: seq<int>, j: nat)
    requires Octets(raw) && j <= |raw| && j <= 7
    ensures BitsValue(LeadingBits(raw)[..8 * j]) == OctetsValue(raw[..j])
    decreases j
  {
    if j > 0 {
      OctetsSoFar(raw, j - 1);
      EightBits(raw, j - 1);
      assert raw[..j][..j - 1] == raw[..j - 1];
    }
  }

  lemma {:induction false} NoMoreBits(raw: seq<int>)
    requires |raw| == 7
    ensures BitsValue(LeadingBits(raw)[..60]) == 16 * BitsValue(LeadingBits(raw)[..56])
  {
    FourMoreBits(LeadingBits(raw), 56);
  }

  /** A code is, in base thirty-two, the number that the first sixty bits of the digest
      are; zeroes make up for an eighth octet that is not there. */
  lemma {:induction false} EncodeIsNumber(raw: seq<int>)
    requires |raw| >= 7 && Octets(raw)
    ensures CodeValue(Encode(raw).value)
         == 16 * OctetsValue(raw[..7]) + if |raw| > 7 then raw[7] / 16 else 0
  {
    CodeSoFar(raw, CODE_LENGTH);
    assert Encode(raw).value[..CODE_LENGTH] == Encode(raw).value;
    OctetsSoFar(raw, 7);
    if |raw| > 7 {
      FourBits(raw, 7);
    } else {
      NoMoreBits(raw);
    }
  }

  // ---------- windows ----------

  const GRACE_SECONDS := 15

  /** Integer division of the original language, toward zero. */
  function Quotient(a: int, b: int): int
    requires b > 0
  {
    if a >= 0 then a / b else -(-a / b)
  }

  function Counter(period: int, now: int): int
    requires period > 0
  {
    Quotient(now, period)
  }

  function ValidFrom(period: int, now: int): int
    requires period > 0
  {
    Counter(period, now) * period
  }

  function ExpiresAt(period: int, now: int): int
    requires period > 0
  {
    ValidFrom(period, now) + period
  }

  type Mac = int -> seq<int>

  function CodeAt(mac: Mac, period: int, now: int): Option<string>
    requires period > 0
  {
    Encode(mac(Counter(period, now)))
  }

  /** What is shown to whoever may see the code. */
  function CurrentCode(mac: Mac, period: int, now: int): Option<string>
    requires period > 0
  {
    match CodeAt(mac, period, now)
    case None => None
    case Some(c) => Format(c)
  }

  /** A credential in a room with a rotating code. */
  predicate Check(mac: Mac, period: int, credential: string, now: int)
    requires period > 0
  {
    match Normalize(credential)
    case None => false
    case Some(candidate) =>
      || Some(candidate) == CodeAt(mac, period, now)
      || (now - ValidFrom(period, now) < GRACE_SECONDS
          && Some(candidate) == CodeAt(mac, period, ValidFrom(period, now) - 1))
  }

  /** No two of the counters that matter have the same code. */
  ghost predicate NoCollision(mac: Mac, period: int, issued: int, now: int)
    requires period > 0
  {
    && |mac(Counter(period, issued))| >= 7
    && (CodeAt(mac, period, now) == CodeAt(mac, period, issued) ==> Counter(period, now) == Counter(period, issued))
    && (CodeAt(mac, period, ValidFrom(period, now) - 1) == CodeAt(mac, period, issued) ==>
          Counter(period, ValidFrom(period, now) - 1) == Counter(period, issued))
  }

  lemma {:induction false} QuotientBounds(a: int, b: int)
    requires a >= 0 && b > 0
    ensures Quotient(a, b) * b <= a < Quotient(a, b) * b + b
  {
  }

  lemma {:induction false} MultiplesKeepOrder(x: int, y: int, b: int)
    requires x <= y && b > 0
    ensures x * b <= y * b
  {
  }

  lemma {:induction false} QuotientUnique(a: int, b: int, q: int)
    requires a >= 0 && b > 0 && q * b <= a < q * b + b
    ensures Quotient(a, b) == q
  {
    QuotientBounds(a, b);
    var p := Quotient(a, b);
    if p < q {
      MultiplesKeepOrder(p + 1, q, b);
    } else if q < p {
      MultiplesKeepOrder(q + 1, p, b);
    }
  }

  lemma {:induction false} BeforeMultiple(period: int, c: int)
    requires period > 0 && c > 0
    ensures Quotient(c * period - 1, period) == c - 1
  {
    assert (c - 1) * period == c * period - period;
    MultiplesKeepOrder(1, c, period);
    QuotientUnique(c * period - 1, period, c - 1);
  }

  lemma {:induction false} BeforeZero(period: int)
    requires period > 0
    ensures Quotient(-1, period) == if period > 1 then 0 else -1
  {
    if period > 1 {
      QuotientUnique(1, period, 0);
    }
  }

  /** The counter just before a window is the one before it, except that the first
      window yields itself: there division goes toward zero. */
  lemma {:induction false} PreviousCounter(period: int, now: int)
    requires period > 0 && now >= 0
    ensures var c := Counter(period, now);
      c >= 0 && Counter(period, ValidFrom(period, now) - 1) == if c == 0 && period > 1 then 0 else c - 1
  {
    var c := Counter(period, now);
    if c > 0 {
      BeforeMultiple(period, c);
    } else {
      BeforeZero(period);
    }
  }

  /** While a window is open, and exactly then, its own counter is the current one. */
  lemma {:induction false} InWindow(period: int, issued: int, now: int)
    requires period > 0 && issued >= 0 && now >= 0
    ensures Counter(period, now) == Counter(period, issued)
       <==> ValidFrom(period, issued) <= now < ExpiresAt(period, issued)
  {
    QuotientBounds(now, period);
    if ValidFrom(period, issued) <= now < ExpiresAt(period, issued) {
      QuotientUnique(now, period, Counter(period, issued));
    }
  }

  lemma {:induction false} NextWindow(period: int, issued: int, now: int)
    requires period > 0 && issued >= 0 && now >= 0
    ensures Counter(period, now) == Counter(period, issued) + 1
       <==> ExpiresAt(period, issued) <= now < ExpiresAt(period, issued) + period
  {
    var c := Counter(period, issued) + 1;
    assert c * period == ExpiresAt(period, issued);
    QuotientBounds(now, period);
    if c * period <= now < c * period + period {
      QuotientUnique(now, period, c);
    }
  }

  function Grace(period: int): int {
    if period < GRACE_SECONDS then period else GRACE_SECONDS
  }

  /** The counter a code was issued under is the current one, or the one before it
      and the grace is not over. */
  predicate CounterAccepted(period: int, issued: int, now: int)
    requires period > 0
  {
    || Counter(period, now) == Counter(period, issued)
    || (now - ValidFrom(period, now) < GRACE_SECONDS
        && Counter(period, ValidFrom(period, now) - 1) == Counter(period, issued))
  }

  /** Checking a shown code compares counters, as long as no two that matter share a code. */
  lemma {:induction false} CheckComparesCounters(mac: Mac, period: int, issued: int, now: int)
    requires period > 0 && NoCollision(mac, period, issued, now)
    ensures CurrentCode(mac, period, issued).Some?
    ensures Check(mac, period, CurrentCode(mac, period, issued).value, now) <==> CounterAccepted(period, issued, now)
  {
    var code := CodeAt(mac, period, issued).value;
    CanonicalReadsAsItself(code);
    FormatReadsBack(code);
  }

  lemma {:induction false} FirstWindow(period: int, issued: int)
    requires period > 0 && issued >= 0
    ensures Counter(period, issued) >= 0 && (Counter(period, issued) == 0 <==> issued < period)
  {
    QuotientBounds(issued, period);
    if issued < period {
      QuotientUnique(issued, period, 0);
    }
  }

  lemma {:induction false} NextStarts(period: int, issued: int, now: int)
    requires period > 0 && Counter(period, now) == Counter(period, issued) + 1
    ensures ValidFrom(period, now) == ExpiresAt(period, issued)
  {
  }

  lemma {:induction false} CounterAcceptedWhen(period: int, issued: int, now: int)
    requires period > 0 && issued >= 0 && now >= 0
    ensures CounterAccepted(period, issued, now)
       <==> ValidFrom(period, issued) <= now < ExpiresAt(period, issued) + Grace(period)
  {
    var c, d := Counter(period, issued), Counter(period, now);
    PreviousCounter(period, now);
    InWindow(period, issued, now);
    NextWindow(period, issued, now);
    if d == c + 1 {
      FirstWindow(period, issued);
      NextStarts(period, issued, now);
    } else if d != c {
      NotPrevious(period, issued, now);
    }
  }

  lemma {:induction false} NotPrevious(period: int, issued: int, now: int)
    requires period > 0 && issued >= 0 && now >= 0
    requires Counter(period, now) != Counter(period, issued) && Counter(period, now) != Counter(period, issued) + 1
    ensures Counter(period, ValidFrom(period, now) - 1) != Counter(period, issued)
  {
    PreviousCounter(period, now);
  }

  lemma {:induction false} QuotientNegative(a: int, b: int)
    requires a < 0 && b > 0
    ensures Quotient(a, b) <= 0 && (Quotient(a, b) == 0 <==> -b < a)
  {
    QuotientBounds(-a, b);
    if -a < b {
      QuotientUnique(-a, b, 0);
    }
  }

  lemma {:induction false} PreviousCounterNegative(period: int, now: int)
    requires period > 0 && now < 0
    ensures Counter(period, now) <= 0
    ensures Counter(period, now) == 0 <==> -period < now
    ensures Counter(period, now) < 0 ==> Counter(period, ValidFrom(period, now) - 1) < 0
  {
    var c := Counter(period, now);
    QuotientNegative(now, period);
    if c < 0 {
      MultiplesKeepOrder(c, -1, period);
      QuotientNegative(c * period - 1, period);
    }
  }

  /** A code shown at one time is accepted at another exactly from the beginning of
      its window to fifteen seconds after the end. (A window shorter than that would
      end the grace.) */
  lemma {:induction false} AcceptedExactly(mac: Mac, period: int, issued: int, now: int)
    requires period > 0 && issued >= 0 && now >= 0 && NoCollision(mac, period, issued, now)
    ensures CurrentCode(mac, period, issued).Some?
    ensures Check(mac, period, CurrentCode(mac, period, issued).value, now)
       <==> ValidFrom(period, issued) <= now < ExpiresAt(period, issued) + if period < 15 then period else 15
  {
    CheckComparesCounters(mac, period, issued, now);
    CounterAcceptedWhen(period, issued, now);
  }

  /** Before the epoch division goes the other way: there the very first code, and no
      other, is accepted for a period ahead of its window. */
  lemma {:induction false} AcceptedBeforeEpoch(mac: Mac, period: int, issued: int, now: int)
    requires period > 0 && issued >= 0 && now < 0 && NoCollision(mac, period, issued, now)
    ensures CurrentCode(mac, period, issued).Some?
    ensures Check(mac, period, CurrentCode(mac, period, issued).value, now) <==> -period < now && issued < period
  {
    CheckComparesCounters(mac, period, issued, now);
    CounterAcceptedBeforeEpoch(period, issued, now);
  }

  lemma {:induction false} CounterAcceptedBeforeEpoch(period: int, issued: int, now: int)
    requires period > 0 && issued >= 0 && now < 0
    ensures CounterAccepted(period, issued, now) <==> -period < now && issued < period
  {
    PreviousCounterNegative(period, now);
    FirstWindow(period, issued);
    if Counter(period, now) == 0 {
      BeforeZero(period);
    }
  }
}
