/**
 * The integer half of the parsing side of src/lib.rs: the
 * `parse_chinese_number_to_{i8,u8,i16,u16,i32,u32,i64,u64}` functions.
 *
 * Each one strips the spaces, looks for a leading minus sign (signed targets
 * only), hands a fixed-size window of the following characters to an inner
 * digit parser, and classifies what comes back. The inner parsers
 * (`chinese_digit_*_compat`, `chinese_digit_1`) are not part of this model:
 * they enter through `Parsers`, so every property below holds for any of them
 * unless a lemma names what it needs of them.
 */
module Parse {
  import opened Types

  /** What an inner parser returns: a magnitude, or the window index of the character it rejects. */
  datatype InnerResult = Number(value: nat) | BadChar(index: nat)

  /** The inner parsers lib.rs calls, by the magnitude they reach and the method they follow. */
  datatype InnerId =
    | Digit100                 // chinese_digit_100_compat, 5 characters, u16
    | Digit10000TenThousand    // chinese_digit_10000_ten_thousand_compat, 15 characters, u32
    | Digit1e9Low              // chinese_digit_1000000000_low_compat, 19 characters, u64
    | Digit1e8TenThousand      // chinese_digit_100000000_ten_thousand_compat, 23 characters, u64
    | Digit1e15Low             // chinese_digit_1000000000000000_low_compat, 31 characters, u64
    | Digit1e16TenThousand     // chinese_digit_10000000000000000_ten_thousand_compat, 39 characters, u128
    | Digit1e16Middle          // chinese_digit_10000000000000000_middle_compat, 47 characters, u128

  /** `run(id, window)` is inner parser `id` on a non-empty window; `digit1` is chinese_digit_1. */
  datatype Parsers = Parsers(run: (InnerId, seq<char>) -> InnerResult, digit1: char -> Option<nat>)

  /**
   * Everything that differs between the parse functions: which inner parser,
   * how many characters it is given, the largest value of the target type,
   * whether a sign is looked for, the fixed char_index reported for left-over
   * characters, what is added to an inner error index after a sign, and
   * whether a negative magnitude is checked against MAX + 1.
   */
  datatype Target = Target(
    inner: InnerId,
    window: nat,
    max: nat,
    signed: bool,
    trailIndex: nat,
    negTrailIndex: nat,
    negErrOffset: nat,
    checksUnderflow: bool)

  // ---------------------------------------------------------------------------
  // Space removal: `replace(" ", "")`.

  function RemoveSpaces(s: seq<char>): (r: seq<char>)
    ensures ' ' !in r
    ensures ' ' !in s ==> r == s
  {
    if s == [] then []
    else
      assert s == [s[0]] + s[1..];
      (if s[0] == ' ' then [] else [s[0]]) + RemoveSpaces(s[1..])
  }

  /** Every other character survives, as often as it occurred. */
  lemma {:induction false} RemoveSpacesKeepsOthers(s: seq<char>)
    ensures multiset(RemoveSpaces(s)) == multiset(s)[' ' := 0]
  {
    if s != [] {
      assert s == [s[0]] + s[1..];
      RemoveSpacesKeepsOthers(s[1..]);
    }
  }

  /** Removal works piecewise, so the surviving characters keep their order. */
  lemma {:induction false} RemoveSpacesAppend(a: seq<char>, b: seq<char>)
    ensures RemoveSpaces(a + b) == RemoveSpaces(a) + RemoveSpaces(b)
  {
    if a == [] {
      assert a + b == b;
    } else {
      assert (a + b)[0] == a[0];
      assert (a + b)[1..] == a[1..] + b;
      RemoveSpacesAppend(a[1..], b);
    }
  }

  // ---------------------------------------------------------------------------
  // The shared decision tree.

  /** The characters `chars.next()` hands the inner parser: at most `size` of them. */
  function Window(rest: seq<char>, size: nat): seq<char> {
    if |rest| < size then rest else rest[..size]
  }

  /** Where the number starts in the space-free text: after the sign, if any. */
  function Start(t: Target, cs: seq<char>): nat {
    if t.signed && |cs| > 0 && IsNegativeSignChar(cs[0]) then 1 else 0
  }

  function ClassifyNonNegative(t: Target, p: Parsers, rest: seq<char>): Result<int, ChineseNumberParseError> {
    match p.run(t.inner, Window(rest, t.window))
    case BadChar(e) => Err(ChineseNumberIncorrect(e))
    case Number(n) =>
      if n > t.max then Err(Overflow)
      else if |rest| > t.window then Err(ChineseNumberIncorrect(t.trailIndex))
      else Ok(n)
  }

  function ClassifyNegative(t: Target, p: Parsers, rest: seq<char>): Result<int, ChineseNumberParseError> {
    match p.run(t.inner, Window(rest, t.window))
    case BadChar(e) => Err(ChineseNumberIncorrect(e + t.negErrOffset))
    case Number(n) =>
      if t.checksUnderflow && n > t.max + 1 then Err(Underflow)
      else if |rest| > t.window then Err(ChineseNumberIncorrect(t.negTrailIndex))
      else Ok(-(n as int))
  }

  /** The decision tree on the text once its spaces are gone. */
  function ParseSpaceFree(t: Target, p: Parsers, cs: seq<char>): (r: Result<int, ChineseNumberParseError>)
    ensures r == Err(ChineseNumberEmpty) <==> cs == []
    ensures r.Ok? ==> r.value <= t.max
    ensures r.Ok? && !t.signed ==> 0 <= r.value
    ensures r.Ok? && t.checksUnderflow ==> -(t.max + 1) <= r.value
  {
    if cs == [] then Err(ChineseNumberEmpty)
    else if t.signed && IsNegativeSignChar(cs[0]) then
      if |cs| == 1 then Err(ChineseNumberIncorrect(1))
      else ClassifyNegative(t, p, cs[1..])
    else ClassifyNonNegative(t, p, cs)
  }

  function ParseInteger(t: Target, p: Parsers, s: seq<char>): (r: Result<int, ChineseNumberParseError>)
    ensures r == Err(ChineseNumberEmpty) <==> RemoveSpaces(s) == []
    ensures r.Ok? ==> r.value <= t.max
    ensures r.Ok? && !t.signed ==> 0 <= r.value
    ensures r.Ok? && t.checksUnderflow ==> -(t.max + 1) <= r.value
  {
    ParseSpaceFree(t, p, RemoveSpaces(s))
  }

  // ---------------------------------------------------------------------------
  // The targets, with the constants each parse function uses.

  function U8Target(): Target {
    Target(Digit100, 5, U8_MAX, false, 5, 0, 0, false)
  }

  /** As written, the negative path reports the inner error index unshifted. */
  function I8Target(): Target {
    Target(Digit100, 5, I8_MAX, true, 5, 6, 0, true)
  }

  /** Corrected: the inner error index after a sign is shifted past the sign. */
  function I8TargetIntended(): Target {
    I8Target().(negErrOffset := 1)
  }

  function U16Target(): Target {
    Target(Digit10000TenThousand, 15, U16_MAX, false, 15, 0, 0, false)
  }

  /** As written, like i8. */
  function I16Target(): Target {
    Target(Digit10000TenThousand, 15, I16_MAX, true, 15, 16, 0, true)
  }

  function I16TargetIntended(): Target {
    I16Target().(negErrOffset := 1)
  }

  function U32Target(countMethod: ChineseNumberCountMethod): Target {
    match countMethod
    case Low => Target(Digit1e9Low, 19, U32_MAX, false, 19, 0, 0, false)
    case TenThousand | Middle | High => Target(Digit1e8TenThousand, 23, U32_MAX, false, 23, 0, 0, false)
  }

  function I32Target(countMethod: ChineseNumberCountMethod): Target {
    match countMethod
    case Low => Target(Digit1e9Low, 19, I32_MAX, true, 19, 20, 1, true)
    case TenThousand | Middle | High => Target(Digit1e8TenThousand, 23, I32_MAX, true, 23, 24, 1, true)
  }

  function U64Target(countMethod: ChineseNumberCountMethod): Target {
    match countMethod
    case Low => Target(Digit1e15Low, 31, U64_MAX, false, 31, 0, 0, false)
    case TenThousand => Target(Digit1e16TenThousand, 39, U64_MAX, false, 39, 0, 0, false)
    case Middle | High => Target(Digit1e16Middle, 47, U64_MAX, false, 47, 0, 0, false)
  }

  /** The negative Low branch has no underflow check: the Low parser stops below 10^16. */
  function I64Target(countMethod: ChineseNumberCountMethod): Target {
    match countMethod
    case Low => Target(Digit1e15Low, 31, I64_MAX, true, 31, 32, 1, false)
    case TenThousand => Target(Digit1e16TenThousand, 39, I64_MAX, true, 39, 40, 1, true)
    case Middle | High => Target(Digit1e16Middle, 47, I64_MAX, true, 47, 48, 1, true)
  }

  /** Inner parser `id` never returns a magnitude of `bound` or more. */
  ghost predicate InnerBelow(p: Parsers, id: InnerId, bound: nat) {
    forall w :: p.run(id, w).Number? ==> p.run(id, w).value < bound
  }

  lemma NegativeBoundedByInner(t: Target, p: Parsers, s: seq<char>, bound: nat)
    ensures InnerBelow(p, t.inner, bound) && ParseInteger(t, p, s).Ok? ==> -(bound as int) < ParseInteger(t, p, s).value
  {
    var cs := RemoveSpaces(s);
    if InnerBelow(p, t.inner, bound) && cs != [] && t.signed && IsNegativeSignChar(cs[0]) && |cs| > 1 {
      var w := Window(cs[1..], t.window);
      assert p.run(t.inner, w).Number? ==> p.run(t.inner, w).value < bound;
    }
  }

  // ---------------------------------------------------------------------------
  // The public parse functions.

  function ParseU8(p: Parsers, s: seq<char>): (r: Result<int, ChineseNumberParseError>)
    ensures r == Err(ChineseNumberEmpty) <==> RemoveSpaces(s) == []
    ensures r.Ok? ==> 0 <= r.value <= U8_MAX
  {
    ParseInteger(U8Target(), p, s)
  }

  function ParseI8(p: Parsers, s: seq<char>): (r: Result<int, ChineseNumberParseError>)
    ensures r == Err(ChineseNumberEmpty) <==> RemoveSpaces(s) == []
    ensures r.Ok? ==> -(I8_MAX + 1) <= r.value <= I8_MAX
  {
    ParseInteger(I8Target(), p, s)
  }

  /** ParseI8 with the inner error index after a sign shifted past the sign, as i32 and i64 do. */
  function ParseI8Intended(p: Parsers, s: seq<char>): (r: Result<int, ChineseNumberParseError>)
    ensures r == Err(ChineseNumberEmpty) <==> RemoveSpaces(s) == []
    ensures r.Ok? ==> -(I8_MAX + 1) <= r.value <= I8_MAX
  {
    ParseInteger(I8TargetIntended(), p, s)
  }

  function ParseU16(p: Parsers, s: seq<char>): (r: Result<int, ChineseNumberParseError>)
    ensures r == Err(ChineseNumberEmpty) <==> RemoveSpaces(s) == []
    ensures r.Ok? ==> 0 <= r.value <= U16_MAX
  {
    ParseInteger(U16Target(), p, s)
  }

  function ParseI16(p: Parsers, s: seq<char>): (r: Result<int, ChineseNumberParseError>)
    ensures r == Err(ChineseNumberEmpty) <==> RemoveSpaces(s) == []
    ensures r.Ok? ==> -(I16_MAX + 1) <= r.value <= I16_MAX
  {
    ParseInteger(I16Target(), p, s)
  }

  /** ParseI16 with the inner error index after a sign shifted past the sign, as i32 and i64 do. */
  function ParseI16Intended(p: Parsers, s: seq<char>): (r: Result<int, ChineseNumberParseError>)
    ensures r == Err(ChineseNumberEmpty) <==> RemoveSpaces(s) == []
    ensures r.Ok? ==> -(I16_MAX + 1) <= r.value <= I16_MAX
  {
    ParseInteger(I16TargetIntended(), p, s)
  }

  function ParseU32(countMethod: ChineseNumberCountMethod, p: Parsers, s: seq<char>): (r: Result<int, ChineseNumberParseError>)
    ensures r == Err(ChineseNumberEmpty) <==> RemoveSpaces(s) == []
    ensures r.Ok? ==> 0 <= r.value <= U32_MAX
  {
    ParseInteger(U32Target(countMethod), p, s)
  }

  function ParseI32(countMethod: ChineseNumberCountMethod, p: Parsers, s: seq<char>): (r: Result<int, ChineseNumberParseError>)
    ensures r == Err(ChineseNumberEmpty) <==> RemoveSpaces(s) == []
    ensures r.Ok? ==> -(I32_MAX + 1) <= r.value <= I32_MAX
  {
    ParseInteger(I32Target(countMethod), p, s)
  }

  function ParseU64(countMethod: ChineseNumberCountMethod, p: Parsers, s: seq<char>): (r: Result<int, ChineseNumberParseError>)
    ensures r == Err(ChineseNumberEmpty) <==> RemoveSpaces(s) == []
    ensures r.Ok? ==> 0 <= r.value <= U64_MAX
  {
    ParseInteger(U64Target(countMethod), p, s)
  }

  /** With Low the lower bound rests on the Low parser staying below 10^16. */
  function ParseI64(countMethod: ChineseNumberCountMethod, p: Parsers, s: seq<char>): (r: Result<int, ChineseNumberParseError>)
    ensures r == Err(ChineseNumberEmpty) <==> RemoveSpaces(s) == []
    ensures r.Ok? ==> r.value <= I64_MAX
    ensures r.Ok? && countMethod != Low ==> -(I64_MAX + 1) <= r.value
    ensures r.Ok? && InnerBelow(p, Digit1e15Low, LOW_LIMIT) ==> -(I64_MAX + 1) <= r.value
  {
    NegativeBoundedByInner(I64Target(countMethod), p, s, LOW_LIMIT);
    ParseInteger(I64Target(countMethod), p, s)
  }

  /**
   * The negative Low branch of parse_chinese_number_to_i64 negates whatever
   * the Low parser returns, with no underflow check: a magnitude above
   * 2^63 would come back below i64::MIN.
   */
  lemma LowNegativeUnchecked(p: Parsers, c: char, n: nat)
    requires c != ' '
    requires p.run(Digit1e15Low, [c]) == Number(n)
    ensures ParseI64(Low, p, ['負', c]) == Ok(-(n as int))
  {
    var s: seq<char> := ['負', c];
    assert ' ' !in s;
    assert s[1..] == [c];
    assert Window([c], 31) == [c];
  }

  // ---------------------------------------------------------------------------
  // Properties of the decision tree.

  /** Spaces anywhere in the input are ignored. */
  lemma {:induction false} RemoveSpacesDropsSpace(a: seq<char>, b: seq<char>)
    ensures RemoveSpaces(a + " " + b) == RemoveSpaces(a + b)
  {
    var sp: seq<char> := [' '];
    assert sp[1..] == [];
    assert RemoveSpaces(sp) == [] + RemoveSpaces([]);
    RemoveSpacesAppend(a + sp, b);
    RemoveSpacesAppend(a, sp);
    RemoveSpacesAppend(a, b);
  }

  lemma SpacesIgnored(t: Target, p: Parsers, a: seq<char>, b: seq<char>)
    ensures ParseInteger(t, p, a + " " + b) == ParseInteger(t, p, a + b)
  {
    RemoveSpacesDropsSpace(a, b);
  }

  /** A sign with nothing after it is rejected at index 1. */
  lemma LoneSignRejected(t: Target, p: Parsers, s: seq<char>)
    requires t.signed
    requires |RemoveSpaces(s)| == 1 && IsNegativeSignChar(RemoveSpaces(s)[0])
    ensures ParseInteger(t, p, s) == Err(ChineseNumberIncorrect(1))
  {
  }

  /**
   * What the inner parser's magnitude turns into: Overflow above MAX (or
   * Underflow above MAX + 1 after a sign), then a left-over character, then
   * the value with the sign applied.
   */
  lemma MagnitudeClassified(t: Target, p: Parsers, s: seq<char>, n: nat)
    requires RemoveSpaces(s) != []
    requires !(t.signed && RemoveSpaces(s) == [RemoveSpaces(s)[0]] && IsNegativeSignChar(RemoveSpaces(s)[0]))
    requires p.run(t.inner, Window(RemoveSpaces(s)[Start(t, RemoveSpaces(s))..], t.window)) == Number(n)
    ensures
      var cs := RemoveSpaces(s);
      var negative := Start(t, cs) == 1;
      var leftOver := |cs| > Start(t, cs) + t.window;
      var r := ParseInteger(t, p, s);
      && (!negative ==> r == (if n > t.max then Err(Overflow)
                              else if leftOver then Err(ChineseNumberIncorrect(t.trailIndex))
                              else Ok(n)))
      && (negative ==> r == (if t.checksUnderflow && n > t.max + 1 then Err(Underflow)
                             else if leftOver then Err(ChineseNumberIncorrect(t.negTrailIndex))
                             else Ok(-(n as int))))
  {
    var cs := RemoveSpaces(s);
    if Start(t, cs) == 1 {
      assert |cs| > 1;
    }
  }

  /** The targets whose fixed char_index values point at the characters they blame. */
  predicate IndexedByPosition(t: Target) {
    && t.trailIndex == t.window
    && (t.signed ==> t.negTrailIndex == t.window + 1 && t.negErrOffset == 1)
  }

  /** Every corrected target reports positions in the space-free text. */
  lemma TargetsIndexedByPosition(countMethod: ChineseNumberCountMethod)
    ensures IndexedByPosition(U8Target()) && IndexedByPosition(I8TargetIntended())
    ensures IndexedByPosition(U16Target()) && IndexedByPosition(I16TargetIntended())
    ensures IndexedByPosition(U32Target(countMethod)) && IndexedByPosition(I32Target(countMethod))
    ensures IndexedByPosition(U64Target(countMethod)) && IndexedByPosition(I64Target(countMethod))
    ensures !IndexedByPosition(I8Target()) && !IndexedByPosition(I16Target())
  {
  }

  /**
   * For a target indexed by position, a character the inner parser rejects
   * is reported at its own position in the space-free text.
   */
  lemma BadCharIndexLocated(t: Target, p: Parsers, cs: seq<char>)
    requires IndexedByPosition(t)
    requires cs != []
    requires !(t.signed && |cs| == 1 && IsNegativeSignChar(cs[0]))
    requires p.run(t.inner, Window(cs[Start(t, cs)..], t.window)).BadChar?
    ensures
      var start := Start(t, cs);
      var w := Window(cs[start..], t.window);
      var e := p.run(t.inner, w).index;
      && ParseSpaceFree(t, p, cs) == Err(ChineseNumberIncorrect(start + e))
      && (e < |w| ==> start + e < |cs| && cs[start + e] == w[e])
  {
  }

  /**
   * For a target indexed by position, text left over after the inner
   * parser's window is reported at the first left-over character.
   */
  lemma TrailIndexLocated(t: Target, p: Parsers, cs: seq<char>)
    requires IndexedByPosition(t)
    requires cs != []
    requires !(t.signed && |cs| == 1 && IsNegativeSignChar(cs[0]))
    requires p.run(t.inner, Window(cs[Start(t, cs)..], t.window)).Number?
    requires ParseSpaceFree(t, p, cs).Err? && ParseSpaceFree(t, p, cs).error.ChineseNumberIncorrect?
    ensures ParseSpaceFree(t, p, cs).error.charIndex == Start(t, cs) + t.window < |cs|
  {
  }

  /** Counterexample: after a sign, the as-written i8 parser blames the sign itself. */
  lemma I8NegativeErrorIndexMisplaced(p: Parsers, c: char)
    requires c != ' '
    requires p.run(Digit100, [c]) == BadChar(0)
    ensures ParseI8(p, ['負', c]) == Err(ChineseNumberIncorrect(0))
    ensures ParseI8Intended(p, ['負', c]) == Err(ChineseNumberIncorrect(1))
  {
    var s: seq<char> := ['負', c];
    assert ' ' !in s;
    assert RemoveSpaces(s) == s;
    assert s[1..] == [c];
    assert Window([c], 5) == [c];
    assert ClassifyNegative(I8Target(), p, [c]) == Err(ChineseNumberIncorrect(0));
    assert ClassifyNegative(I8TargetIntended(), p, [c]) == Err(ChineseNumberIncorrect(1));
  }
}
