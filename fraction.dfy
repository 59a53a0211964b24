/**
 * `parse_chinese_number_to_f64`: an integer part, optionally followed by a
 * tenths digit and 角, a hundredths digit and 分, or both. The value is kept
 * in integer hundredths rather than as a float.
 */
module Fraction {
  import opened Types
  import opened Parse

  /** The 角 (tenths) and 分 (hundredths) units, searched for in table order. */
  const JIAO_UNITS: seq<char> := ['角']
  const FEN_UNITS: seq<char> := ['分']

  predicate IsJiao(c: char) {
    c == '角'
  }

  predicate IsFen(c: char) {
    c == '分'
  }

  /** `str::find` for one character: where `c` first occurs in `s`. */
  function Find(s: seq<char>, c: char): (r: Option<nat>)
    ensures r.Some? ==> r.value < |s| && s[r.value] == c && c !in s[..r.value]
    ensures r.None? ==> c !in s
  {
    if s == [] then None
    else
      assert s == [s[0]] + s[1..];
      if s[0] == c then Some(0)
      else match Find(s[1..], c)
        case None => None
        case Some(i) =>
          assert s[..i + 1] == [s[0]] + s[1..][..i];
          Some(i + 1)
  }

  /** The position of the first unit, trying the units in table order. */
  function FirstUnit(s: seq<char>, units: seq<char>): (r: Option<nat>)
    ensures r.Some? ==> r.value < |s| && s[r.value] in units
    ensures r.None? ==> forall j :: 0 <= j < |s| ==> s[j] !in units
  {
    if units == [] then None
    else match Find(s, units[0])
      case Some(i) => Some(i)
      case None =>
        assert units == [units[0]] + units[1..];
        FirstUnit(s, units[1..])
  }

  lemma FirstUnitOfOne(s: seq<char>, c: char)
    ensures FirstUnit(s, [c]) == Find(s, c)
  {
    assert [c][1..] == [];
  }

  /**
   * Where the integer part ends: at the first 角 if there is one, otherwise
   * at the first 分, otherwise at the end.
   */
  function SplitIndex(s: seq<char>): (r: nat)
    ensures r <= |s|
    ensures (exists j :: 0 <= j < |s| && IsJiao(s[j])) ==>
      r < |s| && IsJiao(s[r]) && forall j :: 0 <= j < r ==> !IsJiao(s[j])
    ensures (forall j :: 0 <= j < |s| ==> !IsJiao(s[j])) && (exists j :: 0 <= j < |s| && IsFen(s[j])) ==>
      r < |s| && IsFen(s[r]) && forall j :: 0 <= j < r ==> !IsFen(s[j])
    ensures r == |s| <==> forall j :: 0 <= j < |s| ==> !IsJiao(s[j]) && !IsFen(s[j])
  {
    FirstUnitOfOne(s, '角');
    FirstUnitOfOne(s, '分');
    match FirstUnit(s, JIAO_UNITS)
    case Some(i) =>
      assert s[..i] == s[..i];
      assert forall j :: 0 <= j < i ==> s[j] in s[..i];
      i
    case None =>
      match FirstUnit(s, FEN_UNITS)
      case Some(i) =>
        assert forall j :: 0 <= j < i ==> s[j] in s[..i];
        i
      case None => |s|
  }

  /** The integer part ends at the first 角 when nothing before it is a 角. */
  lemma SplitAtFirstJiao(s: seq<char>, i: nat)
    requires i < |s| && IsJiao(s[i])
    requires forall j :: 0 <= j < i ==> !IsJiao(s[j])
    ensures SplitIndex(s) == i
  {
  }

  /** The two `for` loops over the unit tables that set `integer_index`. */
  method IntegerIndex(s: seq<char>) returns (integerIndex: nat)
    ensures integerIndex == SplitIndex(s)
  {
    var len := |s|;
    integerIndex := len;
    var k := 0;
    while k < |JIAO_UNITS|
      invariant 0 <= k <= |JIAO_UNITS|
      invariant FirstUnit(s, JIAO_UNITS) == FirstUnit(s, JIAO_UNITS[k..])
      invariant integerIndex == len
    {
      var found := Find(s, JIAO_UNITS[k]);
      assert JIAO_UNITS[k..][1..] == JIAO_UNITS[k + 1..];
      if found.Some? {
        integerIndex := found.value;
        break;
      }
      k := k + 1;
    }
    if integerIndex == len {
      k := 0;
      while k < |FEN_UNITS|
        invariant 0 <= k <= |FEN_UNITS|
        invariant FirstUnit(s, FEN_UNITS) == FirstUnit(s, FEN_UNITS[k..])
        invariant integerIndex == len
      {
        var found := Find(s, FEN_UNITS[k]);
        assert FEN_UNITS[k..][1..] == FEN_UNITS[k + 1..];
        if found.Some? {
          integerIndex := found.value;
          break;
        }
        k := k + 1;
      }
    }
  }

  // ---------------------------------------------------------------------------
  // The meaning of the input, in hundredths.

  /**
   * The integer part `integer` followed by `hundredths`, counted away from
   * zero on the negative side. As written `negative` is the sign of the
   * integer part's value; the corrected parser uses the written sign.
   */
  function Attach(negative: bool, integer: int, hundredths: nat): int {
    if negative then integer * 100 - hundredths else integer * 100 + hundredths
  }

  predicate IsNegativeText(part: seq<char>) {
    |part| > 0 && IsNegativeSignChar(part[0])
  }

  /** Intended: a missing integer part, or a sign alone, stands for zero. */
  function IntegerPartValue(countMethod: ChineseNumberCountMethod, p: Parsers, part: seq<char>)
    : Result<int, ChineseNumberParseError>
  {
    if part == [] || (|part| == 1 && IsNegativeSignChar(part[0])) then Ok(0)
    else ParseI64(countMethod, p, part)
  }

  /**
   * The text from the first fraction digit `cs[i - 1]` on, once the integer
   * part has parsed to `n`; `cs[i]` is the first unit. `strict` rejects
   * anything after digit角digit分, which the code as written ignores.
   */
  function Suffix(p: Parsers, cs: seq<char>, i: nat, n: int, negative: bool, strict: bool)
    : (r: Result<int, ChineseNumberParseError>)
    requires 0 < i < |cs|
    ensures r.Err? ==> r.error.ChineseNumberIncorrect? && i - 1 <= r.error.charIndex <= |cs|
  {
    var dec := i - 1;
    match p.digit1(cs[dec])
    case None => Err(ChineseNumberIncorrect(dec))
    case Some(d1) =>
      if IsJiao(cs[i]) then
        if i + 1 < |cs| then
          match p.digit1(cs[i + 1])
          case None => Err(ChineseNumberIncorrect(dec + 2))
          case Some(d2) =>
            if i + 2 < |cs| && IsFen(cs[i + 2]) then
              if strict && i + 3 < |cs| then Err(ChineseNumberIncorrect(dec + 4))
              else Ok(Attach(negative, n, 10 * d1 + d2))
            else Err(ChineseNumberIncorrect(dec + 3))
        else Ok(Attach(negative, n, 10 * d1))
      else if IsFen(cs[i]) then
        if i + 1 < |cs| then Err(ChineseNumberIncorrect(dec + 2))
        else Ok(Attach(negative, n, d1))
      else Err(ChineseNumberIncorrect(dec + 1))
  }

  /**
   * Everything before the first fraction digit is the integer part. With
   * `intended` the four corrections listed under Findings apply: an empty
   * integer part is zero, so is a lone sign, the sign is read from the
   * text, and nothing may follow digit角digit分.
   */
  function FractionPart(countMethod: ChineseNumberCountMethod, p: Parsers, cs: seq<char>, i: nat, intended: bool)
    : Result<int, ChineseNumberParseError>
    requires 0 < i < |cs|
  {
    var part := cs[..i - 1];
    if intended then
      match IntegerPartValue(countMethod, p, part)
      case Err(e) => Err(e)
      case Ok(n) => Suffix(p, cs, i, n, IsNegativeText(part), true)
    else
      match ParseI64(countMethod, p, part)
      case Err(e) => Err(e)
      case Ok(n) => Suffix(p, cs, i, n, n < 0, false)
  }

  function ParseFraction(countMethod: ChineseNumberCountMethod, p: Parsers, s: seq<char>, intended: bool)
    : Result<int, ChineseNumberParseError>
  {
    var cs := RemoveSpaces(s);
    if cs == [] then Err(ChineseNumberEmpty)
    else
      var i := SplitIndex(cs);
      if i == 0 then Err(ChineseNumberIncorrect(0))
      else if i == |cs| then
        match ParseI64(countMethod, p, cs)
        case Ok(n) => Ok(n * 100)
        case Err(e) => Err(e)
      else FractionPart(countMethod, p, cs, i, intended)
  }

  /**
   * parse_chinese_number_to_f64 as written, in hundredths: the allowed shapes
   * after the integer part are digit角, digit角digit分 and digit分.
   */
  function ParseF64Value(countMethod: ChineseNumberCountMethod, p: Parsers, s: seq<char>)
    : (r: Result<int, ChineseNumberParseError>)
    ensures RemoveSpaces(s) == [] ==> r == Err(ChineseNumberEmpty)
    ensures RemoveSpaces(s) != [] && SplitIndex(RemoveSpaces(s)) == 0 ==> r == Err(ChineseNumberIncorrect(0))
    ensures SplitIndex(RemoveSpaces(s)) == |RemoveSpaces(s)| && ParseI64(countMethod, p, s).Ok? ==>
      r == Ok(ParseI64(countMethod, p, s).value * 100)
    ensures SplitIndex(RemoveSpaces(s)) == |RemoveSpaces(s)| && ParseI64(countMethod, p, s).Err? ==>
      r == Err(ParseI64(countMethod, p, s).error)
  {
    var cs := RemoveSpaces(s);
    assert RemoveSpaces(cs) == cs;
    ParseFraction(countMethod, p, s, false)
  }

  /** parse_chinese_number_to_f64 with the four corrections listed under Findings. */
  function ParseF64Intended(countMethod: ChineseNumberCountMethod, p: Parsers, s: seq<char>)
    : (r: Result<int, ChineseNumberParseError>)
    ensures RemoveSpaces(s) == [] ==> r == Err(ChineseNumberEmpty)
    ensures SplitIndex(RemoveSpaces(s)) < |RemoveSpaces(s)| ==> r != Err(ChineseNumberEmpty)
  {
    var cs := RemoveSpaces(s);
    var i := SplitIndex(cs);
    if 0 < i < |cs| then
      IntegerPartNeverEmpty(countMethod, p, cs[..i - 1]);
      ParseFraction(countMethod, p, s, true)
    else
      ParseFraction(countMethod, p, s, true)
  }

  /** The intended integer part never reports an empty input: an empty part stands for zero. */
  lemma IntegerPartNeverEmpty(countMethod: ChineseNumberCountMethod, p: Parsers, part: seq<char>)
    requires ' ' !in part
    ensures IntegerPartValue(countMethod, p, part) != Err(ChineseNumberEmpty)
  {
    assert RemoveSpaces(part) == part;
  }

  /** Once a unit is found past the first character, the parser as written reads the suffix. */
  lemma SuffixParsed(countMethod: ChineseNumberCountMethod, p: Parsers, s: seq<char>)
    requires 0 < SplitIndex(RemoveSpaces(s)) < |RemoveSpaces(s)|
    ensures ParseF64Value(countMethod, p, s) == FractionPart(countMethod, p, RemoveSpaces(s), SplitIndex(RemoveSpaces(s)), false)
  {
  }

  /** The same for the corrected parser. */
  lemma SuffixParsedIntended(countMethod: ChineseNumberCountMethod, p: Parsers, s: seq<char>)
    requires 0 < SplitIndex(RemoveSpaces(s)) < |RemoveSpaces(s)|
    ensures ParseF64Intended(countMethod, p, s) == FractionPart(countMethod, p, RemoveSpaces(s), SplitIndex(RemoveSpaces(s)), true)
  {
  }

  /**
   * The suffix grammar. A suffix that parses is digit分 with 分 last, digit角
   * with 角 last, or digit角digit分 (and, when strict, nothing after it); its
   * value is the integer part times 100 plus the fraction digits, counted
   * away from zero when `negative`.
   */
  lemma SuffixShapes(p: Parsers, cs: seq<char>, i: nat, n: int, negative: bool, strict: bool)
    requires 0 < i < |cs|
    requires Suffix(p, cs, i, n, negative, strict).Ok?
    ensures p.digit1(cs[i - 1]).Some?
    ensures IsJiao(cs[i]) || IsFen(cs[i])
    ensures
      var r := Suffix(p, cs, i, n, negative, strict).value;
      var d1 := p.digit1(cs[i - 1]).value;
      && (IsFen(cs[i]) ==> i == |cs| - 1 && r == Attach(negative, n, d1))
      && (IsJiao(cs[i]) && i == |cs| - 1 ==> r == Attach(negative, n, 10 * d1))
      && (IsJiao(cs[i]) && i < |cs| - 1 ==>
            && i + 2 < |cs| && IsFen(cs[i + 2]) && p.digit1(cs[i + 1]).Some?
            && (strict ==> i + 2 == |cs| - 1)
            && r == Attach(negative, n, 10 * d1 + p.digit1(cs[i + 1]).value))
  {
  }

  /**
   * The converse of SuffixShapes: after a digit, a final 分 or a final 角
   * is accepted, and so is digit角digit分 (with nothing after it when
   * strict).
   */
  lemma SuffixAccepts(p: Parsers, cs: seq<char>, i: nat, n: int, negative: bool, strict: bool)
    requires 0 < i < |cs|
    requires p.digit1(cs[i - 1]).Some?
    ensures var d1 := p.digit1(cs[i - 1]).value;
      IsFen(cs[i]) && i == |cs| - 1 ==> Suffix(p, cs, i, n, negative, strict) == Ok(Attach(negative, n, d1))
    ensures var d1 := p.digit1(cs[i - 1]).value;
      IsJiao(cs[i]) && i == |cs| - 1 ==> Suffix(p, cs, i, n, negative, strict) == Ok(Attach(negative, n, 10 * d1))
    ensures var d1 := p.digit1(cs[i - 1]).value;
      IsJiao(cs[i]) && i + 2 < |cs| && p.digit1(cs[i + 1]).Some? && IsFen(cs[i + 2]) && (strict ==> i + 2 == |cs| - 1) ==>
        Suffix(p, cs, i, n, negative, strict) == Ok(Attach(negative, n, 10 * d1 + p.digit1(cs[i + 1]).value))
  {
  }

  /**
   * Where each error of the suffix reader points, with `i` the first unit:
   * at a bad first digit (i - 1), at a character that is no unit (i), at a
   * bad second digit or anything after digit分 (i + 1), at the missing or
   * wrong unit after the second digit (i + 2, which is |cs| when the text
   * ends there), and when strict at the first character after 分 (i + 3).
   */
  lemma SuffixErrorLocated(p: Parsers, cs: seq<char>, i: nat, n: int, negative: bool, strict: bool)
    requires 0 < i < |cs|
    ensures p.digit1(cs[i - 1]).None? ==> Suffix(p, cs, i, n, negative, strict) == Err(ChineseNumberIncorrect(i - 1))
    ensures p.digit1(cs[i - 1]).Some? && !IsJiao(cs[i]) && !IsFen(cs[i]) ==>
      Suffix(p, cs, i, n, negative, strict) == Err(ChineseNumberIncorrect(i))
    ensures p.digit1(cs[i - 1]).Some? && IsFen(cs[i]) && i + 1 < |cs| ==>
      Suffix(p, cs, i, n, negative, strict) == Err(ChineseNumberIncorrect(i + 1))
    ensures p.digit1(cs[i - 1]).Some? && IsJiao(cs[i]) && i + 1 < |cs| && p.digit1(cs[i + 1]).None? ==>
      Suffix(p, cs, i, n, negative, strict) == Err(ChineseNumberIncorrect(i + 1))
    ensures p.digit1(cs[i - 1]).Some? && IsJiao(cs[i]) && i + 1 < |cs| && p.digit1(cs[i + 1]).Some?
              && !(i + 2 < |cs| && IsFen(cs[i + 2])) ==>
      Suffix(p, cs, i, n, negative, strict) == Err(ChineseNumberIncorrect(i + 2))
    ensures p.digit1(cs[i - 1]).Some? && IsJiao(cs[i]) && i + 2 < |cs| && p.digit1(cs[i + 1]).Some?
              && IsFen(cs[i + 2]) && strict && i + 3 < |cs| ==>
      Suffix(p, cs, i, n, negative, strict) == Err(ChineseNumberIncorrect(i + 3))
  {
  }

  // ---------------------------------------------------------------------------
  // The imperative parser.

  method ParseF64(countMethod: ChineseNumberCountMethod, p: Parsers, chineseNumber: seq<char>)
    returns (r: Result<int, ChineseNumberParseError>)
    ensures r == ParseF64Value(countMethod, p, chineseNumber)
  {
    var cs := RemoveSpaces(chineseNumber);
    var len := |cs|;
    if len == 0 {
      return Err(ChineseNumberEmpty);
    }
    var integerIndex := IntegerIndex(cs);
    if integerIndex == 0 {
      return Err(ChineseNumberIncorrect(0));
    }
    if integerIndex == len {
      var whole := ParseI64(countMethod, p, cs);
      assert whole == ParseI64(countMethod, p, chineseNumber) by {
        assert RemoveSpaces(cs) == cs;
      }
      r := match whole
        case Ok(n) => Ok(n * 100)
        case Err(e) => Err(e);
      return;
    }
    r := ReadFraction(countMethod, p, cs, integerIndex);
    SuffixParsed(countMethod, p, chineseNumber);
  }

  /** The integer part before the first fraction digit, then the suffix. */
  method ReadFraction(countMethod: ChineseNumberCountMethod, p: Parsers, cs: seq<char>, integerIndex: nat)
    returns (r: Result<int, ChineseNumberParseError>)
    requires 0 < integerIndex < |cs|
    ensures r == FractionPart(countMethod, p, cs, integerIndex, false)
  {
    var integerChars := cs[..integerIndex];
    var integerCharsLenDec := |integerChars| - 1;
    integerChars := integerChars[..integerCharsLenDec] + integerChars[integerCharsLenDec + 1..];
    assert integerChars == cs[..integerIndex - 1];
    var integerNumber := ParseI64(countMethod, p, integerChars);
    if integerNumber.Err? {
      r := Err(integerNumber.error);
    } else {
      var n := integerNumber.value;
      r := ReadSuffix(p, cs, integerIndex, n);
    }
  }

  /** The part of the f64 parser after the integer part: reads the fraction digits and units in turn. */
  method ReadSuffix(p: Parsers, cs: seq<char>, integerIndex: nat, n: int) returns (r: Result<int, ChineseNumberParseError>)
    requires 0 < integerIndex < |cs|
    ensures r == Suffix(p, cs, integerIndex, n, n < 0, false)
  {
    var integerCharsLenDec := integerIndex - 1;
    var fd1 := p.digit1(cs[integerCharsLenDec]);
    if fd1.None? {
      return Err(ChineseNumberIncorrect(integerCharsLenDec));
    }
    var fractionChars := cs[integerIndex..];
    var unit1 := fractionChars[0];
    fractionChars := fractionChars[1..];
    assert unit1 == cs[integerIndex] && fractionChars == cs[integerIndex + 1..];
    if IsJiao(unit1) {
      if fractionChars != [] {
        var nextChar := fractionChars[0];
        fractionChars := fractionChars[1..];
        assert nextChar == cs[integerIndex + 1] && fractionChars == cs[integerIndex + 2..];
        var fd2 := p.digit1(nextChar);
        if fd2.None? {
          return Err(ChineseNumberIncorrect(integerCharsLenDec + 2));
        }
        if fractionChars != [] && IsFen(fractionChars[0]) {
          r := Ok(Attach(n < 0, n, 10 * fd1.value + fd2.value));
        } else {
          r := Err(ChineseNumberIncorrect(integerCharsLenDec + 3));
        }
      } else {
        r := Ok(Attach(n < 0, n, 10 * fd1.value));
      }
    } else if IsFen(unit1) {
      if fractionChars != [] {
        r := Err(ChineseNumberIncorrect(integerCharsLenDec + 2));
      } else {
        r := Ok(Attach(n < 0, n, fd1.value));
      }
    } else {
      r := Err(ChineseNumberIncorrect(integerCharsLenDec + 1));
    }
  }

  // ---------------------------------------------------------------------------
  // The discrepancies, and what the corrected parser does instead.

  /** The documented rendering of 0.12 does not parse: the empty integer part is rejected. */
  lemma DocumentedFractionRejected(countMethod: ChineseNumberCountMethod, p: Parsers)
    ensures ParseF64Value(countMethod, p, "一角二分") == Err(ChineseNumberEmpty)
  {
    var s := "一角二分";
    assert FractionPart(countMethod, p, s, 1, false) == Err(ChineseNumberEmpty) by {
      assert s[..0] == [];
    }
    assert ' ' !in s;
    SplitAtFirstJiao(s, 1);
    SuffixParsed(countMethod, p, s);
  }

  /** The corrected parser reads 一角二分 as 0.12. */
  lemma DocumentedFractionAccepted(countMethod: ChineseNumberCountMethod, p: Parsers)
    requires p.digit1('一') == Some(1) && p.digit1('二') == Some(2)
    ensures ParseF64Intended(countMethod, p, "一角二分") == Ok(12)
  {
    var s := "一角二分";
    assert FractionPart(countMethod, p, s, 1, true) == Ok(12) by {
      assert s[..0] == [];
    }
    assert ' ' !in s;
    SplitAtFirstJiao(s, 1);
    SuffixParsedIntended(countMethod, p, s);
  }

  /** As written, characters after digit角digit分 are ignored. */
  lemma TrailingCharsAccepted(countMethod: ChineseNumberCountMethod, p: Parsers)
    requires ParseI64(countMethod, p, "一") == Ok(1)
    requires p.digit1('一') == Some(1) && p.digit1('二') == Some(2)
    ensures ParseF64Value(countMethod, p, "一一角二分三") == Ok(112)
  {
    var s := "一一角二分三";
    assert FractionPart(countMethod, p, s, 2, false) == Ok(112) by {
      assert s[..1] == "一";
    }
    assert ' ' !in s;
    SplitAtFirstJiao(s, 2);
    SuffixParsed(countMethod, p, s);
  }

  /** As written, a fraction after 負零 loses its sign. */
  lemma NegativeZeroLosesSign(countMethod: ChineseNumberCountMethod, p: Parsers)
    requires ParseI64(countMethod, p, "負零") == Ok(0)
    requires p.digit1('一') == Some(1)
    ensures ParseF64Value(countMethod, p, "負零一角") == Ok(10)
  {
    var s := "負零一角";
    assert FractionPart(countMethod, p, s, 3, false) == Ok(10) by {
      assert s[..2] == "負零";
    }
    assert ' ' !in s;
    SplitAtFirstJiao(s, 3);
    SuffixParsed(countMethod, p, s);
  }

  /** The corrected parser keeps the written sign of 負零一角. */
  lemma NegativeZeroKeepsSign(countMethod: ChineseNumberCountMethod, p: Parsers)
    requires ParseI64(countMethod, p, "負零") == Ok(0)
    requires p.digit1('一') == Some(1)
    ensures ParseF64Intended(countMethod, p, "負零一角") == Ok(-10)
  {
    var s := "負零一角";
    assert FractionPart(countMethod, p, s, 3, true) == Ok(-10) by {
      assert s[..2] == "負零";
    }
    assert ' ' !in s;
    SplitAtFirstJiao(s, 3);
    SuffixParsedIntended(countMethod, p, s);
  }

  /** As written, a sign with no integer digits is rejected: 負一角 does not parse. */
  lemma NegativeFractionRejected(countMethod: ChineseNumberCountMethod, p: Parsers)
    ensures ParseF64Value(countMethod, p, "負一角") == Err(ChineseNumberIncorrect(1))
  {
    var s := "負一角";
    assert FractionPart(countMethod, p, s, 2, false) == Err(ChineseNumberIncorrect(1)) by {
      assert s[..1] == "負";
      assert RemoveSpaces("負") == "負";
      LoneSignRejected(I64Target(countMethod), p, "負");
    }
    assert ' ' !in s;
    SplitAtFirstJiao(s, 2);
    SuffixParsed(countMethod, p, s);
  }

  /** The corrected parser reads 負一角 as -0.1. */
  lemma NegativeFractionAccepted(countMethod: ChineseNumberCountMethod, p: Parsers)
    requires p.digit1('一') == Some(1)
    ensures ParseF64Intended(countMethod, p, "負一角") == Ok(-10)
  {
    var s := "負一角";
    assert FractionPart(countMethod, p, s, 2, true) == Ok(-10) by {
      assert s[..1] == "負";
    }
    assert ' ' !in s;
    SplitAtFirstJiao(s, 2);
    SuffixParsedIntended(countMethod, p, s);
  }

  /**
   * The suffix reader as written on integer part, digit, 角, digit, 分: the
   * integer value times 100 plus the two digits, counted away from zero
   * when the value is negative; whatever follows 分 is ignored.
   */
  lemma WrittenSuffixValue(countMethod: ChineseNumberCountMethod, p: Parsers, part: seq<char>, c1: char, c2: char,
                           extra: seq<char>)
    requires ParseI64(countMethod, p, part).Ok?
    requires p.digit1(c1).Some? && p.digit1(c2).Some?
    ensures
      var s := part + [c1, '角', c2, '分'] + extra;
      var n := ParseI64(countMethod, p, part).value;
      FractionPart(countMethod, p, s, |part| + 1, false)
        == Ok(Attach(n < 0, n, 10 * p.digit1(c1).value + p.digit1(c2).value))
  {
    var s := part + [c1, '角', c2, '分'] + extra;
    var i := |part| + 1;
    assert s[i] == '角' && s[i - 1] == c1 && s[i + 1] == c2 && s[i + 2] == '分';
    assert s[..i - 1] == part;
  }

  /**
   * parse_chinese_number_to_f64 as written on integer part, digit, 角,
   * digit, 分: the i64 value of the integer part times 100 plus the two
   * digits, signed by that value, whatever follows.
   */
  lemma WrittenFractionValue(countMethod: ChineseNumberCountMethod, p: Parsers, part: seq<char>, c1: char, c2: char,
                             extra: seq<char>)
    requires ' ' !in part && c1 != ' ' && c2 != ' ' && ' ' !in extra
    requires forall j :: 0 <= j < |part| ==> !IsJiao(part[j])
    requires !IsJiao(c1)
    requires ParseI64(countMethod, p, part).Ok?
    requires p.digit1(c1).Some? && p.digit1(c2).Some?
    ensures
      var n := ParseI64(countMethod, p, part).value;
      ParseF64Value(countMethod, p, part + [c1, '角', c2, '分'] + extra)
        == Ok(Attach(n < 0, n, 10 * p.digit1(c1).value + p.digit1(c2).value))
  {
    var s := part + [c1, '角', c2, '分'] + extra;
    var i := |part| + 1;
    WrittenSuffixValue(countMethod, p, part, c1, c2, extra);
    assert ' ' !in s;
    assert RemoveSpaces(s) == s;
    assert s[i] == '角' && s[i - 1] == c1;
    assert forall j :: 0 <= j < |part| ==> s[j] == part[j];
    SplitAtFirstJiao(s, i);
    SuffixParsed(countMethod, p, s);
  }

  /**
   * The corrected suffix reader on integer part, digit, 角, digit, 分: the
   * integer part times 100 plus the two digits, with the written sign, and
   * an error at the first character past 分 if there is one.
   */
  lemma IntendedSuffixValue(countMethod: ChineseNumberCountMethod, p: Parsers, part: seq<char>, c1: char, c2: char,
                            extra: seq<char>)
    requires IntegerPartValue(countMethod, p, part).Ok?
    requires p.digit1(c1).Some? && p.digit1(c2).Some?
    ensures
      var s := part + [c1, '角', c2, '分'] + extra;
      var n := IntegerPartValue(countMethod, p, part).value;
      FractionPart(countMethod, p, s, |part| + 1, true)
        == if extra == [] then Ok(Attach(IsNegativeText(part), n, 10 * p.digit1(c1).value + p.digit1(c2).value))
           else Err(ChineseNumberIncorrect(|part| + 4))
  {
    var s := part + [c1, '角', c2, '分'] + extra;
    var i := |part| + 1;
    assert s[i] == '角' && s[i - 1] == c1 && s[i + 1] == c2 && s[i + 2] == '分';
    assert s[..i - 1] == part;
  }

  /**
   * The corrected parser reads integer part, digit, 角, digit, 分 as the
   * integer part times 100 plus the two digits, with the written sign; a
   * missing integer part counts as zero. Anything after 分 is rejected at
   * the first extra character.
   */
  lemma IntendedFractionValue(countMethod: ChineseNumberCountMethod, p: Parsers, part: seq<char>, c1: char, c2: char,
                              extra: seq<char>)
    requires ' ' !in part && c1 != ' ' && c2 != ' ' && ' ' !in extra
    requires forall j :: 0 <= j < |part| ==> !IsJiao(part[j])
    requires !IsJiao(c1)
    requires IntegerPartValue(countMethod, p, part).Ok?
    requires p.digit1(c1).Some? && p.digit1(c2).Some?
    ensures extra == [] ==>
      ParseF64Intended(countMethod, p, part + [c1, '角', c2, '分'] + extra)
        == Ok(Attach(IsNegativeText(part), IntegerPartValue(countMethod, p, part).value,
                     10 * p.digit1(c1).value + p.digit1(c2).value))
    ensures extra != [] ==>
      ParseF64Intended(countMethod, p, part + [c1, '角', c2, '分'] + extra)
        == Err(ChineseNumberIncorrect(|part| + 4))
  {
    var s := part + [c1, '角', c2, '分'] + extra;
    var i := |part| + 1;
    IntendedSuffixValue(countMethod, p, part, c1, c2, extra);
    assert ' ' !in s;
    assert RemoveSpaces(s) == s;
    assert s[i] == '角' && s[i - 1] == c1;
    assert forall j :: 0 <= j < |part| ==> s[j] == part[j];
    SplitAtFirstJiao(s, i);
    SuffixParsedIntended(countMethod, p, s);
  }
}
