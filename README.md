# chinese-number: the public layer of `src/lib.rs`, in Dafny

This project models the part of the `chinese-number` crate that `src/lib.rs`
implements itself. That part sits around the digit renderers and digit parsers
of the crate's inner functions:

- **Signed rendering** (`from_i8_mut` … `from_i128_mut` and their `from_*`
  forms). A negative value appends the variant's minus sign (負 or 负). Then
  the magnitude goes to the unsigned renderer. For `MIN` the magnitude is
  computed in a wider type. For i128, which has no wider type, it is computed
  as `-(MIN + 1) + 1` in u128. The model writes these steps in Rust-width
  newtypes (`Types.I8` … `Types.U128`), so Dafny checks that none of them
  overflows.
- **Count-method dispatch** (`from_u8_mut` … `from_u128_mut`). This chooses the
  inner renderer for the grouping system: 下數 Low, 萬進 TenThousand, 中數
  Middle, 上數 High. It includes the `assert!` that stops Low at 10^16.
- **Integer parsing** (`parse_chinese_number_to_{i8,u8,i16,u16,i32,u32,i64,u64}`).
  The parser:
  - removes spaces;
  - rejects empty input;
  - detects a leading minus sign, and rejects a sign that stands alone;
  - hands a fixed window of characters to an inner parser;
  - classifies the magnitude it gets back as Overflow, Underflow, left-over
    text or a value.
- **The f64 parser** (`parse_chinese_number_to_f64`). It finds the first 角,
  else the first 分. The character before the unit is the first fraction digit.
  The text before that digit is parsed as an i64. The remaining text must be
  exactly digit角 or digit分, or start with digit角digit分. As written,
  whatever follows that 分 is ignored (see Findings). Values are kept in
  integer hundredths.

The inner renderers and parsers are not part of this model. They enter as
function-valued fields of `Render.Renderers` and `Parse.Parsers`. Every
property holds whatever values they compute, unless a lemma states what it
assumes of them; what that takes of the renderers is listed under
"## Left out". The caller's `&mut String` is the class `Buffers.Buffer`. Each `_mut`
method appends to its `text`.

Files:
- `types.dfy`: the enums, the parse error, and the Rust integer types.
- `buffers.dfy`: the output buffer.
- `render.dfy`: the `from_*` functions.
- `parse.dfy`: the integer parsers.
- `fraction.dfy`: the f64 parser.

## Model

| member | source | states |
|---|---|---|
| Types.NegativeSign | src/lib.rs:86-87 | The sign written before a negative number is one character, and the parsers accept that character as a sign. |
| Buffers.Buffer.constructor | src/lib.rs:72 | `String::new()` starts with no text. |
| Buffers.Buffer.PushStr | src/lib.rs:87 | `push_str` appends its argument and changes nothing else. |
| Render.FromU8Mut | src/lib.rs:109-124 | Appends the 百 renderer's text for values of 100 or more, the 十 renderer's for 10–99, and the digit renderer's below 10. No count method is involved. The old contents stay as a prefix. |
| Render.FromU16Mut | src/lib.rs:165-174 | Appends the 萬-compatible renderer's text. No count method is involved. |
| Render.FromU32Mut | src/lib.rs:226-245 | Low uses the Low u32 renderer. TenThousand, Middle and High share the ten-thousand u32 renderer. |
| Render.FromU64Mut | src/lib.rs:297-320 | One renderer per method. High goes to the u128 High renderer on the widened value. |
| Render.FromU128Mut | src/lib.rs:372-396 | Aborts exactly when the method is Low and the value is 10^16 or more. An abort appends nothing. Otherwise it appends the method's renderer text, and Low uses the u64 Low renderer on the narrowed value. |
| Render.FromI8Mut | src/lib.rs:80-97 | A negative value appends the variant's sign and then the u8 rendering of its magnitude. For -128 that magnitude is 128, computed through i16 without overflow. A non-negative value appends its u8 rendering unchanged. |
| Render.FromI16Mut | src/lib.rs:136-153 | The same over u16, widening through i32 for MIN. |
| Render.FromI32Mut | src/lib.rs:191-209 | The same over u32 with the chosen count method, widening through i64 for MIN. |
| Render.FromI64Mut | src/lib.rs:262-280 | The same over u64, widening through i128 for MIN. |
| Render.FromI128Mut | src/lib.rs:337-355 | The same over u128. MIN's magnitude 2^127 comes from `-(MIN + 1) + 1` and stays in range. It aborts exactly when Low meets a magnitude of 10^16 or more, after the sign has been written. |
| Render.FromF64Mut | src/lib.rs:597-625 | A negative value appends the sign and renders the negated value. Each method has its own fraction renderer. |
| Render.FromU8 | src/lib.rs:100-106 | Returns exactly what `from_u8_mut` appends to an empty buffer. |
| Render.FromU16 | src/lib.rs:156-162 | Returns exactly what `from_u16_mut` appends to an empty buffer. |
| Render.FromU32 | src/lib.rs:212-223 | Returns exactly what `from_u32_mut` appends to an empty buffer. |
| Render.FromU64 | src/lib.rs:283-294 | Returns exactly what `from_u64_mut` appends to an empty buffer. |
| Render.FromU128 | src/lib.rs:358-369 | Returns no text exactly when the Low guard fires. Otherwise it returns the `_mut` text. |
| Render.FromI8 | src/lib.rs:71-77 | Returns the sign followed by the magnitude's rendering, or the plain rendering. |
| Render.FromI16 | src/lib.rs:127-133 | The same for i16. |
| Render.FromI32 | src/lib.rs:177-188 | The same for i32. |
| Render.FromI64 | src/lib.rs:248-259 | The same for i64. |
| Render.FromI128 | src/lib.rs:323-334 | Returns no text exactly when Low meets a magnitude of 10^16 or more. Otherwise it returns the sign and magnitude text. |
| Render.FromF64 | src/lib.rs:583-594 | Returns the sign, if any, followed by the fraction renderer's text. |
| Render.U32MethodsAboveLowAgree | src/lib.rs:236-243 | For u32, TenThousand, Middle and High render every value identically. |
| Render.U64HighIsU128High | src/lib.rs:316-318 | u64 with High renders as u128 with High. |
| Render.U128LowIsU64Low | src/lib.rs:382-384 | Below the guard, u128 with Low renders as u64 with Low. |
| Parse.RemoveSpaces | src/lib.rs:2095 | The result has no space, and input without spaces comes back unchanged. |
| Parse.RemoveSpacesKeepsOthers | src/lib.rs:2095 | Every character other than a space survives, as often as it occurred. |
| Parse.RemoveSpacesAppend | src/lib.rs:2095 | Removal works piece by piece, so the surviving characters keep their order. |
| Parse.RemoveSpacesDropsSpace | src/lib.rs:2095 | A space anywhere in the input changes nothing after removal. |
| Parse.SpacesIgnored | src/lib.rs:2095 | Inserting a space anywhere does not change any integer parse result. |
| Parse.ParseSpaceFree | src/lib.rs:2097-2168 | On space-free text: empty exactly when the text is empty. An `Ok` value is at most MAX. It is non-negative for unsigned targets, and at least MIN where the negative branch checks underflow. |
| Parse.ParseInteger | src/lib.rs:2092-2168 | Empty exactly when nothing but spaces was given, with the same range bounds. |
| Parse.LoneSignRejected | src/lib.rs:2133-2137 | A sign with nothing after it gives ChineseNumberIncorrect at index 1. |
| Parse.MagnitudeClassified | src/lib.rs:2116-2123 | An unsigned magnitude above MAX gives Overflow, then left-over text gives the target's fixed index, else the value. After a sign, a magnitude above MAX + 1 gives Underflow where checked, then the fixed negative index, else the negated magnitude. |
| Parse.NegativeBoundedByInner | src/lib.rs:2694-2732 | If the inner parser stays below a bound, every negative result is above minus that bound. |
| Parse.ParseU8 | src/lib.rs:2171-2209 | Empty exactly for blank input. Every `Ok` value is in 0..255. |
| Parse.ParseI8 | src/lib.rs:2092-2168 | As written: empty exactly for blank input, and every `Ok` value is in -128..127. The inner error index after a sign is passed on unshifted. |
| Parse.ParseI8Intended | src/lib.rs:2092-2168 | The corrected version, with the same range. The inner error index after a sign is shifted past the sign. |
| Parse.ParseU16 | src/lib.rs:2311-2359 | Empty exactly for blank input. Every `Ok` value is in 0..65535. |
| Parse.ParseI16 | src/lib.rs:2212-2308 | As written: empty exactly for blank input, and every `Ok` value is in -32768..32767. The inner error index after a sign is passed on unshifted. |
| Parse.ParseI16Intended | src/lib.rs:2212-2308 | The corrected version, with the same range. The inner error index after a sign is shifted past the sign. |
| Parse.ParseU32 | src/lib.rs:2570-2673 | Empty exactly for blank input. Every `Ok` value is in 0..2^32-1, for every count method. |
| Parse.ParseI32 | src/lib.rs:2362-2567 | Empty exactly for blank input. Every `Ok` value is in -2^31..2^31-1, for every count method. |
| Parse.ParseU64 | src/lib.rs:3070-3267 | Empty exactly for blank input. Every `Ok` value is in 0..2^64-1. |
| Parse.ParseI64 | src/lib.rs:2676-3067 | Empty exactly for blank input. Every `Ok` value is at most 2^63-1. It is at least -2^63 for TenThousand, Middle and High, and for Low when the Low parser stays below 10^16. |
| Parse.LowNegativeUnchecked | src/lib.rs:2694-2734 | With Low, `負` followed by text the Low parser reads as n gives exactly -n. No underflow check stands in between. |
| Parse.TargetsIndexedByPosition | src/lib.rs:2118-2130 | The left-over indices (5, 6, 15, 16, 19/20, 23/24, 31/32, 39/40, 47/48) point one past each window. The corrected i8/i16 and all other targets shift inner errors past the sign; the as-written i8 and i16 do not. |
| Parse.BadCharIndexLocated | src/lib.rs:2413-2417 | For a target indexed by position, a character the inner parser rejects is reported at its own position in the space-free text. |
| Parse.TrailIndexLocated | src/lib.rs:2405-2409 | For a target indexed by position, left-over text is reported at the first character past the window, and that character exists. |
| Parse.I8NegativeErrorIndexMisplaced | src/lib.rs:2126-2130 | On `負` followed by a character the inner parser rejects, the i8 parser as written blames index 0, which is the sign. The corrected parser blames index 1. |
| Fraction.Find | src/lib.rs:3373 | `find` gives the first position of the character, or none when it is absent. |
| Fraction.FirstUnit | src/lib.rs:3372-3377 | Searching a unit table in order gives a position holding one of its units, or none when no unit of the table occurs. |
| Fraction.SplitIndex | src/lib.rs:3370-3386 | The integer part ends at the first 角. Failing that it ends at the first 分, and failing that at the end. The result is the end exactly when neither unit occurs. |
| Fraction.SplitAtFirstJiao | src/lib.rs:3372-3377 | A 角 with no 角 before it is where the integer part ends. |
| Fraction.IntegerIndex | src/lib.rs:3370-3386 | The two `for` loops over the unit tables compute SplitIndex. |
| Fraction.ParseF64Value | src/lib.rs:3358-3394 | Blank input gives ChineseNumberEmpty. A unit at position 0 gives ChineseNumberIncorrect at 0. Without a unit, the value is the i64 parse times 100, or its error. |
| Fraction.Suffix | src/lib.rs:3405-3475 | Every error the suffix reader reports is ChineseNumberIncorrect, at or after the first fraction digit and at most the text length. |
| Fraction.SuffixShapes | src/lib.rs:3417-3475 | A suffix that parses is digit分 with 分 last, digit角 with 角 last, or digit角digit分. In strict mode nothing may follow. The value is integer·100 ± (10·d1 + d2), away from zero when negative. |
| Fraction.SuffixAccepts | src/lib.rs:3417-3475 | After a valid first digit, a final 分 gives the digit in hundredths and a final 角 gives ten times the digit. digit角digit分 gives both digits. In strict mode nothing may follow that 分. |
| Fraction.SuffixErrorLocated | src/lib.rs:3405-3475 | Each error names a character, counting from the first unit i. A bad first digit is reported at i-1 and a non-unit at i. A bad second digit, or anything after digit分, is reported at i+1. A missing or wrong unit after the second digit is reported at i+2, which is the text length when the unit is absent. In strict mode the first character after 分 is reported at i+3. |
| Fraction.SuffixParsed | src/lib.rs:3395-3410 | Past the integer part, the parser reads the suffix with the sign of the integer part's value. |
| Fraction.SuffixParsedIntended | src/lib.rs:3395-3410 | The corrected parser reads the same suffix, with the written sign. |
| Fraction.ParseF64 | src/lib.rs:3358-3477 | The imperative parser, with its loops, `Vec::remove` and char iterator, computes ParseF64Value. |
| Fraction.ReadFraction | src/lib.rs:3395-3403 | Removing the last integer character and parsing the rest as i64 matches the suffix reader's input. |
| Fraction.ReadSuffix | src/lib.rs:3405-3475 | Reading the fraction digits and units one by one matches the suffix reader. |
| Fraction.ParseF64Intended | src/lib.rs:3358-3477 | The corrected parser: blank input gives ChineseNumberEmpty, and input with a unit never does. |
| Fraction.IntegerPartNeverEmpty | src/lib.rs:3401-3403 | In the corrected parser an empty integer part is not an error. |
| Fraction.DocumentedFractionRejected | src/lib.rs:3401-3403 | As written, "一角二分" gives ChineseNumberEmpty. This is the text the crate documents for 0.12. |
| Fraction.DocumentedFractionAccepted | src/lib.rs:3401-3403 | The corrected parser reads "一角二分" as 12 hundredths. |
| Fraction.TrailingCharsAccepted | src/lib.rs:3426-3439 | As written, "一一角二分三" parses as 112 hundredths and the trailing 三 is ignored. |
| Fraction.NegativeZeroLosesSign | src/lib.rs:3453-3458 | As written, "負零一角" gives +10 hundredths. |
| Fraction.NegativeZeroKeepsSign | src/lib.rs:3453-3458 | The corrected parser gives -10 hundredths. |
| Fraction.NegativeFractionRejected | src/lib.rs:3395-3403 | As written, "負一角" gives ChineseNumberIncorrect at 1. The integer part "負" is a lone sign, and the i64 parser rejects it (lib.rs:2874-2878). |
| Fraction.NegativeFractionAccepted | src/lib.rs:3395-3403 | The corrected parser reads "負一角" as -10 hundredths. |
| Fraction.WrittenSuffixValue | src/lib.rs:3405-3441 | As written, the reader on part·digit·角·digit·分 gives the i64 value of the part times 100 plus the digits, away from zero when that value is negative. Anything after 分 is ignored. |
| Fraction.WrittenFractionValue | src/lib.rs:3358-3477 | As written, parse_chinese_number_to_f64 on part·digit·角·digit·分 gives the i64 value of the part times 100 plus the two digits, signed by that value, whatever follows. |
| Fraction.IntendedSuffixValue | src/lib.rs:3417-3441 | The corrected reader on part·digit·角·digit·分 gives the integer part times 100 plus the digits, with the written sign, or an error at the first extra character. |
| Fraction.IntendedFractionValue | src/lib.rs:3358-3477 | The corrected parser on part·digit·角·digit·分 gives the integer part times 100 plus the two digits, with the written sign. A missing integer part counts as zero. Any character after 分 is rejected at its own index. |

## Left out

- The inner renderers and parsers (`digit_*`, `digit_compat_*`, `fraction_compat_*`, `chinese_digit_*`) and the character tables are not part of this model. They appear only as parameters.
- The inner renderers take the caller's `&mut String` (lib.rs:117-123, 613-623). The model makes each one a function from its arguments (the style, the value and, for two of them, a flag) to text, and appends that text. This assumes two things: that they only append, and that what they append depends only on those arguments, not on what the buffer already holds. Every `_mut` row's "the old contents stay as a prefix" rests on this.
- Types.NegativeSign: `CHINESE_NEGATIVE_SIGN` and `CHINESE_NEGATIVE_SIGN_CHARS` are not part of this model. 負 comes from the parse example at lib.rs:28. 负 for Simplified is assumed. That the parsers accept the written sign holds for these chosen constants only. The units 角 and 分 come from the example at lib.rs:25.
- Render.FromF64Mut: f64 arithmetic is not modelled. Values are `real`, so NaN, infinities and -0.0 (which is not `< 0.0`) are not represented.
- Fraction.ParseF64Value: the value is in integer hundredths, not the f64 sum `n + d1·0.1 + d2·0.01`. Rounding of that sum and the f32 variant are not modelled.
- Fraction.ParseF64: `str::find` returns a byte offset, and the model uses character positions instead. Nothing is lost. The code slices the prefix with that offset and collects it into `Vec<char>` (lib.rs:3395), so `integer_chars_len_dec` and every `char_index` built from it count characters. The byte offsets are only compared with 0 and `len` (lib.rs:3379, 3388, 3392), and character positions give the same comparisons.
- Parse.ParseI64: with Low, the negative branch computes `-(number as i64)` on a u64 with no underflow check (lib.rs:2734). For a magnitude of 2^63 that negation overflows: it panics in debug builds. Above 2^63 the cast wraps. The model instead returns the unbounded `Ok(-n)` (Parse.LowNegativeUnchecked), which can lie below i64::MIN. The lower bound is therefore stated only for a Low parser that stays below 10^16, which is the Low parser's own limit; that parser is not part of this model.
- Render.FromU128Mut: `assert!` panics. The model returns `completed == false` instead, and leaves the buffer unchanged by the aborted call. Render.FromI128Mut has then already written the sign.
- `parse_chinese_number_to_i128` and `_u128` are `unimplemented!()` and have no model.
- The `isize`/`usize` aliases and the `ChineseNumber`/`ChineseNumberToNumber` trait impls are left out. They only forward to the functions above.
- `from_f32`/`parse_chinese_number_to_f32` are left out. They convert to and from the f64 forms.

## Findings

| source | as written | input that shows it | evidently intended | confidence | as-written member | corrected member |
|---|---|---|---|---|---|---|
| src/lib.rs:2126-2130 | After a minus sign, i8 (and i16, lib.rs:2256-2260) report the inner parser's error index unchanged. That index counts from the character after the sign. | `負` followed by a character the inner parser rejects at its first position | Add 1, as i32 and i64 do (lib.rs:2415, 2739), so the index names the rejected character | medium, not executed | Parse.I8NegativeErrorIndexMisplaced | Parse.BadCharIndexLocated |
| src/lib.rs:3395-3403 | An empty integer part goes to the i64 parser, which reports ChineseNumberEmpty. | "一角二分", the crate's own rendering of 0.12 (lib.rs:25) | An empty integer part means 0 | high, not executed | Fraction.DocumentedFractionRejected | Fraction.DocumentedFractionAccepted |
| src/lib.rs:3426-3439 | After digit角digit分 the iterator is not checked for more characters. | "一一角二分三" parses as 1.12 | Reject the first extra character, as the digit分 branch does | high, not executed | Fraction.TrailingCharsAccepted | Fraction.IntendedFractionValue |
| src/lib.rs:3395-3403 | A sign with no integer digits before the fraction goes to the i64 parser as a lone sign, which reports ChineseNumberIncorrect at 1. | "負一角", which `from_f64` would write for -0.1: the sign (lib.rs:606-609), then the fraction text as for 0.12 at lib.rs:25 | A lone sign means negative zero, so -0.1 | medium, not executed | Fraction.NegativeFractionRejected | Fraction.NegativeFractionAccepted |
| src/lib.rs:3453-3458 | The fraction's sign is taken from the integer value, so a negative number with zero integer part loses its sign. | "負零一角" parses as 0.1 | -0.1: the sign written in the text | medium, not executed | Fraction.NegativeZeroLosesSign | Fraction.NegativeZeroKeepsSign |
