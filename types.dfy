/**
 * Values shared by the rendering and the parsing side of the Chinese-number
 * converter: the character variant, the letter case, the four count methods
 * (grouping systems), the parse error, and Rust's fixed-width integers.
 */
module Types {

  /** Traditional or Simplified characters. */
  datatype ChineseVariant = Traditional | Simple

  /** Upper case uses the anti-forgery digits (壹貳參), lower case the ordinary ones (一二三). */
  datatype ChineseNumberCase = Upper | Lower

  /** The grouping system used above 萬: 下數 (Low), 萬進 (TenThousand), 中數 (Middle), 上數 (High). */
  datatype ChineseNumberCountMethod = Low | TenThousand | Middle | High

  /** The pair the library turns into a character-table index before calling a digit renderer. */
  datatype Style = Style(variant: ChineseVariant, letterCase: ChineseNumberCase)

  /** The error of every parse_chinese_number_to_* function. */
  datatype ChineseNumberParseError =
    | ChineseNumberEmpty
    | ChineseNumberIncorrect(charIndex: nat)
    | Overflow
    | Underflow

  datatype Option<+T> = None | Some(value: T)

  datatype Result<+T, +E> = Ok(value: T) | Err(error: E)

  // Rust's primitive integers. Arithmetic on a newtype is checked by Dafny
  // against its range, which is how the model shows that no step overflows.
  newtype I8 = x: int | -0x80 <= x < 0x80
  newtype U8 = x: int | 0 <= x < 0x100
  newtype I16 = x: int | -0x8000 <= x < 0x8000
  newtype U16 = x: int | 0 <= x < 0x1_0000
  newtype I32 = x: int | -0x8000_0000 <= x < 0x8000_0000
  newtype U32 = x: int | 0 <= x < 0x1_0000_0000
  newtype I64 = x: int | -0x8000_0000_0000_0000 <= x < 0x8000_0000_0000_0000
  newtype U64 = x: int | 0 <= x < 0x1_0000_0000_0000_0000
  newtype I128 = x: int
    | -0x8000_0000_0000_0000_0000_0000_0000_0000 <= x < 0x8000_0000_0000_0000_0000_0000_0000_0000
  newtype U128 = x: int | 0 <= x < 0x1_0000_0000_0000_0000_0000_0000_0000_0000

  const I8_MAX: nat := 0x7f
  const U8_MAX: nat := 0xff
  const I16_MAX: nat := 0x7fff
  const U16_MAX: nat := 0xffff
  const I32_MAX: nat := 0x7fff_ffff
  const U32_MAX: nat := 0xffff_ffff
  const I64_MAX: nat := 0x7fff_ffff_ffff_ffff
  const U64_MAX: nat := 0xffff_ffff_ffff_ffff
  const I128_MAX: nat := 0x7fff_ffff_ffff_ffff_ffff_ffff_ffff_ffff

  /** The largest value the Low (下數) method can name: it goes up to 極, 10^15. */
  const LOW_LIMIT: nat := 10_000_000_000_000_000

  /** The characters the parsers accept as a leading minus sign. */
  predicate IsNegativeSignChar(c: char) {
    c == '負' || c == '负'
  }

  /** The minus sign the renderers write, one per variant. */
  function NegativeSign(variant: ChineseVariant): (sign: seq<char>)
    ensures |sign| == 1 && IsNegativeSignChar(sign[0])
  {
    match variant
    case Traditional => "負"
    case Simple => "负"
  }

  /** Mathematical absolute value, the magnitude every signed renderer hands on. */
  function Abs(x: int): nat {
    if x < 0 then -x else x
  }
}
