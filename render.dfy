/**
 * The rendering half of src/lib.rs: the `from_*_mut` functions that append a
 * number's Chinese text to a caller's buffer, and the `from_*` functions that
 * run them on an empty buffer.
 *
 * The digit renderers themselves (`digit_*`, `digit_compat_*`,
 * `fraction_compat_*` of the inner_functions module, and the character tables
 * they use) are not part of this model. They enter as the function-valued
 * fields of `Renderers`, each giving the text a renderer appends for a style
 * and a magnitude, so everything below holds for any choice of them.
 */
module Render {
  import opened Types
  import opened Buffers

  type Renderer = (Style, nat) -> seq<char>
  type FlagRenderer = (Style, nat, bool) -> seq<char>
  type FractionRenderer = (Style, real) -> seq<char>

  /** The inner renderers lib.rs calls, named after the Rust functions. */
  datatype Renderers = Renderers(
    digit1: Renderer,
    digit10: FlagRenderer,
    digit100: Renderer,
    digit10000Compat: FlagRenderer,
    compatLowU32: Renderer,
    compatTenThousandU32: Renderer,
    compatLowU64: Renderer,
    compatTenThousandU64: Renderer,
    compatMiddleU64: Renderer,
    compatTenThousandU128: Renderer,
    compatMiddleU128: Renderer,
    compatHighU128: Renderer,
    fractionLow: FractionRenderer,
    fractionTenThousand: FractionRenderer,
    fractionMiddle: FractionRenderer,
    fractionHigh: FractionRenderer)

  // ---------------------------------------------------------------------------
  // What each unsigned renderer appends: the choice of inner renderer.

  /** u8 takes no count method; it picks a renderer by the number of digits. */
  function U8Text(r: Renderers, style: Style, value: nat): seq<char> {
    if value >= 100 then r.digit100(style, value)
    else if value >= 10 then r.digit10(style, value, false)
    else r.digit1(style, value)
  }

  /** u16 takes no count method: a u16 never reaches 億, where the methods differ. */
  function U16Text(r: Renderers, style: Style, value: nat): seq<char> {
    r.digit10000Compat(style, value, false)
  }

  function U32Text(r: Renderers, style: Style, countMethod: ChineseNumberCountMethod, value: nat): seq<char> {
    match countMethod
    case Low => r.compatLowU32(style, value)
    case TenThousand | Middle | High => r.compatTenThousandU32(style, value)
  }

  function U64Text(r: Renderers, style: Style, countMethod: ChineseNumberCountMethod, value: nat): seq<char> {
    match countMethod
    case Low => r.compatLowU64(style, value)
    case TenThousand => r.compatTenThousandU64(style, value)
    case Middle => r.compatMiddleU64(style, value)
    case High => r.compatHighU128(style, value)
  }

  /** Defined where from_u128_mut does not abort: the Low method stops below 10^16. */
  function U128Text(r: Renderers, style: Style, countMethod: ChineseNumberCountMethod, value: nat): seq<char>
    requires countMethod == Low ==> value < LOW_LIMIT
  {
    match countMethod
    case Low => r.compatLowU64(style, value)
    case TenThousand => r.compatTenThousandU128(style, value)
    case Middle => r.compatMiddleU128(style, value)
    case High => r.compatHighU128(style, value)
  }

  function F64Text(r: Renderers, style: Style, countMethod: ChineseNumberCountMethod, value: real): seq<char> {
    match countMethod
    case Low => r.fractionLow(style, value)
    case TenThousand => r.fractionTenThousand(style, value)
    case Middle => r.fractionMiddle(style, value)
    case High => r.fractionHigh(style, value)
  }

  /** Whether from_u128_mut's assertion fails: Low cannot name 10^16 or more. */
  predicate LowAborts(countMethod: ChineseNumberCountMethod, magnitude: nat) {
    countMethod == Low && magnitude >= LOW_LIMIT
  }

  // ---------------------------------------------------------------------------
  // Unsigned `_mut` renderers: choose the inner renderer by count method.

  method FromU8Mut(r: Renderers, variant: ChineseVariant, letterCase: ChineseNumberCase, value: U8, buffer: Buffer)
    modifies buffer
    ensures buffer.text == old(buffer.text) + U8Text(r, Style(variant, letterCase), value as nat)
  {
    var style := Style(variant, letterCase);
    if value >= 100 {
      buffer.PushStr(r.digit100(style, value as nat));
    } else if value >= 10 {
      buffer.PushStr(r.digit10(style, value as nat, false));
    } else {
      buffer.PushStr(r.digit1(style, value as nat));
    }
  }

  method FromU16Mut(r: Renderers, variant: ChineseVariant, letterCase: ChineseNumberCase, value: U16, buffer: Buffer)
    modifies buffer
    ensures buffer.text == old(buffer.text) + U16Text(r, Style(variant, letterCase), value as nat)
  {
    buffer.PushStr(r.digit10000Compat(Style(variant, letterCase), value as nat, false));
  }

  method FromU32Mut(r: Renderers, variant: ChineseVariant, letterCase: ChineseNumberCase,
                    countMethod: ChineseNumberCountMethod, value: U32, buffer: Buffer)
    modifies buffer
    ensures buffer.text == old(buffer.text) + U32Text(r, Style(variant, letterCase), countMethod, value as nat)
  {
    var style := Style(variant, letterCase);
    match countMethod {
      case Low =>
        buffer.PushStr(r.compatLowU32(style, value as nat));
      case TenThousand | Middle | High =>
        buffer.PushStr(r.compatTenThousandU32(style, value as nat));
    }
  }

  method FromU64Mut(r: Renderers, variant: ChineseVariant, letterCase: ChineseNumberCase,
                    countMethod: ChineseNumberCountMethod, value: U64, buffer: Buffer)
    modifies buffer
    ensures buffer.text == old(buffer.text) + U64Text(r, Style(variant, letterCase), countMethod, value as nat)
  {
    var style := Style(variant, letterCase);
    match countMethod {
      case Low =>
        buffer.PushStr(r.compatLowU64(style, value as nat));
      case TenThousand =>
        buffer.PushStr(r.compatTenThousandU64(style, value as nat));
      case Middle =>
        buffer.PushStr(r.compatMiddleU64(style, value as nat));
      case High =>
        var widened := value as U128;
        buffer.PushStr(r.compatHighU128(style, widened as nat));
    }
  }

  /**
   * The Low branch asserts that the value is below 10^16; when it is not the
   * call aborts (`completed` is false) and appends nothing.
   */
  method FromU128Mut(r: Renderers, variant: ChineseVariant, letterCase: ChineseNumberCase,
                     countMethod: ChineseNumberCountMethod, value: U128, buffer: Buffer)
    returns (completed: bool)
    modifies buffer
    ensures completed == !LowAborts(countMethod, value as nat)
    ensures completed ==> buffer.text == old(buffer.text) + U128Text(r, Style(variant, letterCase), countMethod, value as nat)
    ensures !completed ==> buffer.text == old(buffer.text)
  {
    var style := Style(variant, letterCase);
    completed := true;
    match countMethod {
      case Low =>
        if !(value < 10_000_000_000_000_000) {
          completed := false;
          return;
        }
        buffer.PushStr(r.compatLowU64(style, (value as U64) as nat));
      case TenThousand =>
        buffer.PushStr(r.compatTenThousandU128(style, value as nat));
      case Middle =>
        buffer.PushStr(r.compatMiddleU128(style, value as nat));
      case High =>
        buffer.PushStr(r.compatHighU128(style, value as nat));
    }
  }

  // ---------------------------------------------------------------------------
  // Signed `_mut` renderers: sign first, then the magnitude, computed in the
  // newtypes so that every Rust operation is checked not to overflow.

  method FromI8Mut(r: Renderers, variant: ChineseVariant, letterCase: ChineseNumberCase, value: I8, buffer: Buffer)
    modifies buffer
    ensures value < 0 ==>
      buffer.text == old(buffer.text) + NegativeSign(variant) + U8Text(r, Style(variant, letterCase), -(value as int))
    ensures value >= 0 ==>
      buffer.text == old(buffer.text) + U8Text(r, Style(variant, letterCase), value as int)
  {
    if value < 0 {
      buffer.PushStr(NegativeSign(variant));
      if value == -0x80 {
        FromU8Mut(r, variant, letterCase, (-(value as I16)) as U8, buffer);
      } else {
        FromU8Mut(r, variant, letterCase, (-value) as U8, buffer);
      }
    } else {
      FromU8Mut(r, variant, letterCase, value as U8, buffer);
    }
  }

  method FromI16Mut(r: Renderers, variant: ChineseVariant, letterCase: ChineseNumberCase, value: I16, buffer: Buffer)
    modifies buffer
    ensures value < 0 ==>
      buffer.text == old(buffer.text) + NegativeSign(variant) + U16Text(r, Style(variant, letterCase), -(value as int))
    ensures value >= 0 ==>
      buffer.text == old(buffer.text) + U16Text(r, Style(variant, letterCase), value as int)
  {
    if value < 0 {
      buffer.PushStr(NegativeSign(variant));
      if value == -0x8000 {
        FromU16Mut(r, variant, letterCase, (-(value as I32)) as U16, buffer);
      } else {
        FromU16Mut(r, variant, letterCase, (-value) as U16, buffer);
      }
    } else {
      FromU16Mut(r, variant, letterCase, value as U16, buffer);
    }
  }

  method FromI32Mut(r: Renderers, variant: ChineseVariant, letterCase: ChineseNumberCase,
                    countMethod: ChineseNumberCountMethod, value: I32, buffer: Buffer)
    modifies buffer
    ensures value < 0 ==>
      buffer.text == old(buffer.text) + NegativeSign(variant) + U32Text(r, Style(variant, letterCase), countMethod, -(value as int))
    ensures value >= 0 ==>
      buffer.text == old(buffer.text) + U32Text(r, Style(variant, letterCase), countMethod, value as int)
  {
    if value < 0 {
      buffer.PushStr(NegativeSign(variant));
      if value == -0x8000_0000 {
        FromU32Mut(r, variant, letterCase, countMethod, (-(value as I64)) as U32, buffer);
      } else {
        FromU32Mut(r, variant, letterCase, countMethod, (-value) as U32, buffer);
      }
    } else {
      FromU32Mut(r, variant, letterCase, countMethod, value as U32, buffer);
    }
  }

  method FromI64Mut(r: Renderers, variant: ChineseVariant, letterCase: ChineseNumberCase,
                    countMethod: ChineseNumberCountMethod, value: I64, buffer: Buffer)
    modifies buffer
    ensures value < 0 ==>
      buffer.text == old(buffer.text) + NegativeSign(variant) + U64Text(r, Style(variant, letterCase), countMethod, -(value as int))
    ensures value >= 0 ==>
      buffer.text == old(buffer.text) + U64Text(r, Style(variant, letterCase), countMethod, value as int)
  {
    if value < 0 {
      buffer.PushStr(NegativeSign(variant));
      if value == -0x8000_0000_0000_0000 {
        FromU64Mut(r, variant, letterCase, countMethod, (-(value as I128)) as U64, buffer);
      } else {
        FromU64Mut(r, variant, letterCase, countMethod, (-value) as U64, buffer);
      }
    } else {
      FromU64Mut(r, variant, letterCase, countMethod, value as U64, buffer);
    }
  }

  /**
   * i128 has no wider type: MIN's magnitude is computed as -(MIN + 1) + 1 in
   * u128. On a Low abort the sign has already been written.
   */
  method FromI128Mut(r: Renderers, variant: ChineseVariant, letterCase: ChineseNumberCase,
                     countMethod: ChineseNumberCountMethod, value: I128, buffer: Buffer)
    returns (completed: bool)
    modifies buffer
    ensures completed == !LowAborts(countMethod, Abs(value as int))
    ensures value < 0 && completed ==>
      buffer.text == old(buffer.text) + NegativeSign(variant) + U128Text(r, Style(variant, letterCase), countMethod, -(value as int))
    ensures value >= 0 && completed ==>
      buffer.text == old(buffer.text) + U128Text(r, Style(variant, letterCase), countMethod, value as int)
    ensures !completed ==>
      buffer.text == old(buffer.text) + (if value < 0 then NegativeSign(variant) else [])
  {
    if value < 0 {
      buffer.PushStr(NegativeSign(variant));
      if value == -0x8000_0000_0000_0000_0000_0000_0000_0000 {
        completed := FromU128Mut(r, variant, letterCase, countMethod, (-((value + 1) as I128)) as U128 + 1, buffer);
      } else {
        completed := FromU128Mut(r, variant, letterCase, countMethod, (-value) as U128, buffer);
      }
    } else {
      completed := FromU128Mut(r, variant, letterCase, countMethod, value as U128, buffer);
    }
  }

  /** The sign is written, the value negated, and a fraction renderer does the rest. */
  method FromF64Mut(r: Renderers, variant: ChineseVariant, letterCase: ChineseNumberCase,
                    countMethod: ChineseNumberCountMethod, value: real, buffer: Buffer)
    modifies buffer
    ensures value < 0.0 ==>
      buffer.text == old(buffer.text) + NegativeSign(variant) + F64Text(r, Style(variant, letterCase), countMethod, -value)
    ensures value >= 0.0 ==>
      buffer.text == old(buffer.text) + F64Text(r, Style(variant, letterCase), countMethod, value)
  {
    var style := Style(variant, letterCase);
    var v := value;
    if v < 0.0 {
      buffer.PushStr(NegativeSign(variant));
      v := -v;
    }
    match countMethod {
      case Low => buffer.PushStr(r.fractionLow(style, v));
      case TenThousand => buffer.PushStr(r.fractionTenThousand(style, v));
      case Middle => buffer.PushStr(r.fractionMiddle(style, v));
      case High => buffer.PushStr(r.fractionHigh(style, v));
    }
  }

  // ---------------------------------------------------------------------------
  // The `String`-returning forms: the `_mut` form run on a fresh, empty buffer.

  method FromU8(r: Renderers, variant: ChineseVariant, letterCase: ChineseNumberCase, value: U8)
    returns (s: seq<char>)
    ensures s == U8Text(r, Style(variant, letterCase), value as nat)
  {
    var buffer := new Buffer();
    FromU8Mut(r, variant, letterCase, value, buffer);
    s := buffer.text;
  }

  method FromU16(r: Renderers, variant: ChineseVariant, letterCase: ChineseNumberCase, value: U16)
    returns (s: seq<char>)
    ensures s == U16Text(r, Style(variant, letterCase), value as nat)
  {
    var buffer := new Buffer();
    FromU16Mut(r, variant, letterCase, value, buffer);
    s := buffer.text;
  }

  method FromU32(r: Renderers, variant: ChineseVariant, letterCase: ChineseNumberCase,
                 countMethod: ChineseNumberCountMethod, value: U32)
    returns (s: seq<char>)
    ensures s == U32Text(r, Style(variant, letterCase), countMethod, value as nat)
  {
    var buffer := new Buffer();
    FromU32Mut(r, variant, letterCase, countMethod, value, buffer);
    s := buffer.text;
  }

  method FromU64(r: Renderers, variant: ChineseVariant, letterCase: ChineseNumberCase,
                 countMethod: ChineseNumberCountMethod, value: U64)
    returns (s: seq<char>)
    ensures s == U64Text(r, Style(variant, letterCase), countMethod, value as nat)
  {
    var buffer := new Buffer();
    FromU64Mut(r, variant, letterCase, countMethod, value, buffer);
    s := buffer.text;
  }

  /** `None` stands for the abort of from_u128's assertion. */
  method FromU128(r: Renderers, variant: ChineseVariant, letterCase: ChineseNumberCase,
                  countMethod: ChineseNumberCountMethod, value: U128)
    returns (s: Option<seq<char>>)
    ensures s.None? <==> LowAborts(countMethod, value as nat)
    ensures s.Some? ==> s.value == U128Text(r, Style(variant, letterCase), countMethod, value as nat)
  {
    var buffer := new Buffer();
    var completed := FromU128Mut(r, variant, letterCase, countMethod, value, buffer);
    s := if completed then Some(buffer.text) else None;
  }

  method FromI8(r: Renderers, variant: ChineseVariant, letterCase: ChineseNumberCase, value: I8)
    returns (s: seq<char>)
    ensures value < 0 ==> s == NegativeSign(variant) + U8Text(r, Style(variant, letterCase), -(value as int))
    ensures value >= 0 ==> s == U8Text(r, Style(variant, letterCase), value as int)
  {
    var buffer := new Buffer();
    FromI8Mut(r, variant, letterCase, value, buffer);
    s := buffer.text;
  }

  method FromI16(r: Renderers, variant: ChineseVariant, letterCase: ChineseNumberCase, value: I16)
    returns (s: seq<char>)
    ensures value < 0 ==> s == NegativeSign(variant) + U16Text(r, Style(variant, letterCase), -(value as int))
    ensures value >= 0 ==> s == U16Text(r, Style(variant, letterCase), value as int)
  {
    var buffer := new Buffer();
    FromI16Mut(r, variant, letterCase, value, buffer);
    s := buffer.text;
  }

  method FromI32(r: Renderers, variant: ChineseVariant, letterCase: ChineseNumberCase,
                 countMethod: ChineseNumberCountMethod, value: I32)
    returns (s: seq<char>)
    ensures value < 0 ==> s == NegativeSign(variant) + U32Text(r, Style(variant, letterCase), countMethod, -(value as int))
    ensures value >= 0 ==> s == U32Text(r, Style(variant, letterCase), countMethod, value as int)
  {
    var buffer := new Buffer();
    FromI32Mut(r, variant, letterCase, countMethod, value, buffer);
    s := buffer.text;
  }

  method FromI64(r: Renderers, variant: ChineseVariant, letterCase: ChineseNumberCase,
                 countMethod: ChineseNumberCountMethod, value: I64)
    returns (s: seq<char>)
    ensures value < 0 ==> s == NegativeSign(variant) + U64Text(r, Style(variant, letterCase), countMethod, -(value as int))
    ensures value >= 0 ==> s == U64Text(r, Style(variant, letterCase), countMethod, value as int)
  {
    var buffer := new Buffer();
    FromI64Mut(r, variant, letterCase, countMethod, value, buffer);
    s := buffer.text;
  }

  /** `None` stands for the abort; the sign written before it is lost with the buffer. */
  method FromI128(r: Renderers, variant: ChineseVariant, letterCase: ChineseNumberCase,
                  countMethod: ChineseNumberCountMethod, value: I128)
    returns (s: Option<seq<char>>)
    ensures s.None? <==> LowAborts(countMethod, Abs(value as int))
    ensures s.Some? && value < 0 ==>
      s.value == NegativeSign(variant) + U128Text(r, Style(variant, letterCase), countMethod, -(value as int))
    ensures s.Some? && value >= 0 ==>
      s.value == U128Text(r, Style(variant, letterCase), countMethod, value as int)
  {
    var buffer := new Buffer();
    var completed := FromI128Mut(r, variant, letterCase, countMethod, value, buffer);
    s := if completed then Some(buffer.text) else None;
  }

  method FromF64(r: Renderers, variant: ChineseVariant, letterCase: ChineseNumberCase,
                 countMethod: ChineseNumberCountMethod, value: real)
    returns (s: seq<char>)
    ensures value < 0.0 ==> s == NegativeSign(variant) + F64Text(r, Style(variant, letterCase), countMethod, -value)
    ensures value >= 0.0 ==> s == F64Text(r, Style(variant, letterCase), countMethod, value)
  {
    var buffer := new Buffer();
    FromF64Mut(r, variant, letterCase, countMethod, value, buffer);
    s := buffer.text;
  }

  // ---------------------------------------------------------------------------
  // How the count methods share renderers.

  /** For u32 the three methods other than Low share one branch, so they render alike. */
  lemma U32MethodsAboveLowAgree(r: Renderers, style: Style, countMethod: ChineseNumberCountMethod, value: nat)
    requires countMethod != Low
    ensures U32Text(r, style, countMethod, value) == U32Text(r, style, TenThousand, value)
  {
  }

  /** u64 with High is the u128 High renderer on the widened value. */
  lemma U64HighIsU128High(r: Renderers, style: Style, value: nat)
    ensures U64Text(r, style, High, value) == U128Text(r, style, High, value)
  {
  }

  /** Below the guard, u128 with Low is exactly u64 with Low on the narrowed value. */
  lemma U128LowIsU64Low(r: Renderers, style: Style, value: nat)
    requires value < LOW_LIMIT
    ensures U128Text(r, style, Low, value) == U64Text(r, style, Low, value)
  {
  }
}
