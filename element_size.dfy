/**
 * The `ElementSize` enumeration of the schema: the eight element encodings a
 * list can have, stored on the wire as a u16 (its `#[repr(u16)]` discriminant).
 * The layout's list-pointer tag uses the same eight values, so the model uses
 * this one enumeration for both.
 */
module ElementSize {
  import opened Wrappers

  datatype Reader =
    | Empty
    | Bit
    | Byte
    | TwoBytes
    | FourBytes
    | EightBytes
    | Pointer
    | InlineComposite

  /** The code each variant is declared with: 0 for Empty up to 7 for InlineComposite. */
  function ToU16(e: Reader): (n: nat)
    ensures n < 8
  {
    match e
    case Empty => 0
    case Bit => 1
    case Byte => 2
    case TwoBytes => 3
    case FourBytes => 4
    case EightBytes => 5
    case Pointer => 6
    case InlineComposite => 7
  }

  /**
   * `FromPrimitive::from_u16`: defined exactly on the declared codes; any other
   * stored value decodes to None.
   */
  function FromU16(n: nat): (e: Option<Reader>)
    ensures e.Some? <==> n < 8
    ensures e.Some? ==> ToU16(e.value) == n
  {
    if n == 0 then Some(Empty)
    else if n == 1 then Some(Bit)
    else if n == 2 then Some(Byte)
    else if n == 3 then Some(TwoBytes)
    else if n == 4 then Some(FourBytes)
    else if n == 5 then Some(EightBytes)
    else if n == 6 then Some(Pointer)
    else if n == 7 then Some(InlineComposite)
    else None
  }

  /** Decoding the declared code of a variant gives that variant back. */
  lemma FromU16ToU16(e: Reader)
    ensures FromU16(ToU16(e)) == Some(e)
  {
  }

  /** Two variants with the same code are the same variant. */
  lemma ToU16Injective(e1: Reader, e2: Reader)
    requires ToU16(e1) == ToU16(e2)
    ensures e1 == e2
  {
    FromU16ToU16(e1);
    FromU16ToU16(e2);
  }
}
