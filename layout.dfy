/**
 * The part of the `capnp::layout` runtime that the generated accessors and the
 * struct-list wrapper call into, as an abstract interface.
 *
 * A struct view is a data section (a sequence of bits, little-endian within
 * each field) and a pointer section. A pointer is modelled by what it
 * resolves to, not by its 64-bit wire encoding: the pointer codec, the bounds
 * checks and the traversal limits belong to the layout and are not part of
 * this model. The interface's contracts are assumptions about the layout:
 * a bit beyond the end of the data section reads as 0 (DataBit) and a masked
 * read XORs the stored bits with the default (GetDataFieldMask), so a field
 * that an older writer did not know about reads as its default value; the
 * pointer getters fall back to their defaults; a struct or text pointer read
 * as a list is malformed; a reopened struct list is zero-padded to the
 * declared size; and a list that is initialised or set is exactly the list
 * described.
 */
module Layout {
  import opened Wrappers
  import ElementSize

  const WORD_BITS: nat := 64

  /** `StructSize`: the section sizes (in words) and preferred list encoding a generated type declares. */
  datatype StructSize = StructSize(data: nat, pointers: nat, preferredListEncoding: ElementSize.Reader)

  const INLINE_COMPOSITE: ElementSize.Reader := ElementSize.InlineComposite

  /** The data-dependent failures of pointer resolution. */
  datatype Error = OutOfBounds | MalformedPointer | RecursionLimitExceeded | MessageTooLarge

  /** A pointer-section entry, by what it resolves to. */
  datatype Pointer =
    | Null
    | StructPointer(target: StructReader)
    | ListPointer(list: ListReader)
    | TextPointer(text: string)
    | Invalid(error: Error)

  /** `StructReader`: a read-only view of one struct's two sections. */
  datatype StructReader = StructReader(data: seq<bool>, pointers: seq<Pointer>)

  /** `ListReader`, as the struct-list wrapper sees it: a length and a struct view per element. */
  datatype ListReader = ListReader(elements: seq<StructReader>) {
    function Len(): nat { |elements| }

    function GetStructElement(index: nat): StructReader
      requires index < Len()
    {
      elements[index]
    }
  }

  /** `StructBuilder`: a writable view of one struct's two sections. */
  datatype StructBuilder = StructBuilder(data: seq<bool>, pointers: seq<Pointer>) {
    function AsReader(): StructReader { StructReader(data, pointers) }
  }

  /** `ListBuilder`: a length and a writable struct view per element. */
  datatype ListBuilder = ListBuilder(elements: seq<StructBuilder>) {
    function Len(): nat { |elements| }

    function GetStructElement(index: nat): StructBuilder
      requires index < Len()
    {
      elements[index]
    }
  }

  /** `PointerBuilder`: a writable pointer slot, by what it currently holds. */
  datatype PointerBuilder = PointerBuilder(target: Pointer)

  /** What a null struct pointer resolves to: both sections empty. */
  const EMPTY_STRUCT: StructReader := StructReader([], [])

  /** What a null list pointer resolves to. */
  const EMPTY_LIST: ListReader := ListReader([])

  // ---------------------------------------------------------------------------
  // Data-section fields

  /** The primitive types a generated getter reads from the data section. */
  datatype Prim = Bool | U8 | U16 | U32 | U64

  function BitWidth(p: Prim): nat
  {
    match p
    case Bool => 1
    case U8 => 8
    case U16 => 16
    case U32 => 32
    case U64 => 64
  }

  /**
   * A data-section field as the generated code names it: a primitive type and
   * a slot index counted in units of that type's width (for Bool, the bit
   * index). The field occupies the bits [Lo(), Hi()).
   */
  datatype DataField = DataField(prim: Prim, slot: nat) {
    function Width(): nat { BitWidth(prim) }
    function Lo(): nat { slot * Width() }
    function Hi(): nat { Lo() + Width() }
  }

  predicate Disjoint(f: DataField, g: DataField)
  {
    f.Hi() <= g.Lo() || g.Hi() <= f.Lo()
  }

  predicate FitsIn(f: DataField, words: nat)
  {
    f.Hi() <= words * WORD_BITS
  }

  predicate PairwiseDisjoint(fs: seq<DataField>)
  {
    forall i, j :: 0 <= i < j < |fs| ==> Disjoint(fs[i], fs[j])
  }

  predicate AllFitIn(fs: seq<DataField>, words: nat)
  {
    forall i :: 0 <= i < |fs| ==> FitsIn(fs[i], words)
  }

  predicate AllBelow(indices: seq<nat>, count: nat)
  {
    forall i :: 0 <= i < |indices| ==> indices[i] < count
  }

  /**
   * The fields of `fs` are listed in bit order, each ending at or before the
   * next one begins: a check of adjacent pairs only, which Dafny can evaluate
   * on a table written out literally.
   */
  predicate Ascending(fs: seq<DataField>)
  {
    |fs| <= 1 || (fs[0].Hi() <= fs[1].Lo() && Ascending(fs[1..]))
  }

  lemma {:induction false} AscendingPair(fs: seq<DataField>, i: nat, j: nat)
    requires Ascending(fs) && i < j < |fs|
    ensures fs[i].Hi() <= fs[j].Lo()
  {
    if i > 0 {
      AscendingPair(fs[1..], i - 1, j - 1);
    } else if j > 1 {
      AscendingPair(fs[1..], 0, j - 1);
    }
  }

  /**
   * An ascending table whose last field ends within `words` data words is
   * pairwise disjoint, and all of it fits in those words.
   */
  lemma AscendingLayout(fs: seq<DataField>, words: nat)
    requires Ascending(fs)
    requires fs != [] ==> fs[|fs| - 1].Hi() <= words * WORD_BITS
    ensures PairwiseDisjoint(fs) && AllFitIn(fs, words)
  {
    forall i, j | 0 <= i < j < |fs|
      ensures Disjoint(fs[i], fs[j])
    {
      AscendingPair(fs, i, j);
    }
    forall i | 0 <= i < |fs|
      ensures FitsIn(fs[i], words)
    {
      if i < |fs| - 1 {
        AscendingPair(fs, i, |fs| - 1);
      }
    }
  }

  lemma {:induction false} Pow2Add(a: nat, b: nat)
    ensures Pow2(a + b) == Pow2(a) * Pow2(b)
  {
    if a > 0 {
      Pow2Add(a - 1, b);
    }
  }

  /** The widths of the unsigned types as powers of two. */
  lemma Pow2Widths()
    ensures Pow2(1) == 2 && Pow2(8) == 0x100 && Pow2(16) == 0x1_0000
    ensures Pow2(32) == 0x1_0000_0000 && Pow2(64) == 0x1_0000_0000_0000_0000
  {
    assert Pow2(8) == 0x100;
    assert Pow2(16) == 0x1_0000;
    Pow2Add(16, 16);
    Pow2Add(32, 32);
  }

  // ---------------------------------------------------------------------------
  // Bits and numbers

  function Pow2(n: nat): (p: nat)
    ensures p >= 1
  {
    if n == 0 then 1 else 2 * Pow2(n - 1)
  }

  /** The unsigned value of a little-endian bit string. */
  function BitsToNat(b: seq<bool>): (n: nat)
    ensures n < Pow2(|b|)
  {
    if b == [] then 0 else (if b[0] then 1 else 0) + 2 * BitsToNat(b[1..])
  }

  /** The low `width` bits of `n`, least significant first. */
  function NatToBits(n: nat, width: nat): (b: seq<bool>)
    ensures |b| == width
  {
    if width == 0 then [] else [n % 2 == 1] + NatToBits(n / 2, width - 1)
  }

  lemma {:induction false} NatToBitsRoundTrip(n: nat, width: nat)
    requires n < Pow2(width)
    ensures BitsToNat(NatToBits(n, width)) == n
  {
    if width > 0 {
      NatToBitsRoundTrip(n / 2, width - 1);
      assert NatToBits(n, width)[1..] == NatToBits(n / 2, width - 1);
    }
  }

  lemma {:induction false} BitsToNatRoundTrip(b: seq<bool>)
    ensures NatToBits(BitsToNat(b), |b|) == b
  {
    if b != [] {
      BitsToNatRoundTrip(b[1..]);
      var n := BitsToNat(b);
      assert n % 2 == 1 <==> b[0];
      assert n / 2 == BitsToNat(b[1..]);
    }
  }

  function Xor(a: seq<bool>, b: seq<bool>): (c: seq<bool>)
    requires |a| == |b|
    ensures |c| == |a|
    ensures forall k :: 0 <= k < |c| ==> c[k] == (a[k] != b[k])
  {
    seq(|a|, k requires 0 <= k < |a| => a[k] != b[k])
  }

  // ---------------------------------------------------------------------------
  // Reading the data section

  /** The layout rule assumed by the model: bits beyond the data section read as 0. */
  function DataBit(r: StructReader, i: nat): bool
  {
    i < |r.data| && r.data[i]
  }

  function ReadBits(r: StructReader, lo: nat, width: nat): (b: seq<bool>)
    ensures |b| == width
    ensures forall k :: 0 <= k < width ==> b[k] == DataBit(r, lo + k)
  {
    seq(width, k requires 0 <= k < width => DataBit(r, lo + k))
  }

  /** A field whose bits are all clear reads as its default value. */
  lemma ClearFieldReadsDefault(r: StructReader, f: DataField, mask: nat)
    requires mask < Pow2(f.Width())
    requires forall k :: f.Lo() <= k < f.Hi() ==> !DataBit(r, k)
    ensures BitsToNat(Xor(ReadBits(r, f.Lo(), f.Width()), NatToBits(mask, f.Width()))) == mask
  {
    var x := Xor(ReadBits(r, f.Lo(), f.Width()), NatToBits(mask, f.Width()));
    assert x == NatToBits(mask, f.Width());
    NatToBitsRoundTrip(mask, f.Width());
  }

  /**
   * `get_data_field_mask::<T>(slot, mask)`: the field's bits XOR the default
   * `mask`. A field beyond the stored data section reads as its default.
   */
  function GetDataFieldMask(r: StructReader, f: DataField, mask: nat): (v: nat)
    requires mask < Pow2(f.Width())
    ensures v < Pow2(f.Width())
    ensures NatToBits(v, f.Width()) == Xor(ReadBits(r, f.Lo(), f.Width()), NatToBits(mask, f.Width()))
    ensures f.Hi() <= |r.data| ==> v == BitsToNat(Xor(r.data[f.Lo()..f.Hi()], NatToBits(mask, f.Width())))
    ensures |r.data| <= f.Lo() ==> v == mask
  {
    var x := Xor(ReadBits(r, f.Lo(), f.Width()), NatToBits(mask, f.Width()));
    BitsToNatRoundTrip(x);
    assert f.Hi() <= |r.data| ==> ReadBits(r, f.Lo(), f.Width()) == r.data[f.Lo()..f.Hi()];
    if |r.data| <= f.Lo() then
      ClearFieldReadsDefault(r, f, mask);
      BitsToNat(x)
    else
      BitsToNat(x)
  }

  /**
   * `get_data_field::<T>(slot)`: the masked read with default 0, so exactly
   * the stored bits; 0 beyond the stored data section.
   */
  function GetDataField(r: StructReader, f: DataField): (v: nat)
    ensures v < Pow2(f.Width())
    ensures NatToBits(v, f.Width()) == ReadBits(r, f.Lo(), f.Width())
    ensures f.Hi() <= |r.data| ==> v == BitsToNat(r.data[f.Lo()..f.Hi()])
    ensures |r.data| <= f.Lo() ==> v == 0
  {
    var v := GetDataFieldMask(r, f, 0);
    var stored := ReadBits(r, f.Lo(), f.Width());
    ZeroBits(f.Width());
    assert Xor(stored, NatToBits(0, f.Width())) == stored;
    NatToBitsRoundTrip(v, f.Width());
    assert f.Hi() <= |r.data| ==> stored == r.data[f.Lo()..f.Hi()];
    v
  }

  lemma {:induction false} ZeroBits(width: nat)
    ensures NatToBits(0, width) == seq(width, _ => false)
  {
    if width > 0 {
      ZeroBits(width - 1);
    }
  }

  /** XOR with the all-ones mask of the same width is the complement of the value. */
  lemma {:induction false} XorAllOnes(b: seq<bool>)
    ensures BitsToNat(Xor(b, NatToBits(Pow2(|b|) - 1, |b|))) == Pow2(|b|) - 1 - BitsToNat(b)
  {
    if b != [] {
      var ones := NatToBits(Pow2(|b|) - 1, |b|);
      assert ones[1..] == NatToBits(Pow2(|b| - 1) - 1, |b| - 1);
      assert Xor(b, ones)[1..] == Xor(b[1..], ones[1..]);
      XorAllOnes(b[1..]);
    }
  }

  /**
   * With an all-ones default (such as 0xffff for a u16), a stored field reads
   * as the complement of its stored bits.
   */
  lemma AllOnesMaskComplements(r: StructReader, f: DataField)
    requires f.Hi() <= |r.data|
    ensures GetDataFieldMask(r, f, Pow2(f.Width()) - 1) == Pow2(f.Width()) - 1 - BitsToNat(r.data[f.Lo()..f.Hi()])
  {
    XorAllOnes(r.data[f.Lo()..f.Hi()]);
  }

  /** `get_bool_field(bit)`: the one-bit field at `f.slot`, default false. */
  function GetBoolField(r: StructReader, f: DataField): (b: bool)
    requires f.prim == Bool
    ensures b <==> GetDataField(r, f) == 1
    ensures |r.data| <= f.slot ==> !b
  {
    DataBit(r, f.slot)
  }

  /** A field's value depends on its own bits and on nothing else. */
  lemma ReadDependsOnlyOnOwnBits(r1: StructReader, r2: StructReader, f: DataField, mask: nat)
    requires mask < Pow2(f.Width())
    requires forall k :: f.Lo() <= k < f.Hi() ==> DataBit(r1, k) == DataBit(r2, k)
    ensures GetDataFieldMask(r1, f, mask) == GetDataFieldMask(r2, f, mask)
  {
    assert ReadBits(r1, f.Lo(), f.Width()) == ReadBits(r2, f.Lo(), f.Width());
  }

  /**
   * In a pairwise-disjoint table of fields, two views that differ only in the
   * bits of field `k` agree on every other field: storing one field cannot
   * change what another reads.
   */
  lemma DisjointFieldsIndependent(r1: StructReader, r2: StructReader, fs: seq<DataField>, k: nat, j: nat, mask: nat)
    requires PairwiseDisjoint(fs)
    requires k < |fs| && j < |fs| && j != k
    requires mask < Pow2(fs[j].Width())
    requires forall b: nat :: !(fs[k].Lo() <= b < fs[k].Hi()) ==> DataBit(r1, b) == DataBit(r2, b)
    ensures GetDataFieldMask(r1, fs[j], mask) == GetDataFieldMask(r2, fs[j], mask)
  {
    assert Disjoint(fs[j], fs[k]) by {
      if j < k {
        assert Disjoint(fs[j], fs[k]);
      } else {
        assert Disjoint(fs[k], fs[j]);
      }
    }
    ReadDependsOnlyOnOwnBits(r1, r2, fs[j], mask);
  }

  // ---------------------------------------------------------------------------
  // Reading the pointer section

  /** `get_pointer_field(index)`: an index beyond the stored pointer section reads as null. */
  function GetPointerField(r: StructReader, index: nat): (p: Pointer)
    ensures index < |r.pointers| ==> p == r.pointers[index]
    ensures |r.pointers| <= index ==> p.Null?
  {
    if index < |r.pointers| then r.pointers[index] else Null
  }

  /** `get_struct_field(index, None)`: a null (or missing) pointer gives the empty struct. */
  function GetStructField(r: StructReader, index: nat): (s: StructReader)
    ensures |r.pointers| <= index ==> s == EMPTY_STRUCT
    ensures GetPointerField(r, index).StructPointer? ==> s == GetPointerField(r, index).target
    ensures !GetPointerField(r, index).StructPointer? ==> s == EMPTY_STRUCT
  {
    match GetPointerField(r, index)
    case StructPointer(t) => t
    case _ => EMPTY_STRUCT
  }

  /** `get_text_field(index, default)`: a missing text reads as `defaultValue`. */
  function GetTextField(r: StructReader, index: nat, defaultValue: string): (t: string)
    ensures |r.pointers| <= index ==> t == defaultValue
    ensures GetPointerField(r, index).TextPointer? ==> t == GetPointerField(r, index).text
    ensures !GetPointerField(r, index).TextPointer? ==> t == defaultValue
  {
    match GetPointerField(r, index)
    case TextPointer(s) => s
    case _ => defaultValue
  }

  /**
   * `PointerReader::get_list(expected, null)`: a null pointer is the empty
   * list and a malformed one is an error. The element-size upgrading that
   * `expected` drives in the layout is not modelled, so `expected` has no
   * effect on the result.
   */
  function GetList(p: Pointer, expected: ElementSize.Reader): (l: Result<ListReader, Error>)
    ensures p.Null? ==> l == Ok(EMPTY_LIST)
    ensures p.ListPointer? ==> l == Ok(p.list)
    ensures p.Invalid? ==> l == Err(p.error)
    ensures (p.StructPointer? || p.TextPointer?) ==> l == Err(MalformedPointer)
  {
    match p
    case Null => Ok(EMPTY_LIST)
    case ListPointer(list) => Ok(list)
    case Invalid(e) => Err(e)
    case _ => Err(MalformedPointer)
  }

  /** `get_list_field(index, expected, None)`: a missing or unreadable list reads as the empty list. */
  function GetListField(r: StructReader, index: nat, expected: ElementSize.Reader): (l: ListReader)
    ensures |r.pointers| <= index ==> l == EMPTY_LIST
    ensures GetPointerField(r, index).ListPointer? ==> l == GetPointerField(r, index).list
    ensures !GetPointerField(r, index).ListPointer? ==> l == EMPTY_LIST
  {
    match GetList(GetPointerField(r, index), expected)
    case Ok(list) => list
    case Err(_) => EMPTY_LIST
  }

  // ---------------------------------------------------------------------------
  // Building

  /** A freshly allocated struct of the declared size: every bit clear, every pointer null. */
  function ZeroStruct(size: StructSize): (s: StructBuilder)
    ensures |s.data| == size.data * WORD_BITS && |s.pointers| == size.pointers
  {
    StructBuilder(seq(size.data * WORD_BITS, _ => false), seq(size.pointers, _ => Null))
  }

  /** Every field of a freshly allocated struct reads as its default, and every pointer as null. */
  lemma ZeroStructReadsDefault(size: StructSize, f: DataField, mask: nat, index: nat)
    requires mask < Pow2(f.Width())
    ensures GetDataFieldMask(ZeroStruct(size).AsReader(), f, mask) == mask
    ensures GetPointerField(ZeroStruct(size).AsReader(), index).Null?
  {
    ClearFieldReadsDefault(ZeroStruct(size).AsReader(), f, mask);
  }

  /**
   * `init_struct_list(size, element_size)`: the model assumes the layout
   * allocates `size` fresh elements of the declared size.
   */
  function InitStructList(p: PointerBuilder, size: nat, elementSize: StructSize): (l: ListBuilder)
    ensures l.Len() == size
    ensures forall i :: 0 <= i < size ==> l.elements[i] == ZeroStruct(elementSize)
  {
    ListBuilder(seq(size, _ => ZeroStruct(elementSize)))
  }

  function Pad<T>(s: seq<T>, n: nat, filler: T): (r: seq<T>)
    ensures |s| <= n ==> |r| == n
    ensures |r| >= n && |r| >= |s|
    ensures n < |s| ==> r == s
    ensures forall i :: 0 <= i < |s| ==> r[i] == s[i]
    ensures forall i :: |s| <= i < |r| ==> r[i] == filler
  {
    if |s| < n then s + seq(n - |s|, _ => filler) else s
  }

  /** A stored element widened to the declared size, as the layout's list upgrade on write does. */
  function Widen(s: StructReader, size: StructSize): (b: StructBuilder)
    ensures |b.data| >= size.data * WORD_BITS && |b.pointers| >= size.pointers
  {
    StructBuilder(Pad(s.data, size.data * WORD_BITS, false), Pad(s.pointers, size.pointers, Null))
  }

  /** Widening loses no stored field and no stored pointer. */
  lemma WidenPreservesFields(s: StructReader, size: StructSize, f: DataField, mask: nat, index: nat)
    requires mask < Pow2(f.Width())
    ensures GetDataFieldMask(Widen(s, size).AsReader(), f, mask) == GetDataFieldMask(s, f, mask)
    ensures GetPointerField(Widen(s, size).AsReader(), index) == GetPointerField(s, index)
  {
    ReadDependsOnlyOnOwnBits(Widen(s, size).AsReader(), s, f, mask);
  }

  /**
   * `get_struct_list(element_size, null)` on a builder: a null pointer is the
   * empty list, a stored list is widened element by element to the declared
   * size, and a malformed pointer is an error.
   */
  function GetStructList(p: PointerBuilder, elementSize: StructSize): (l: Result<ListBuilder, Error>)
    ensures p.target.Null? ==> l == Ok(ListBuilder([]))
    ensures p.target.ListPointer? ==> l.Ok? && l.value.Len() == p.target.list.Len()
    ensures p.target.Invalid? ==> l == Err(p.target.error)
    ensures (p.target.StructPointer? || p.target.TextPointer?) ==> l == Err(MalformedPointer)
    ensures p.target.ListPointer? ==> forall i :: 0 <= i < l.value.Len() ==>
              |l.value.elements[i].data| >= elementSize.data * WORD_BITS && |l.value.elements[i].pointers| >= elementSize.pointers
  {
    match p.target
    case Null => Ok(ListBuilder([]))
    case ListPointer(list) =>
      Ok(ListBuilder(seq(|list.elements|, i requires 0 <= i < |list.elements| => Widen(list.elements[i], elementSize))))
    case Invalid(e) => Err(e)
    case _ => Err(MalformedPointer)
  }

  /** `set_list(&value)`: the model assumes the slot then holds exactly `value`. */
  function SetList(p: PointerBuilder, value: ListReader): (r: (PointerBuilder, Result<(), Error>))
    ensures r.0.target == ListPointer(value) && r.1.Ok?
  {
    (PointerBuilder(ListPointer(value)), Ok(()))
  }

  /** `init_struct_list_field(index, size, element_size)` on a struct builder. */
  function InitStructListField(b: StructBuilder, index: nat, size: nat, elementSize: StructSize): (l: ListBuilder)
    ensures l.Len() == size
    ensures forall i :: 0 <= i < size ==> l.elements[i] == ZeroStruct(elementSize)
  {
    InitStructList(PointerBuilder(GetPointerField(b.AsReader(), index)), size, elementSize)
  }
}
