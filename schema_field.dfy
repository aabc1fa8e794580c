/**
 * The generated accessors for the schema's `Field` struct: common fields, a
 * Slot/Group union whose discriminant is u16 slot 4, and the `ordinal` view
 * over the same struct.
 */
module Field {
  import opened Wrappers
  import Layout
  import Type
  import Value

  const STRUCT_SIZE: Layout.StructSize := Layout.StructSize(3, 4, Layout.INLINE_COMPOSITE)

  /** `get_text_field(0, "")`. */
  const NAME: nat := 0
  /** `get_data_field::<u16>(0)`. */
  const CODE_ORDER: Layout.DataField := Layout.DataField(Layout.U16, 0)
  /** `get_data_field_mask::<u16>(1, 0xffff)`. */
  const DISCRIMINANT_VALUE: Layout.DataField := Layout.DataField(Layout.U16, 1)
  const DISCRIMINANT_VALUE_DEFAULT: nat := 0xffff
  /** The Slot/Group discriminant: `get_data_field::<u16>(4)`. */
  const WHICH: Layout.DataField := Layout.DataField(Layout.U16, 4)
  /** Slot `offset`: `get_data_field::<u32>(1)`. */
  const SLOT_OFFSET: Layout.DataField := Layout.DataField(Layout.U32, 1)
  /** Slot `type`: `get_struct_field(2, None)`. */
  const SLOT_TYPE: nat := 2
  /** Slot `defaultValue`: `get_struct_field(3, None)`. */
  const SLOT_DEFAULT_VALUE: nat := 3
  /** Group `typeId`: `get_data_field::<u64>(2)`. */
  const GROUP_TYPE_ID: Layout.DataField := Layout.DataField(Layout.U64, 2)
  /** The ordinal discriminant as the generated code reads it: `get_data_field::<u16>(4)`. */
  const ORDINAL_WHICH: Layout.DataField := Layout.DataField(Layout.U16, 4)
  /** The Explicit ordinal's value: `get_data_field::<u16>(6)`. */
  const ORDINAL_EXPLICIT: Layout.DataField := Layout.DataField(Layout.U16, 6)

  /** The data fields that are meaningful when the field is a Slot, in bit order. */
  const SLOT_FIELDS: seq<Layout.DataField> := [CODE_ORDER, DISCRIMINANT_VALUE, SLOT_OFFSET, WHICH, ORDINAL_EXPLICIT]
  /** The data fields that are meaningful when the field is a Group, in bit order. */
  const GROUP_FIELDS: seq<Layout.DataField> := [CODE_ORDER, DISCRIMINANT_VALUE, WHICH, ORDINAL_EXPLICIT, GROUP_TYPE_ID]
  /** Every pointer index the Field accessors use. */
  const POINTERS: seq<nat> := [NAME, SLOT_TYPE, SLOT_DEFAULT_VALUE]

  /** `Field::Reader`. */
  datatype Reader = Reader(reader: Layout.StructReader) {

    /** `get_name()`: the text behind pointer 0, "" when it is not a text. */
    function GetName(): (s: string)
      ensures Layout.GetPointerField(reader, NAME).TextPointer? ==> s == Layout.GetPointerField(reader, NAME).text
      ensures !Layout.GetPointerField(reader, NAME).TextPointer? ==> s == ""
    {
      Layout.GetTextField(reader, NAME, "")
    }

    /** `get_code_order()`: a u16, 0 when the data section is empty. */
    function GetCodeOrder(): (v: nat)
      ensures v < Layout.Pow2(16)
      ensures CODE_ORDER.Hi() <= |reader.data| ==> v == Layout.BitsToNat(reader.data[CODE_ORDER.Lo()..CODE_ORDER.Hi()])
      ensures Layout.NatToBits(v, CODE_ORDER.Width()) == Layout.ReadBits(reader, CODE_ORDER.Lo(), CODE_ORDER.Width())
      ensures |reader.data| <= CODE_ORDER.Lo() ==> v == 0
    {
      Layout.GetDataField(reader, CODE_ORDER)
    }

    /**
     * `get_discriminant_value()`: the u16 at slot 1 XOR 0xffff, that is the
     * complement of the stored bits; an absent value reads 0xffff.
     */
    function GetDiscriminantValue(): (v: nat)
      ensures v < Layout.Pow2(16)
      ensures DISCRIMINANT_VALUE.Hi() <= |reader.data| ==>
                v == 0xffff - Layout.BitsToNat(reader.data[DISCRIMINANT_VALUE.Lo()..DISCRIMINANT_VALUE.Hi()])
      ensures Layout.NatToBits(v, DISCRIMINANT_VALUE.Width()) ==
                Layout.Xor(Layout.ReadBits(reader, DISCRIMINANT_VALUE.Lo(), DISCRIMINANT_VALUE.Width()), Layout.NatToBits(DISCRIMINANT_VALUE_DEFAULT, DISCRIMINANT_VALUE.Width()))
      ensures |reader.data| <= DISCRIMINANT_VALUE.Lo() ==> v == 0xffff
    {
      Layout.Pow2Widths();
      if DISCRIMINANT_VALUE.Hi() <= |reader.data| then
        Layout.AllOnesMaskComplements(reader, DISCRIMINANT_VALUE);
        Layout.GetDataFieldMask(reader, DISCRIMINANT_VALUE, DISCRIMINANT_VALUE_DEFAULT)
      else
        Layout.GetDataFieldMask(reader, DISCRIMINANT_VALUE, DISCRIMINANT_VALUE_DEFAULT)
    }

    /** `which()`: Slot for 0, Group for 1, None otherwise; both variants view this struct. */
    function Which(): (w: Option<Which>)
      ensures w.Some? <==> Layout.GetDataField(reader, WHICH) < 2
      ensures w.Some? ==> Discriminant(w.value) == Layout.GetDataField(reader, WHICH)
      ensures w.Some? ==> SharesStorage(w.value, reader)
    {
      FromDiscriminant(Layout.GetDataField(reader, WHICH), reader)
    }

    /** `get_ordinal()`: the ordinal group, a view of this very struct. */
    function GetOrdinal(): (o: OrdinalReader)
      ensures o.reader == reader
    {
      OrdinalReader(reader)
    }
  }

  /** `Field::Builder`: only its constructor is generated. */
  datatype Builder = Builder(builder: Layout.StructBuilder)

  /** `Field::Which`. */
  datatype Which = Slot(slot: SlotReader) | Group(group: GroupReader)

  function Discriminant(w: Which): (d: nat)
    ensures d < 2
  {
    match w
    case Slot(_) => 0
    case Group(_) => 1
  }

  predicate SharesStorage(w: Which, r: Layout.StructReader)
  {
    match w
    case Slot(s) => s.reader == r
    case Group(g) => g.reader == r
  }

  /** The `match` of `which()`, on an already-read discriminant `d`. */
  function FromDiscriminant(d: nat, r: Layout.StructReader): (w: Option<Which>)
    ensures w.Some? <==> d < 2
    ensures w.Some? ==> Discriminant(w.value) == d && SharesStorage(w.value, r)
  {
    if d == 0 then Some(Slot(SlotReader(r)))
    else if d == 1 then Some(Group(GroupReader(r)))
    else None
  }

  /** Decoding a variant's own discriminant over its own storage gives the variant back. */
  lemma FromDiscriminantRoundTrip(w: Which, r: Layout.StructReader)
    requires SharesStorage(w, r)
    ensures FromDiscriminant(Discriminant(w), r) == Some(w)
  {
  }

  /** `Field::Slot::Reader`. */
  datatype SlotReader = SlotReader(reader: Layout.StructReader) {

    /** `get_offset()`: a u32, 0 when the data section is too short to hold it. */
    function GetOffset(): (v: nat)
      ensures v < Layout.Pow2(32)
      ensures SLOT_OFFSET.Hi() <= |reader.data| ==> v == Layout.BitsToNat(reader.data[SLOT_OFFSET.Lo()..SLOT_OFFSET.Hi()])
      ensures Layout.NatToBits(v, SLOT_OFFSET.Width()) == Layout.ReadBits(reader, SLOT_OFFSET.Lo(), SLOT_OFFSET.Width())
      ensures |reader.data| <= SLOT_OFFSET.Lo() ==> v == 0
    {
      Layout.GetDataField(reader, SLOT_OFFSET)
    }

    /** `get_type()`: the struct behind pointer 2, read as a `Type`. */
    function GetType(): (t: Type.Reader)
      ensures Layout.GetPointerField(reader, SLOT_TYPE).StructPointer? ==> t.reader == Layout.GetPointerField(reader, SLOT_TYPE).target
      ensures !Layout.GetPointerField(reader, SLOT_TYPE).StructPointer? ==> t.reader == Layout.EMPTY_STRUCT
    {
      Type.Reader(Layout.GetStructField(reader, SLOT_TYPE))
    }

    /** `get_default_value()`: the struct behind pointer 3, read as a `Value`. */
    function GetDefaultValue(): (v: Value.Reader)
      ensures Layout.GetPointerField(reader, SLOT_DEFAULT_VALUE).StructPointer? ==> v.reader == Layout.GetPointerField(reader, SLOT_DEFAULT_VALUE).target
      ensures !Layout.GetPointerField(reader, SLOT_DEFAULT_VALUE).StructPointer? ==> v.reader == Layout.EMPTY_STRUCT
    {
      Value.Reader(Layout.GetStructField(reader, SLOT_DEFAULT_VALUE))
    }
  }

  /** `Field::Group::Reader`. */
  datatype GroupReader = GroupReader(reader: Layout.StructReader) {

    /** `get_type_id()`: a u64, 0 when the data section is too short to hold it. */
    function GetTypeId(): (v: nat)
      ensures v < Layout.Pow2(64)
      ensures GROUP_TYPE_ID.Hi() <= |reader.data| ==> v == Layout.BitsToNat(reader.data[GROUP_TYPE_ID.Lo()..GROUP_TYPE_ID.Hi()])
      ensures Layout.NatToBits(v, GROUP_TYPE_ID.Width()) == Layout.ReadBits(reader, GROUP_TYPE_ID.Lo(), GROUP_TYPE_ID.Width())
      ensures |reader.data| <= GROUP_TYPE_ID.Lo() ==> v == 0
    {
      Layout.GetDataField(reader, GROUP_TYPE_ID)
    }
  }

  /** `Field::Ordinal::Which`. */
  datatype OrdinalWhich = Implicit | Explicit(value: nat)

  /** `Field::Ordinal::Reader`. */
  datatype OrdinalReader = OrdinalReader(reader: Layout.StructReader) {

    /**
     * `which()`: Implicit for 0, Explicit carrying the u16 at slot 6 for 1,
     * None otherwise. The discriminant is read from u16 slot 4.
     */
    function Which(): (w: Option<OrdinalWhich>)
      ensures w.Some? <==> Layout.GetDataField(reader, ORDINAL_WHICH) < 2
      ensures w == Some(Implicit) <==> Layout.GetDataField(reader, ORDINAL_WHICH) == 0
      ensures w.Some? && w.value.Explicit? <==> Layout.GetDataField(reader, ORDINAL_WHICH) == 1
      ensures w.Some? && w.value.Explicit? ==> w.value.value == Layout.GetDataField(reader, ORDINAL_EXPLICIT)
      ensures w.Some? && w.value.Explicit? ==> w.value.value < Layout.Pow2(16)
    {
      var d := Layout.GetDataField(reader, ORDINAL_WHICH);
      if d == 0 then Some(Implicit)
      else if d == 1 then Some(Explicit(Layout.GetDataField(reader, ORDINAL_EXPLICIT)))
      else None
    }
  }

  /**
   * As generated, the ordinal's discriminant is the very slot that holds the
   * Slot/Group discriminant, so a field's ordinal is Implicit exactly when it
   * is a Slot and Explicit exactly when it is a Group.
   */
  lemma OrdinalFollowsUnionTag(f: Reader)
    ensures ORDINAL_WHICH == WHICH
    ensures f.GetOrdinal().Which().Some? <==> f.Which().Some?
    ensures f.GetOrdinal().Which() == Some(Implicit) <==> (f.Which().Some? && f.Which().value.Slot?)
    ensures (f.GetOrdinal().Which().Some? && f.GetOrdinal().Which().value.Explicit?)
        <==> (f.Which().Some? && f.Which().value.Group?)
  {
  }

  /**
   * The data fields live in a Slot, and those live in a Group, each fit the
   * three declared data words without overlapping; every pointer index is
   * below the four declared pointers.
   */
  lemma LayoutFits()
    ensures Layout.AllFitIn(SLOT_FIELDS, STRUCT_SIZE.data) && Layout.PairwiseDisjoint(SLOT_FIELDS)
    ensures Layout.AllFitIn(GROUP_FIELDS, STRUCT_SIZE.data) && Layout.PairwiseDisjoint(GROUP_FIELDS)
    ensures Layout.AllBelow(POINTERS, STRUCT_SIZE.pointers)
  {
    // codeOrder [0,16), discriminantValue [16,32), offset [32,64), which [64,80), explicit [96,112)
    assert Layout.Ascending([Layout.DataField(Layout.U16, 0), Layout.DataField(Layout.U16, 1), Layout.DataField(Layout.U32, 1),
                             Layout.DataField(Layout.U16, 4), Layout.DataField(Layout.U16, 6)]);
    Layout.AscendingLayout(SLOT_FIELDS, STRUCT_SIZE.data);
    // codeOrder [0,16), discriminantValue [16,32), which [64,80), explicit [96,112), typeId [128,192)
    assert Layout.Ascending([Layout.DataField(Layout.U16, 0), Layout.DataField(Layout.U16, 1), Layout.DataField(Layout.U16, 4),
                             Layout.DataField(Layout.U16, 6), Layout.DataField(Layout.U64, 2)]);
    Layout.AscendingLayout(GROUP_FIELDS, STRUCT_SIZE.data);
  }

  /**
   * Two views of a Slot field that differ only in the bits of one live field
   * agree on every other live field.
   */
  lemma SlotFieldsIndependent(a: Layout.StructReader, b: Layout.StructReader, k: nat, j: nat)
    requires k < |SLOT_FIELDS| && j < |SLOT_FIELDS| && j != k
    requires forall i: nat :: !(SLOT_FIELDS[k].Lo() <= i < SLOT_FIELDS[k].Hi()) ==> Layout.DataBit(a, i) == Layout.DataBit(b, i)
    ensures Layout.GetDataField(a, SLOT_FIELDS[j]) == Layout.GetDataField(b, SLOT_FIELDS[j])
  {
    LayoutFits();
    Layout.DisjointFieldsIndependent(a, b, SLOT_FIELDS, k, j, 0);
  }

  /**
   * Two views of a Group field that differ only in the bits of one live field
   * agree on every other live field.
   */
  lemma GroupFieldsIndependent(a: Layout.StructReader, b: Layout.StructReader, k: nat, j: nat)
    requires k < |GROUP_FIELDS| && j < |GROUP_FIELDS| && j != k
    requires forall i: nat :: !(GROUP_FIELDS[k].Lo() <= i < GROUP_FIELDS[k].Hi()) ==> Layout.DataBit(a, i) == Layout.DataBit(b, i)
    ensures Layout.GetDataField(a, GROUP_FIELDS[j]) == Layout.GetDataField(b, GROUP_FIELDS[j])
  {
    LayoutFits();
    Layout.DisjointFieldsIndependent(a, b, GROUP_FIELDS, k, j, 0);
  }
}

/** The generated accessors for the schema's `Enumerant` struct. */
module Enumerant {
  import Layout
  import StructList
  import Annotation

  const STRUCT_SIZE: Layout.StructSize := Layout.StructSize(1, 2, Layout.INLINE_COMPOSITE)

  /** `get_text_field(0, "")`. */
  const NAME: nat := 0
  /** `get_data_field::<u16>(0)`. */
  const CODE_ORDER: Layout.DataField := Layout.DataField(Layout.U16, 0)
  /** `get_list_field(1, Annotation::STRUCT_SIZE.preferred_list_encoding, None)`. */
  const ANNOTATIONS: nat := 1

  /** `Enumerant::Reader`. */
  datatype Reader = Reader(reader: Layout.StructReader) {

    /** `get_name()`: the text behind pointer 0, "" when it is not a text. */
    function GetName(): (s: string)
      ensures Layout.GetPointerField(reader, NAME).TextPointer? ==> s == Layout.GetPointerField(reader, NAME).text
      ensures !Layout.GetPointerField(reader, NAME).TextPointer? ==> s == ""
    {
      Layout.GetTextField(reader, NAME, "")
    }

    /** `get_code_order()`: a u16, 0 when the data section is empty. */
    function GetCodeOrder(): (v: nat)
      ensures v < Layout.Pow2(16)
      ensures CODE_ORDER.Hi() <= |reader.data| ==> v == Layout.BitsToNat(reader.data[CODE_ORDER.Lo()..CODE_ORDER.Hi()])
      ensures Layout.NatToBits(v, CODE_ORDER.Width()) == Layout.ReadBits(reader, CODE_ORDER.Lo(), CODE_ORDER.Width())
      ensures |reader.data| <= CODE_ORDER.Lo() ==> v == 0
    {
      Layout.GetDataField(reader, CODE_ORDER)
    }

    /** `get_annotations()`: the list behind pointer 1, viewed as annotations; empty when it is not a list. */
    function GetAnnotations(): (l: StructList.Reader<Annotation.Reader>)
      ensures Layout.GetPointerField(reader, ANNOTATIONS).ListPointer? ==> l.reader == Layout.GetPointerField(reader, ANNOTATIONS).list
      ensures !Layout.GetPointerField(reader, ANNOTATIONS).ListPointer? ==> l.Len() == 0
    {
      StructList.Reader(Layout.GetListField(reader, ANNOTATIONS, Annotation.STRUCT_SIZE.preferredListEncoding))
    }
  }

  /** `Enumerant::Builder`: only its constructor is generated. */
  datatype Builder = Builder(builder: Layout.StructBuilder)

  /** The code order fits the one declared data word; both pointers are below the two declared. */
  lemma LayoutFits()
    ensures Layout.AllFitIn([CODE_ORDER], STRUCT_SIZE.data)
    ensures Layout.AllBelow([NAME, ANNOTATIONS], STRUCT_SIZE.pointers)
  {
  }
}
