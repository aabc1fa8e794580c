/**
 * The generated accessors for the schema's `Type` struct: a union whose u16
 * discriminant (data slot 0) selects one of nineteen variants, four of which
 * carry a view of the same struct.
 */
module Type {
  import opened Wrappers
  import Layout

  /** The union discriminant: `get_data_field::<u16>(0)`. */
  const WHICH: Layout.DataField := Layout.DataField(Layout.U16, 0)
  /** `typeId` of the Enum, Struct and Interface variants: `get_data_field::<u64>(1)`. */
  const TYPE_ID: Layout.DataField := Layout.DataField(Layout.U64, 1)
  /** `elementType` of the List variant: pointer 0. */
  const ELEMENT_TYPE: nat := 0

  /** `Type::Reader`. */
  datatype Reader = Reader(reader: Layout.StructReader) {

    /**
     * `which()`: the variant named by the stored discriminant, viewing this
     * very struct; None for a discriminant this schema does not know.
     */
    function Which(): (w: Option<Which>)
      ensures w.Some? <==> Layout.GetDataField(reader, WHICH) < 19
      ensures w.Some? ==> Discriminant(w.value) == Layout.GetDataField(reader, WHICH)
      ensures w.Some? ==> SharesStorage(w.value, reader)
    {
      FromDiscriminant(Layout.GetDataField(reader, WHICH), reader)
    }
  }

  /** `Type::Builder`: only its constructor is generated. */
  datatype Builder = Builder(builder: Layout.StructBuilder)

  /** `Type::Which`, in declaration order. */
  datatype Which =
    | Void
    | Bool
    | Int8
    | Int16
    | Int32
    | Int64
    | Uint8
    | Uint16
    | Uint32
    | Uint64
    | Float32
    | Float64
    | Text
    | Data
    | List(list: ListReader)
    | Enum(enumType: EnumReader)
    | Struct(structType: StructReader)
    | Interface(interfaceType: InterfaceReader)
    | AnyPointer

  /** The discriminant each variant is declared with: its position in the declaration. */
  function Discriminant(w: Which): (d: nat)
    ensures d < 19
  {
    match w
    case Void => 0
    case Bool => 1
    case Int8 => 2
    case Int16 => 3
    case Int32 => 4
    case Int64 => 5
    case Uint8 => 6
    case Uint16 => 7
    case Uint32 => 8
    case Uint64 => 9
    case Float32 => 10
    case Float64 => 11
    case Text => 12
    case Data => 13
    case List(_) => 14
    case Enum(_) => 15
    case Struct(_) => 16
    case Interface(_) => 17
    case AnyPointer => 18
  }

  /** A variant that carries a view carries a view of `r` itself. */
  predicate SharesStorage(w: Which, r: Layout.StructReader)
  {
    match w
    case List(l) => l.reader == r
    case Enum(e) => e.reader == r
    case Struct(s) => s.reader == r
    case Interface(i) => i.reader == r
    case _ => true
  }

  /** The `match` of `which()`, on an already-read discriminant `d`. */
  function FromDiscriminant(d: nat, r: Layout.StructReader): (w: Option<Which>)
    ensures w.Some? <==> d < 19
    ensures w.Some? ==> Discriminant(w.value) == d && SharesStorage(w.value, r)
  {
    if d == 0 then Some(Void)
    else if d == 1 then Some(Bool)
    else if d == 2 then Some(Int8)
    else if d == 3 then Some(Int16)
    else if d == 4 then Some(Int32)
    else if d == 5 then Some(Int64)
    else if d == 6 then Some(Uint8)
    else if d == 7 then Some(Uint16)
    else if d == 8 then Some(Uint32)
    else if d == 9 then Some(Uint64)
    else if d == 10 then Some(Float32)
    else if d == 11 then Some(Float64)
    else if d == 12 then Some(Text)
    else if d == 13 then Some(Data)
    else if d == 14 then Some(List(ListReader(r)))
    else if d == 15 then Some(Enum(EnumReader(r)))
    else if d == 16 then Some(Struct(StructReader(r)))
    else if d == 17 then Some(Interface(InterfaceReader(r)))
    else if d == 18 then Some(AnyPointer)
    else None
  }

  /** Decoding a variant's own discriminant over its own storage gives the variant back. */
  lemma FromDiscriminantRoundTrip(w: Which, r: Layout.StructReader)
    requires SharesStorage(w, r)
    ensures FromDiscriminant(Discriminant(w), r) == Some(w)
  {
  }

  /** The discriminant and the type id of the variants occupy disjoint bits. */
  lemma FieldsDisjoint()
    ensures Layout.PairwiseDisjoint([WHICH, TYPE_ID])
  {
  }

  /** `Type::List_::Reader`. */
  datatype ListReader = ListReader(reader: Layout.StructReader) {
    /** `get_element_type()`: the struct behind pointer 0, read as a `Type`. */
    function GetElementType(): (t: Reader)
      ensures Layout.GetPointerField(reader, ELEMENT_TYPE).StructPointer? ==> t.reader == Layout.GetPointerField(reader, ELEMENT_TYPE).target
      ensures !Layout.GetPointerField(reader, ELEMENT_TYPE).StructPointer? ==> t.reader == Layout.EMPTY_STRUCT
    {
      Reader(Layout.GetStructField(reader, ELEMENT_TYPE))
    }
  }

  /** `Type::Enum::Reader`. */
  datatype EnumReader = EnumReader(reader: Layout.StructReader) {
    /** `get_type_id()`: a u64, 0 when the data section is too short to hold it. */
    function GetTypeId(): (v: nat)
      ensures v < Layout.Pow2(64)
      ensures TYPE_ID.Hi() <= |reader.data| ==> v == Layout.BitsToNat(reader.data[TYPE_ID.Lo()..TYPE_ID.Hi()])
      ensures Layout.NatToBits(v, TYPE_ID.Width()) == Layout.ReadBits(reader, TYPE_ID.Lo(), TYPE_ID.Width())
      ensures |reader.data| <= TYPE_ID.Lo() ==> v == 0
    {
      Layout.GetDataField(reader, TYPE_ID)
    }
  }

  /** `Type::Struct::Reader`. */
  datatype StructReader = StructReader(reader: Layout.StructReader) {
    /** `get_type_id()`: a u64, 0 when the data section is too short to hold it. */
    function GetTypeId(): (v: nat)
      ensures v < Layout.Pow2(64)
      ensures TYPE_ID.Hi() <= |reader.data| ==> v == Layout.BitsToNat(reader.data[TYPE_ID.Lo()..TYPE_ID.Hi()])
      ensures Layout.NatToBits(v, TYPE_ID.Width()) == Layout.ReadBits(reader, TYPE_ID.Lo(), TYPE_ID.Width())
      ensures |reader.data| <= TYPE_ID.Lo() ==> v == 0
    {
      Layout.GetDataField(reader, TYPE_ID)
    }
  }

  /** `Type::Interface::Reader`. */
  datatype InterfaceReader = InterfaceReader(reader: Layout.StructReader) {
    /** `get_type_id()`: a u64, 0 when the data section is too short to hold it. */
    function GetTypeId(): (v: nat)
      ensures v < Layout.Pow2(64)
      ensures TYPE_ID.Hi() <= |reader.data| ==> v == Layout.BitsToNat(reader.data[TYPE_ID.Lo()..TYPE_ID.Hi()])
      ensures Layout.NatToBits(v, TYPE_ID.Width()) == Layout.ReadBits(reader, TYPE_ID.Lo(), TYPE_ID.Width())
      ensures |reader.data| <= TYPE_ID.Lo() ==> v == 0
    {
      Layout.GetDataField(reader, TYPE_ID)
    }
  }
}

/** The generated `Value` struct: only its reader is generated, with no accessors. */
module Value {
  import Layout

  /** `Value::Reader`. */
  datatype Reader = Reader(reader: Layout.StructReader)

  /** `Value::Builder`: only its constructor is generated. */
  datatype Builder = Builder(builder: Layout.StructBuilder)
}

/** The generated `Method` struct: a reader and a builder with no accessors. */
module Method {
  import Layout

  /** `Method::Reader`. */
  datatype Reader = Reader(reader: Layout.StructReader)

  /** `Method::Builder`. */
  datatype Builder = Builder(builder: Layout.StructBuilder)
}

/** The generated accessors for the top-level `Annotation` struct (an annotation application). */
module Annotation {
  import Layout
  import Value

  const STRUCT_SIZE: Layout.StructSize := Layout.StructSize(1, 1, Layout.INLINE_COMPOSITE)

  /** `get_data_field::<u64>(0)`. */
  const ID: Layout.DataField := Layout.DataField(Layout.U64, 0)
  /** `get_struct_field(0, None)`. */
  const VALUE: nat := 0

  /** `Annotation::Reader`. */
  datatype Reader = Reader(reader: Layout.StructReader) {
    /** `get_id()`: a u64, 0 when the data section is empty. */
    function GetId(): (v: nat)
      ensures v < Layout.Pow2(64)
      ensures ID.Hi() <= |reader.data| ==> v == Layout.BitsToNat(reader.data[ID.Lo()..ID.Hi()])
      ensures Layout.NatToBits(v, ID.Width()) == Layout.ReadBits(reader, ID.Lo(), ID.Width())
      ensures |reader.data| <= ID.Lo() ==> v == 0
    {
      Layout.GetDataField(reader, ID)
    }

    /** `get_value()`: the struct behind pointer 0, read as a `Value`. */
    function GetValue(): (v: Value.Reader)
      ensures Layout.GetPointerField(reader, VALUE).StructPointer? ==> v.reader == Layout.GetPointerField(reader, VALUE).target
      ensures !Layout.GetPointerField(reader, VALUE).StructPointer? ==> v.reader == Layout.EMPTY_STRUCT
    {
      Value.Reader(Layout.GetStructField(reader, VALUE))
    }
  }

  /** `Annotation::Builder`: only its constructor is generated. */
  datatype Builder = Builder(builder: Layout.StructBuilder)

  /** The id fits the one declared data word, and the value pointer is below the one declared pointer. */
  lemma LayoutFits()
    ensures Layout.AllFitIn([ID], STRUCT_SIZE.data)
    ensures Layout.AllBelow([VALUE], STRUCT_SIZE.pointers)
  {
  }
}
