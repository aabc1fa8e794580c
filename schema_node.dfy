/**
 * The generated accessors for the schema's `Node` struct: the fields every
 * node has, a six-way union whose u16 discriminant is data slot 6, and one
 * view per union variant over the same struct. `Node::NestedNode` is a struct
 * of its own, reached through the `nestedNodes` list.
 */
module Node {
  import opened Wrappers
  import Layout
  import ElementSize
  import StructList
  import Field
  import Enumerant
  import Type
  import Value

  const STRUCT_SIZE: Layout.StructSize := Layout.StructSize(5, 5, Layout.INLINE_COMPOSITE)

  /** `get_data_field::<u64>(0)`. */
  const ID: Layout.DataField := Layout.DataField(Layout.U64, 0)
  /** `get_text_field(0, "")`. */
  const DISPLAY_NAME: nat := 0
  /** `get_data_field::<u32>(2)`. */
  const DISPLAY_NAME_PREFIX_LENGTH: Layout.DataField := Layout.DataField(Layout.U32, 2)
  /** `get_data_field::<u64>(2)`. */
  const SCOPE_ID: Layout.DataField := Layout.DataField(Layout.U64, 2)
  /** `get_list_field(1, INLINE_COMPOSITE, None)`. */
  const NESTED_NODES: nat := 1
  /** The union discriminant: `get_data_field::<u16>(6)`. */
  const WHICH: Layout.DataField := Layout.DataField(Layout.U16, 6)

  /** Struct variant: `dataWordCount`, u16 slot 7. */
  const DATA_WORD_COUNT: Layout.DataField := Layout.DataField(Layout.U16, 7)
  /** Struct variant: `pointerCount`, u16 slot 12. */
  const POINTER_COUNT: Layout.DataField := Layout.DataField(Layout.U16, 12)
  /** Struct variant: `preferredListEncoding`, u16 slot 13. */
  const PREFERRED_LIST_ENCODING: Layout.DataField := Layout.DataField(Layout.U16, 13)
  /** Struct variant: `isGroup`, bit 224. */
  const IS_GROUP: Layout.DataField := Layout.DataField(Layout.Bool, 224)
  /** Struct variant: `discriminantCount`, u16 slot 15. */
  const DISCRIMINANT_COUNT: Layout.DataField := Layout.DataField(Layout.U16, 15)
  /** Struct variant: `discriminantOffset`, u32 slot 8. */
  const DISCRIMINANT_OFFSET: Layout.DataField := Layout.DataField(Layout.U32, 8)
  /** Struct variant `fields`, Enum variant `enumerants`, Const and Annotation variant `type`: pointer 3. */
  const VARIANT_POINTER: nat := 3
  /** Const variant: `value`, pointer 4. */
  const CONST_VALUE: nat := 4

  /** Annotation variant: the twelve `targets*` flags occupy bits 112 to 123. */
  const TARGETS_FILE: Layout.DataField := Layout.DataField(Layout.Bool, 112)
  const TARGETS_CONST: Layout.DataField := Layout.DataField(Layout.Bool, 113)
  const TARGETS_ENUM: Layout.DataField := Layout.DataField(Layout.Bool, 114)
  const TARGETS_ENUMERANT: Layout.DataField := Layout.DataField(Layout.Bool, 115)
  const TARGETS_STRUCT: Layout.DataField := Layout.DataField(Layout.Bool, 116)
  const TARGETS_FIELD: Layout.DataField := Layout.DataField(Layout.Bool, 117)
  const TARGETS_UNION: Layout.DataField := Layout.DataField(Layout.Bool, 118)
  const TARGETS_GROUP: Layout.DataField := Layout.DataField(Layout.Bool, 119)
  const TARGETS_INTERFACE: Layout.DataField := Layout.DataField(Layout.Bool, 120)
  const TARGETS_METHOD: Layout.DataField := Layout.DataField(Layout.Bool, 121)
  const TARGETS_PARAM: Layout.DataField := Layout.DataField(Layout.Bool, 122)
  const TARGETS_ANNOTATION: Layout.DataField := Layout.DataField(Layout.Bool, 123)

  /** NestedNode: `name`, pointer 0, and `id`, u64 slot 0. */
  const NESTED_NAME: nat := 0
  const NESTED_ID: Layout.DataField := Layout.DataField(Layout.U64, 0)

  /** The data fields that are meaningful when the node is a Struct, in bit order. */
  const STRUCT_NODE_FIELDS: seq<Layout.DataField> :=
    [ID, DISPLAY_NAME_PREFIX_LENGTH, WHICH, DATA_WORD_COUNT, SCOPE_ID, POINTER_COUNT,
     PREFERRED_LIST_ENCODING, IS_GROUP, DISCRIMINANT_COUNT, DISCRIMINANT_OFFSET]
  /** The data fields that are meaningful when the node is an Annotation, in bit order. */
  const ANNOTATION_NODE_FIELDS: seq<Layout.DataField> :=
    [ID, DISPLAY_NAME_PREFIX_LENGTH, WHICH,
     TARGETS_FILE, TARGETS_CONST, TARGETS_ENUM, TARGETS_ENUMERANT, TARGETS_STRUCT, TARGETS_FIELD,
     TARGETS_UNION, TARGETS_GROUP, TARGETS_INTERFACE, TARGETS_METHOD, TARGETS_PARAM, TARGETS_ANNOTATION,
     SCOPE_ID]
  /** Every pointer index the Node accessors use. */
  const POINTERS: seq<nat> := [DISPLAY_NAME, NESTED_NODES, VARIANT_POINTER, CONST_VALUE]

  /** `Node::Reader`. */
  datatype Reader = Reader(reader: Layout.StructReader) {

    /** `get_id()`: a u64, 0 when the data section is empty. */
    function GetId(): (v: nat)
      ensures v < Layout.Pow2(64)
      ensures ID.Hi() <= |reader.data| ==> v == Layout.BitsToNat(reader.data[ID.Lo()..ID.Hi()])
      ensures Layout.NatToBits(v, ID.Width()) == Layout.ReadBits(reader, ID.Lo(), ID.Width())
      ensures |reader.data| <= ID.Lo() ==> v == 0
    {
      Layout.GetDataField(reader, ID)
    }

    /** `get_display_name()`: the text behind pointer 0, "" when it is not a text. */
    function GetDisplayName(): (s: string)
      ensures Layout.GetPointerField(reader, DISPLAY_NAME).TextPointer? ==> s == Layout.GetPointerField(reader, DISPLAY_NAME).text
      ensures !Layout.GetPointerField(reader, DISPLAY_NAME).TextPointer? ==> s == ""
    {
      Layout.GetTextField(reader, DISPLAY_NAME, "")
    }

    /** `get_display_name_prefix_length()`: a u32, 0 when the data section is too short to hold it. */
    function GetDisplayNamePrefixLength(): (v: nat)
      ensures v < Layout.Pow2(32)
      ensures DISPLAY_NAME_PREFIX_LENGTH.Hi() <= |reader.data| ==> v == Layout.BitsToNat(reader.data[DISPLAY_NAME_PREFIX_LENGTH.Lo()..DISPLAY_NAME_PREFIX_LENGTH.Hi()])
      ensures Layout.NatToBits(v, DISPLAY_NAME_PREFIX_LENGTH.Width()) == Layout.ReadBits(reader, DISPLAY_NAME_PREFIX_LENGTH.Lo(), DISPLAY_NAME_PREFIX_LENGTH.Width())
      ensures |reader.data| <= DISPLAY_NAME_PREFIX_LENGTH.Lo() ==> v == 0
    {
      Layout.GetDataField(reader, DISPLAY_NAME_PREFIX_LENGTH)
    }

    /** `get_scope_id()`: a u64, 0 when the data section is too short to hold it. */
    function GetScopeId(): (v: nat)
      ensures v < Layout.Pow2(64)
      ensures SCOPE_ID.Hi() <= |reader.data| ==> v == Layout.BitsToNat(reader.data[SCOPE_ID.Lo()..SCOPE_ID.Hi()])
      ensures Layout.NatToBits(v, SCOPE_ID.Width()) == Layout.ReadBits(reader, SCOPE_ID.Lo(), SCOPE_ID.Width())
      ensures |reader.data| <= SCOPE_ID.Lo() ==> v == 0
    {
      Layout.GetDataField(reader, SCOPE_ID)
    }

    /** `get_nested_nodes()`: the list behind pointer 1, viewed as nested nodes; empty when it is not a list. */
    function GetNestedNodes(): (l: StructList.Reader<NestedNodeReader>)
      ensures Layout.GetPointerField(reader, NESTED_NODES).ListPointer? ==> l.reader == Layout.GetPointerField(reader, NESTED_NODES).list
      ensures !Layout.GetPointerField(reader, NESTED_NODES).ListPointer? ==> l.Len() == 0
    {
      StructList.Reader(Layout.GetListField(reader, NESTED_NODES, Layout.INLINE_COMPOSITE))
    }

    /**
     * `which()`: the variant named by the u16 at slot 6, viewing this very
     * struct; None for a discriminant this schema does not know.
     */
    function Which(): (w: Option<Which>)
      ensures w.Some? <==> Layout.GetDataField(reader, WHICH) < 6
      ensures w.Some? ==> Discriminant(w.value) == Layout.GetDataField(reader, WHICH)
      ensures w.Some? ==> SharesStorage(w.value, reader)
    {
      FromDiscriminant(Layout.GetDataField(reader, WHICH), reader)
    }
  }

  /** `Node::Builder`: only its constructor is generated. */
  datatype Builder = Builder(builder: Layout.StructBuilder)

  /** `Node::Which`, in declaration order. */
  datatype Which =
    | File
    | Struct(structNode: StructReader)
    | Enum(enumNode: EnumReader)
    | Interface(interfaceNode: InterfaceReader)
    | Const(constNode: ConstReader)
    | Annotation(annotationNode: AnnotationReader)

  /** The discriminant each variant is declared with. */
  function Discriminant(w: Which): (d: nat)
    ensures d < 6
  {
    match w
    case File => 0
    case Struct(_) => 1
    case Enum(_) => 2
    case Interface(_) => 3
    case Const(_) => 4
    case Annotation(_) => 5
  }

  /** A variant that carries a view carries a view of `r` itself. */
  predicate SharesStorage(w: Which, r: Layout.StructReader)
  {
    match w
    case File => true
    case Struct(s) => s.reader == r
    case Enum(e) => e.reader == r
    case Interface(i) => i.reader == r
    case Const(c) => c.reader == r
    case Annotation(a) => a.reader == r
  }

  /** The `match` of `which()`, on an already-read discriminant `d`. */
  function FromDiscriminant(d: nat, r: Layout.StructReader): (w: Option<Which>)
    ensures w.Some? <==> d < 6
    ensures w.Some? ==> Discriminant(w.value) == d && SharesStorage(w.value, r)
  {
    if d == 0 then Some(File)
    else if d == 1 then Some(Struct(StructReader(r)))
    else if d == 2 then Some(Enum(EnumReader(r)))
    else if d == 3 then Some(Interface(InterfaceReader(r)))
    else if d == 4 then Some(Const(ConstReader(r)))
    else if d == 5 then Some(Annotation(AnnotationReader(r)))
    else None
  }

  /** Decoding a variant's own discriminant over its own storage gives the variant back. */
  lemma FromDiscriminantRoundTrip(w: Which, r: Layout.StructReader)
    requires SharesStorage(w, r)
    ensures FromDiscriminant(Discriminant(w), r) == Some(w)
  {
  }

  /** `Node::Struct::Reader`. */
  datatype StructReader = StructReader(reader: Layout.StructReader) {

    /** `get_data_word_count()`: a u16 at slot 7. */
    function GetDataWordCount(): (v: nat)
      ensures v < Layout.Pow2(16)
      ensures DATA_WORD_COUNT.Hi() <= |reader.data| ==> v == Layout.BitsToNat(reader.data[DATA_WORD_COUNT.Lo()..DATA_WORD_COUNT.Hi()])
      ensures Layout.NatToBits(v, DATA_WORD_COUNT.Width()) == Layout.ReadBits(reader, DATA_WORD_COUNT.Lo(), DATA_WORD_COUNT.Width())
      ensures |reader.data| <= DATA_WORD_COUNT.Lo() ==> v == 0
    {
      Layout.GetDataField(reader, DATA_WORD_COUNT)
    }

    /** `get_pointer_count()`: a u16 at slot 12. */
    function GetPointerCount(): (v: nat)
      ensures v < Layout.Pow2(16)
      ensures POINTER_COUNT.Hi() <= |reader.data| ==> v == Layout.BitsToNat(reader.data[POINTER_COUNT.Lo()..POINTER_COUNT.Hi()])
      ensures Layout.NatToBits(v, POINTER_COUNT.Width()) == Layout.ReadBits(reader, POINTER_COUNT.Lo(), POINTER_COUNT.Width())
      ensures |reader.data| <= POINTER_COUNT.Lo() ==> v == 0
    {
      Layout.GetDataField(reader, POINTER_COUNT)
    }

    /**
     * `get_preferred_list_encoding()`: the u16 at slot 13 converted to an
     * element size, None when it names none of the eight.
     */
    function GetPreferredListEncoding(): (e: Option<ElementSize.Reader>)
      ensures e.Some? <==> Layout.GetDataField(reader, PREFERRED_LIST_ENCODING) < 8
      ensures e.Some? ==> ElementSize.ToU16(e.value) == Layout.GetDataField(reader, PREFERRED_LIST_ENCODING)
      ensures |reader.data| <= PREFERRED_LIST_ENCODING.Lo() ==> e == Some(ElementSize.Empty)
    {
      ElementSize.FromU16(Layout.GetDataField(reader, PREFERRED_LIST_ENCODING))
    }

    /** `get_is_group()`: bit 224, false when the data section is too short to hold it. */
    function GetIsGroup(): (b: bool)
      ensures b <==> Layout.GetDataField(reader, IS_GROUP) == 1
      ensures |reader.data| <= IS_GROUP.slot ==> !b
    {
      Layout.GetBoolField(reader, IS_GROUP)
    }

    /** `get_discriminant_count()`: a u16 at slot 15. */
    function GetDiscriminantCount(): (v: nat)
      ensures v < Layout.Pow2(16)
      ensures DISCRIMINANT_COUNT.Hi() <= |reader.data| ==> v == Layout.BitsToNat(reader.data[DISCRIMINANT_COUNT.Lo()..DISCRIMINANT_COUNT.Hi()])
      ensures Layout.NatToBits(v, DISCRIMINANT_COUNT.Width()) == Layout.ReadBits(reader, DISCRIMINANT_COUNT.Lo(), DISCRIMINANT_COUNT.Width())
      ensures |reader.data| <= DISCRIMINANT_COUNT.Lo() ==> v == 0
    {
      Layout.GetDataField(reader, DISCRIMINANT_COUNT)
    }

    /** `get_discriminant_offset()`: a u32 at slot 8. */
    function GetDiscriminantOffset(): (v: nat)
      ensures v < Layout.Pow2(32)
      ensures DISCRIMINANT_OFFSET.Hi() <= |reader.data| ==> v == Layout.BitsToNat(reader.data[DISCRIMINANT_OFFSET.Lo()..DISCRIMINANT_OFFSET.Hi()])
      ensures Layout.NatToBits(v, DISCRIMINANT_OFFSET.Width()) == Layout.ReadBits(reader, DISCRIMINANT_OFFSET.Lo(), DISCRIMINANT_OFFSET.Width())
      ensures |reader.data| <= DISCRIMINANT_OFFSET.Lo() ==> v == 0
    {
      Layout.GetDataField(reader, DISCRIMINANT_OFFSET)
    }

    /** `get_fields()`: the list behind pointer 3, viewed as fields; empty when it is not a list. */
    function GetFields(): (l: StructList.Reader<Field.Reader>)
      ensures Layout.GetPointerField(reader, VARIANT_POINTER).ListPointer? ==> l.reader == Layout.GetPointerField(reader, VARIANT_POINTER).list
      ensures !Layout.GetPointerField(reader, VARIANT_POINTER).ListPointer? ==> l.Len() == 0
    {
      StructList.Reader(Layout.GetListField(reader, VARIANT_POINTER, Layout.INLINE_COMPOSITE))
    }
  }

  /** `Node::Struct::Builder`: only its constructor is generated. */
  datatype StructBuilder = StructBuilder(builder: Layout.StructBuilder)

  /** `Node::Enum::Reader`. */
  datatype EnumReader = EnumReader(reader: Layout.StructReader) {

    /** `get_enumerants()`: the list behind pointer 3, viewed as enumerants; empty when it is not a list. */
    function GetEnumerants(): (l: StructList.Reader<Enumerant.Reader>)
      ensures Layout.GetPointerField(reader, VARIANT_POINTER).ListPointer? ==> l.reader == Layout.GetPointerField(reader, VARIANT_POINTER).list
      ensures !Layout.GetPointerField(reader, VARIANT_POINTER).ListPointer? ==> l.Len() == 0
    {
      StructList.Reader(Layout.GetListField(reader, VARIANT_POINTER, Enumerant.STRUCT_SIZE.preferredListEncoding))
    }
  }

  /** `Node::Enum::Builder`: only its constructor is generated. */
  datatype EnumBuilder = EnumBuilder(builder: Layout.StructBuilder)

  /** `Node::Interface::Reader`: no accessors are generated. */
  datatype InterfaceReader = InterfaceReader(reader: Layout.StructReader)

  /** `Node::Interface::Builder`: only its constructor is generated. */
  datatype InterfaceBuilder = InterfaceBuilder(builder: Layout.StructBuilder)

  /** `Node::Const::Reader`. */
  datatype ConstReader = ConstReader(reader: Layout.StructReader) {

    /** `get_type()`: the struct behind pointer 3, read as a `Type`. */
    function GetType(): (t: Type.Reader)
      ensures Layout.GetPointerField(reader, VARIANT_POINTER).StructPointer? ==> t.reader == Layout.GetPointerField(reader, VARIANT_POINTER).target
      ensures !Layout.GetPointerField(reader, VARIANT_POINTER).StructPointer? ==> t.reader == Layout.EMPTY_STRUCT
    {
      Type.Reader(Layout.GetStructField(reader, VARIANT_POINTER))
    }

    /** `get_value()`: the struct behind pointer 4, read as a `Value`. */
    function GetValue(): (v: Value.Reader)
      ensures Layout.GetPointerField(reader, CONST_VALUE).StructPointer? ==> v.reader == Layout.GetPointerField(reader, CONST_VALUE).target
      ensures !Layout.GetPointerField(reader, CONST_VALUE).StructPointer? ==> v.reader == Layout.EMPTY_STRUCT
    {
      Value.Reader(Layout.GetStructField(reader, CONST_VALUE))
    }
  }

  /** `Node::Const::Builder`: only its constructor is generated. */
  datatype ConstBuilder = ConstBuilder(builder: Layout.StructBuilder)

  /** `Node::Annotation::Reader`. */
  datatype AnnotationReader = AnnotationReader(reader: Layout.StructReader) {

    /** `get_type()`: the struct behind pointer 3, read as a `Type`. */
    function GetType(): (t: Type.Reader)
      ensures Layout.GetPointerField(reader, VARIANT_POINTER).StructPointer? ==> t.reader == Layout.GetPointerField(reader, VARIANT_POINTER).target
      ensures !Layout.GetPointerField(reader, VARIANT_POINTER).StructPointer? ==> t.reader == Layout.EMPTY_STRUCT
    {
      Type.Reader(Layout.GetStructField(reader, VARIANT_POINTER))
    }

    /** `get_targets_file()`: bit 112. */
    function GetTargetsFile(): (b: bool)
      ensures b <==> Layout.GetDataField(reader, TARGETS_FILE) == 1
    {
      Layout.GetBoolField(reader, TARGETS_FILE)
    }

    /** `get_targets_const()`: bit 113. */
    function GetTargetsConst(): (b: bool)
      ensures b <==> Layout.GetDataField(reader, TARGETS_CONST) == 1
    {
      Layout.GetBoolField(reader, TARGETS_CONST)
    }

    /** `get_targets_enum()`: bit 114. */
    function GetTargetsEnum(): (b: bool)
      ensures b <==> Layout.GetDataField(reader, TARGETS_ENUM) == 1
    {
      Layout.GetBoolField(reader, TARGETS_ENUM)
    }

    /** `get_targets_enumerant()`: bit 115. */
    function GetTargetsEnumerant(): (b: bool)
      ensures b <==> Layout.GetDataField(reader, TARGETS_ENUMERANT) == 1
    {
      Layout.GetBoolField(reader, TARGETS_ENUMERANT)
    }

    /** `get_targets_struct()`: bit 116. */
    function GetTargetsStruct(): (b: bool)
      ensures b <==> Layout.GetDataField(reader, TARGETS_STRUCT) == 1
    {
      Layout.GetBoolField(reader, TARGETS_STRUCT)
    }

    /** `get_targets_field()`: bit 117. */
    function GetTargetsField(): (b: bool)
      ensures b <==> Layout.GetDataField(reader, TARGETS_FIELD) == 1
    {
      Layout.GetBoolField(reader, TARGETS_FIELD)
    }

    /** `get_targets_union()`: bit 118. */
    function GetTargetsUnion(): (b: bool)
      ensures b <==> Layout.GetDataField(reader, TARGETS_UNION) == 1
    {
      Layout.GetBoolField(reader, TARGETS_UNION)
    }

    /** `get_targets_group()`: bit 119. */
    function GetTargetsGroup(): (b: bool)
      ensures b <==> Layout.GetDataField(reader, TARGETS_GROUP) == 1
    {
      Layout.GetBoolField(reader, TARGETS_GROUP)
    }

    /** `get_targets_interface()`: bit 120. */
    function GetTargetsInterface(): (b: bool)
      ensures b <==> Layout.GetDataField(reader, TARGETS_INTERFACE) == 1
    {
      Layout.GetBoolField(reader, TARGETS_INTERFACE)
    }

    /** `get_targets_method()`: bit 121. */
    function GetTargetsMethod(): (b: bool)
      ensures b <==> Layout.GetDataField(reader, TARGETS_METHOD) == 1
    {
      Layout.GetBoolField(reader, TARGETS_METHOD)
    }

    /** `get_targets_param()`: bit 122. */
    function GetTargetsParam(): (b: bool)
      ensures b <==> Layout.GetDataField(reader, TARGETS_PARAM) == 1
    {
      Layout.GetBoolField(reader, TARGETS_PARAM)
    }

    /** `get_targets_annotation()`: bit 123. */
    function GetTargetsAnnotation(): (b: bool)
      ensures b <==> Layout.GetDataField(reader, TARGETS_ANNOTATION) == 1
    {
      Layout.GetBoolField(reader, TARGETS_ANNOTATION)
    }
  }

  /** `Node::Annotation::Builder`: only its constructor is generated. */
  datatype AnnotationBuilder = AnnotationBuilder(builder: Layout.StructBuilder)

  /** `Node::NestedNode::Reader`. */
  datatype NestedNodeReader = NestedNodeReader(reader: Layout.StructReader) {

    /** `get_name()`: the text behind pointer 0, "" when it is not a text. */
    function GetName(): (s: string)
      ensures Layout.GetPointerField(reader, NESTED_NAME).TextPointer? ==> s == Layout.GetPointerField(reader, NESTED_NAME).text
      ensures !Layout.GetPointerField(reader, NESTED_NAME).TextPointer? ==> s == ""
    {
      Layout.GetTextField(reader, NESTED_NAME, "")
    }

    /** `get_id()`: a u64, 0 when the data section is empty. */
    function GetId(): (v: nat)
      ensures v < Layout.Pow2(64)
      ensures NESTED_ID.Hi() <= |reader.data| ==> v == Layout.BitsToNat(reader.data[NESTED_ID.Lo()..NESTED_ID.Hi()])
      ensures Layout.NatToBits(v, NESTED_ID.Width()) == Layout.ReadBits(reader, NESTED_ID.Lo(), NESTED_ID.Width())
      ensures |reader.data| <= NESTED_ID.Lo() ==> v == 0
    {
      Layout.GetDataField(reader, NESTED_ID)
    }
  }

  /** `Node::NestedNode::Builder`: only its constructor is generated. */
  datatype NestedNodeBuilder = NestedNodeBuilder(builder: Layout.StructBuilder)

  /** The data fields live in a Struct node fit the five declared data words without overlapping. */
  lemma StructNodeLayoutFits()
    ensures Layout.AllFitIn(STRUCT_NODE_FIELDS, STRUCT_SIZE.data) && Layout.PairwiseDisjoint(STRUCT_NODE_FIELDS)
  {
    // id [0,64), prefix length [64,96), which [96,112), data words [112,128), scope id [128,192),
    // pointers [192,208), list encoding [208,224), is group [224,225), discriminant count [240,256),
    // discriminant offset [256,288)
    assert Layout.Ascending([Layout.DataField(Layout.U64, 0), Layout.DataField(Layout.U32, 2), Layout.DataField(Layout.U16, 6),
                             Layout.DataField(Layout.U16, 7), Layout.DataField(Layout.U64, 2), Layout.DataField(Layout.U16, 12),
                             Layout.DataField(Layout.U16, 13), Layout.DataField(Layout.Bool, 224), Layout.DataField(Layout.U16, 15),
                             Layout.DataField(Layout.U32, 8)]);
    Layout.AscendingLayout(STRUCT_NODE_FIELDS, STRUCT_SIZE.data);
  }

  /** The data fields live in an Annotation node fit the five declared data words without overlapping. */
  lemma AnnotationNodeLayoutFits()
    ensures Layout.AllFitIn(ANNOTATION_NODE_FIELDS, STRUCT_SIZE.data) && Layout.PairwiseDisjoint(ANNOTATION_NODE_FIELDS)
  {
    // id [0,64), prefix length [64,96), which [96,112), targets bits 112..123, scope id [128,192)
    assert Layout.Ascending([Layout.DataField(Layout.U64, 0), Layout.DataField(Layout.U32, 2), Layout.DataField(Layout.U16, 6),
                             Layout.DataField(Layout.Bool, 112), Layout.DataField(Layout.Bool, 113), Layout.DataField(Layout.Bool, 114),
                             Layout.DataField(Layout.Bool, 115), Layout.DataField(Layout.Bool, 116), Layout.DataField(Layout.Bool, 117),
                             Layout.DataField(Layout.Bool, 118), Layout.DataField(Layout.Bool, 119), Layout.DataField(Layout.Bool, 120),
                             Layout.DataField(Layout.Bool, 121), Layout.DataField(Layout.Bool, 122), Layout.DataField(Layout.Bool, 123),
                             Layout.DataField(Layout.U64, 2)]);
    assert ANNOTATION_NODE_FIELDS == [Layout.DataField(Layout.U64, 0), Layout.DataField(Layout.U32, 2), Layout.DataField(Layout.U16, 6),
                             Layout.DataField(Layout.Bool, 112), Layout.DataField(Layout.Bool, 113), Layout.DataField(Layout.Bool, 114),
                             Layout.DataField(Layout.Bool, 115), Layout.DataField(Layout.Bool, 116), Layout.DataField(Layout.Bool, 117),
                             Layout.DataField(Layout.Bool, 118), Layout.DataField(Layout.Bool, 119), Layout.DataField(Layout.Bool, 120),
                             Layout.DataField(Layout.Bool, 121), Layout.DataField(Layout.Bool, 122), Layout.DataField(Layout.Bool, 123),
                             Layout.DataField(Layout.U64, 2)];
    Layout.AscendingLayout(ANNOTATION_NODE_FIELDS, STRUCT_SIZE.data);
  }

  /** Every pointer index the Node accessors use is below the five declared pointers. */
  lemma PointersFit()
    ensures Layout.AllBelow(POINTERS, STRUCT_SIZE.pointers)
  {
  }

  /**
   * Two views of a Struct node that differ only in the bits of one live field
   * agree on every other live field.
   */
  lemma StructNodeFieldsIndependent(a: Layout.StructReader, b: Layout.StructReader, k: nat, j: nat)
    requires k < |STRUCT_NODE_FIELDS| && j < |STRUCT_NODE_FIELDS| && j != k
    requires forall i: nat :: !(STRUCT_NODE_FIELDS[k].Lo() <= i < STRUCT_NODE_FIELDS[k].Hi()) ==> Layout.DataBit(a, i) == Layout.DataBit(b, i)
    ensures Layout.GetDataField(a, STRUCT_NODE_FIELDS[j]) == Layout.GetDataField(b, STRUCT_NODE_FIELDS[j])
  {
    StructNodeLayoutFits();
    Layout.DisjointFieldsIndependent(a, b, STRUCT_NODE_FIELDS, k, j, 0);
  }

  /**
   * Two views of an Annotation node that differ only in the bits of one live
   * field agree on every other live field; in particular each target flag is
   * independent of the other eleven.
   */
  lemma AnnotationNodeFieldsIndependent(a: Layout.StructReader, b: Layout.StructReader, k: nat, j: nat)
    requires k < |ANNOTATION_NODE_FIELDS| && j < |ANNOTATION_NODE_FIELDS| && j != k
    requires forall i: nat :: !(ANNOTATION_NODE_FIELDS[k].Lo() <= i < ANNOTATION_NODE_FIELDS[k].Hi()) ==> Layout.DataBit(a, i) == Layout.DataBit(b, i)
    ensures Layout.GetDataField(a, ANNOTATION_NODE_FIELDS[j]) == Layout.GetDataField(b, ANNOTATION_NODE_FIELDS[j])
  {
    AnnotationNodeLayoutFits();
    Layout.DisjointFieldsIndependent(a, b, ANNOTATION_NODE_FIELDS, k, j, 0);
  }

  /**
   * A node allocated with `STRUCT_SIZE` and never written reads as a File
   * node with id 0, scope id 0, an empty display name and no nested nodes.
   */
  lemma FreshNodeIsEmptyFile()
    ensures Reader(Layout.ZeroStruct(STRUCT_SIZE).AsReader()).Which() == Some(File)
    ensures Reader(Layout.ZeroStruct(STRUCT_SIZE).AsReader()).GetId() == 0
    ensures Reader(Layout.ZeroStruct(STRUCT_SIZE).AsReader()).GetScopeId() == 0
    ensures Reader(Layout.ZeroStruct(STRUCT_SIZE).AsReader()).GetDisplayName() == ""
    ensures Reader(Layout.ZeroStruct(STRUCT_SIZE).AsReader()).GetNestedNodes().Len() == 0
  {
    Layout.ZeroStructReadsDefault(STRUCT_SIZE, WHICH, 0, DISPLAY_NAME);
    Layout.ZeroStructReadsDefault(STRUCT_SIZE, ID, 0, NESTED_NODES);
    Layout.ZeroStructReadsDefault(STRUCT_SIZE, SCOPE_ID, 0, NESTED_NODES);
  }
}
