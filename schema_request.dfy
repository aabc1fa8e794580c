/**
 * The generated accessors for `CodeGeneratorRequest`, the message the schema
 * compiler hands to a code generator: the list of all nodes and the list of
 * files to generate code for, each with the files it imports.
 */
module CodeGeneratorRequest {
  import opened Wrappers
  import Layout
  import StructList
  import Node

  const STRUCT_SIZE: Layout.StructSize := Layout.StructSize(0, 2, Layout.INLINE_COMPOSITE)

  /** `get_list_field(0, INLINE_COMPOSITE, None)`. */
  const NODES: nat := 0
  /** `get_list_field(1, RequestedFile::STRUCT_SIZE.preferred_list_encoding, None)`. */
  const REQUESTED_FILES: nat := 1

  /** `RequestedFile::STRUCT_SIZE`. */
  const REQUESTED_FILE_STRUCT_SIZE: Layout.StructSize := Layout.StructSize(1, 2, Layout.INLINE_COMPOSITE)
  /** RequestedFile: `id`, u64 slot 0; `filename`, pointer 0; `imports`, pointer 1. */
  const REQUESTED_FILE_ID: Layout.DataField := Layout.DataField(Layout.U64, 0)
  const REQUESTED_FILE_FILENAME: nat := 0
  const REQUESTED_FILE_IMPORTS: nat := 1

  /** `RequestedFile::Import::STRUCT_SIZE`. */
  const IMPORT_STRUCT_SIZE: Layout.StructSize := Layout.StructSize(1, 1, Layout.INLINE_COMPOSITE)
  /** Import: `id`, u64 slot 0; `name`, pointer 0. */
  const IMPORT_ID: Layout.DataField := Layout.DataField(Layout.U64, 0)
  const IMPORT_NAME: nat := 0

  /** `CodeGeneratorRequest::Reader`. */
  datatype Reader = Reader(reader: Layout.StructReader) {

    /** `get_nodes()`: the list behind pointer 0, viewed as nodes; empty when it is not a list. */
    function GetNodes(): (l: StructList.Reader<Node.Reader>)
      ensures Layout.GetPointerField(reader, NODES).ListPointer? ==> l.reader == Layout.GetPointerField(reader, NODES).list
      ensures !Layout.GetPointerField(reader, NODES).ListPointer? ==> l.Len() == 0
    {
      StructList.Reader(Layout.GetListField(reader, NODES, Layout.INLINE_COMPOSITE))
    }

    /** `get_requested_files()`: the list behind pointer 1, viewed as requested files; empty when it is not a list. */
    function GetRequestedFiles(): (l: StructList.Reader<RequestedFileReader>)
      ensures Layout.GetPointerField(reader, REQUESTED_FILES).ListPointer? ==> l.reader == Layout.GetPointerField(reader, REQUESTED_FILES).list
      ensures !Layout.GetPointerField(reader, REQUESTED_FILES).ListPointer? ==> l.Len() == 0
    {
      StructList.Reader(Layout.GetListField(reader, REQUESTED_FILES, REQUESTED_FILE_STRUCT_SIZE.preferredListEncoding))
    }
  }

  /** `CodeGeneratorRequest::Builder`. */
  datatype Builder = Builder(builder: Layout.StructBuilder) {

    /**
     * `init_nodes(size)`: a fresh list of `size` nodes, each allocated with
     * `Node::STRUCT_SIZE` and with every bit clear and every pointer null.
     */
    function InitNodes(size: nat): (l: StructList.Builder<Node.Builder>)
      ensures l.Len() == size
      ensures forall i :: 0 <= i < size ==> l.builder.elements[i] == Layout.ZeroStruct(Node.STRUCT_SIZE)
    {
      StructList.Builder(Layout.InitStructListField(builder, NODES, size, Node.STRUCT_SIZE))
    }
  }

  /** Every node of a list made by `init_nodes` reads as an empty File node until it is written. */
  lemma InitNodesAreEmptyFiles(b: Builder, size: nat, i: nat)
    requires i < size
    ensures Node.Reader(b.InitNodes(size).builder.elements[i].AsReader()).Which() == Some(Node.Which.File)
    ensures Node.Reader(b.InitNodes(size).builder.elements[i].AsReader()).GetId() == 0
    ensures Node.Reader(b.InitNodes(size).builder.elements[i].AsReader()).GetScopeId() == 0
    ensures Node.Reader(b.InitNodes(size).builder.elements[i].AsReader()).GetDisplayName() == ""
    ensures Node.Reader(b.InitNodes(size).builder.elements[i].AsReader()).GetNestedNodes().Len() == 0
  {
    Node.FreshNodeIsEmptyFile();
  }

  /** `RequestedFile::Reader`. */
  datatype RequestedFileReader = RequestedFileReader(reader: Layout.StructReader) {

    /** `get_id()`: a u64, 0 when the data section is empty. */
    function GetId(): (v: nat)
      ensures v < Layout.Pow2(64)
      ensures REQUESTED_FILE_ID.Hi() <= |reader.data| ==> v == Layout.BitsToNat(reader.data[REQUESTED_FILE_ID.Lo()..REQUESTED_FILE_ID.Hi()])
      ensures Layout.NatToBits(v, REQUESTED_FILE_ID.Width()) == Layout.ReadBits(reader, REQUESTED_FILE_ID.Lo(), REQUESTED_FILE_ID.Width())
      ensures |reader.data| <= REQUESTED_FILE_ID.Lo() ==> v == 0
    {
      Layout.GetDataField(reader, REQUESTED_FILE_ID)
    }

    /** `get_filename()`: the text behind pointer 0, "" when it is not a text. */
    function GetFilename(): (s: string)
      ensures Layout.GetPointerField(reader, REQUESTED_FILE_FILENAME).TextPointer? ==> s == Layout.GetPointerField(reader, REQUESTED_FILE_FILENAME).text
      ensures !Layout.GetPointerField(reader, REQUESTED_FILE_FILENAME).TextPointer? ==> s == ""
    {
      Layout.GetTextField(reader, REQUESTED_FILE_FILENAME, "")
    }

    /** `get_imports()`: the list behind pointer 1, viewed as imports; empty when it is not a list. */
    function GetImports(): (l: StructList.Reader<ImportReader>)
      ensures Layout.GetPointerField(reader, REQUESTED_FILE_IMPORTS).ListPointer? ==> l.reader == Layout.GetPointerField(reader, REQUESTED_FILE_IMPORTS).list
      ensures !Layout.GetPointerField(reader, REQUESTED_FILE_IMPORTS).ListPointer? ==> l.Len() == 0
    {
      StructList.Reader(Layout.GetListField(reader, REQUESTED_FILE_IMPORTS, IMPORT_STRUCT_SIZE.preferredListEncoding))
    }
  }

  /** `RequestedFile::Builder`: only its constructor is generated. */
  datatype RequestedFileBuilder = RequestedFileBuilder(builder: Layout.StructBuilder)

  /** `RequestedFile::Import::Reader`. */
  datatype ImportReader = ImportReader(reader: Layout.StructReader) {

    /** `get_id()`: a u64, 0 when the data section is empty. */
    function GetId(): (v: nat)
      ensures v < Layout.Pow2(64)
      ensures IMPORT_ID.Hi() <= |reader.data| ==> v == Layout.BitsToNat(reader.data[IMPORT_ID.Lo()..IMPORT_ID.Hi()])
      ensures Layout.NatToBits(v, IMPORT_ID.Width()) == Layout.ReadBits(reader, IMPORT_ID.Lo(), IMPORT_ID.Width())
      ensures |reader.data| <= IMPORT_ID.Lo() ==> v == 0
    {
      Layout.GetDataField(reader, IMPORT_ID)
    }

    /** `get_name()`: the text behind pointer 0, "" when it is not a text. */
    function GetName(): (s: string)
      ensures Layout.GetPointerField(reader, IMPORT_NAME).TextPointer? ==> s == Layout.GetPointerField(reader, IMPORT_NAME).text
      ensures !Layout.GetPointerField(reader, IMPORT_NAME).TextPointer? ==> s == ""
    {
      Layout.GetTextField(reader, IMPORT_NAME, "")
    }
  }

  /** `RequestedFile::Import::Builder`: only its constructor is generated. */
  datatype ImportBuilder = ImportBuilder(builder: Layout.StructBuilder)

  /**
   * Each struct's fields fit its declared size: the request's two pointers,
   * a requested file's id word and two pointers, an import's id word and
   * one pointer.
   */
  lemma LayoutFits()
    ensures Layout.AllBelow([NODES, REQUESTED_FILES], STRUCT_SIZE.pointers)
    ensures Layout.AllFitIn([REQUESTED_FILE_ID], REQUESTED_FILE_STRUCT_SIZE.data)
    ensures Layout.AllBelow([REQUESTED_FILE_FILENAME, REQUESTED_FILE_IMPORTS], REQUESTED_FILE_STRUCT_SIZE.pointers)
    ensures Layout.AllFitIn([IMPORT_ID], IMPORT_STRUCT_SIZE.data)
    ensures Layout.AllBelow([IMPORT_NAME], IMPORT_STRUCT_SIZE.pointers)
  {
  }
}
