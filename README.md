# Cap'n Proto schema accessors and the struct-list wrapper, in Dafny

This project models two layers of capnproto-rust that sit on top of the
`capnp::layout` runtime:

- **The generated schema accessors** (`capnpc-rust/schema_capnp.rs`). Each
  generated type is one struct view plus a fixed table:
  - a data slot per primitive getter, counted in units of the getter's width;
  - a bit index per bool getter;
  - a pointer index per text, struct and list getter;
  - a declared `STRUCT_SIZE`.

  Each `which()` decodes a stored u16 discriminant into `Option<variant>`,
  with `None` for a code the schema does not know. Every variant that carries
  a view (such as `Node.Which.Struct` or `Type.Which.List`) views the very struct
  it was decoded from; the others (`File`, `Void` to `Data`, `AnyPointer`,
  `Implicit`) carry none, and `Explicit` carries the u16 it read.
- **The generic list-of-structs wrapper** (`src/struct_list.rs`):
  - `Reader<T>` and `Builder<T>` wrap one layout list and view each element
    as a `T`;
  - `len`, bounds-checked `get`, `iter`/`index_move`;
  - zero-copy `borrow`/`cast`;
  - pointer resolution, which always asks for the InlineComposite encoding
    and T's declared struct size.

Both layers are pure, so the model is datatypes, functions and lemmas.

The layout runtime is a separate module, `Layout`, and is only an abstract
interface whose contracts the model assumes:

- A struct view is a data section (a sequence of bits, little-endian within
  a field) and a pointer section.
- A pointer is modelled by what it resolves to: null, a struct, a list, a
  text, or an error.
- A bit beyond the stored data section reads as 0 (`Layout.DataBit`), and a
  masked read XORs the stored bits with the field's default. Together these
  make a field that an older writer never stored read as its default value.
- The other assumed layout behaviours are listed under "Left out".

One Dafny module corresponds to each generated Rust module: `Node`, `Field`,
`Enumerant`, `Method`, `Type`, `Value`, `Annotation`, `ElementSize` and
`CodeGeneratorRequest`.

- A nested Rust module becomes a datatype of its parent module. For example,
  `Node::Struct::Reader` is `Node.StructReader`.
- A generated `X::List::Reader` is `StructList.Reader<X.Reader>`.
- The trait bounds of `struct_list.rs` are passed explicitly:
  - `FromStructReader::new` and `FromStructBuilder::new` become a `view`
    function argument;
  - `HasStructSize::struct_size` becomes a `StructSize` argument.

The layout facts implied by the constant offsets are proved for each struct:
- every live field lies inside the declared data words;
- no two fields that are live together overlap;
- every pointer index is below the declared pointer count.

Each table is written in bit order. `Layout.AscendingLayout` turns the
adjacent-pair check into the pairwise facts. `Layout.DisjointFieldsIndependent`
then shows that changing the bits of one live field leaves every other live
field's value unchanged.

`Field::Ordinal::which` is modelled as written: it reads its discriminant from
u16 slot 4, the slot that also holds the Slot/Group discriminant.
`Field.OrdinalFollowsUnionTag` states the consequence: a field's ordinal is
Implicit exactly when the field is a Slot, and Explicit exactly when it is a
Group.

## Model

| member | source | states |
|---|---|---|
| `ElementSize.ToU16` | capnpc-rust/schema_capnp.rs:882-891 | each element size has its declared code, all below 8 |
| `ElementSize.FromU16` | capnpc-rust/schema_capnp.rs:880-891 | the u16 conversion is defined exactly on 0..7, and a decoded code is the variant's declared code |
| `ElementSize.FromU16ToU16` | capnpc-rust/schema_capnp.rs:880-891 | decoding a variant's declared code gives that variant back |
| `ElementSize.ToU16Injective` | capnpc-rust/schema_capnp.rs:882-891 | no two element sizes share a code |
| `Layout.GetDataFieldMask` | capnpc-rust/schema_capnp.rs:431-433 | a masked read fits the field's width, its bits are the field's bits XOR the default (exactly so for a field inside the stored data), and a field beyond the stored data reads as its default |
| `Layout.GetDataField` | capnpc-rust/schema_capnp.rs:32-34 | an unmasked read encodes back to exactly the field's bits, is the number those bits spell when the field is stored, and is 0 beyond the stored data |
| `Layout.AllOnesMaskComplements` | capnpc-rust/schema_capnp.rs:431-433 | with an all-ones default such as 0xffff, a stored field reads as the complement of its stored bits |
| `Layout.ReadDependsOnlyOnOwnBits` | capnpc-rust/schema_capnp.rs:431-433 | a field's value depends on its own bits and nothing else |
| `Layout.DisjointFieldsIndependent` | capnpc-rust/schema_capnp.rs:134-157 | in a pairwise-disjoint table, changing one field's bits leaves every other field's value unchanged |
| `Layout.AscendingLayout` | capnpc-rust/schema_capnp.rs:13-14 | a table in bit order whose last field ends within the declared words is pairwise disjoint and fits those words |
| `Layout.GetBoolField` | capnpc-rust/schema_capnp.rs:147-149 | a bool getter is true exactly when its one-bit field reads 1, and false beyond the stored data |
| `Layout.GetPointerField` | capnpc-rust/schema_capnp.rs:36-38 | an index inside the pointer section reads the stored pointer, and one beyond it reads as null |
| `Layout.GetStructField` | capnpc-rust/schema_capnp.rs:266-268 | a struct pointer gives its target; anything else gives the empty struct |
| `Layout.GetTextField` | capnpc-rust/schema_capnp.rs:36-38 | a text pointer gives its text; anything else gives the default text |
| `Layout.GetList` | src/struct_list.rs:62-67 | null resolves to the empty list, a list pointer to its list, an invalid pointer to its error, and a struct or text pointer to `MalformedPointer` |
| `Layout.GetListField` | capnpc-rust/schema_capnp.rs:48-50 | a list pointer gives its list; anything else gives the empty list |
| `Layout.ZeroStruct` | src/struct_list.rs:105-111 | a fresh struct has exactly the declared number of data bits and pointers |
| `Layout.ZeroStructReadsDefault` | src/struct_list.rs:105-111 | every field of a fresh struct reads as its default, and every pointer as null |
| `Layout.InitStructList` | src/struct_list.rs:105-111 | a fresh list has the requested length, and every element is a fresh struct of the declared size |
| `Layout.Pad` | src/struct_list.rs:112-117 | padding keeps every stored element, fills only past the end, and reaches at least the requested length |
| `Layout.WidenPreservesFields` | src/struct_list.rs:112-117 | widening an element to the declared size loses no stored field and no stored pointer |
| `Layout.GetStructList` | src/struct_list.rs:112-117 | null gives the empty list, an invalid pointer its error, a struct or text pointer `MalformedPointer`, and a stored list keeps its length with every element at least the declared size |
| `Layout.Widen` | src/struct_list.rs:112-117 | a widened element has at least the declared data bits and pointers |
| `Layout.SetList` | src/struct_list.rs:130-135 | the slot then holds exactly the given list |
| `Layout.InitStructListField` | capnpc-rust/schema_capnp.rs:938-941 | the new list has the requested length and fresh elements of the declared size |
| `StructList.Reader.Len` | src/struct_list.rs:48 | the wrapper's length is the wrapped list's length |
| `StructList.Reader.Get` | src/struct_list.rs:75-80 | requires an index below `len()`; gives the view of exactly that element |
| `StructList.Reader.IndexMove` | src/struct_list.rs:69-73 | `index_move(i)` is `get(i)` |
| `StructList.Reader.Iter` | src/struct_list.rs:50-52 | the iterator covers [0, len()) of this very list |
| `StructList.Reader.Borrow` | src/struct_list.rs:55-59 | the borrowed wrapper wraps the same list, with the same length |
| `StructList.ListIter.Next` | src/struct_list.rs:50-52 | one step yields `index_move(index)` and advances by one, or yields nothing at the bound |
| `StructList.ListIter.Remaining` | src/struct_list.rs:50-52 | an iterator yields `size - index` elements, the k-th being `get(index + k)` |
| `StructList.IterYieldsEveryElement` | src/struct_list.rs:50-52 | `iter()` yields exactly `len()` elements, the i-th being `get(i)` |
| `StructList.BorrowRoundTrip` | src/struct_list.rs:56-58 | borrowing copies no element, and borrowing back gives the original |
| `StructList.GetFromPointer` | src/struct_list.rs:62-67 | wraps exactly the list the pointer resolves to, and passes any error back unchanged; the InlineComposite request has no effect in the model |
| `StructList.GetFromPointerCases` | src/struct_list.rs:62-67 | null reads as the empty list, an invalid pointer as its error, a list pointer as its list |
| `StructList.Builder.Len` | src/struct_list.rs:92 | the wrapper's length is the wrapped list's length |
| `StructList.Builder.Get` | src/struct_list.rs:120-128 | requires an index below `len()`; gives the view of exactly that element |
| `StructList.Builder.Borrow` | src/struct_list.rs:99-103 | the borrowed wrapper wraps the same list, with the same length |
| `StructList.Builder.Cast` | src/struct_list.rs:137-141 | the cast wrapper wraps the same list, with the same length |
| `StructList.CastRoundTrip` | src/struct_list.rs:137-141 | casting copies no element, casting back gives the original, and borrow equals cast |
| `StructList.InitPointer` | src/struct_list.rs:105-111 | the new list has `len == size`, each element fresh with T's declared struct size |
| `StructList.InitPointerElementsAreDefault` | src/struct_list.rs:105-111 | every element of a new list reads every field as its default and every pointer as null |
| `StructList.GetFromPointerBuilder` | src/struct_list.rs:112-117 | resolves with T's declared struct size, and passes any error back unchanged |
| `StructList.GetFromPointerBuilderKeepsContents` | src/struct_list.rs:112-117 | reopening a stored list keeps its length and every element's fields and pointers |
| `StructList.SetPointerBuilder` | src/struct_list.rs:130-135 | stores exactly the reader's list |
| `StructList.SetThenGetFromPointer` | src/struct_list.rs:130-135 | a list stored this way reads back as the same list through `get_from_pointer` |
| `Node.Reader.GetId` | capnpc-rust/schema_capnp.rs:32-34 | the u64 in bits [0,64), a bit past the data section read as 0: the stored u64 when the field is stored, 0 when the section ends before the field |
| `Node.Reader.GetDisplayName` | capnpc-rust/schema_capnp.rs:36-38 | the text behind pointer 0, "" otherwise |
| `Node.Reader.GetDisplayNamePrefixLength` | capnpc-rust/schema_capnp.rs:40-42 | the u32 in bits [64,96), a bit past the data section read as 0: the stored u32 when the field is stored, 0 when the section ends before the field |
| `Node.Reader.GetScopeId` | capnpc-rust/schema_capnp.rs:44-46 | the u64 in bits [128,192), a bit past the data section read as 0: the stored u64 when the field is stored, 0 when the section ends before the field |
| `Node.Reader.GetNestedNodes` | capnpc-rust/schema_capnp.rs:48-50 | the list behind pointer 1 as nested nodes, empty otherwise |
| `Node.Reader.Which` | capnpc-rust/schema_capnp.rs:52-79 | u16 slot 6 decodes to a variant exactly when it is below 6, the variant's declared code is the stored one, and the variant views this struct |
| `Node.Discriminant` | capnpc-rust/schema_capnp.rs:107-114 | the six variants' codes, all below 6 |
| `Node.FromDiscriminant` | capnpc-rust/schema_capnp.rs:53-78 | 0..5 decode to File, Struct, Enum, Interface, Const, Annotation over the given struct; anything else to None |
| `Node.FromDiscriminantRoundTrip` | capnpc-rust/schema_capnp.rs:52-79 | decoding a variant's own code over its own struct gives it back |
| `Node.StructReader.GetDataWordCount` | capnpc-rust/schema_capnp.rs:134-136 | the u16 in bits [112,128), a bit past the data section read as 0: the stored u16 when the field is stored, 0 when the section ends before the field |
| `Node.StructReader.GetPointerCount` | capnpc-rust/schema_capnp.rs:138-140 | the u16 in bits [192,208), a bit past the data section read as 0: the stored u16 when the field is stored, 0 when the section ends before the field |
| `Node.StructReader.GetPreferredListEncoding` | capnpc-rust/schema_capnp.rs:142-145 | u16 slot 13 decodes to an element size exactly when it is below 8; an unstored value is Empty |
| `Node.StructReader.GetIsGroup` | capnpc-rust/schema_capnp.rs:147-149 | bit 224, false when not stored |
| `Node.StructReader.GetDiscriminantCount` | capnpc-rust/schema_capnp.rs:151-153 | the u16 in bits [240,256), a bit past the data section read as 0: the stored u16 when the field is stored, 0 when the section ends before the field |
| `Node.StructReader.GetDiscriminantOffset` | capnpc-rust/schema_capnp.rs:155-157 | the u32 in bits [256,288), a bit past the data section read as 0: the stored u32 when the field is stored, 0 when the section ends before the field |
| `Node.StructReader.GetFields` | capnpc-rust/schema_capnp.rs:159-162 | the list behind pointer 3 as fields, empty otherwise |
| `Node.EnumReader.GetEnumerants` | capnpc-rust/schema_capnp.rs:194-200 | the list behind pointer 3 as enumerants, empty otherwise |
| `Node.ConstReader.GetType` | capnpc-rust/schema_capnp.rs:266-268 | the struct behind pointer 3 as a Type, the empty struct otherwise |
| `Node.ConstReader.GetValue` | capnpc-rust/schema_capnp.rs:270-272 | the struct behind pointer 4 as a Value, the empty struct otherwise |
| `Node.AnnotationReader.GetType` | capnpc-rust/schema_capnp.rs:304-306 | the struct behind pointer 3 as a Type, the empty struct otherwise |
| `Node.AnnotationReader.GetTargetsFile` | capnpc-rust/schema_capnp.rs:308-310 | true exactly when bit 112 is set |
| `Node.AnnotationReader.GetTargetsConst` | capnpc-rust/schema_capnp.rs:312-314 | true exactly when bit 113 is set |
| `Node.AnnotationReader.GetTargetsEnum` | capnpc-rust/schema_capnp.rs:316-318 | true exactly when bit 114 is set |
| `Node.AnnotationReader.GetTargetsEnumerant` | capnpc-rust/schema_capnp.rs:320-322 | true exactly when bit 115 is set |
| `Node.AnnotationReader.GetTargetsStruct` | capnpc-rust/schema_capnp.rs:324-326 | true exactly when bit 116 is set |
| `Node.AnnotationReader.GetTargetsField` | capnpc-rust/schema_capnp.rs:328-330 | true exactly when bit 117 is set |
| `Node.AnnotationReader.GetTargetsUnion` | capnpc-rust/schema_capnp.rs:332-334 | true exactly when bit 118 is set |
| `Node.AnnotationReader.GetTargetsGroup` | capnpc-rust/schema_capnp.rs:336-338 | true exactly when bit 119 is set |
| `Node.AnnotationReader.GetTargetsInterface` | capnpc-rust/schema_capnp.rs:340-342 | true exactly when bit 120 is set |
| `Node.AnnotationReader.GetTargetsMethod` | capnpc-rust/schema_capnp.rs:344-346 | true exactly when bit 121 is set |
| `Node.AnnotationReader.GetTargetsParam` | capnpc-rust/schema_capnp.rs:348-350 | true exactly when bit 122 is set |
| `Node.AnnotationReader.GetTargetsAnnotation` | capnpc-rust/schema_capnp.rs:352-354 | true exactly when bit 123 is set |
| `Node.NestedNodeReader.GetName` | capnpc-rust/schema_capnp.rs:379-381 | the text behind pointer 0, "" otherwise |
| `Node.NestedNodeReader.GetId` | capnpc-rust/schema_capnp.rs:383-385 | the u64 in bits [0,64), a bit past the data section read as 0: the stored u64 when the field is stored, 0 when the section ends before the field |
| `Node.StructNodeLayoutFits` | capnpc-rust/schema_capnp.rs:134-157 | the ten live fields of a Struct node fit the 5 data words (320 bits) and are pairwise disjoint |
| `Node.AnnotationNodeLayoutFits` | capnpc-rust/schema_capnp.rs:308-354 | the common fields and the twelve target bits of an Annotation node fit 5 words and are pairwise disjoint |
| `Node.PointersFit` | capnpc-rust/schema_capnp.rs:13-14 | pointers 0, 1, 3 and 4 are below the declared 5 |
| `Node.StructNodeFieldsIndependent` | capnpc-rust/schema_capnp.rs:134-157 | changing one live field of a Struct node leaves every other live field unchanged |
| `Node.AnnotationNodeFieldsIndependent` | capnpc-rust/schema_capnp.rs:308-354 | changing one live field of an Annotation node, such as one target flag, leaves every other unchanged |
| `Node.FreshNodeIsEmptyFile` | capnpc-rust/schema_capnp.rs:52-79 | a never-written node is a File with id 0, scope id 0, empty name and no nested nodes |
| `Field.Reader.GetName` | capnpc-rust/schema_capnp.rs:423-425 | the text behind pointer 0, "" otherwise |
| `Field.Reader.GetCodeOrder` | capnpc-rust/schema_capnp.rs:427-429 | the u16 in bits [0,16), a bit past the data section read as 0: the stored u16 when the field is stored, 0 when the section ends before the field |
| `Field.Reader.GetDiscriminantValue` | capnpc-rust/schema_capnp.rs:431-433 | the u16 in bits [16,32) XOR 0xffff, that is 0xffff minus the stored value, and 0xffff when the section ends before the field |
| `Field.Reader.Which` | capnpc-rust/schema_capnp.rs:435-443 | u16 slot 4 decodes to a variant exactly when it is below 2, with the stored code, viewing this struct |
| `Field.Reader.GetOrdinal` | capnpc-rust/schema_capnp.rs:445-447 | the ordinal group views this very struct |
| `Field.Discriminant` | capnpc-rust/schema_capnp.rs:460-463 | Slot and Group are codes 0 and 1 |
| `Field.FromDiscriminant` | capnpc-rust/schema_capnp.rs:436-442 | 0 decodes to Slot, 1 to Group, over the given struct; anything else to None |
| `Field.FromDiscriminantRoundTrip` | capnpc-rust/schema_capnp.rs:435-443 | decoding a variant's own code over its own struct gives it back |
| `Field.SlotReader.GetOffset` | capnpc-rust/schema_capnp.rs:478-480 | the u32 in bits [32,64), a bit past the data section read as 0: the stored u32 when the field is stored, 0 when the section ends before the field |
| `Field.SlotReader.GetType` | capnpc-rust/schema_capnp.rs:482-484 | the struct behind pointer 2 as a Type, the empty struct otherwise |
| `Field.SlotReader.GetDefaultValue` | capnpc-rust/schema_capnp.rs:486-488 | the struct behind pointer 3 as a Value, the empty struct otherwise |
| `Field.GroupReader.GetTypeId` | capnpc-rust/schema_capnp.rs:504-506 | the u64 in bits [128,192), a bit past the data section read as 0: the stored u64 when the field is stored, 0 when the section ends before the field |
| `Field.OrdinalReader.Which` | capnpc-rust/schema_capnp.rs:523-529 | 0 is Implicit, 1 is Explicit carrying the u16 at slot 6, anything else None; the code is read from u16 slot 4 |
| `Field.OrdinalFollowsUnionTag` | capnpc-rust/schema_capnp.rs:523-529 | as written the ordinal is Implicit exactly for a Slot and Explicit exactly for a Group |
| `Field.LayoutFits` | capnpc-rust/schema_capnp.rs:410-412 | the live fields of a Slot and of a Group each fit 3 data words and are pairwise disjoint; pointers 0, 2 and 3 are below 4 |
| `Field.SlotFieldsIndependent` | capnpc-rust/schema_capnp.rs:427-480 | changing one live field of a Slot leaves every other live field unchanged |
| `Field.GroupFieldsIndependent` | capnpc-rust/schema_capnp.rs:427-506 | changing one live field of a Group leaves every other live field unchanged |
| `Enumerant.Reader.GetName` | capnpc-rust/schema_capnp.rs:564-566 | the text behind pointer 0, "" otherwise |
| `Enumerant.Reader.GetCodeOrder` | capnpc-rust/schema_capnp.rs:568-570 | the u16 in bits [0,16), a bit past the data section read as 0: the stored u16 when the field is stored, 0 when the section ends before the field |
| `Enumerant.Reader.GetAnnotations` | capnpc-rust/schema_capnp.rs:572-576 | the list behind pointer 1 as annotations, empty otherwise |
| `Enumerant.LayoutFits` | capnpc-rust/schema_capnp.rs:546-548 | the code order fits 1 data word; pointers 0 and 1 are below 2 |
| `Type.Reader.Which` | capnpc-rust/schema_capnp.rs:639-670 | u16 slot 0 decodes to a variant exactly when it is below 19, with the stored code, viewing this struct |
| `Type.Discriminant` | capnpc-rust/schema_capnp.rs:685-705 | the nineteen variants' codes in declaration order, all below 19 |
| `Type.FromDiscriminant` | capnpc-rust/schema_capnp.rs:640-669 | 0..18 decode to the variants in declaration order over the given struct; anything else to None |
| `Type.FromDiscriminantRoundTrip` | capnpc-rust/schema_capnp.rs:639-670 | decoding a variant's own code over its own struct gives it back |
| `Type.FieldsDisjoint` | capnpc-rust/schema_capnp.rs:739-741 | the discriminant (u16 slot 0) and the type id (u64 slot 1) do not overlap |
| `Type.ListReader.GetElementType` | capnpc-rust/schema_capnp.rs:721-723 | the struct behind pointer 0 as a Type, the empty struct otherwise |
| `Type.EnumReader.GetTypeId` | capnpc-rust/schema_capnp.rs:739-741 | the u64 in bits [64,128), a bit past the data section read as 0: the stored u64 when the field is stored, 0 when the section ends before the field |
| `Type.StructReader.GetTypeId` | capnpc-rust/schema_capnp.rs:757-759 | the u64 in bits [64,128), a bit past the data section read as 0: the stored u64 when the field is stored, 0 when the section ends before the field |
| `Type.InterfaceReader.GetTypeId` | capnpc-rust/schema_capnp.rs:775-777 | the u64 in bits [64,128), a bit past the data section read as 0: the stored u64 when the field is stored, 0 when the section ends before the field |
| `Annotation.Reader.GetId` | capnpc-rust/schema_capnp.rs:858-860 | the u64 in bits [0,64), a bit past the data section read as 0: the stored u64 when the field is stored, 0 when the section ends before the field |
| `Annotation.Reader.GetValue` | capnpc-rust/schema_capnp.rs:862-864 | the struct behind pointer 0 as a Value, the empty struct otherwise |
| `Annotation.LayoutFits` | capnpc-rust/schema_capnp.rs:841-842 | the id fits 1 data word; pointer 0 is below 1 |
| `CodeGeneratorRequest.Reader.GetNodes` | capnpc-rust/schema_capnp.rs:916-918 | the list behind pointer 0 as nodes, empty otherwise |
| `CodeGeneratorRequest.Reader.GetRequestedFiles` | capnpc-rust/schema_capnp.rs:920-925 | the list behind pointer 1 as requested files, empty otherwise |
| `CodeGeneratorRequest.Builder.InitNodes` | capnpc-rust/schema_capnp.rs:938-941 | a list of `size` fresh nodes, each of Node's declared struct size |
| `CodeGeneratorRequest.InitNodesAreEmptyFiles` | capnpc-rust/schema_capnp.rs:938-941 | every node of that list reads as an empty File node until written |
| `CodeGeneratorRequest.RequestedFileReader.GetId` | capnpc-rust/schema_capnp.rs:963-965 | the u64 in bits [0,64), a bit past the data section read as 0: the stored u64 when the field is stored, 0 when the section ends before the field |
| `CodeGeneratorRequest.RequestedFileReader.GetFilename` | capnpc-rust/schema_capnp.rs:967-969 | the text behind pointer 0, "" otherwise |
| `CodeGeneratorRequest.RequestedFileReader.GetImports` | capnpc-rust/schema_capnp.rs:971-976 | the list behind pointer 1 as imports, empty otherwise |
| `CodeGeneratorRequest.ImportReader.GetId` | capnpc-rust/schema_capnp.rs:1008-1010 | the u64 in bits [0,64), a bit past the data section read as 0: the stored u64 when the field is stored, 0 when the section ends before the field |
| `CodeGeneratorRequest.ImportReader.GetName` | capnpc-rust/schema_capnp.rs:1012-1014 | the text behind pointer 0, "" otherwise |
| `CodeGeneratorRequest.LayoutFits` | capnpc-rust/schema_capnp.rs:901-902 | every field of the request, of a requested file and of an import fits its struct's declared size |

## Left out

- The `capnp::layout` runtime is not part of this model. `Layout` stands in for it as an abstract interface:
  - it does not model the 64-bit pointer encoding, far pointers, segment bounds checks, or nesting and traversal limits;
  - it does not model how `expected` drives list element-size upgrades, so `Layout.GetList` and `Layout.GetListField` ignore the encoding they are asked for;
  - the behaviours it does assume are listed next.
- The layout contracts the model assumes rather than derives, since the layout is not part of this model:
  - a bit beyond the data section reads 0, and a masked read is the stored bits XOR the default (`Layout.GetDataFieldMask`);
  - `Layout.GetStructField`, `Layout.GetTextField` and `Layout.GetListField` fall back to the default on a null, invalid or wrong-kind pointer, since the generated getters return no `Result`;
  - `Layout.GetList` and `Layout.GetStructList` treat a struct or text pointer read as a list as `MalformedPointer`;
  - `Layout.GetStructList` widens a stored element to the declared size by zero padding (`Layout.Widen`);
  - `Layout.InitStructList` and `Layout.SetList` produce exactly the list described.
- StructList.GetFromPointer: passes `INLINE_COMPOSITE` to `Layout.GetList` as the source does, but the model cannot tell that request from any other, because the layout's element-size upgrades are not modelled.
- `traits::ListIter`, which `iter()` returns, is not part of this model. `StructList.ListIter` models only what the wrapper relies on: it yields `index_move(i)` for each `i` from its start up to its bound.
- `total_size_in_words`, on every reader: it needs the layout's traversal of the whole message.
- The `list_submodule!` macro: its definition is not part of this model. `X::List::Reader` is modelled as `StructList.Reader<X.Reader>`. The `Import` module's invocation names `RequestedFile`; the model gives `get_imports` the `Import` element type that its signature declares.
- Code that is commented out or never written: the Node builder initialisers at capnpc-rust/schema_capnp.rs:91-103, `Builder::set` at src/struct_list.rs:94-95, and the `TODO methods` of `Node::Interface`.
- `Value::Which` (capnpc-rust/schema_capnp.rs:813-834): no accessor produces it. This also leaves out its float payloads, including `Float64` being declared with an `f32`, and its TODO variants.
- Floating point in general: no modelled getter reads a float.
- Lifetimes, the `PhantomData` marker and the `Clone`/`Copy` impls are type-level only. The element type of `StructList.Reader<T>` and `StructList.Builder<T>` is a phantom type parameter.
- StructList.Reader.Borrow, StructList.Builder.Borrow, StructList.Builder.Cast: the `CastableTo` bound is not modelled, so any target type `U` is accepted.
- StructList.Reader.Len, StructList.Builder.Len: lengths and indices are unbounded naturals. The u32 width of `len()` and `get(index)` is not modelled, because the layout bounds list lengths.
- StructList.SetPointerBuilder: always succeeds. The layout's failure cases for `set_list` are not modelled.
- StructList.InitPointer, CodeGeneratorRequest.Builder.InitNodes: the model returns the new list as a value. It does not update the parent struct's pointer slot, so the aliasing between the returned builder and the parent is not captured.
- The Builders are modelled as plain wrappers (`Node.Builder`, `Field.Builder` and so on), because the generated code gives them only a constructor.
