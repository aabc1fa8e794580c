/**
 * `struct_list`: the generic list-of-structs wrapper. A `Reader<T>` or
 * `Builder<T>` wraps one layout list and views each element as a `T`. The
 * element type `T` is a phantom parameter: the wrapper stores nothing of its
 * own, so every operation either delegates to the wrapped list or re-wraps the
 * same list under another element type.
 *
 * The trait bounds of the Rust code are passed explicitly: `FromStructReader::new`
 * and `FromStructBuilder::new` as a `view` function from a struct view to `T`,
 * and `HasStructSize::struct_size` as a `Layout.StructSize` argument.
 */
module StructList {
  import opened Wrappers
  import Layout

  /** `struct_list::Reader<T>`; `Reader::new` is the datatype constructor. */
  datatype Reader<T> = Reader(reader: Layout.ListReader) {

    /** `len()`: the wrapped list's length. */
    function Len(): (n: nat)
      ensures n == reader.Len()
    {
      reader.Len()
    }

    /**
     * `get(index)`: the element view at `index`. An index past the end is a
     * failed assertion in the source, hence a precondition here.
     */
    function Get(index: nat, view: Layout.StructReader -> T): (e: T)
      requires index < Len()
      ensures e == view(reader.elements[index])
    {
      view(reader.GetStructElement(index))
    }

    /** `index_move(index)`, the hook `ListIter` calls: the same as `get`. */
    function IndexMove(index: nat, view: Layout.StructReader -> T): (e: T)
      requires index < Len()
      ensures e == Get(index, view)
    {
      Get(index, view)
    }

    /** `iter()`: an iterator over [0, len()). */
    function Iter(): (it: ListIter<T>)
      ensures it.list == this && it.index == 0 && it.size == Len()
    {
      ListIter(this, 0, Len())
    }

    /** `borrow::<U>()`: the same list viewed with element type `U`; nothing is copied. */
    function Borrow<U>(): (r: Reader<U>)
      ensures r.reader == reader && r.Len() == Len()
    {
      Reader(reader)
    }
  }

  /**
   * `ListIter`: yields `index_move(i)` for each `i` from `index` up to `size`.
   * It is defined outside the wrapper; the model keeps only what the wrapper
   * relies on.
   */
  datatype ListIter<T> = ListIter(list: Reader<T>, index: nat, size: nat) {

    predicate Valid()
    {
      index <= size <= list.Len()
    }

    /** One step: the element at `index` and the iterator past it, or None at the end. */
    function Next(view: Layout.StructReader -> T): (r: (Option<T>, ListIter<T>))
      requires Valid()
      ensures r.1.Valid() && r.1.list == list && r.1.size == size
      ensures index < size ==> r.0 == Some(list.IndexMove(index, view)) && r.1.index == index + 1
      ensures index == size ==> r.0 == None && r.1 == this
    {
      if index < size then (Some(list.IndexMove(index, view)), ListIter(list, index + 1, size))
      else (None, this)
    }

    /** Everything the iterator still yields, in order. */
    function Remaining(view: Layout.StructReader -> T): (s: seq<T>)
      requires Valid()
      ensures |s| == size - index
      ensures forall i :: 0 <= i < |s| ==> s[i] == list.Get(index + i, view)
      decreases size - index
    {
      var (head, rest) := Next(view);
      if head.None? then [] else [head.value] + rest.Remaining(view)
    }
  }

  /** `iter()` yields exactly `len()` elements, the i-th being `get(i)`. */
  lemma IterYieldsEveryElement<T>(l: Reader<T>, view: Layout.StructReader -> T)
    ensures l.Iter().Valid()
    ensures |l.Iter().Remaining(view)| == l.Len()
    ensures forall i :: 0 <= i < l.Len() ==> l.Iter().Remaining(view)[i] == l.Get(i, view)
  {
  }

  /** Borrowing copies nothing: the elements' storage is the same, and borrowing back returns the original. */
  lemma BorrowRoundTrip<T, U>(l: Reader<T>)
    ensures l.Borrow<U>().Borrow<T>() == l
    ensures forall i :: 0 <= i < l.Len() ==> l.Borrow<U>().reader.elements[i] == l.reader.elements[i]
  {
  }

  /**
   * `FromPointerReader::get_from_pointer`: resolve the pointer as a list,
   * always requesting the InlineComposite encoding, and wrap it. A resolution
   * error is passed back unchanged.
   */
  function GetFromPointer<T>(p: Layout.Pointer): (r: Result<Reader<T>, Layout.Error>)
    ensures r.Ok? <==> Layout.GetList(p, Layout.INLINE_COMPOSITE).Ok?
    ensures r.Ok? ==> r.value.reader == Layout.GetList(p, Layout.INLINE_COMPOSITE).value
    ensures r.Err? ==> r.error == Layout.GetList(p, Layout.INLINE_COMPOSITE).error
  {
    match Layout.GetList(p, Layout.INLINE_COMPOSITE)
    case Ok(list) => Ok(Reader(list))
    case Err(e) => Err(e)
  }

  /** A null pointer reads as the empty list; a malformed one is an error, never a list. */
  lemma GetFromPointerCases<T>(p: Layout.Pointer)
    ensures p.Null? ==> GetFromPointer<T>(p) == Ok(Reader(Layout.EMPTY_LIST))
    ensures p.Invalid? ==> GetFromPointer<T>(p) == Err(p.error)
    ensures p.ListPointer? ==> GetFromPointer<T>(p) == Ok(Reader(p.list))
  {
  }

  /** `struct_list::Builder<T>`; `Builder::new` is the datatype constructor. */
  datatype Builder<T> = Builder(builder: Layout.ListBuilder) {

    /** `len()`: the wrapped list's length. */
    function Len(): (n: nat)
      ensures n == builder.Len()
    {
      builder.Len()
    }

    /** `get(index)`: the element view at `index`; an index past the end is a failed assertion. */
    function Get(index: nat, view: Layout.StructBuilder -> T): (e: T)
      requires index < Len()
      ensures e == view(builder.elements[index])
    {
      view(builder.GetStructElement(index))
    }

    /** `borrow::<U>()`: the same list viewed with element type `U`. */
    function Borrow<U>(): (r: Builder<U>)
      ensures r.builder == builder && r.Len() == Len()
    {
      Builder(builder)
    }

    /** `CastableTo::cast`: the same list viewed with element type `U`. */
    function Cast<U>(): (r: Builder<U>)
      ensures r.builder == builder && r.Len() == Len()
    {
      Builder(builder)
    }
  }

  /** Casting copies nothing, and casting back gives the original builder. */
  lemma CastRoundTrip<T, U>(b: Builder<T>)
    ensures b.Cast<U>().Cast<T>() == b
    ensures b.Borrow<U>() == b.Cast<U>()
    ensures forall i :: 0 <= i < b.Len() ==> b.Cast<U>().builder.elements[i] == b.builder.elements[i]
  {
  }

  /**
   * `FromPointerBuilder::init_pointer`: allocate a list of `size` elements of
   * T's declared struct size, always in the InlineComposite encoding.
   */
  function InitPointer<T>(p: Layout.PointerBuilder, size: nat, structSize: Layout.StructSize): (b: Builder<T>)
    ensures b.Len() == size
    ensures forall i :: 0 <= i < size ==> b.builder.elements[i] == Layout.ZeroStruct(structSize)
  {
    Builder(Layout.InitStructList(p, size, structSize))
  }

  /** Every element of a freshly initialised list reads each field as its default and each pointer as null. */
  lemma InitPointerElementsAreDefault<T>(p: Layout.PointerBuilder, size: nat, structSize: Layout.StructSize,
                                         i: nat, f: Layout.DataField, mask: nat, index: nat)
    requires i < size
    requires mask < Layout.Pow2(f.Width())
    ensures Layout.GetDataFieldMask(InitPointer<T>(p, size, structSize).builder.elements[i].AsReader(), f, mask) == mask
    ensures Layout.GetPointerField(InitPointer<T>(p, size, structSize).builder.elements[i].AsReader(), index).Null?
  {
    Layout.ZeroStructReadsDefault(structSize, f, mask, index);
  }

  /**
   * `FromPointerBuilder::get_from_pointer`: resolve the slot as a struct list
   * of T's declared struct size; a resolution error is passed back unchanged.
   */
  function GetFromPointerBuilder<T>(p: Layout.PointerBuilder, structSize: Layout.StructSize): (r: Result<Builder<T>, Layout.Error>)
    ensures r.Ok? <==> Layout.GetStructList(p, structSize).Ok?
    ensures r.Ok? ==> r.value.builder == Layout.GetStructList(p, structSize).value
    ensures r.Err? ==> r.error == Layout.GetStructList(p, structSize).error
  {
    match Layout.GetStructList(p, structSize)
    case Ok(list) => Ok(Builder(list))
    case Err(e) => Err(e)
  }

  /**
   * Re-opening a stored list for writing keeps its length and every stored
   * field and pointer of every element.
   */
  lemma GetFromPointerBuilderKeepsContents<T>(p: Layout.PointerBuilder, structSize: Layout.StructSize,
                                              i: nat, f: Layout.DataField, mask: nat, index: nat)
    requires p.target.ListPointer? && i < p.target.list.Len()
    requires mask < Layout.Pow2(f.Width())
    ensures GetFromPointerBuilder<T>(p, structSize).Ok?
    ensures GetFromPointerBuilder<T>(p, structSize).value.Len() == p.target.list.Len()
    ensures Layout.GetDataFieldMask(GetFromPointerBuilder<T>(p, structSize).value.builder.elements[i].AsReader(), f, mask)
         == Layout.GetDataFieldMask(p.target.list.elements[i], f, mask)
    ensures Layout.GetPointerField(GetFromPointerBuilder<T>(p, structSize).value.builder.elements[i].AsReader(), index)
         == Layout.GetPointerField(p.target.list.elements[i], index)
  {
    Layout.WidenPreservesFields(p.target.list.elements[i], structSize, f, mask, index);
  }

  /** `SetPointerBuilder::set_pointer_builder`: store exactly the reader's list in the slot. */
  function SetPointerBuilder<T>(p: Layout.PointerBuilder, value: Reader<T>): (r: (Layout.PointerBuilder, Result<(), Layout.Error>))
    ensures r.0.target == Layout.ListPointer(value.reader)
    ensures r.1.Ok?
  {
    Layout.SetList(p, value.reader)
  }

  /** A list stored with `set_pointer_builder` reads back, through `get_from_pointer`, as the same list. */
  lemma SetThenGetFromPointer<T>(p: Layout.PointerBuilder, value: Reader<T>)
    ensures GetFromPointer<T>(SetPointerBuilder(p, value).0.target) == Ok(value)
  {
  }
}
