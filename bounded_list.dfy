/**
 * The C++ `List` of the object-orientation examples: a fixed array of 100
 * `int`s and a count `size` of those in use. `add` appends while there is
 * room and silently drops the element once the array is full.
 */
module BoundedList {
  import opened CInt

  const Capacity := 100

  class List {
    /** `int elements[100]`. */
    var elements: array<Int32>
    /** `int size`. */
    var size: int

    /** The count never leaves `0..100`, and the array is the list's own 100 entries. */
    predicate Valid()
      reads this
    {
      elements.Length == Capacity && 0 <= size <= Capacity
    }

    /** The elements added and kept, in order. */
    function Contents(): (r: seq<Int32>)
      reads this, elements
      requires Valid()
      ensures |r| == size
    {
      elements[..size]
    }

    /**
     * `List() : size(0) {}`. The C++ array is left uninitialised; Dafny
     * fills it with zeros, which no operation reads.
     */
    constructor ()
      ensures Valid() && fresh(elements) && Contents() == []
    {
      elements := new Int32[Capacity];
      size := 0;
    }

    /** `add(element)`: appended when the list is not full, ignored when it is. */
    method Add(element: Int32)
      requires Valid()
      modifies this, elements
      ensures Valid() && elements == old(elements)
      ensures old(size) < Capacity ==> Contents() == old(Contents()) + [element]
      ensures old(size) == Capacity ==> Contents() == old(Contents())
    {
      if size < Capacity {
        elements[size] := element;
        size := size + 1;
      }
    }

    /** `getSize()`: how many elements the list holds. */
    function GetSize(): (r: int)
      reads this, elements
      requires Valid()
      ensures 0 <= r <= Capacity && r == |Contents()|
    {
      size
    }
  }

  /** `main`'s use of the class: three adds to a new list give a size of 3, the elements in order. */
  method ThreeAdds() returns (n: int, contents: seq<Int32>)
    ensures n == 3 && contents == [1, 2, 3]
  {
    var list := new List();
    list.Add(1);
    list.Add(2);
    list.Add(3);
    n := list.GetSize();
    contents := list.Contents();
  }

  /** Once full, a list stays full whatever is added, and keeps its elements. */
  method FillThenAdd(x: Int32) returns (before: seq<Int32>, after: seq<Int32>)
    ensures |before| == Capacity && after == before
  {
    var list := new List();
    var i := 0;
    while i < Capacity
      invariant 0 <= i <= Capacity
      invariant list.Valid() && list.size == i && fresh(list.elements)
    {
      list.Add(x);
      i := i + 1;
    }
    before := list.Contents();
    list.Add(x);
    after := list.Contents();
  }
}
