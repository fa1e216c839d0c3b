/** `CappedArray<T>`: a fixed-capacity, push-only array over a buffer that it
    either owns (allocated by `alloc`) or borrows (installed by `setPtr`). */
module CappedArrays {
  import opened Types

  class CappedArray<T(0)> {
    /** `mElements`, `mSize`, `mCapacity`, `mAllocated` */
    var elements: array<T>
    var size: nat
    var capacity: nat
    var owned: bool

    /** The buffer holds at least `capacity` slots and at most `capacity` are in use. */
    ghost predicate Valid()
      reads this
    {
      size <= capacity <= elements.Length
    }

    /** The elements pushed since storage was installed or last cleared. */
    ghost function Contents(): seq<T>
      requires Valid()
      reads this, elements
    {
      elements[..size]
    }

    /** The default constructor. The source leaves every field indeterminate;
        the model starts empty, with no capacity and no owned storage. */
    constructor ()
      ensures Valid() && Contents() == []
      ensures size == 0 && capacity == 0 && !owned
    {
      elements := new T[0];
      size := 0;
      capacity := 0;
      owned := false;
    }

    /** The move constructor. It clears the source's ownership flag first and
        then copies it, so neither object owns the shared buffer afterwards. */
    constructor MoveFrom(other: CappedArray<T>)
      requires other.Valid()
      modifies other
      ensures Valid() && other.Valid()
      ensures elements == old(other.elements) && size == old(other.size)
      ensures capacity == old(other.capacity) && !owned
      ensures other.elements == old(other.elements) && other.size == old(other.size)
      ensures other.capacity == old(other.capacity) && !other.owned
      ensures Contents() == other.Contents() == old(other.Contents())
    {
      other.owned := false;
      elements := other.elements;
      size := other.size;
      capacity := other.capacity;
      owned := other.owned;
    }

    /** Move assignment: the same field copies as the move constructor. Storage
        this object owned before is not released. */
    method MoveAssign(other: CappedArray<T>)
      requires Valid() && other.Valid()
      modifies this, other
      ensures Valid() && other.Valid()
      ensures elements == old(other.elements) && size == old(other.size)
      ensures capacity == old(other.capacity) && !owned
      ensures other.elements == old(other.elements) && other.size == old(other.size)
      ensures other.capacity == old(other.capacity) && !other.owned
      ensures Contents() == other.Contents() == old(other.Contents())
    {
      other.owned := false;
      elements := other.elements;
      size := other.size;
      capacity := other.capacity;
      owned := other.owned;
    }

    /** The destructor: it releases the buffer exactly when this object owns it. */
    method Destroy() returns (freesStorage: bool)
      ensures freesStorage <==> owned
    {
      freesStorage := false;
      if owned {
        freesStorage := true;
      }
    }

    /** `alloc(max)`: fresh owned storage for `max` elements, none in use. */
    method Alloc(max: nat)
      modifies this
      ensures Valid() && Contents() == []
      ensures fresh(elements) && elements.Length == max
      ensures size == 0 && capacity == max && owned
    {
      elements := new T[max];
      size := 0;
      capacity := max;
      owned := true;
    }

    /** `setPtr(ptr, max)`: borrowed storage of `max` elements, none in use.
        The caller's buffer must hold `max` elements. */
    method SetPtr(ptr: array<T>, max: nat)
      requires max <= ptr.Length
      modifies this
      ensures Valid() && Contents() == []
      ensures elements == ptr && unchanged(ptr)
      ensures size == 0 && capacity == max && !owned
    {
      elements := ptr;
      size := 0;
      capacity := max;
      owned := false;
    }

    /** `push(elem)`: stores `elem` at the first free slot and returns its index.
        The source asserts that a free slot exists. */
    method Push(elem: T) returns (idx: nat)
      requires Valid() && size < capacity
      modifies this`size, elements
      ensures Valid()
      ensures elements == old(elements) && capacity == old(capacity) && owned == old(owned)
      ensures idx == old(size) && size == old(size) + 1
      ensures elements[idx] == elem
      ensures forall j :: 0 <= j < elements.Length && j != idx ==> elements[j] == old(elements[j])
      ensures Contents() == old(Contents()) + [elem]
    {
      idx := size;
      elements[size] := elem;
      size := size + 1;
    }

    /** `clear()`: forgets the stored elements; buffer, capacity, ownership and
        the buffer's contents stay as they were. */
    method Clear()
      requires Valid()
      modifies this`size
      ensures Valid() && Contents() == []
      ensures size == 0
      ensures elements == old(elements) && elements[..] == old(elements[..])
      ensures capacity == old(capacity) && owned == old(owned)
    {
      size := 0;
    }

    /** `size()` */
    method Size() returns (n: nat)
      requires Valid()
      ensures n == |Contents()|
    {
      n := size;
    }

    /** `capacity()` */
    method Capacity() returns (n: nat)
      requires Valid()
      ensures n == capacity && n >= |Contents()|
    {
      n := capacity;
    }

    /** `data()` */
    method Data() returns (a: array<T>)
      ensures a == elements
    {
      a := elements;
    }

    /** Reading `operator[](i)`. Like the source it does not compare `i` with
        the size or the capacity; the slot must lie within the buffer. */
    method Get(i: u32) returns (x: T)
      requires Valid() && i < elements.Length
      ensures x == elements[i]
      ensures i < size ==> x == Contents()[i]
    {
      x := elements[i];
    }

    /** Writing through `operator[](i)`, again checked only against the buffer. */
    method Set(i: u32, x: T)
      requires Valid() && i < elements.Length
      modifies elements
      ensures elements[i] == x
      ensures forall j :: 0 <= j < elements.Length && j != i ==> elements[j] == old(elements[j])
    {
      elements[i] := x;
    }

    /** `begin()`: an iterator at index 0. */
    function Begin(): (it: Iterator<T>)
      ensures it.container == this && it.index == 0
    {
      Iterator(this, 0)
    }

    /** `end()`: an iterator at index `mSize`, narrowed to the iterator's `uint32_t`. */
    function End(): (it: Iterator<T>)
      reads this
      ensures it.container == this
      ensures size < U32_MODULUS ==> it.index == size
    {
      Iterator(this, size % U32_MODULUS)
    }

    /** On an array of fewer than 2^32 elements, `begin() == end()` exactly when it is empty. */
    lemma BeginEqualsEndIffEmpty()
      requires Valid() && size < U32_MODULUS
      ensures Begin().Equals(End()) <==> Contents() == []
    {
    }
  }

  /** `CappedArray<T>::iterator`: a container pointer and an index. */
  datatype Iterator<T(0)> = Iterator(container: CappedArray<T>, index: u32) {
    /** `operator==`: only the indices are compared, not the containers, so two
        iterators are equal exactly when they differ at most in their container. */
    predicate Equals(other: Iterator<T>): (eq: bool)
      ensures eq <==> Iterator(other.container, index) == other
    {
      index == other.index
    }

    /** `operator!=`, the negation of `operator==`. */
    predicate NotEquals(other: Iterator<T>): (ne: bool)
      ensures ne <==> !Equals(other)
    {
      index != other.index
    }
  }

  /** `!=` is the negation of `==`, whatever containers the iterators point into. */
  lemma IteratorComparison<T(0)>(a: Iterator<T>, b: Iterator<T>)
    ensures a.NotEquals(b) <==> !a.Equals(b)
  {
  }
}
