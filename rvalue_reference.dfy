/**
 * Rvalue-reference demo: a `Person` whose temporary can be mutated, and a
 * `Container` that owns a 20-int heap buffer and shows the difference
 * between copying that buffer and moving (stealing) it.
 */
module RvalueReference {
  import opened CInt

  /** `isRvalueImmutable::Person`. */
  class Person {
    var age: Int

    /** `Person()`: every person starts at age 10. */
    constructor ()
      ensures age == 10
    {
      age := 10;
    }

    /** `incrementAge()`; signed overflow is undefined, so the age must be below `INT_MAX`. */
    method IncrementAge()
      requires age < INT_MAX
      modifies this
      ensures age == old(age) + 1
    {
      age := age + 1;
    }
  }

  /** `getPerson().incrementAge()`: the temporary is modified, not an error. */
  method PersonTest() returns (age: int)
    ensures age == 11
  {
    var p := new Person();
    p.IncrementAge();
    age := p.age;
  }

  /** The buffer size every `Container` allocates. */
  const Size: nat := 20

  /** `moveConstructorAndRvalueReference::Container`, owner of the `m_Data` pointer. */
  class Container {
    var data: array?<int>

    /** The container owns a buffer of the right size (it has not been moved from). */
    predicate Owns()
      reads this
    {
      data != null && data.Length == Size
    }

    /** `Container()`: allocates a new, uninitialised 20-int buffer. */
    constructor ()
      ensures Owns() && fresh(data)
    {
      data := new int[Size];
    }

    /**
     * `Container(const Container &)`: allocates a new buffer and copies the
     * 20 elements of the source into it; the source is read only.
     */
    constructor Copy(obj: Container)
      requires obj.Owns()
      ensures Owns() && fresh(data)
      ensures data[..] == obj.data[..]
      ensures obj.data == old(obj.data) && obj.data[..] == old(obj.data[..])
    {
      var buffer := new int[Size];
      var i := 0;
      while i < Size
        invariant 0 <= i <= Size
        invariant forall k :: 0 <= k < i ==> buffer[k] == obj.data[k]
      {
        buffer[i] := obj.data[i];
        i := i + 1;
      }
      data := buffer;
    }

    /**
     * `Container(Container &&)`: takes over the source's pointer, whatever it
     * is, and sets the source's pointer to null.
     */
    constructor Move(obj: Container)
      modifies obj
      ensures data == old(obj.data) && obj.data == null
    {
      data := obj.data;
      obj.data := null;
    }

    /**
     * `operator=(Container &&)`: on self-assignment nothing changes;
     * otherwise this object takes the source's pointer and the source is set
     * to null. The buffer this object held before is neither freed nor
     * written (it leaks). Returns `*this`.
     */
    method MoveAssign(obj: Container) returns (self: Container)
      modifies this, obj
      ensures self == this
      ensures obj == this ==> data == old(data)
      ensures obj != this ==> data == old(obj.data) && obj.data == null
      ensures old(data) != null ==> old(data)[..] == old(data[..])
    {
      if this != obj {
        data := obj.data;
        obj.data := null;
      }
      self := this;
    }

    /**
     * `~Container()`: deletes the buffer only when the pointer is not null
     * and leaves the pointer null. `released` is the buffer handed to
     * `delete[]`, or null when nothing was deleted.
     */
    method Destroy() returns (released: array?<int>)
      modifies this
      ensures released == old(data)
      ensures data == null
    {
      released := null;
      if data != null {
        released := data;
        data := null;
      }
    }
  }

  /** `getContainer()`: returns a pointer to a newly allocated, default-constructed container. */
  method GetContainer() returns (c: Container)
    ensures fresh(c) && fresh(c.data) && c.Owns()
  {
    c := new Container();
  }

  /**
   * A copy and the original are independent: writing through the copy
   * leaves the original's buffer as it was.
   */
  method CopyIsIndependent() returns (before: seq<int>, original: seq<int>, copy: seq<int>)
    ensures |before| == Size
    ensures original == before
    ensures copy == [7] + before[1..]
  {
    var a := new Container();
    before := a.data[..];
    var b := new Container.Copy(a);
    b.data[0] := 7;
    original, copy := a.data[..], b.data[..];
  }

  /** Moving leaves exactly one owner of the buffer. */
  method MoveTransfersOwnership() returns (sourceEmpty: bool, sameBuffer: bool)
    ensures sourceEmpty && sameBuffer
  {
    var a := new Container();
    var buffer := a.data;
    var b := new Container.Move(a);
    sourceEmpty := a.data == null;
    sameBuffer := b.data == buffer;
  }
}
