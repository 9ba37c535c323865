/** Item 19: `Widget2` objects created through a factory share one vector of
    `shared_ptr<Widget2>`; `do_stuff()` appends a handle to the calling
    object itself (`shared_from_this()`). Handles are modelled as object
    references, so "a handle to itself" is reference equality. */
module SelfRegistering {

  /** The shared `vector<shared_ptr<Widget2>>`. */
  class Registry {
    var handles: seq<Widget2>

    /** `std::make_shared<vector<...>>()`: an empty vector. */
    constructor ()
      ensures handles == []
    {
      handles := [];
    }

    /** `size()`. */
    function Size(): (n: nat)
      reads this
      ensures n == |handles|
    {
      |handles|
    }
  }

  class Widget2 {
    /** `_v`: the shared vector. */
    const v: Registry
    /** `_i`. */
    const i: int

    /** The private constructor: stores the shared vector and the number. */
    constructor (v: Registry, i: int)
      ensures this.v == v && this.i == i
    {
      this.v := v;
      this.i := i;
    }

    /** `create(v, i)`: a new heap object sharing `v`; the vector itself is
        not touched. */
    static method Create(v: Registry, i: int) returns (w: Widget2)
      ensures fresh(w)
      ensures w.v == v && w.i == i
      ensures unchanged(v)
    {
      w := new Widget2(v, i);
    }

    /** `do_stuff()`: appends one handle, to this very object, at the end of
        the shared vector; the earlier entries stay as they were. */
    method DoStuff()
      modifies v
      ensures v.handles == old(v.handles) + [this]
    {
      v.handles := v.handles + [this];
    }

    /** `get_i()`, which reads and changes nothing. */
    method GetI() returns (r: int)
      ensures r == i
    {
      r := i;
    }
  }

  /** The numbers of the registered objects, in vector order. */
  function Numbers(handles: seq<Widget2>): (ns: seq<int>)
    ensures |ns| == |handles|
    ensures forall k :: 0 <= k < |handles| ==> ns[k] == handles[k].i
  {
    if handles == [] then [] else [handles[0].i] + Numbers(handles[1..])
  }

  /** Item 19's example: three widgets created on one empty vector leave it
      empty; after each calls `do_stuff()` in turn the vector holds the three
      of them in call order, whose numbers are 24, 42, 8. */
  method Example() returns (sizeAfterCreate: nat, sizeAfterStuff: nat, numbers: seq<int>)
    ensures sizeAfterCreate == 0
    ensures sizeAfterStuff == 3
    ensures numbers == [24, 42, 8]
  {
    var svspw := new Registry();
    var w1 := Widget2.Create(svspw, 24);
    var w2 := Widget2.Create(svspw, 42);
    var w3 := Widget2.Create(svspw, 8);
    sizeAfterCreate := svspw.Size();
    w1.DoStuff();
    w2.DoStuff();
    w3.DoStuff();
    sizeAfterStuff := svspw.Size();
    assert svspw.handles == [w1, w2, w3];
    numbers := Numbers(svspw.handles);
  }
}
