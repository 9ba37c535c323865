/** Item 22: a `Widget` whose state lives in a heap-allocated `Impl` owned
    through a `std::unique_ptr` (`pImpl`). Copies duplicate the `Impl`,
    moves hand the pointer over and leave the source null. */
module Pimpl {

  /** `struct Widget::Impl { string name; vector<double> data; }`. */
  class Impl {
    var name: string
    var data: seq<real>

    constructor (name: string, data: seq<real>)
      ensures this.name == name && this.data == data
    {
      this.name := name;
      this.data := data;
    }
  }

  class Widget {
    /** `std::unique_ptr<Impl> pImpl`; `null` once moved from. */
    var pImpl: Impl?

    /** `Widget(string name)`: a new `Impl` with that name and no data. */
    constructor (name: string)
      ensures pImpl != null && fresh(pImpl)
      ensures pImpl.name == name && pImpl.data == []
    {
      pImpl := new Impl(name, []);
    }

    /** Copy constructor: a new `Impl` holding a copy of `*other.pImpl`;
        the source is not touched. Dereferencing needs a non-null source. */
    constructor Copy(other: Widget)
      requires other.pImpl != null
      ensures pImpl != null && fresh(pImpl)
      ensures pImpl.name == other.pImpl.name && pImpl.data == other.pImpl.data
    {
      pImpl := new Impl(other.pImpl.name, other.pImpl.data);
    }

    /** Copy assignment `*pImpl = *other.pImpl`: overwrites this widget's own
        `Impl` in place (no new `Impl`) and returns this widget. Both pointers
        are dereferenced, so both must be non-null. */
    method CopyAssign(other: Widget) returns (self: Widget)
      requires pImpl != null && other.pImpl != null
      modifies pImpl
      ensures self == this
      ensures pImpl == old(pImpl)
      ensures pImpl.name == old(other.pImpl.name) && pImpl.data == old(other.pImpl.data)
      ensures other.pImpl == old(other.pImpl)
      ensures other.pImpl.name == old(other.pImpl.name) && other.pImpl.data == old(other.pImpl.data)
    {
      var source := other.pImpl;
      var name, data := source.name, source.data;
      pImpl.name, pImpl.data := name, data;
      self := this;
    }

    /** Defaulted move constructor: takes `other`'s pointer and leaves
        `other` null. */
    constructor Move(other: Widget)
      modifies other
      ensures pImpl == old(other.pImpl)
      ensures other.pImpl == null
    {
      pImpl := other.pImpl;
      new;
      other.pImpl := null;
    }

    /** Defaulted move assignment `pImpl = std::move(other.pImpl)`: this
        widget takes `other`'s pointer (its previous `Impl` is destroyed) and
        `other` is left null; moving a widget onto itself changes nothing. */
    method MoveAssign(other: Widget) returns (self: Widget)
      modifies this, other
      ensures self == this
      ensures pImpl == old(other.pImpl)
      ensures other != this ==> other.pImpl == null
    {
      var taken := other.pImpl;
      other.pImpl := null;
      pImpl := taken;
      self := this;
    }

    /** `get_name()`: the name in the `Impl`; a null `pImpl` (a moved-from
        widget) may not be asked. */
    method GetName() returns (name: string)
      requires pImpl != null
      ensures name == pImpl.name
    {
      name := pImpl.name;
    }
  }

  /** Item 22's example: a widget moved into another reports its name from
      the new owner, and the moved-from widget has no `Impl` left. */
  method MoveExample() returns (name: string, sourceEmpty: bool)
    ensures name == "lakdsfj"
    ensures sourceEmpty
  {
    var w := new Widget("lakdsfj");
    var w2 := new Widget.Move(w);
    name := w2.GetName();
    sourceEmpty := w.pImpl == null;
  }

  /** Copies are deep: changing the copy's `Impl` through copy assignment
      leaves the original's name alone. */
  method CopyIsIndependent() returns (original: string, copy: string)
    ensures original == "a"
    ensures copy == "b"
  {
    var w := new Widget("a");
    var c := new Widget.Copy(w);
    var other := new Widget("b");
    var self := c.CopyAssign(other);
    original := w.GetName();
    copy := c.GetName();
  }
}
