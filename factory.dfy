/** Item 18: factories returning a `unique_ptr<Foo>` to an `A` or a `B` by a
    type tag. The objects are never changed after construction, so a `Foo`
    is a value that remembers its dynamic type; a null `unique_ptr` is
    `None`. */
module Factory {
  import opened Wrappers

  /** `enum class Types { A, B }` over its underlying `int`: the two
      enumerators, and any other value, obtainable by a cast. */
  type Types = int
  const TypeA: Types := 0
  const TypeB: Types := 1

  /** The message of the `runtime_error` for any other tag. */
  const UnknownType := "Unknown type supplied."

  datatype DynamicType = ClassA | ClassB

  /** A `Foo` subobject (`_a`) and the class it was created as. */
  datatype Foo = Foo(dynamicType: DynamicType, a: int)
  {
    /** `get_a()`, the same for `Foo`, `A` and `B`: the stored `_a`,
        whichever class the object was created as. */
    function GetA(): (r: int)
      ensures r == a
    {
      a
    }
  }

  /** `A(i)`: inherits `Foo(int)`, so `get_a()` is `i`. */
  function NewA(i: int): (f: Foo)
    ensures f.dynamicType == ClassA && f.GetA() == i
  {
    Foo(ClassA, i)
  }

  /** `B(i)`: constructs its `Foo` part with `3 * i`. */
  function NewB(i: int): (f: Foo)
    ensures f.dynamicType == ClassB && f.GetA() == 3 * i
  {
    Foo(ClassB, 3 * i)
  }

  /** `make_foo_derivates_1(t, i)`: an `A` for tag `A`, a `B` for tag `B`,
      and `runtime_error("Unknown type supplied.")` for anything else. */
  function MakeFooDerivates1(t: Types, i: int): (r: Result<Foo, string>)
    ensures r.Ok? <==> t == TypeA || t == TypeB
    ensures r.Err? ==> r.error == UnknownType
    ensures r.Ok? ==> (r.value.dynamicType == ClassA <==> t == TypeA)
    ensures r.Ok? ==> r.value.GetA() == if t == TypeA then i else 3 * i
  {
    if t == TypeA then Ok(NewA(i))
    else if t == TypeB then Ok(NewB(i))
    else Err(UnknownType)
  }

  /** `make_foo_derivates_2(t, i)`: starts from a null pointer, returns a
      new `A` directly for tag `A`, resets the pointer to a new `B` for tag
      `B`, and throws for anything else. The result is never null and holds
      what `make_foo_derivates_1` builds. */
  method MakeFooDerivates2(t: Types, i: int) returns (r: Result<Option<Foo>, string>)
    ensures r.Err? <==> MakeFooDerivates1(t, i).Err?
    ensures r.Err? ==> r.error == UnknownType
    ensures r.Ok? ==> r.value == Some(MakeFooDerivates1(t, i).value)
  {
    var ptr: Option<Foo> := None;
    if t == TypeA {
      return Ok(Some(NewA(i)));
    } else if t == TypeB {
      ptr := Some(NewB(i));
    } else {
      return Err(UnknownType);
    }
    return Ok(ptr);
  }

  /** Item 18's example: with 8, `A` reports 8 and `B` reports 24. */
  method Example() returns (a1: int, b1: int, a2: int, b2: int)
    ensures a1 == 8 && b1 == 24
    ensures a2 == 8 && b2 == 24
  {
    a1 := MakeFooDerivates1(TypeA, 8).value.GetA();
    b1 := MakeFooDerivates1(TypeB, 8).value.GetA();
    var p := MakeFooDerivates2(TypeA, 8);
    a2 := p.value.value.GetA();
    p := MakeFooDerivates2(TypeB, 8);
    b2 := p.value.value.GetA();
  }
}
