/** Item 27: `log_and_add` forwards its argument to one of two
    `log_and_add_impl` overloads chosen by the tag
    `is_integral<remove_reference_t<T>>`. The compile-time choice is a value
    here: an integral argument is `Idx`, anything else `Name`. The log line
    and its timestamp are not modelled. */
module TagDispatch {
  import opened NameTable

  /** The argument as the dispatch sees it. */
  datatype Arg = Idx(idx: int) | Name(name: string)

  /** `std::is_integral<...>()`, the tag. */
  predicate IsIntegral(arg: Arg)
  {
    arg.Idx?
  }

  /** An integral argument must index the table. */
  predicate Admissible(arg: Arg)
  {
    arg.Idx? ==> ValidIndex(arg.idx)
  }

  /** The string an argument stands for: a table entry for an index, the
      argument itself for anything else. */
  function NameOf(arg: Arg): (s: string)
    requires Admissible(arg)
    ensures IsIntegral(arg) ==> s == NameFromIdx[arg.idx]
    ensures !IsIntegral(arg) ==> s == arg.name
  {
    match arg
    case Idx(i) => NameFromIdx[i]
    case Name(n) => n
  }

  /** `log_and_add_impl(int idx, std::true_type)`. */
  method LogAndAddImplIndex(log: NameLog, idx: int)
    requires ValidIndex(idx)
    modifies log
    ensures log.names == old(log.names) + [NameFromIdx[idx]]
  {
    log.EmplaceBack(NameFromIdx[idx]);
  }

  /** `log_and_add_impl(T&& name, std::false_type)`. */
  method LogAndAddImplName(log: NameLog, name: string)
    modifies log
    ensures log.names == old(log.names) + [name]
  {
    log.EmplaceBack(name);
  }

  /** `log_and_add(T&& name)`: dispatches on the tag; either way exactly one
      entry, the argument's name, is appended and earlier entries stay. */
  method LogAndAdd(log: NameLog, arg: Arg)
    requires Admissible(arg)
    modifies log
    ensures log.names == old(log.names) + [NameOf(arg)]
  {
    if IsIntegral(arg) {
      LogAndAddImplIndex(log, arg.idx);
    } else {
      LogAndAddImplName(log, arg.name);
    }
  }

  /** Item 27's dispatch example: a named string, a temporary, a literal,
      `2` and `short{0}` (integral too). */
  method DispatchExample() returns (names: seq<string>)
    ensures names == ["Darlene", "Persephone", "Paty", "Nero", "Dante"]
  {
    var log := new NameLog();
    var outerName := "Darlene";
    LogAndAdd(log, Name(outerName));
    LogAndAdd(log, Name("Persephone"));
    LogAndAdd(log, Name("Paty"));
    LogAndAdd(log, Idx(2));
    LogAndAdd(log, Idx(0));
    names := log.names;
  }

  /** Item 27's `Foo`. */
  class Foo {
    var name: string

    /** The constructor template, enabled for arguments that are neither
        integral nor a `Foo`: the name is the argument. */
    constructor FromName(s: string)
      ensures name == s
    {
      name := s;
    }

    /** `Foo(int idx)`: the name is `name_from_idx[idx]`. */
    constructor FromIdx(idx: int)
      requires ValidIndex(idx)
      ensures name == NameFromIdx[idx]
    {
      name := NameFromIdx[idx];
    }

    /** Copy constructor: the same name; the source is not touched. */
    constructor Copy(f: Foo)
      ensures name == f.name
    {
      name := f.name;
    }

    /** Move constructor: takes the source's name; the moved-from string's
        contents are left unspecified. */
    constructor Move(f: Foo)
      modifies f
      ensures name == old(f.name)
    {
      name := f.name;
      new;
      f.name := *;
    }

    /** `get_name()`. */
    method GetName() returns (s: string)
      ensures s == name
    {
      s := name;
    }
  }

  /** `DerivedFoo`: inherits `Foo`'s constructors; its copy and move
      constructors forward to `Foo`'s. Its `Foo` part is the object `base`. */
  class DerivedFoo {
    const base: Foo

    constructor FromName(s: string)
      ensures fresh(base) && base.name == s
    {
      base := new Foo.FromName(s);
    }

    constructor FromIdx(idx: int)
      requires ValidIndex(idx)
      ensures fresh(base) && base.name == NameFromIdx[idx]
    {
      base := new Foo.FromIdx(idx);
    }

    /** `DerivedFoo(const DerivedFoo& r) : Foo(r)`. */
    constructor Copy(r: DerivedFoo)
      ensures fresh(base) && base.name == r.base.name
    {
      base := new Foo.Copy(r.base);
    }

    /** `DerivedFoo(DerivedFoo&& r) : Foo(std::move(r))`. */
    constructor Move(r: DerivedFoo)
      modifies r.base
      ensures fresh(base) && base.name == old(r.base.name)
    {
      base := new Foo.Move(r.base);
    }

    method GetName() returns (s: string)
      ensures s == base.name
    {
      s := base.GetName();
    }
  }

  /** Item 27's constructor example. */
  method ConstructorExample() returns (n1: string, n2: string, n3: string, n4: string)
    ensures n1 == "Dante" && n2 == "Nero" && n3 == "Vergil" && n4 == "Vergil"
  {
    var f1 := new Foo.FromName("Dante");
    n1 := f1.GetName();
    var f2 := new Foo.FromIdx(2);
    n2 := f2.GetName();
    var df1 := new DerivedFoo.FromName("Vergil");
    n3 := df1.GetName();
    var df2 := new DerivedFoo.Copy(df1);
    n4 := df2.GetName();
  }
}
