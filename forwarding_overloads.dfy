/** Item 26: three versions of `log_and_add` (by `const string&`, by
    forwarding reference, and a forwarding reference overloaded with
    `int`), and a `Foo` whose forwarding constructor sits beside an `int`
    one. Whether the argument is copied or moved into `names` changes only
    the cost, not the entry, so the value category is not modelled. The log
    line and its timestamp are not modelled either. */
module ForwardingOverloads {
  import opened NameTable

  /** `log_and_add_1(const string& name)`. */
  method LogAndAdd1(log: NameLog, name: string)
    modifies log
    ensures log.names == old(log.names) + [name]
  {
    log.EmplaceBack(name);
  }

  /** `log_and_add_2(T&& name)`. */
  method LogAndAdd2(log: NameLog, name: string)
    modifies log
    ensures log.names == old(log.names) + [name]
  {
    log.EmplaceBack(name);
  }

  /** `log_and_add_3(T&& name)`, chosen for every non-`int` argument. */
  method LogAndAdd3(log: NameLog, name: string)
    modifies log
    ensures log.names == old(log.names) + [name]
  {
    log.EmplaceBack(name);
  }

  /** `log_and_add_3(int idx)`: appends `name_from_idx[idx]`. */
  method LogAndAdd3Index(log: NameLog, idx: int)
    requires ValidIndex(idx)
    modifies log
    ensures log.names == old(log.names) + [NameFromIdx[idx]]
  {
    log.EmplaceBack(NameFromIdx[idx]);
  }

  /** Item 26's three logging blocks, all appending to the one `names`. */
  method LoggingExample() returns (names: seq<string>)
    ensures names == ["Darlan", "Persephone", "Paty",
                      "Darlene", "Persephone", "Paty",
                      "Darlene", "Persephone", "Paty", "Nero"]
  {
    var log := new NameLog();
    var outerName := "Darlan";
    LogAndAdd1(log, outerName);
    LogAndAdd1(log, "Persephone");
    LogAndAdd1(log, "Paty");
    outerName := "Darlene";
    LogAndAdd2(log, outerName);
    LogAndAdd2(log, "Persephone");
    LogAndAdd2(log, "Paty");
    LogAndAdd3(log, outerName);
    LogAndAdd3(log, "Persephone");
    LogAndAdd3(log, "Paty");
    LogAndAdd3Index(log, 2);
    names := log.names;
  }

  /** Item 26's `Foo`. */
  class Foo {
    var name: string

    /** `template <typename T> Foo(T&& name)`: the name is the argument. */
    constructor FromName(s: string)
      ensures name == s
    {
      name := s;
    }

    /** `Foo(int idx)`: the name is `name_from_idx[idx]`. */
    constructor FromIdx(idx: int)
      requires ValidIndex(idx)
      ensures name == NameFromIdx[idx]
    {
      name := NameFromIdx[idx];
    }

    /** `Foo(const Foo& f)`: copies the name. */
    constructor Copy(f: Foo)
      ensures name == f.name
    {
      name := f.name;
    }

    /** `Foo(Foo&& f)`: moves the name; the moved-from string is left
        unspecified. */
    constructor Move(f: Foo)
      modifies f
      ensures name == old(f.name)
    {
      name := f.name;
      new;
      f.name := *;
    }
  }

  /** Item 26's constructor example: `Foo f1{"Vergil"}`, `Foo f2{2}`, and a
      copy of `f1` made through `std::as_const`. */
  method ConstructorExample() returns (n1: string, n2: string, n3: string)
    ensures n1 == "Vergil" && n2 == "Nero" && n3 == "Vergil"
  {
    var f1 := new Foo.FromName("Vergil");
    var f2 := new Foo.FromIdx(2);
    var f3 := new Foo.Copy(f1);
    n1, n2, n3 := f1.name, f2.name, f3.name;
  }
}
