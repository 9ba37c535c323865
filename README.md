# Effective Modern C++ examples: the stateful core, in Dafny

The repository is a set of C++ teaching examples, one file per item of
*Effective Modern C++*. Most items only print type-deduction results. A few
hold small classes and functions whose behaviour can be stated and proved,
and this project models those:

- `ThreadRAII` (item 37): an owner of a `std::thread` whose destructor joins
  or detaches a joinable thread, so the thread is never destroyed joinable.
  `std::thread` is a `Thread` object with one of five states. Only
  `Attached` is joinable; the other four are the unjoinable kinds the item
  lists (default-constructed, joined, detached, moved-from).
- The lazily cached `calc_a()` of `Foo1` and `Foo2` (item 16).
- The pimpl `Widget` (item 22): deep copy, in-place copy assignment, and
  moves that leave the source's `pImpl` null.
- `Widget2` (item 19): objects that append a handle to themselves to a
  shared vector.
- The find-then-insert on a vector (item 13).
- `constexpr pow` (item 15).
- `MyAlloc::allocate` with its size-overflow guard, `deallocate`, and the
  allocator comparisons (item 9). `malloc` and `free` are a `Heap` object,
  and `Malloc` may return null.
- The `Foo`/`A`/`B` factories (item 18).
- The logging functions that append to a global `names` vector, and the
  `Foo` constructors beside them (items 26 and 27). The compile-time tag
  dispatch of item 27 is the value-level choice `Idx(i) | Name(s)`.

Each source file is one module: `ThreadRaii`, `LazyCache`, `Pimpl`,
`SelfRegistering`, `FindInsert`, `ConstexprPow`, `Allocator`, `Factory`,
`TagDispatch` and `ForwardingOverloads`. There are three shared helper
modules. `Wrappers` holds `Option` and `Result`, used for thrown exceptions.
`Ranges` holds `Iota`, which is `std::views::iota`. `NameTable` holds the
`name_from_idx` table and the `names` vector type.

Where the source changes an object in place, the model uses a class with
`modifies` clauses. The exception is item 13's local vector: it is a `seq`
value, and `insert` replaces it with a new value. Each method's `ensures` states the object's whole new
state. The pure parts are functions with lemmas. Each example `main` block
becomes a method whose `ensures` gives the values the example produces.

## Model

| member | source | states |
|---|---|---|
| `ThreadRaii.DisposalFor` | src/item_37.cpp:64-72 | the destructor makes no call exactly when the thread is unjoinable; it calls join exactly when the thread is joinable and the action is `join`, and detach exactly when it is joinable and the action is `detach` |
| `ThreadRaii.Disposed` | src/item_37.cpp:64-72 | after the destructor's call, the thread is never joinable, whatever the state and action; an already unjoinable thread is left as it was |
| `ThreadRaii.Thread.Empty` | src/item_37.cpp:104-105 | a default-constructed `std::thread` is the unjoinable `NoThread` |
| `ThreadRaii.Thread.Spawn` | src/item_37.cpp:94-100 | a started `std::thread` is joinable |
| `ThreadRaii.Thread.MoveConstruct` | src/item_37.cpp:107-109 | the new thread object is joinable exactly when the source was; the source ends unjoinable (`MovedFrom` if it held a thread) |
| `ThreadRaii.Thread.MoveAssign` | src/item_37.cpp:107-109 | the program terminates exactly when the target is joinable; otherwise the target takes over the source's thread and a distinct source ends unjoinable |
| `ThreadRaii.Thread.Join` | src/item_37.cpp:111-113 | succeeds exactly on a joinable thread and leaves it `Joined`; otherwise fails and changes nothing |
| `ThreadRaii.Thread.Detach` | src/item_37.cpp:115-117 | succeeds exactly on a joinable thread and leaves it `Detached`; otherwise fails and changes nothing |
| `ThreadRaii.ThreadRAII.constructor` | src/item_37.cpp:54 | stores the action unchanged; the fresh member thread is joinable exactly when the caller's was; the caller's thread ends unjoinable |
| `ThreadRaii.ThreadRAII.MoveFrom` | src/item_37.cpp:57 | the new owner takes the action and the joinability of the source's thread; the source keeps its action and ends with an unjoinable thread |
| `ThreadRaii.ThreadRAII.MoveAssign` | src/item_37.cpp:58 | the action is taken over; the program terminates exactly when the target's thread is still joinable; otherwise the thread is taken over and a distinct source ends unjoinable |
| `ThreadRaii.ThreadRAII.Destroy` | src/item_37.cpp:64-72 | the call made is `DisposalFor` of the old state and the action, the new state is `Disposed` of them, and the member's own destructor cannot terminate |
| `ThreadRaii.ThreadRAII.Get` | src/item_37.cpp:77 | returns the owned thread object itself and changes nothing |
| `ThreadRaii.ScopedJoin` | src/item_37.cpp:128-139 | a spawned thread wrapped with `join` is joined when the scope ends, and nothing terminates |
| `ThreadRaii.MovedFromIsInert` | src/item_37.cpp:57 | destroying a moved-from `ThreadRAII` makes no call; the new owner applies the action it took over |
| `LazyCache.Computed` | src/item_16.cpp:52 | `iota(3, 6)` converted to doubles is exactly 3, 4, 5 |
| `LazyCache.CalcAReturnsComputed` | src/item_16.cpp:49-56 | from a consistent state, one call returns 3, 4, 5 and leaves the flag set and the state consistent; with the flag already set it changes nothing |
| `LazyCache.FlagMonotone` | src/item_16.cpp:54 | once `is_a_valid` is set, any number of further calls leave the state unchanged |
| `LazyCache.RunFrom` | src/item_16.cpp:49-56 | in any run of n calls from a consistent state, every call returns 3, 4, 5, and at most one call (the first, when the flag was clear) takes the computing branch |
| `LazyCache.FreshComputesOnce` | src/item_16.cpp:62-63 | from a fresh object, n calls compute exactly once when n > 0, and all of them return 3, 4, 5 |
| `LazyCache.Foo1.constructor` | src/item_16.cpp:62-63 | a new object has the flag clear, an empty cache, and no computation done |
| `LazyCache.Foo1.CalcA` | src/item_16.cpp:46-57 | returns 3, 4, 5 and leaves the flag set; the first call computes and stores, later calls change nothing; at most one computation ever happens |
| `LazyCache.Foo2.constructor` | src/item_16.cpp:92-93 | as for `Foo1` |
| `LazyCache.Foo2.CalcA` | src/item_16.cpp:76-87 | the same step function as `Foo1.CalcA`, so sequentially it behaves the same |
| `LazyCache.RepeatedCalls` | src/item_16.cpp:46-57 | three calls on one object all return 3, 4, 5, and exactly one of them computes |
| `Pimpl.Widget.constructor` | src/item_22_Widget.cpp:13 | a fresh `Impl` with the given name and empty data |
| `Pimpl.Widget.Copy` | src/item_22_Widget.cpp:31-32 | a fresh `Impl` whose name and data equal the source's; the source must be non-null |
| `Pimpl.Widget.CopyAssign` | src/item_22_Widget.cpp:33-36 | the target keeps its own `Impl`, overwritten with the source's name and data; the source is unchanged; both must be non-null; returns the target |
| `Pimpl.Widget.Move` | src/item_22_Widget.cpp:42 | the new widget holds the source's `Impl` pointer; the source's `pImpl` is null |
| `Pimpl.Widget.MoveAssign` | src/item_22_Widget.cpp:43 | the target holds the source's old pointer; a distinct source is left null; returns the target |
| `Pimpl.Widget.GetName` | src/item_22_Widget.cpp:51 | returns the `Impl`'s name; a null `pImpl` is not allowed |
| `Pimpl.MoveExample` | src/item_22.cpp:63-67 | the moved-to widget reports "lakdsfj" and the moved-from widget has a null `pImpl` |
| `Pimpl.CopyIsIndependent` | src/item_22_Widget.cpp:31-36 | overwriting a copy through copy assignment leaves the original's name unchanged |
| `SelfRegistering.Registry.Size` | src/item_19.cpp:187 | the vector's size is its number of handles |
| `SelfRegistering.Widget2.constructor` | src/item_19.cpp:54-57 | stores the shared vector and the number |
| `SelfRegistering.Widget2.Create` | src/item_19.cpp:68-71 | a new object with `get_i() == i` sharing the same vector; the vector is not modified |
| `SelfRegistering.Widget2.DoStuff` | src/item_19.cpp:72-85 | appends exactly one handle, to the calling object itself, at the end of the shared vector; earlier entries are unchanged |
| `SelfRegistering.Widget2.GetI` | src/item_19.cpp:86 | returns the stored number and changes nothing |
| `SelfRegistering.Numbers` | src/item_19.cpp:194-196 | the `get_i` values of the handles, in vector order |
| `SelfRegistering.Example` | src/item_19.cpp:181-197 | the size is 0 after three `create` calls and 3 after three `do_stuff` calls, with numbers 24, 42, 8 in that order |
| `FindInsert.FirstIndex` | src/item_13.cpp:42 | a position at most the length; it holds the value unless it is the end; no earlier position holds the value |
| `FindInsert.Find` | src/item_13.cpp:42 | the linear search returns `FirstIndex` |
| `FindInsert.FirstIndexUnique` | src/item_13.cpp:42 | any position with the three properties of `std::find` is `FirstIndex` |
| `FindInsert.InsertAt` | src/item_13.cpp:45 | the length grows by the number inserted; elements before the position are unchanged; the inserted elements follow in order; the rest keep their order, shifted right |
| `FindInsert.InsertBeforeFirstFour` | src/item_13.cpp:42-46 | without a 4 the vector is unchanged; with one, 24 and 42 are inserted before the first 4, and the length grows by exactly 2 |
| `FindInsert.ExampleInsertion` | src/item_13.cpp:39-47 | on 0..9 there is a 4, and the insertion yields 0, 1, 2, 3, 24, 42, 4, 5, 6, 7, 8, 9 |
| `FindInsert.ModifiedVector` | src/item_13.cpp:39-47 | the example's final vector is 0, 1, 2, 3, 24, 42, 4, 5, 6, 7, 8, 9 |
| `Ranges.Iota` | src/item_13.cpp:39 | `iota(lo, hi)` has hi - lo elements, and element k is lo + k |
| `ConstexprPow.Pow` | src/item_15.cpp:41-48 | a non-positive exponent gives 1; a non-negative one gives base to the power exp (the loop invariant is `result == base^i`) |
| `ConstexprPow.ArrayExtent` | src/item_15.cpp:141-148 | `pow(2, 3)` is 8 |
| `Allocator.Rebind` | src/item_9.cpp:37-38 | the converted allocator has the new element size and compares equal to the original |
| `Allocator.TooMany` | src/item_9.cpp:41 | the guard of `allocate` holds exactly when `n * sizeof(T)` exceeds `SIZE_MAX` |
| `Allocator.GuardPreventsOverflow` | src/item_9.cpp:41-44 | `n <= SIZE_MAX / s` exactly when `n * s <= SIZE_MAX`, for any element size `s >= 1`: dividing first loses no count that fits |
| `Allocator.Equal` | src/item_9.cpp:64-67 | any two allocators compare equal |
| `Allocator.NotEqual` | src/item_9.cpp:68-71 | `!=` is always false, the negation of `==` |
| `Allocator.Heap.Malloc` | src/item_9.cpp:44 | takes a `size_t` byte count (at most `SizeMax`); returns null with the heap unchanged, or a new block that was not live before |
| `Allocator.Heap.Free` | src/item_9.cpp:54 | the block is no longer live |
| `Allocator.Allocate` | src/item_9.cpp:40-50 | `bad_array_new_length` exactly when the guard fails, which is exactly when `n * sizeof(T)` would exceed `SIZE_MAX`, with the heap untouched; the byte count passed to `malloc` fits in `size_t`; otherwise malloc's non-null block is returned and is newly live, or `bad_alloc` with the heap unchanged |
| `Allocator.Deallocate` | src/item_9.cpp:52-55 | frees the block and has no failure outcome |
| `Factory.Foo.GetA` | src/item_18.cpp:49-62 | returns the stored `_a`, for an object created as `A` or as `B` alike |
| `Factory.NewA` | src/item_18.cpp:52-57 | `A(i).get_a() == i` |
| `Factory.NewB` | src/item_18.cpp:59-63 | `B(i).get_a() == 3 * i` |
| `Factory.MakeFooDerivates1` | src/item_18.cpp:69-79 | succeeds exactly for tags `A` and `B`; the object is an `A` exactly for tag `A`; `get_a()` is `i` for `A` and `3 * i` for `B`; any other tag gives "Unknown type supplied." |
| `Factory.MakeFooDerivates2` | src/item_18.cpp:87-106 | fails exactly when `make_foo_derivates_1` does, with the same message; on success the pointer is non-null and holds the object `make_foo_derivates_1` builds |
| `Factory.Example` | src/item_18.cpp:125-147 | with 8, both factories give 8 for `A` and 24 for `B` |
| `NameTable.NameLog.constructor` | src/item_27.cpp:48 | `names` starts empty |
| `NameTable.NameLog.EmplaceBack` | src/item_27.cpp:60 | appends exactly one entry at the end |
| `TagDispatch.NameOf` | src/item_27.cpp:57-69 | an integral argument stands for `name_from_idx[idx]`; any other argument stands for itself |
| `TagDispatch.LogAndAddImplIndex` | src/item_27.cpp:57-61 | appends `name_from_idx[idx]`, for an index inside the table |
| `TagDispatch.LogAndAddImplName` | src/item_27.cpp:63-69 | appends the name itself |
| `TagDispatch.LogAndAdd` | src/item_27.cpp:76-82 | appends exactly one entry, `NameOf(arg)`, after the unchanged earlier entries |
| `TagDispatch.DispatchExample` | src/item_27.cpp:181-189 | the example leaves `names` as Darlene, Persephone, Paty, Nero, Dante |
| `TagDispatch.Foo.FromName` | src/item_27.cpp:109-119 | the name is the argument |
| `TagDispatch.Foo.FromIdx` | src/item_27.cpp:122-124 | the name is `name_from_idx[idx]` |
| `TagDispatch.Foo.Copy` | src/item_27.cpp:126-129 | the copy has the source's name |
| `TagDispatch.Foo.Move` | src/item_27.cpp:130-133 | the new object has the source's old name |
| `TagDispatch.Foo.GetName` | src/item_27.cpp:135 | returns the name |
| `TagDispatch.DerivedFoo.FromName` | src/item_27.cpp:143 | the inherited name constructor: the name is the argument |
| `TagDispatch.DerivedFoo.FromIdx` | src/item_27.cpp:143 | the inherited `int` constructor: the name is `name_from_idx[idx]` |
| `TagDispatch.DerivedFoo.Copy` | src/item_27.cpp:144 | the copy has the source's name |
| `TagDispatch.DerivedFoo.Move` | src/item_27.cpp:145 | the new object has the source's old name |
| `TagDispatch.DerivedFoo.GetName` | src/item_27.cpp:135 | returns the name of the `Foo` part |
| `TagDispatch.ConstructorExample` | src/item_27.cpp:193-206 | the names are Dante, Nero, Vergil, and Vergil for the copy |
| `ForwardingOverloads.LogAndAdd1` | src/item_26.cpp:50-54 | appends exactly the argument |
| `ForwardingOverloads.LogAndAdd2` | src/item_26.cpp:56-62 | appends exactly the argument |
| `ForwardingOverloads.LogAndAdd3` | src/item_26.cpp:64-70 | appends exactly the argument |
| `ForwardingOverloads.LogAndAdd3Index` | src/item_26.cpp:77-81 | appends `name_from_idx[idx]`, for an index inside the table |
| `ForwardingOverloads.LoggingExample` | src/item_26.cpp:121-212 | the three blocks append, in order, Darlan, Persephone, Paty, then Darlene, Persephone, Paty twice, then Nero |
| `ForwardingOverloads.Foo.FromName` | src/item_26.cpp:85-88 | the name is the argument |
| `ForwardingOverloads.Foo.FromIdx` | src/item_26.cpp:90-92 | the name is `name_from_idx[idx]` |
| `ForwardingOverloads.Foo.Copy` | src/item_26.cpp:94-97 | the copy has the source's name |
| `ForwardingOverloads.Foo.Move` | src/item_26.cpp:98-101 | the new object has the source's old name |
| `ForwardingOverloads.ConstructorExample` | src/item_26.cpp:225-239 | the names are Vergil, Nero, and Vergil for the copy |

## Left out

- What a thread runs, and when it ends. Only the state of the `std::thread` object is modelled. A `join` that fails at the platform level is not modelled.
- Real concurrency: the jthreads that call `calc_a()` in item 16, `Foo2`'s mutex, and the futures, promises, task queues and atomics of items 35, 36 and 38-40. Their point is the ordering between threads. `Foo2.CalcA` is the sequential behaviour under the lock.
- Console output, `stringify`, the timestamps of the logging functions, and `MyAlloc::report`.
- `malloc` and `free` themselves. `Heap` stands in for them: `Malloc` returns either null or a new block, and which one is not determined.
- `Pow`: does not model 32-bit `int` overflow. The model uses unbounded integers; in the source an overflowing `pow` is undefined behaviour, and a compile-time error in constant evaluation.
- `FindInsert.InsertBeforeFirstFour`: `insert` is not modelled as an in-place update of the vector. The vector is a `seq` value, so there is no array, no reallocation and no iterator invalidation.
- `Factory.NewB`: does not model 32-bit `int` width. `B(i)` computes `3 * i` in `int`, which overflows (undefined behaviour) for |i| > 715827882; the model uses unbounded integers, so `NewB`, `MakeFooDerivates1`, `MakeFooDerivates2` and `Foo.GetA` promise `3 * i` for every `i`.
- `Allocator.Allocate`: `size_t` is taken to be 64 bits wide. `n` is any natural number, not limited to `size_t`.
- `Pimpl.Impl.data` holds `double` values as `real`. It is only copied, never computed with.
- `LazyCache`: the cached `vector<double>` is `seq<real>`. Its values 3, 4, 5 are exact in both.
- The contents of a moved-from `std::string` are unspecified by the library. The `Foo` move constructors leave them arbitrary.
- Copy versus move of a logged name changes only the cost, so the value category of the argument is not modelled. All `log_and_add` versions take the name as a value.
- Overload resolution, `enable_if`/concepts, and the other type-level demonstrations. The choice between the `int` and the forwarding overloads is the `Arg` value in `TagDispatch`, and a separate method per overload in `ForwardingOverloads`.
- Item 26's `Foo f3{f1}`, which the forwarding constructor makes fail to compile. It is not expressible at the value level.
- Using a moved-from `Widget` (`get_name` on a null `pImpl`) is undefined behaviour. It is a precondition of `GetName`.
- `shared_ptr` control blocks and `shared_from_this`'s requirement that the object is already owned by a `shared_ptr`. Handles are object references. In the source the `Widget2` constructor is private, so `create` is the only way to make one; Dafny has no private constructors, and the model assumes callers go through `Widget2.Create`.
- Destruction of the `Impl` that a `Widget` move assignment replaces. No reachable state observes it.
