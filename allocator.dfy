/** Item 9: `MyAlloc<T>`, a minimal allocator over `malloc`/`free`. The C
    heap is a `Heap` object whose `Malloc` may fail. `sizeof(T)` is a
    parameter of the allocator value; `size_t` is 64 bits wide. */
module Allocator {
  import opened Wrappers

  /** `std::numeric_limits<std::size_t>::max()`. */
  const SizeMax: nat := 0xFFFF_FFFF_FFFF_FFFF

  /** An address; 0 is the null pointer. */
  type Ptr = nat
  const Null: Ptr := 0

  /** The exceptions `allocate` throws. */
  datatype AllocError = BadArrayNewLength | BadAlloc

  /** `MyAlloc<T>`, stateless apart from `sizeof(T)`. */
  datatype MyAlloc = MyAlloc(elemSize: nat)

  /** `sizeof` is never zero. */
  predicate WellFormed(a: MyAlloc)
  {
    a.elemSize >= 1
  }

  /** The converting constructor `MyAlloc(const MyAlloc<U>&)`: an allocator
      for another element type, equal to the original. */
  function Rebind(a: MyAlloc, elemSize: nat): (b: MyAlloc)
    ensures b.elemSize == elemSize
    ensures Equal(a, b)
  {
    MyAlloc(elemSize)
  }

  /** The guard `n > SIZE_MAX / sizeof(T)` of `allocate`: it stops `n`
      exactly when the byte count `n * sizeof(T)` would not fit in `size_t`. */
  function TooMany(a: MyAlloc, n: nat): (r: bool)
    requires WellFormed(a)
    ensures r <==> n * a.elemSize > SizeMax
  {
    GuardPreventsOverflow(a.elemSize, n);
    n > SizeMax / a.elemSize
  }

  /** Dividing the limit by the element size before comparing is the same as
      comparing the product: the division cannot lose a count that fits. */
  lemma GuardPreventsOverflow(s: nat, n: nat)
    requires s >= 1
    ensures n <= SizeMax / s <==> n * s <= SizeMax
  {
    var q := SizeMax / s;
    assert SizeMax == q * s + SizeMax % s;
    if n <= q {
      MulMonotone(n, q, s);
    } else {
      MulMonotone(q + 1, n, s);
      assert (q + 1) * s == q * s + s;
    }
  }

  /** Multiplication by a natural number is monotone; a hint for the
      nonlinear steps of `GuardPreventsOverflow`. */
  lemma MulMonotone(x: nat, y: nat, s: nat)
    requires x <= y
    ensures x * s <= y * s
  {
  }

  /** `operator==` on any two allocators: always true. */
  function Equal(a: MyAlloc, b: MyAlloc): (r: bool)
    ensures r
  {
    true
  }

  /** `operator!=` on any two allocators: always false, the negation of
      `operator==`. */
  function NotEqual(a: MyAlloc, b: MyAlloc): (r: bool)
    ensures !r
    ensures r == !Equal(a, b)
  {
    false
  }

  /** The C heap: the blocks handed out by `malloc` and not yet freed. */
  class Heap {
    var live: set<Ptr>
    var next: Ptr

    ghost predicate Valid()
      reads this
    {
      Null < next && forall p :: p in live ==> Null < p < next
    }

    constructor ()
      ensures Valid() && live == {}
    {
      live := {};
      next := 1;
    }

    /** `malloc(bytes)`: either null (out of memory) or a block that was not
        live before. Which of the two happens is not determined here. The
        size is a `size_t`, so it cannot exceed `SizeMax`. */
    method Malloc(bytes: nat) returns (p: Ptr)
      requires Valid()
      requires bytes <= SizeMax
      modifies this
      ensures Valid()
      ensures p == Null ==> live == old(live)
      ensures p != Null ==> p !in old(live) && live == old(live) + {p}
    {
      if * {
        p := Null;
      } else {
        p := next;
        live := live + {p};
        next := next + 1;
      }
    }

    /** `free(p)`: releases a live block; `free(nullptr)` does nothing. */
    method Free(p: Ptr)
      requires Valid()
      requires p == Null || p in live
      modifies this
      ensures Valid()
      ensures live == old(live) - {p}
    {
      live := live - {p};
    }
  }

  /** `allocate(n)`: throws `bad_array_new_length` before touching the heap
      when `n * sizeof(T)` would overflow; otherwise calls `malloc` and
      returns its block, or throws `bad_alloc` when it returned null. */
  method Allocate(a: MyAlloc, heap: Heap, n: nat) returns (r: Result<Ptr, AllocError>)
    requires WellFormed(a) && heap.Valid()
    modifies heap
    ensures heap.Valid()
    ensures TooMany(a, n) <==> r == Err(BadArrayNewLength)
    ensures r == Err(BadArrayNewLength) <==> n * a.elemSize > SizeMax
    ensures TooMany(a, n) ==> unchanged(heap)
    ensures r.Err? && r.error == BadAlloc ==> heap.live == old(heap.live)
    ensures r.Ok? ==> r.value != Null && r.value !in old(heap.live)
                      && heap.live == old(heap.live) + {r.value}
  {
    if TooMany(a, n) {
      return Err(BadArrayNewLength);
    }
    var p := heap.Malloc(n * a.elemSize);
    if p != Null {
      return Ok(p);
    }
    return Err(BadAlloc);
  }

  /** `deallocate(p, n)`: frees the block; it has no failure outcome. */
  method Deallocate(a: MyAlloc, heap: Heap, p: Ptr, n: nat)
    requires heap.Valid()
    requires p == Null || p in heap.live
    modifies heap
    ensures heap.Valid()
    ensures heap.live == old(heap.live) - {p}
  {
    heap.Free(p);
  }
}
