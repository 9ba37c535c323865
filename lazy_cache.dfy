/** Item 16: `calc_a()` computes a vector once and caches it behind the
    `is_a_valid` flag. `Foo1` and `Foo2` differ only by a mutex held for the
    whole call, which changes nothing in a sequential run. */
module LazyCache {
  import opened Ranges

  /** `iota(3, 6) | to<vector<double>>()`: 3.0, 4.0, 5.0. */
  function Computed(): (r: seq<real>)
    ensures r == [3.0, 4.0, 5.0]
  {
    var xs := Iota(3, 6);
    seq(|xs|, k requires 0 <= k < |xs| => xs[k] as real)
  }

  /** The two mutable members as one value. */
  datatype Cache = Cache(isAValid: bool, a: seq<real>)

  /** A freshly constructed object: flag clear, vector empty. */
  const Fresh := Cache(false, [])

  /** What the object can hold: nothing yet, or the computed vector. */
  predicate Consistent(c: Cache)
  {
    if c.isAValid then c.a == Computed() else c.a == []
  }

  /** Whether a call takes the computing branch. */
  predicate Computes(c: Cache)
  {
    !c.isAValid
  }

  /** One call of `calc_a()`: the members afterwards and the returned copy. */
  function CalcAStep(c: Cache): (Cache, seq<real>)
  {
    var c' := if c.isAValid then c else Cache(true, Computed());
    (c', c'.a)
  }

  /** A call from a consistent state returns 3, 4, 5, leaves the flag set
      and the state consistent; from a set flag it changes nothing. */
  lemma CalcAReturnsComputed(c: Cache)
    requires Consistent(c)
    ensures CalcAStep(c).1 == [3.0, 4.0, 5.0]
    ensures CalcAStep(c).0.isAValid && Consistent(CalcAStep(c).0)
    ensures c.isAValid ==> CalcAStep(c).0 == c
  {
  }

  /** The members after `n` consecutive calls. */
  function After(c: Cache, n: nat): Cache
    decreases n
  {
    if n == 0 then c else After(CalcAStep(c).0, n - 1)
  }

  /** The values returned by `n` consecutive calls, in call order. */
  function Results(c: Cache, n: nat): seq<seq<real>>
    decreases n
  {
    if n == 0 then [] else [CalcAStep(c).1] + Results(CalcAStep(c).0, n - 1)
  }

  /** How many of `n` consecutive calls take the computing branch. */
  function Computations(c: Cache, n: nat): nat
    decreases n
  {
    if n == 0 then 0
    else (if Computes(c) then 1 else 0) + Computations(CalcAStep(c).0, n - 1)
  }

  /** Once set, the flag stays set through any number of calls, and the
      cached vector with it. */
  lemma {:induction false} FlagMonotone(c: Cache, n: nat)
    requires c.isAValid
    ensures After(c, n) == c
    decreases n
  {
    if n > 0 {
      FlagMonotone(CalcAStep(c).0, n - 1);
    }
  }

  /** From any consistent state, every one of `n` calls returns 3, 4, 5 and
      at most one of them computes: exactly one, from a fresh object, when
      there is a call at all. */
  lemma {:induction false} RunFrom(c: Cache, n: nat)
    requires Consistent(c)
    ensures |Results(c, n)| == n
    ensures forall k :: 0 <= k < n ==> Results(c, n)[k] == [3.0, 4.0, 5.0]
    ensures Computations(c, n) == if n > 0 && Computes(c) then 1 else 0
    ensures Consistent(After(c, n))
    decreases n
  {
    if n > 0 {
      var c' := CalcAStep(c).0;
      RunFrom(c', n - 1);
      assert !Computes(c');
    }
  }

  /** A fresh object computes on its first call and never again. */
  lemma FreshComputesOnce(n: nat)
    ensures Computations(Fresh, n) == if n == 0 then 0 else 1
    ensures |Results(Fresh, n)| == n
    ensures forall k :: 0 <= k < n ==> Results(Fresh, n)[k] == [3.0, 4.0, 5.0]
  {
    RunFrom(Fresh, n);
  }

  /** `Foo1`: the cache without synchronisation. The ghost counter records
      how many times the computing branch ran. */
  class Foo1 {
    var isAValid: bool
    var a: seq<real>
    ghost var computations: nat

    function State(): Cache
      reads this
    {
      Cache(isAValid, a)
    }

    ghost predicate Valid()
      reads this
    {
      Consistent(State()) && computations == (if isAValid then 1 else 0)
    }

    /** Default construction: `is_a_valid{false}`, `a{}`. */
    constructor ()
      ensures Valid() && State() == Fresh && computations == 0
    {
      isAValid := false;
      a := [];
      computations := 0;
    }

    /** `calc_a()`: computes and caches on the first call, then returns the
        cached copy. */
    method CalcA() returns (r: seq<real>)
      requires Valid()
      modifies this
      ensures Valid()
      ensures (State(), r) == CalcAStep(old(State()))
      ensures r == [3.0, 4.0, 5.0] && isAValid
      ensures old(isAValid) ==> unchanged(this)
      ensures computations == old(computations) + (if old(isAValid) then 0 else 1)
      ensures computations <= 1
    {
      if !isAValid {
        a := Computed();
        isAValid := true;
        computations := computations + 1;
      }
      r := a;
    }
  }

  /** `Foo2`: the same cache, with `calc_a()` run under a scoped lock. */
  class Foo2 {
    var isAValid: bool
    var a: seq<real>
    ghost var computations: nat

    function State(): Cache
      reads this
    {
      Cache(isAValid, a)
    }

    ghost predicate Valid()
      reads this
    {
      Consistent(State()) && computations == (if isAValid then 1 else 0)
    }

    constructor ()
      ensures Valid() && State() == Fresh && computations == 0
    {
      isAValid := false;
      a := [];
      computations := 0;
    }

    /** `calc_a()` with the lock held for the whole call: the same step as
        `Foo1::calc_a()`. */
    method CalcA() returns (r: seq<real>)
      requires Valid()
      modifies this
      ensures Valid()
      ensures (State(), r) == CalcAStep(old(State()))
      ensures r == [3.0, 4.0, 5.0] && isAValid
      ensures old(isAValid) ==> unchanged(this)
      ensures computations == old(computations) + (if old(isAValid) then 0 else 1)
      ensures computations <= 1
    {
      if !isAValid {
        a := Computed();
        isAValid := true;
        computations := computations + 1;
      }
      r := a;
    }
  }

  /** Three calls on one `Foo1`: the same answer each time, computed once. */
  method RepeatedCalls() returns (r1: seq<real>, r2: seq<real>, r3: seq<real>, ghost computed: nat)
    ensures r1 == r2 == r3 == [3.0, 4.0, 5.0]
    ensures computed == 1
  {
    var foo := new Foo1();
    r1 := foo.CalcA();
    r2 := foo.CalcA();
    r3 := foo.CalcA();
    computed := foo.computations;
  }
}
