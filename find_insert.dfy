/** Item 13: `std::find` over a vector followed by `v.insert(it, {24, 42})`
    when the value was found. The vector is a local `seq` that the insert
    replaces. */
module FindInsert {
  import opened Ranges

  /** Reference definition of `std::find(begin, end, value)` as a position:
      the first index holding `value`, or `|v|` (the end iterator) when
      there is none. */
  function FirstIndex(v: seq<int>, value: int): (k: nat)
    ensures k <= |v|
    ensures k < |v| ==> v[k] == value
    ensures forall j :: 0 <= j < k ==> v[j] != value
  {
    if v == [] then 0
    else if v[0] == value then 0
    else 1 + FirstIndex(v[1..], value)
  }

  /** The linear search of `std::find`, advancing one position at a time. */
  method Find(v: seq<int>, value: int) returns (it: nat)
    ensures it == FirstIndex(v, value)
  {
    it := 0;
    while it < |v| && v[it] != value
      invariant it <= |v|
      invariant forall j :: 0 <= j < it ==> v[j] != value
    {
      it := it + 1;
    }
    FirstIndexUnique(v, value, it);
  }

  /** Being at or before the end, holding `value` unless at the end, and
      having no earlier occurrence determine the position found. */
  lemma {:induction false} FirstIndexUnique(v: seq<int>, value: int, k: nat)
    requires k <= |v|
    requires k < |v| ==> v[k] == value
    requires forall j :: 0 <= j < k ==> v[j] != value
    ensures k == FirstIndex(v, value)
  {
  }

  /** `v.insert(pos, xs)`: the elements of `xs` end up immediately before the
      element that was at `pos`; what was before stays, what was at or after
      `pos` keeps its order, shifted right by `|xs|`. */
  function InsertAt(v: seq<int>, pos: nat, xs: seq<int>): (r: seq<int>)
    requires pos <= |v|
    ensures |r| == |v| + |xs|
    ensures forall j :: 0 <= j < pos ==> r[j] == v[j]
    ensures forall j :: 0 <= j < |xs| ==> r[pos + j] == xs[j]
    ensures forall j :: pos <= j < |v| ==> r[j + |xs|] == v[j]
  {
    v[..pos] + xs + v[pos..]
  }

  /** The body of item 13's example: find the first 4 and, if there is one,
      insert 24 and then 42 in front of it; otherwise leave `v` as it is. */
  method InsertBeforeFirstFour(v: seq<int>) returns (w: seq<int>)
    ensures 4 !in v ==> w == v
    ensures 4 in v ==> w == InsertAt(v, FirstIndex(v, 4), [24, 42])
    ensures |w| == if 4 in v then |v| + 2 else |v|
  {
    var it := Find(v, 4);
    if it != |v| {
      w := InsertAt(v, it, [24, 42]);
    } else {
      w := v;
    }
  }

  /** On the vector 0..9 the first 4 is at index 4, so the insertion yields
      0, 1, 2, 3, 24, 42, 4, 5, 6, 7, 8, 9. */
  lemma ExampleInsertion(u: seq<int>)
    requires |u| == 10 && forall k :: 0 <= k < 10 ==> u[k] == k
    ensures 4 in u
    ensures InsertAt(u, FirstIndex(u, 4), [24, 42]) == [0, 1, 2, 3, 24, 42, 4, 5, 6, 7, 8, 9]
  {
    FirstIndexUnique(u, 4, 4);
    assert u[4] == 4;
    assert u[..4] == [0, 1, 2, 3];
  }

  /** The example run: `v` starts as 0..9. */
  method ModifiedVector() returns (v: seq<int>)
    ensures v == [0, 1, 2, 3, 24, 42, 4, 5, 6, 7, 8, 9]
  {
    v := Iota(0, 10);
    ExampleInsertion(v);
    v := InsertBeforeFirstFour(v);
  }
}
