/** What items 26 and 27 share: the three-entry `name_from_idx` table and a
    global `vector<string> names` that the logging functions append to
    (each item has its own `names`). */
module NameTable {

  /** `name_from_idx`. */
  const NameFromIdx: seq<string> := ["Dante", "Vergil", "Nero"]

  /** `name_from_idx[idx]` is defined only inside the table. */
  predicate ValidIndex(idx: int)
  {
    0 <= idx < |NameFromIdx|
  }

  /** The global `names` vector. */
  class NameLog {
    var names: seq<string>

    /** `vector<string> names{}`. */
    constructor ()
      ensures names == []
    {
      names := [];
    }

    /** `names.emplace_back(s)`: exactly one entry, at the end. */
    method EmplaceBack(s: string)
      modifies this
      ensures names == old(names) + [s]
    {
      names := names + [s];
    }
  }
}
