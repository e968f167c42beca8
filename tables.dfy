/**
 * The lookup tables behind the shutter-speed and ISO converters: an
 * `std::unordered_map<std::string, int>` built from an initialiser list whose
 * entries are numbered 0, 1, 2, ... in the order written, and its inversion into an
 * `std::unordered_map<int, std::string>`. A table is given by its list of display
 * strings: the string at position i is the one written with index i.
 */
module Tables {

  /** No display string occurs twice in the list. */
  predicate Distinct(names: seq<string>)
  {
    forall i, j :: 0 <= i < j < |names| ==> names[i] != names[j]
  }

  /** No display string occurs twice among positions lo..hi-1. */
  predicate DistinctIn(names: seq<string>, lo: int, hi: int)
    requires 0 <= lo <= hi <= |names|
  {
    forall i, j :: lo <= i < j < hi ==> names[i] != names[j]
  }

  /** Every display string at positions lo..hi-1 has length n. */
  predicate LengthIn(names: seq<string>, lo: int, hi: int, n: int)
    requires 0 <= lo <= hi <= |names|
  {
    forall i :: lo <= i < hi ==> |names[i]| == n
  }

  /** The string-to-index map the initialiser list produces. */
  function MapOf(names: seq<string>): (m: map<string, int>)
    requires Distinct(names)
    ensures forall i :: 0 <= i < |names| ==> names[i] in m && m[names[i]] == i
    ensures forall s :: s in m ==> 0 <= m[s] < |names| && names[m[s]] == s
  {
    map i | 0 <= i < |names| :: names[i] := i
  }

  /** `inv` is the exact inverse of `table`: the same pairs, read the other way round. */
  ghost predicate IsInverse(table: map<string, int>, inv: map<int, string>)
  {
    && inv.Keys == table.Values
    && (forall s :: s in table ==> inv[table[s]] == s)
  }

  /** No two strings of the table share an index. */
  ghost predicate Injective(table: map<string, int>)
  {
    forall s, t :: s in table && t in table && s != t ==> table[s] != table[t]
  }

  /**
   * The inversion loop of the converter constructors: for every entry of the table, the index
   * is mapped back to its string.
   * The iteration order of an unordered map is unspecified, so each step visits any key not yet visited.
   */
  method Invert(table: map<string, int>) returns (inv: map<int, string>)
    requires Injective(table)
    ensures IsInverse(table, inv)
  {
    inv := map[];
    var remaining := table.Keys;
    while remaining != {}
      invariant remaining <= table.Keys
      invariant inv.Keys == set s | s in table.Keys - remaining :: table[s]
      invariant forall s :: s in table && s !in remaining ==> inv[table[s]] == s
      decreases remaining
    {
      var s :| s in remaining;
      inv := inv[table[s] := s];
      remaining := remaining - {s};
    }
    assert inv.Keys == table.Values by {
      forall v | v in table.Values ensures v in inv.Keys {
        var s :| s in table && table[s] == v;
      }
    }
  }

  /** Two exact inverses of the same table are equal. */
  lemma InverseUnique(table: map<string, int>, a: map<int, string>, b: map<int, string>)
    requires IsInverse(table, a) && IsInverse(table, b)
    ensures a == b
  {
    forall v | v in a.Keys ensures a[v] == b[v] {
      var s :| s in table && table[s] == v;
    }
  }

  /** The index-to-string map read straight off the list: i to the i-th string. */
  function IndexedInverse(names: seq<string>): (inv: map<int, string>)
    ensures forall i :: i in inv <==> 0 <= i < |names|
    ensures forall i :: 0 <= i < |names| ==> inv[i] == names[i]
  {
    map i | 0 <= i < |names| :: names[i]
  }

  /** For a list of distinct strings that map is the exact inverse of the table. */
  lemma IndexedInverseIsInverse(names: seq<string>)
    requires Distinct(names)
    ensures Injective(MapOf(names))
    ensures IsInverse(MapOf(names), IndexedInverse(names))
  {
    var table, inv := MapOf(names), IndexedInverse(names);
    assert inv.Keys == table.Values by {
      forall i | i in inv.Keys ensures i in table.Values {
        assert table[names[i]] == i;
      }
    }
  }
}
