/**
 * ISOConverter: display strings of the ISO sensitivities ("ISO AUTO", "ISO 80" ... "ISO 409,600")
 * and the indices 0..38 they are listed with. Lookups are exact: no normalisation of the input.
 */
module IsoConverter {
  import Tables

  /**
   * The initialiser list of `iso_to_value`, in the order written; the string at
   * position i is the one the list pairs with index i.
   */
  const IsoStrings: seq<string> := [
    "ISO AUTO", "ISO 80", "ISO 100", "ISO 125", "ISO 160", "ISO 200", "ISO 250", "ISO 320",
    "ISO 400", "ISO 500", "ISO 640", "ISO 800", "ISO 1,000", "ISO 1,250", "ISO 1,600",
    "ISO 2,000", "ISO 2,500", "ISO 3,200", "ISO 4,000", "ISO 5,000", "ISO 6,400", "ISO 8,000",
    "ISO 10,000", "ISO 12,800", "ISO 16,000", "ISO 20,000", "ISO 25,600", "ISO 32,000",
    "ISO 40,000", "ISO 51,200", "ISO 64,000", "ISO 80,000", "ISO 102,400", "ISO 128,000",
    "ISO 160,000", "ISO 204,800", "ISO 256,000", "ISO 320,000", "ISO 409,600"
  ]

  /** The largest ISO index of the table. */
  const MaxIsoValue := 38

  /** `iso_to_value`: display string to index. */
  const IsoToValue: map<string, int> := (TableWellFormed(); Tables.MapOf(IsoStrings))

  /** `value_to_iso` once the constructor has filled it: index to display string. */
  const ValueToIso: map<int, string> := Tables.IndexedInverse(IsoStrings)

  /** The table lists 39 distinct strings, the i-th with index i. */
  lemma TableWellFormed()
    ensures |IsoStrings| == MaxIsoValue + 1
    ensures Tables.Distinct(IsoStrings)
  {
    // Strings of different lengths differ; within each length the strings are told apart one by one.
    LengthGroupsShort();
    LengthGroup7();
    LengthGroup9();
    LengthGroup10();
    LengthGroup11();
  }

  // The table falls into runs of equal-length strings: "ISO AUTO" (8), "ISO 80" (6),
  // "ISO 100".."ISO 800" (7), "ISO 1,000".."ISO 8,000" (9), "ISO 10,000".."ISO 80,000" (10)
  // and "ISO 102,400".."ISO 409,600" (11); each run is checked on its own.
  lemma LengthGroupsShort()
    ensures Tables.LengthIn(IsoStrings, 0, 1, 8) && Tables.LengthIn(IsoStrings, 1, 2, 6)
  {
  }

  lemma LengthGroup7()
    ensures Tables.LengthIn(IsoStrings, 2, 12, 7) && Tables.DistinctIn(IsoStrings, 2, 12)
  {
  }

  lemma LengthGroup9()
    ensures Tables.LengthIn(IsoStrings, 12, 22, 9) && Tables.DistinctIn(IsoStrings, 12, 22)
  {
  }

  lemma LengthGroup10()
    ensures Tables.LengthIn(IsoStrings, 22, 32, 10) && Tables.DistinctIn(IsoStrings, 22, 32)
  {
  }

  lemma LengthGroup11()
    ensures Tables.LengthIn(IsoStrings, 32, 39, 11) && Tables.DistinctIn(IsoStrings, 32, 39)
  {
  }

  /**
   * The constructor's loop that inverts `iso_to_value` into `value_to_iso`.
   * Whatever order the unordered map is visited in, the result is `ValueToIso`.
   */
  method BuildValueToIso() returns (valueToIso: map<int, string>)
    ensures Tables.IsInverse(IsoToValue, valueToIso)
    ensures valueToIso == ValueToIso
  {
    TableWellFormed();
    Tables.IndexedInverseIsInverse(IsoStrings);
    valueToIso := Tables.Invert(IsoToValue);
    Tables.InverseUnique(IsoToValue, valueToIso, ValueToIso);
  }

  /** `isoStringToValue`: the index of a table string, -1 for any other string. */
  function IsoStringToValue(iso: string): (v: int)
    ensures -1 <= v <= MaxIsoValue
    ensures v >= 0 ==> IsoStrings[v] == iso
    ensures v == -1 <==> iso !in IsoStrings
  {
    if iso in IsoToValue then IsoToValue[iso] else -1
  }

  /** `isoValueToString`: the table string of an index 0..38, and "" for any other value. */
  function IsoValueToString(value: int): (s: string)
    ensures 0 <= value <= MaxIsoValue ==> s == IsoStrings[value]
    ensures !(0 <= value <= MaxIsoValue) ==> s == ""
  {
    if value in ValueToIso then ValueToIso[value] else ""
  }

  /** For every index 0..38, converting to the string and back gives the index. */
  lemma ValueRoundTrip(v: int)
    requires 0 <= v <= MaxIsoValue
    ensures IsoStringToValue(IsoValueToString(v)) == v
  {
    TableWellFormed();
  }

  /** For every table string, converting to the index and back gives the string. */
  lemma StringRoundTrip(iso: string)
    requires iso in IsoStrings
    ensures IsoValueToString(IsoStringToValue(iso)) == iso
  {
  }

  /** The ends of the table: "ISO AUTO" is 0 and "ISO 409,600" is 38. */
  lemma TableEnds()
    ensures IsoStringToValue("ISO AUTO") == 0
    ensures IsoStringToValue("ISO 409,600") == MaxIsoValue
  {
    ValueRoundTrip(0);
    ValueRoundTrip(MaxIsoValue);
  }

  /** There is no normalisation: "ISO 1000", written without the comma, is not found. */
  lemma NoCommaMisses()
    ensures IsoStringToValue("ISO 1000") == -1
  {
    LengthGroupsShort();
    LengthGroup7();
    LengthGroup9();
    LengthGroup10();
    LengthGroup11();
    var s := "ISO 1000";
    assert s != IsoStrings[0];
    assert forall i :: 1 <= i < |IsoStrings| ==> |IsoStrings[i]| != |s|;
  }
}
