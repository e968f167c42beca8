/**
 * ShutterSpeedConverter: display strings of the shutter speeds ("1/4" ... "1/8000")
 * and the indices 0..33 the camera uses for them.
 */
module ShutterSpeedConverter {
  import Tables

  /**
   * The initialiser list of `shutter_to_value`, in the order written; the string at
   * position i is the one the list pairs with index i.
   */
  const ShutterStrings: seq<string> := [
    "1/4", "1/5", "1/6", "1/8", "1/10", "1/13", "1/15", "1/20", "1/25", "1/30", "1/40", "1/50",
    "1/60", "1/80", "1/100", "1/125", "1/160", "1/200", "1/250", "1/320", "1/400", "1/500",
    "1/640", "1/800", "1/1000", "1/1250", "1/1600", "1/2000", "1/2500", "1/3200", "1/4000",
    "1/5000", "1/6400", "1/8000"
  ]

  /** The largest shutter index of the table. */
  const MaxShutterValue := 33

  /** `shutter_to_value`: display string to index. */
  const ShutterToValue: map<string, int> := (TableWellFormed(); Tables.MapOf(ShutterStrings))

  /** `value_to_shutter` once the constructor has filled it: index to display string. */
  const ValueToShutter: map<int, string> := Tables.IndexedInverse(ShutterStrings)

  /** The table lists 34 distinct strings, the i-th with index i. */
  lemma TableWellFormed()
    ensures |ShutterStrings| == MaxShutterValue + 1
    ensures Tables.Distinct(ShutterStrings)
  {
    // Strings of different lengths differ; within each length the strings are told apart one by one.
    LengthGroup3();
    LengthGroup4();
    LengthGroup5();
    LengthGroup6();
  }

  // The table falls into four runs of equal-length strings: "1/4".."1/8", "1/10".."1/80",
  // "1/100".."1/800" and "1/1000".."1/8000"; each run is checked on its own.
  lemma LengthGroup3()
    ensures Tables.LengthIn(ShutterStrings, 0, 4, 3) && Tables.DistinctIn(ShutterStrings, 0, 4)
  {
  }

  lemma LengthGroup4()
    ensures Tables.LengthIn(ShutterStrings, 4, 14, 4) && Tables.DistinctIn(ShutterStrings, 4, 14)
  {
  }

  lemma LengthGroup5()
    ensures Tables.LengthIn(ShutterStrings, 14, 24, 5) && Tables.DistinctIn(ShutterStrings, 14, 24)
  {
  }

  lemma LengthGroup6()
    ensures Tables.LengthIn(ShutterStrings, 24, 34, 6) && Tables.DistinctIn(ShutterStrings, 24, 34)
  {
  }

  /**
   * The constructor's loop that inverts `shutter_to_value` into `value_to_shutter`.
   * Whatever order the unordered map is visited in, the result is `ValueToShutter`.
   */
  method BuildValueToShutter() returns (valueToShutter: map<int, string>)
    ensures Tables.IsInverse(ShutterToValue, valueToShutter)
    ensures valueToShutter == ValueToShutter
  {
    TableWellFormed();
    Tables.IndexedInverseIsInverse(ShutterStrings);
    valueToShutter := Tables.Invert(ShutterToValue);
    Tables.InverseUnique(ShutterToValue, valueToShutter, ValueToShutter);
  }

  /** The characters `shutterStringToValue` keeps: decimal digits and '.'. */
  predicate IsKept(c: char)
  {
    '0' <= c <= '9' || c == '.'
  }

  /** `cleanedShutter`: the kept characters of `s`, in order. */
  function Clean(s: string): (r: string)
    ensures |r| <= |s|
    ensures forall k :: 0 <= k < |r| ==> IsKept(r[k])
  {
    if s == [] then []
    else Clean(s[..|s| - 1]) + (if IsKept(s[|s| - 1]) then [s[|s| - 1]] else [])
  }

  /** The cleaned string with '/' inserted after its first character. */
  function WithSlash(cleaned: string): (r: string)
    requires cleaned != []
    ensures |r| == |cleaned| + 1 && r[0] == cleaned[0] && r[1] == '/' && r[2..] == cleaned[1..]
  {
    cleaned[..1] + "/" + cleaned[1..]
  }

  /**
   * What `shutterStringToValue` returns: the index of the cleaned, re-slashed string, or -1.
   * The C++ code inserts past the end of an empty string when nothing is kept, so that input is excluded.
   */
  function ShutterValue(shutter: string): (v: int)
    requires Clean(shutter) != []
    ensures -1 <= v <= MaxShutterValue
    ensures v >= 0 ==> ShutterStrings[v] == WithSlash(Clean(shutter))
    ensures v == -1 <==> WithSlash(Clean(shutter)) !in ShutterToValue
  {
    var key := WithSlash(Clean(shutter));
    if key in ShutterToValue then
      ShutterToValue[key]
    else -1
  }

  /** `shutterStringToValue`: builds the cleaned string character by character, inserts '/', looks it up. */
  method ShutterStringToValue(shutter: string) returns (v: int)
    requires Clean(shutter) != []
    ensures v == ShutterValue(shutter)
  {
    var cleanedShutter := "";
    var i := 0;
    while i < |shutter|
      invariant 0 <= i <= |shutter|
      invariant cleanedShutter == Clean(shutter[..i])
    {
      assert shutter[..i + 1][..i] == shutter[..i];
      if IsKept(shutter[i]) {
        cleanedShutter := cleanedShutter + [shutter[i]];
      }
      i := i + 1;
    }
    assert shutter[..i] == shutter;
    cleanedShutter := cleanedShutter[..1] + "/" + cleanedShutter[1..];
    if cleanedShutter in ShutterToValue {
      v := ShutterToValue[cleanedShutter];
    } else {
      v := -1;
    }
  }

  /** `shutterValueToString`: the table string of an index 0..33, and "" for any other value. */
  function ShutterValueToString(value: int): (s: string)
    ensures 0 <= value <= MaxShutterValue ==> s == ShutterStrings[value]
    ensures !(0 <= value <= MaxShutterValue) ==> s == ""
  {
    if value in ValueToShutter then ValueToShutter[value] else ""
  }

  /** Cleaning distributes over concatenation. */
  lemma {:induction false} CleanAppend(a: string, b: string)
    ensures Clean(a + b) == Clean(a) + Clean(b)
    decreases |b|
  {
    if b == [] {
      assert a + b == a;
    } else {
      var b' := b[..|b| - 1];
      assert (a + b)[..|a + b| - 1] == a + b';
      assert (a + b)[|a + b| - 1] == b[|b| - 1];
      CleanAppend(a, b');
    }
  }

  /** A string of kept characters only is its own cleaned form. */
  lemma {:induction false} CleanKept(s: string)
    requires forall k :: 0 <= k < |s| ==> IsKept(s[k])
    ensures Clean(s) == s
  {
    if s != [] {
      CleanKept(s[..|s| - 1]);
    }
  }

  /** A string without kept characters cleans to nothing. */
  lemma {:induction false} CleanNoise(s: string)
    requires forall k :: 0 <= k < |s| ==> !IsKept(s[k])
    ensures Clean(s) == []
  {
    if s != [] {
      CleanNoise(s[..|s| - 1]);
    }
  }

  /** Every table string is "1/" followed by digits. */
  lemma TableShape(v: int)
    requires 0 <= v <= MaxShutterValue
    ensures |ShutterStrings[v]| >= 3 && ShutterStrings[v][0] == '1' && ShutterStrings[v][1] == '/'
    ensures forall k :: 2 <= k < |ShutterStrings[v]| ==> IsKept(ShutterStrings[v][k])
  {
  }

  /** Cleaning a table string and re-inserting the slash gives the table string back. */
  lemma NormalisesTableString(v: int)
    requires 0 <= v <= MaxShutterValue
    ensures Clean(ShutterStrings[v]) != []
    ensures WithSlash(Clean(ShutterStrings[v])) == ShutterStrings[v]
  {
    TableShape(v);
    NormalisesSlashed(ShutterStrings[v]);
  }

  /** "1/" cleans to "1". */
  lemma CleanHead(head: string)
    requires |head| == 2 && IsKept(head[0]) && head[1] == '/'
    ensures Clean(head) == [head[0]]
  {
    assert head[..1] == [head[0]];
    assert Clean(head[..1]) == Clean([]) + [head[0]];
  }

  /** A "1/" followed by digits cleans to "1" followed by the digits. */
  lemma CleanSlashed(name: string)
    requires |name| >= 3 && name[0] == '1' && name[1] == '/'
    requires forall k :: 2 <= k < |name| ==> IsKept(name[k])
    ensures Clean(name) == [name[0]] + name[2..]
  {
    var head, digits := name[..2], name[2..];
    assert name == head + digits;
    CleanHead(head);
    CleanKept(digits);
    CleanAppend(head, digits);
  }

  /** Re-inserting the slash after the first character restores a string whose second character is '/'. */
  lemma SlashRestored(name: string)
    requires |name| >= 2 && name[1] == '/'
    ensures WithSlash([name[0]] + name[2..]) == name
  {
    var cleaned := [name[0]] + name[2..];
    assert cleaned[..1] == [name[0]] && cleaned[1..] == name[2..];
    assert [name[0]] + "/" + name[2..] == name;
  }

  /** The same for any "1/" followed by digits. */
  lemma NormalisesSlashed(name: string)
    requires |name| >= 3 && name[0] == '1' && name[1] == '/'
    requires forall k :: 2 <= k < |name| ==> IsKept(name[k])
    ensures Clean(name) == [name[0]] + name[2..]
    ensures WithSlash(Clean(name)) == name
  {
    CleanSlashed(name);
    SlashRestored(name);
  }

  /** For every index 0..33, converting to the string and back gives the index. */
  lemma ValueRoundTrip(v: int)
    requires 0 <= v <= MaxShutterValue
    ensures Clean(ShutterValueToString(v)) != []
    ensures ShutterValue(ShutterValueToString(v)) == v
  {
    NormalisesTableString(v);
    TableWellFormed();
  }

  /** For every string the lookup finds, converting back yields its normalised form. */
  lemma StringRoundTrip(shutter: string)
    requires Clean(shutter) != []
    requires ShutterValue(shutter) != -1
    ensures ShutterValueToString(ShutterValue(shutter)) == WithSlash(Clean(shutter))
  {
  }

  /** Characters other than digits and '.' inserted anywhere are dropped by the cleaning. */
  lemma CleanIgnoresNoise(before: string, noise: string, after: string)
    requires forall k :: 0 <= k < |noise| ==> !IsKept(noise[k])
    ensures Clean(before + noise + after) == Clean(before + after)
  {
    var withNoise := before + noise;
    CleanAppend(withNoise, after);
    CleanAppend(before, noise);
    CleanNoise(noise);
    assert Clean(withNoise) == Clean(before);
    CleanAppend(before, after);
  }

  /** Hence they do not change what `shutterStringToValue` returns. */
  lemma NoiseIgnored(before: string, noise: string, after: string)
    requires forall k :: 0 <= k < |noise| ==> !IsKept(noise[k])
    requires Clean(before + after) != []
    ensures Clean(before + noise + after) != []
    ensures ShutterValue(before + noise + after) == ShutterValue(before + after)
  {
    CleanIgnoresNoise(before, noise, after);
  }

  /** "1/250 sec" is read as "1/250", index 18. */
  lemma SuffixExample()
    ensures Clean("1/250 sec") != []
    ensures ShutterValue("1/250 sec") == 18
  {
    var name, noise := ShutterStrings[18], " sec";
    assert name == "1/250";
    assert name + noise + [] == "1/250 sec";
    assert name + [] == name;
    ValueRoundTrip(18);
    NoiseIgnored(name, noise, []);
  }
}
