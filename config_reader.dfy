/**
 * ConfigReader: reads `key=value` lines into a map. The lines of the file are the input;
 * opening the file is the caller's I/O, represented by whether the lines are available.
 */
module ConfigReader {
  import opened Wrappers

  /** The position of the first '=' in the line, if there is one. */
  function FirstEquals(line: string): (p: Option<nat>)
    ensures p.Some? ==> p.value < |line| && line[p.value] == '=' && '=' !in line[..p.value]
    ensures p.None? ==> '=' !in line
  {
    if line == [] then None
    else if line[0] == '=' then Some(0)
    else
      match FirstEquals(line[1..])
      case None => None
      case Some(q) => assert line[1..][..q] == line[1..q + 1]; Some(q + 1)
  }

  /**
   * One line of the file, read as a key up to the first '=' and then a value up to the line's end.
   * The key is the text before the first '=', the value the whole remainder (further '='
   * included); a line with no '=', an empty line and a line ending at its first '=' give no entry.
   */
  function SplitLine(line: string): (entry: Option<(string, string)>)
    ensures entry.Some? ==> line == entry.value.0 + "=" + entry.value.1
    ensures entry.Some? ==> '=' !in entry.value.0 && entry.value.1 != []
    ensures entry.None? <==> ('=' !in line || (line[|line| - 1] == '=' && '=' !in line[..|line| - 1]))
  {
    match FirstEquals(line)
    case None => None
    case Some(p) =>
      if p + 1 < |line| then
        assert line == line[..p] + "=" + line[p + 1..];
        Some((line[..p], line[p + 1..]))
      else None
  }

  /** The map the loop has built after the given lines: each later line overwrites its key. */
  function ConfigOf(lines: seq<string>): map<string, string>
  {
    if lines == [] then map[]
    else
      var config := ConfigOf(lines[..|lines| - 1]);
      match SplitLine(lines[|lines| - 1])
      case None => config
      case Some((key, value)) => config[key := value]
  }

  /**
   * The reading loop, over the lines of a file that did open. Each line is as the file's line
   * reader yields it, so it holds no newline character.
   */
  method ReadConfigLines(lines: seq<string>) returns (configMap: map<string, string>)
    ensures configMap == ConfigOf(lines)
  {
    configMap := map[];
    var i := 0;
    while i < |lines|
      invariant 0 <= i <= |lines|
      invariant configMap == ConfigOf(lines[..i])
    {
      assert lines[..i + 1][..i] == lines[..i];
      var entry := SplitLine(lines[i]);
      if entry.Some? {
        configMap := configMap[entry.value.0 := entry.value.1];
      }
      i := i + 1;
    }
    assert lines[..i] == lines;
  }

  /**
   * `readConfigFile`: `None` stands for a file that could not be opened, which raises
   * "Could not open config file: <filename>" instead of returning a map. An opened file is
   * the sequence of its lines, none of which holds a newline character.
   */
  method ReadConfigFile(filename: string, file: Option<seq<string>>) returns (r: Result<map<string, string>, string>)
    ensures file.None? ==> r == Failure("Could not open config file: " + filename)
    ensures file.Some? ==> r == Success(ConfigOf(file.value))
  {
    if file.Some? {
      var configMap := ReadConfigLines(file.value);
      r := Success(configMap);
    } else {
      r := Failure("Could not open config file: " + filename);
    }
  }

  /** The line `lines[i]` sets `key` to `value`. */
  predicate SetsKey(lines: seq<string>, i: int, key: string, value: string)
    requires 0 <= i < |lines|
  {
    SplitLine(lines[i]) == Some((key, value))
  }

  /** No line after position i sets `key`. */
  predicate LastFor(lines: seq<string>, i: int, key: string)
    requires 0 <= i < |lines|
  {
    forall j :: i < j < |lines| ==> SplitLine(lines[j]).None? || SplitLine(lines[j]).value.0 != key
  }

  /** A key is in the map exactly when some line sets it. */
  lemma {:induction false} KeyFromSomeLine(lines: seq<string>, key: string)
    ensures key in ConfigOf(lines) <==>
      exists i :: 0 <= i < |lines| && SplitLine(lines[i]).Some? && SplitLine(lines[i]).value.0 == key
  {
    if lines != [] {
      var init := lines[..|lines| - 1];
      KeyFromSomeLine(init, key);
      assert forall i :: 0 <= i < |init| ==> init[i] == lines[i];
    }
  }

  /**
   * Last one wins: when a key is in the map, its value is that of the last line that sets the key,
   * and that line reads exactly `key=value`.
   */
  lemma {:induction false} LastLineWins(lines: seq<string>, key: string) returns (i: nat)
    requires key in ConfigOf(lines)
    ensures i < |lines| && SetsKey(lines, i, key, ConfigOf(lines)[key]) && LastFor(lines, i, key)
    ensures lines[i] == key + "=" + ConfigOf(lines)[key]
  {
    var n := |lines|;
    var init := lines[..n - 1];
    var last := SplitLine(lines[n - 1]);
    if last.Some? && last.value.0 == key {
      i := n - 1;
    } else {
      i := LastLineWins(init, key);
      assert lines[i] == init[i];
      forall j | i < j < n
        ensures SplitLine(lines[j]).None? || SplitLine(lines[j]).value.0 != key
      {
        if j < n - 1 {
          assert lines[j] == init[j];
        }
      }
    }
  }

  /** An earlier setting of a key is overwritten by a later one. */
  lemma LaterLineOverrides(lines: seq<string>, key: string, first: string, second: string)
    requires '=' !in key && second != []
    ensures ConfigOf(lines + [key + "=" + first, key + "=" + second]) ==
            ConfigOf(lines + [key + "=" + first])[key := second]
  {
    SplitsAtFirstEquals(key, second);
    var all := lines + [key + "=" + first, key + "=" + second];
    assert all[..|all| - 1] == lines + [key + "=" + first];
  }

  /** The first '=' of `key=rest`, for a key free of '=', is the one after the key. */
  lemma {:induction false} FirstEqualsAfterKey(key: string, rest: string)
    requires '=' !in key
    ensures FirstEquals(key + "=" + rest) == Some(|key|)
  {
    if key != [] {
      assert (key + "=" + rest)[1..] == key[1..] + "=" + rest;
      FirstEqualsAfterKey(key[1..], rest);
    }
  }

  /** `key=value` with no '=' in the key and a non-empty value splits back into key and value. */
  lemma SplitsAtFirstEquals(key: string, value: string)
    requires '=' !in key && value != []
    ensures SplitLine(key + "=" + value) == Some((key, value))
  {
    var line := key + "=" + value;
    FirstEqualsAfterKey(key, value);
    assert line[..|key|] == key;
    assert line[|key| + 1..] == value;
  }

  /**
   * Two splits: keys and values are not trimmed (" a = b " gives " a " and " b "), and the value
   * keeps any further '=' ("url=a=b" sets "url" to "a=b").
   */
  lemma SplitExamples()
    ensures SplitLine(" a = b ") == Some((" a ", " b "))
    ensures SplitLine("url=a=b") == Some(("url", "a=b"))
  {
    SplitsAtFirstEquals(" a ", " b ");
    assert " a " + "=" + " b " == " a = b ";
    SplitsAtFirstEquals("url", "a=b");
    assert "url" + "=" + "a=b" == "url=a=b";
  }
}
