/**
 * GpioPins: one Jetson GPIO pin driven through the GPIO library. The library is not modelled;
 * each `GPIO::` call the pin issues is recorded, in order, in the pin's `calls`.
 */
module GpioPins {
  import opened Wrappers

  /** The library's pin-numbering modes; `Unset` is the library's value when no mode is chosen. */
  datatype NumberingMode = BOARD | BCM | CVM | TEGRA_SOC | Unset

  datatype Direction = IN | OUT
  datatype Level = LOW | HIGH

  /** A call into the GPIO library. */
  datatype GpioCall =
    | SetWarnings(enabled: bool)
    | GetMode
    | SetMode(mode: NumberingMode)
    | Setup(channel: int, direction: Direction)
    | Output(channel: int, level: Level)
    | Input(channel: int)

  /** `getModeString`: the name of a mode, "Unknown" for any other value. */
  function GetModeString(mode: NumberingMode): (name: string)
    ensures name == "Unknown" <==> mode == Unset
  {
    match mode
    case BOARD => "BOARD"
    case BCM => "BCM"
    case CVM => "CVM"
    case TEGRA_SOC => "TEGRA_SOC"
    case Unset => "Unknown"
  }

  /** ASCII lower case of one character. */
  function Lower(c: char): char
  {
    if 'A' <= c <= 'Z' then (c as int + 32) as char else c
  }

  /** ASCII lower case of a string. */
  function LowerCase(s: string): (r: string)
    ensures |r| == |s|
  {
    if s == [] then [] else [Lower(s[0])] + LowerCase(s[1..])
  }

  lemma {:induction false} LowerCaseAt(s: string, i: int)
    requires 0 <= i < |s|
    ensures LowerCase(s)[i] == Lower(s[i])
  {
    if i > 0 {
      LowerCaseAt(s[1..], i - 1);
    }
  }

  /** `t` is the lower case of `s`, checked character by character. */
  lemma LowerCaseIs(s: string, t: string)
    requires |s| == |t| && forall i :: 0 <= i < |s| ==> Lower(s[i]) == t[i]
    ensures LowerCase(s) == t
  {
    forall i | 0 <= i < |s|
      ensures LowerCase(s)[i] == t[i]
    {
      LowerCaseAt(s, i);
    }
  }

  /** The lower-case spellings of the four mode names. */
  lemma LowerCaseModeNames()
    ensures LowerCase("BOARD") == "board" && LowerCase("BCM") == "bcm"
    ensures LowerCase("CVM") == "cvm" && LowerCase("TEGRA_SOC") == "tegra_soc"
  {
    LowerCaseIs("BOARD", "board");
    LowerCaseIs("BCM", "bcm");
    LowerCaseIs("CVM", "cvm");
    LowerCaseIs("TEGRA_SOC", "tegra_soc");
  }

  /** The mode `setmode` selects for a string, `None` for a string it refuses. */
  function ModeNamed(name: string): (mode: Option<NumberingMode>)
    ensures mode.Some? ==> mode.value != Unset
    ensures mode.Some? ==>
      name == GetModeString(mode.value) || name == LowerCase(GetModeString(mode.value)) ||
      (mode.value == TEGRA_SOC && name == "tegra_sod")
  {
    LowerCaseModeNames();
    if name == "BOARD" || name == "board" then Some(BOARD)
    else if name == "BCM" || name == "bcm" then Some(BCM)
    else if name == "CVM" || name == "cvm" then Some(CVM)
    else if name == "TEGRA_SOC" || name == "tegra_sod" then Some(TEGRA_SOC)
    else None
  }

  /** The direction `setup` selects for a string, `None` for a string it refuses. */
  function DirectionNamed(name: string): (direction: Option<Direction>)
    ensures direction.Some? <==> name in {"OUT", "out", "IN", "in"}
    ensures direction == Some(OUT) <==> name in {"OUT", "out"}
  {
    if name == "OUT" || name == "out" then Some(OUT)
    else if name == "IN" || name == "in" then Some(IN)
    else None
  }

  /**
   * The name `getModeString` gives a mode is accepted by `setmode` and selects that mode again,
   * for each of the four modes; the "Unknown" of any other value is refused.
   */
  lemma ModeNameRoundTrip(mode: NumberingMode)
    ensures mode != Unset ==> ModeNamed(GetModeString(mode)) == Some(mode)
    ensures mode == Unset ==> ModeNamed(GetModeString(mode)) == None
  {
  }

  /** Every accepted spelling selects a mode whose own name selects it too. */
  lemma AcceptedNameIsCanonical(name: string)
    requires ModeNamed(name).Some?
    ensures ModeNamed(GetModeString(ModeNamed(name).value)) == ModeNamed(name)
    ensures GetModeString(ModeNamed(name).value) != "Unknown"
  {
  }

  /** The lower-case name of BOARD, BCM and CVM is accepted as that mode. */
  lemma LowerCaseNames(mode: NumberingMode)
    requires mode == BOARD || mode == BCM || mode == CVM
    ensures ModeNamed(LowerCase(GetModeString(mode))) == Some(mode)
  {
    match mode
    case BOARD => LowerCaseIs("BOARD", "board");
    case BCM => LowerCaseIs("BCM", "bcm");
    case CVM => LowerCaseIs("CVM", "cvm");
  }

  /**
   * The lower-case name of TEGRA_SOC is refused; the misspelling "tegra_sod" is accepted in
   * its place.
   */
  lemma TegraSocLowerCaseRefused()
    ensures ModeNamed(LowerCase(GetModeString(TEGRA_SOC))) == None
    ensures ModeNamed("tegra_sod") == Some(TEGRA_SOC)
  {
    LowerCaseIs("TEGRA_SOC", "tegra_soc");
    TegraSocRefused();
    TegraSodAccepted();
  }

  lemma TegraSocRefused()
    ensures ModeNamed("tegra_soc") == None
  {
  }

  lemma TegraSodAccepted()
    ensures ModeNamed("tegra_sod") == Some(TEGRA_SOC)
  {
    assert "tegra_sod"[0] != "TEGRA_SOC"[0];
  }

  /** A pin, with the library calls it has issued. */
  class GpioPin {
    var pin: int
    var calls: seq<GpioCall>

    /**
     * Warnings off, the current mode read, BOARD numbering chosen, the pin set up as an input and
     * read once. The thread that switches the pin on five seconds later is not modelled.
     */
    constructor(pin: int)
      ensures this.pin == pin
      ensures calls == [SetWarnings(false), GetMode, SetMode(BOARD), GpioCall.Setup(pin, IN), Input(pin)]
    {
      this.pin := pin;
      calls := [SetWarnings(false), GetMode, SetMode(BOARD), GpioCall.Setup(pin, IN), Input(pin)];
    }

    /** `setmode`: true exactly for an accepted name, and then that mode alone is set. */
    method Setmode(mode: string) returns (ok: bool)
      modifies this
      ensures ok <==> ModeNamed(mode).Some?
      ensures pin == old(pin)
      ensures ok ==> calls == old(calls) + [SetMode(ModeNamed(mode).value)]
      ensures !ok ==> calls == old(calls)
    {
      if mode == "BOARD" || mode == "board" {
        calls := calls + [SetMode(BOARD)];
      } else if mode == "BCM" || mode == "bcm" {
        calls := calls + [SetMode(BCM)];
      } else if mode == "CVM" || mode == "cvm" {
        calls := calls + [SetMode(CVM)];
      } else if mode == "TEGRA_SOC" || mode == "tegra_sod" {
        calls := calls + [SetMode(TEGRA_SOC)];
      } else {
        return false;
      }
      return true;
    }

    /** `setup`: true exactly for OUT/out/IN/in, and then the pin is set up in that direction. */
    method Setup(setUp: string) returns (ok: bool)
      modifies this
      ensures ok <==> DirectionNamed(setUp).Some?
      ensures pin == old(pin)
      ensures ok ==> calls == old(calls) + [GpioCall.Setup(pin, DirectionNamed(setUp).value)]
      ensures !ok ==> calls == old(calls)
    {
      if setUp == "OUT" || setUp == "out" {
        calls := calls + [GpioCall.Setup(pin, OUT)];
      } else if setUp == "IN" || setUp == "in" {
        calls := calls + [GpioCall.Setup(pin, IN)];
      } else {
        return false;
      }
      return true;
    }

    /** `pinOn`: output direction, then HIGH. */
    method PinOn() returns (ok: bool)
      modifies this
      ensures ok && pin == old(pin)
      ensures calls == old(calls) + [GpioCall.Setup(pin, OUT), Output(pin, HIGH)]
    {
      calls := calls + [GpioCall.Setup(pin, OUT)];
      calls := calls + [Output(pin, HIGH)];
      return true;
    }

    /** `pinOff`: output direction, then LOW. */
    method PinOff() returns (ok: bool)
      modifies this
      ensures ok && pin == old(pin)
      ensures calls == old(calls) + [GpioCall.Setup(pin, OUT), Output(pin, LOW)]
    {
      calls := calls + [GpioCall.Setup(pin, OUT)];
      calls := calls + [Output(pin, LOW)];
      return true;
    }

    /** `restat`: output direction, LOW, then (after a pause) HIGH. */
    method Restat() returns (ok: bool)
      modifies this
      ensures ok && pin == old(pin)
      ensures calls == old(calls) + [GpioCall.Setup(pin, OUT), Output(pin, LOW), Output(pin, HIGH)]
    {
      calls := calls + [GpioCall.Setup(pin, OUT)];
      calls := calls + [Output(pin, LOW)];
      calls := calls + [Output(pin, HIGH)];
      return true;
    }
  }
}
