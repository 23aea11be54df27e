/**
 * Value types of the library (types.go): the message record, firmware
 * versions with their JSON codec, and the on/off state, brightness, colour
 * and colour-temperature values with their clamping constructors and
 * renderers. Go's `uint` and `int` are 64 bits wide here.
 */
module Types {
  import opened Wrappers
  import opened Errors
  import opened Text
  import Json

  const MAX_UINT: int := 0xFFFF_FFFF_FFFF_FFFF

  /** Go's `uint`. */
  type Uint = n: int | 0 <= n <= MAX_UINT

  /** Go's `int`. */
  type Int = i: int | MIN_INT <= i <= MAX_INT

  /** A message to or from a device: the peer's address and a payload. */
  datatype Message<P> = Message(ip: string, payload: P)

  // ---------------------------------------------------------------------
  // Version

  /** A firmware or hardware version; `Version(a, b, c)` is NewVersion(a, b, c). */
  datatype Version = Version(major: Int, minor: Int, patch: Int)

  const ZERO_VERSION := Version(0, 0, 0)

  /** `Version.String`: "%d.%d.%d". */
  function VersionString(v: Version): string
  {
    Join([IntToString(v.major), IntToString(v.minor), IntToString(v.patch)], '.')
  }

  /** `Version.MarshalJSON`: the version string as a JSON string literal. */
  function MarshalJSON(v: Version): (r: string)
    ensures |r| >= 2 && r[0] == '"' && r[|r| - 1] == '"'
  {
    Json.Quote(VersionString(v))
  }

  /** The pieces UnmarshalJSON reads: the input without surrounding quotes, split at dots. */
  function VersionParts(b: string): seq<string>
  {
    Split(Trim(b, '"'), '.')
  }

  /**
   * `Version.UnmarshalJSON` as a function of the receiver's value before
   * the call: the value it holds afterwards and the error returned. A
   * wrong number of parts returns the sentinel and leaves the receiver
   * alone; a part that is not an integer zeroes all three fields and
   * returns an error wrapping the sentinel.
   */
  function Unmarshal(v: Version, b: string): (r: (Version, Option<Error>))
    ensures |VersionParts(b)| != 3 ==> r == (v, Some(InvalidVersionFormat))
    ensures |VersionParts(b)| == 3 && r.1.Some? ==>
      r.0 == ZERO_VERSION && r.1.value != InvalidVersionFormat && Is(r.1.value, InvalidVersionFormat)
    ensures r.1.None? <==>
      |VersionParts(b)| == 3 && Atoi(VersionParts(b)[0]).Some?
      && Atoi(VersionParts(b)[1]).Some? && Atoi(VersionParts(b)[2]).Some?
    ensures r.1.None? ==>
      r.0 == Version(Atoi(VersionParts(b)[0]).value, Atoi(VersionParts(b)[1]).value,
                     Atoi(VersionParts(b)[2]).value)
  {
    var val := VersionParts(b);
    if |val| != 3 then (v, Some(InvalidVersionFormat))
    else
      match (Atoi(val[0]), Atoi(val[1]), Atoi(val[2]))
      case (None, _, _) => (ZERO_VERSION, Some(Wrapped("invalid major version", InvalidVersionFormat)))
      case (Some(_), None, _) => (ZERO_VERSION, Some(Wrapped("invalid minor version", InvalidVersionFormat)))
      case (Some(_), Some(_), None) => (ZERO_VERSION, Some(Wrapped("invalid patch version", InvalidVersionFormat)))
      case (Some(major), Some(minor), Some(patch)) => (Version(major, minor, patch), None)
  }

  /**
   * `Version.UnmarshalJSON`, writing the receiver field by field: `v` is
   * the receiver before the call, `w` after it.
   */
  method UnmarshalJSON(v: Version, b: string) returns (w: Version, err: Option<Error>)
    ensures (w, err) == Unmarshal(v, b)
  {
    var val := Split(Trim(b, '"'), '.');
    if |val| != 3 {
      return v, Some(InvalidVersionFormat);
    }
    w, err := v, None;

    var major := Atoi(val[0]);
    w := w.(major := if major.Some? then major.value else 0);
    if major.None? {
      w := ZERO_VERSION;
      return w, Some(Wrapped("invalid major version", InvalidVersionFormat));
    }
    var minor := Atoi(val[1]);
    w := w.(minor := if minor.Some? then minor.value else 0);
    if minor.None? {
      w := ZERO_VERSION;
      return w, Some(Wrapped("invalid minor version", InvalidVersionFormat));
    }
    var patch := Atoi(val[2]);
    w := w.(patch := if patch.Some? then patch.value else 0);
    if patch.None? {
      w := ZERO_VERSION;
      return w, Some(Wrapped("invalid patch version", InvalidVersionFormat));
    }
  }

  /** An input without exactly two dots inside its quotes leaves the receiver unchanged. */
  lemma UnmarshalDotCount(v: Version, b: string)
    requires Count(Trim(b, '"'), '.') != 2
    ensures Unmarshal(v, b) == (v, Some(InvalidVersionFormat))
  {
    SplitLength(Trim(b, '"'), '.');
  }

  /** The pieces of a version string are the three numbers it prints. */
  lemma VersionStringParts(v: Version)
    ensures Split(VersionString(v), '.') ==
            [IntToString(v.major), IntToString(v.minor), IntToString(v.patch)]
  {
    var parts := [IntToString(v.major), IntToString(v.minor), IntToString(v.patch)];
    forall i | 0 <= i < 3 ensures '.' !in parts[i] {
      if '.' in parts[i] {
        var k :| 0 <= k < |parts[i]| && parts[i][k] == '.';
      }
    }
    SplitOfJoin(parts, '.');
  }

  lemma VersionStringShape(v: Version)
    ensures VersionString(v) == IntToString(v.major) + "." + IntToString(v.minor) + "." + IntToString(v.patch)
  {
    var parts := [IntToString(v.major), IntToString(v.minor), IntToString(v.patch)];
    assert parts[1..][1..] == [IntToString(v.patch)];
    assert Join(parts[1..], '.') == IntToString(v.minor) + "." + IntToString(v.patch);
  }

  /** MarshalJSON writes the version string between quotes, with nothing escaped. */
  lemma MarshalShape(v: Version)
    ensures MarshalJSON(v) == "\"" + VersionString(v) + "\""
  {
    var s := VersionString(v);
    forall i | 0 <= i < |s| ensures Json.Plain(s[i]) {
      var parts := [IntToString(v.major), IntToString(v.minor), IntToString(v.patch)];
      JoinChars(parts, '.', i);
    }
    Json.QuotePlain(s);
  }

  /** Decoding what MarshalJSON writes restores the version, whatever the receiver held. */
  lemma UnmarshalOfMarshal(prior: Version, v: Version)
    ensures Unmarshal(prior, MarshalJSON(v)) == (v, None)
  {
    var s := VersionString(v);
    VersionStringShape(v);
    assert s[0] == IntToString(v.major)[0];
    assert s[|s| - 1] == IntToString(v.patch)[|IntToString(v.patch)| - 1];
    MarshalShape(v);
    TrimEnclosed(s, '"');
    VersionStringParts(v);
    AtoiOfIntToString(v.major);
    AtoiOfIntToString(v.minor);
    AtoiOfIntToString(v.patch);
  }

  /** Every character of a joined string is the separator or a character of a part. */
  lemma {:induction false} JoinChars(parts: seq<string>, sep: char, i: nat)
    requires |parts| >= 1 && i < |Join(parts, sep)|
    requires forall p, k | 0 <= p < |parts| && 0 <= k < |parts[p]| :: IsDigit(parts[p][k]) || parts[p][k] == '-'
    ensures var c := Join(parts, sep)[i]; c == sep || IsDigit(c) || c == '-'
    decreases |parts|
  {
    if |parts| > 1 && i > |parts[0]| {
      var rest := Join(parts[1..], sep);
      assert Join(parts, sep)[i] == rest[i - |parts[0]| - 1];
      JoinChars(parts[1..], sep, i - |parts[0]| - 1);
    }
  }

  /** A text with two dots splits into its three dot-free pieces. */
  lemma SplitThree(x: string, y: string, z: string)
    requires '.' !in x && '.' !in y && '.' !in z
    ensures Split(x + ['.'] + y + ['.'] + z, '.') == [x, y, z]
  {
    var rest := y + ['.'] + z;
    assert x + ['.'] + y + ['.'] + z == x + ['.'] + rest;
    SplitAtFirst(x, '.', rest);
    SplitAtFirst(y, '.', z);
    SplitWithoutSep(z, '.');
  }

  /** Three dot-free pieces that do not start or end in a quote are the parts of their dotted join. */
  lemma VersionPartsOf(x: string, y: string, z: string)
    requires '.' !in x && '.' !in y && '.' !in z
    requires x != [] && x[0] != '"' && z != [] && z[|z| - 1] != '"'
    ensures VersionParts(x + ['.'] + y + ['.'] + z) == [x, y, z]
  {
    var b := x + ['.'] + y + ['.'] + z;
    assert b[0] == x[0] && b[|b| - 1] == z[|z| - 1];
    TrimUntouched(b, '"');
    SplitThree(x, y, z);
  }

  lemma PartsWithLeadingZeros(b: string)
    requires b == "1.00.10"
    ensures VersionParts(b) == ["1", "00", "10"]
  {
    assert b == "1" + ['.'] + "00" + ['.'] + "10";
    VersionPartsOf("1", "00", "10");
  }

  /** Leading zeros are dropped: "1.00.10" reads as 1.0.10 (test case). */
  lemma UnmarshalLeadingZeros(b: string)
    requires b == "1.00.10"
    ensures Unmarshal(ZERO_VERSION, b) == (Version(1, 0, 10), None)
  {
    PartsWithLeadingZeros(b);
    var parts := VersionParts(b);
    AtoiExamples();
    assert Atoi(parts[0]) == Some(1) && Atoi(parts[1]) == Some(0) && Atoi(parts[2]) == Some(10);
  }

  /** The part readings the version test cases rely on. */
  lemma AtoiExamples()
    ensures Atoi("1") == Some(1) && Atoi("2") == Some(2) && Atoi("10") == Some(10)
    ensures Atoi("00") == Some(0)
    ensures Atoi("a") == None && Atoi("b") == None && Atoi("c") == None
  {
    assert Atoi("00") == Some(0) by { AtoiIgnoresLeadingZeros(1, 0); assert Zeros(1) + NatToString(0) == "00"; }
    assert Atoi("10") == Some(10) by { AtoiOfIntToString(10); assert IntToString(10) == "10"; }
    assert Atoi("1") == Some(1) by { AtoiOfIntToString(1); assert IntToString(1) == "1"; }
    assert Atoi("2") == Some(2) by { AtoiOfIntToString(2); assert IntToString(2) == "2"; }
  }

  /** ... and 1.0.10 prints as "1.0.10", so the zeros are not preserved (test case). */
  lemma VersionStringDropsZeros()
    ensures VersionString(Version(1, 0, 10)) == "1.0.10"
  {
    VersionStringShape(Version(1, 0, 10));
    assert IntToString(10) == "10";
  }

  /** "1.2" has two parts: the sentinel error, the receiver untouched (test case). */
  lemma UnmarshalTwoParts(prior: Version)
    ensures Unmarshal(prior, "1.2") == (prior, Some(InvalidVersionFormat))
  {
    TrimUntouched("1.2", '"');
    assert Split("1.2", '.') == ["1", "2"] by {
      assert "1.2" == "1" + ['.'] + "2";
      SplitAtFirst("1", '.', "2");
      SplitWithoutSep("2", '.');
    }
  }

  /** Version{1, 2, 3} marshals to "1.2.3" in quotes (test case). */
  lemma MarshalExample(v: Version)
    requires v == Version(1, 2, 3)
    ensures MarshalJSON(v) == "\"1.2.3\""
  {
    VersionStringShape(v);
    assert IntToString(1) == "1" && IntToString(2) == "2" && IntToString(3) == "3";
    assert VersionString(v) == "1.2.3";
    MarshalShape(v);
  }

  /** "a.2.3": the major part is not a number, so all fields are zeroed (test case). */
  lemma UnmarshalBadMajor(prior: Version, b: string)
    requires b == "a.2.3"
    ensures Unmarshal(prior, b) == (ZERO_VERSION, Some(Wrapped("invalid major version", InvalidVersionFormat)))
  {
    AtoiExamples();
    assert b == "a" + ['.'] + "2" + ['.'] + "3";
    VersionPartsOf("a", "2", "3");
  }

  /** "1.b.3": the minor part is not a number, so all fields are zeroed (test case). */
  lemma UnmarshalBadMinor(prior: Version, b: string)
    requires b == "1.b.3"
    ensures Unmarshal(prior, b) == (ZERO_VERSION, Some(Wrapped("invalid minor version", InvalidVersionFormat)))
  {
    AtoiExamples();
    assert b == "1" + ['.'] + "b" + ['.'] + "3";
    VersionPartsOf("1", "b", "3");
  }

  /** "1.2.c": the patch part is not a number, so all fields are zeroed (test case). */
  lemma UnmarshalBadPatch(prior: Version, b: string)
    requires b == "1.2.c"
    ensures Unmarshal(prior, b) == (ZERO_VERSION, Some(Wrapped("invalid patch version", InvalidVersionFormat)))
  {
    AtoiExamples();
    assert b == "1" + ['.'] + "2" + ['.'] + "c";
    VersionPartsOf("1", "2", "c");
  }

  // ---------------------------------------------------------------------
  // State, brightness, colour, colour temperature

  /** On/off state: 1 is on; every other value reads as off. */
  type State = Uint

  /** Brightness in percent; NewBrightness keeps it at most 100. */
  type Brightness = Uint

  datatype Color = Color(r: Uint, g: Uint, b: Uint)

  /** Colour temperature in kelvin; NewColorKelvin keeps it in [2000, 9000]. */
  type ColorKelvin = Uint

  /** `State.String`. */
  function StateString(s: State): (r: string)
    ensures r == "On" <==> s == 1
    ensures r == "On" || r == "Off"
  {
    if s == 1 then "On" else "Off"
  }

  /** `NewBrightness`: values above 100 become NewBrightness(100). */
  function NewBrightness(value: Uint): (b: Brightness)
    ensures b <= 100
    ensures value <= 100 ==> b == value
    ensures value > 100 ==> b == 100
    decreases value
  {
    if value > 100 then NewBrightness(100) else value
  }

  /** `Brightness.String`: "%d%%". */
  function BrightnessString(b: Brightness): (s: string)
    ensures |s| > 1 && s[|s| - 1] == '%' && AllDigits(s[..|s| - 1]) && DigitsValue(s[..|s| - 1]) == b
  {
    NumberWithUnit(b, '%');
    NatToString(b) + "%"
  }

  /** One channel of NewColor. */
  function ClampChannel(x: Uint): (c: Uint)
    ensures c <= 255
    ensures x <= 255 ==> c == x
    ensures x > 255 ==> c == 255
  {
    if x > 255 then 255 else x
  }

  /** `NewColor`: each channel is clamped to 255 on its own. */
  function NewColor(r: Uint, g: Uint, b: Uint): (c: Color)
    ensures c.r <= 255 && c.g <= 255 && c.b <= 255
    ensures (r <= 255 ==> c.r == r) && (g <= 255 ==> c.g == g) && (b <= 255 ==> c.b == b)
    ensures (r > 255 ==> c.r == 255) && (g > 255 ==> c.g == 255) && (b > 255 ==> c.b == 255)
  {
    Color(ClampChannel(r), ClampChannel(g), ClampChannel(b))
  }

  /** `Color.String`: "rgb(%d, %d, %d)". */
  function ColorString(c: Color): (s: string)
    ensures |s| > 4 && s[..4] == "rgb(" && s[|s| - 1] == ')'
  {
    "rgb(" + NatToString(c.r) + ", " + NatToString(c.g) + ", " + NatToString(c.b) + ")"
  }

  /** `NewColorKelvin`: raised to 2000, then lowered to 9000. */
  function NewColorKelvin(value: Uint): (k: ColorKelvin)
    ensures 2000 <= k <= 9000
    ensures 2000 <= value <= 9000 ==> k == value
    ensures value < 2000 ==> k == 2000
    ensures value > 9000 ==> k == 9000
  {
    var v := if value < 2000 then 2000 else value;
    if v > 9000 then 9000 else v
  }

  /** `ColorKelvin.String`: "%dK". */
  function KelvinString(k: ColorKelvin): (s: string)
    ensures |s| > 1 && s[|s| - 1] == 'K' && AllDigits(s[..|s| - 1]) && DigitsValue(s[..|s| - 1]) == k
  {
    NumberWithUnit(k, 'K');
    NatToString(k) + "K"
  }

  /** The clamping constructors are idempotent: a clamped value is left alone. */
  lemma ClampsIdempotent(x: Uint, r: Uint, g: Uint, b: Uint)
    ensures NewBrightness(NewBrightness(x)) == NewBrightness(x)
    ensures NewColorKelvin(NewColorKelvin(x)) == NewColorKelvin(x)
    ensures var c := NewColor(r, g, b); NewColor(c.r, c.g, c.b) == c
  {
  }

  /** A number followed by a unit: the unit is the last character and the digits before it give the number. */
  lemma {:induction false} NumberWithUnit(n: Uint, unit: char)
    ensures var s := NatToString(n) + [unit];
      s[|s| - 1] == unit && AllDigits(s[..|s| - 1]) && DigitsValue(s[..|s| - 1]) == n
  {
    var s := NatToString(n) + [unit];
    assert s[..|s| - 1] == NatToString(n);
    DigitsValueOfNatToString(n);
  }

  /** Distinct numbers print differently. */
  lemma NatToStringInjective(m: nat, n: nat)
    requires NatToString(m) == NatToString(n)
    ensures m == n
  {
    DigitsValueOfNatToString(m);
    DigitsValueOfNatToString(n);
  }

  /** The text of a colour after "rgb(", cut at its commas. */
  lemma ColorStringFields(e: Color)
    ensures ColorString(e)[..4] == "rgb("
    ensures Split(ColorString(e)[4..], ',') ==
            [NatToString(e.r), " " + NatToString(e.g), " " + NatToString(e.b) + ")"]
  {
    var r, g, b := NatToString(e.r), " " + NatToString(e.g), " " + NatToString(e.b) + ")";
    assert ColorString(e) == "rgb(" + (r + [','] + (g + [','] + b));
    CommaFree(e.r);
    CommaFree(e.g);
    CommaFree(e.b);
    SplitAtFirst(r, ',', g + [','] + b);
    SplitAtFirst(g, ',', b);
    SplitWithoutSep(b, ',');
  }

  /** A rendered channel, with or without its padding, holds no comma. */
  lemma CommaFree(n: nat)
    ensures ',' !in NatToString(n) && ',' !in " " + NatToString(n) && ',' !in " " + NatToString(n) + ")"
  {
    var s := NatToString(n);
    assert forall i | 0 <= i < |s| :: s[i] != ',';
    assert forall i | 0 <= i < |" " + s| :: (" " + s)[i] != ',';
    assert forall i | 0 <= i < |" " + s + ")"| :: (" " + s + ")")[i] != ',';
  }

  /** Distinct colours render differently. */
  lemma ColorStringInjective(c: Color, d: Color)
    requires ColorString(c) == ColorString(d)
    ensures c == d
  {
    ColorStringFields(c);
    ColorStringFields(d);
    var pc := Split(ColorString(c)[4..], ',');
    var pd := Split(ColorString(d)[4..], ',');
    assert pc == pd;
    assert NatToString(c.r) == pc[0] == pd[0] == NatToString(d.r);
    assert NatToString(c.g) == pc[1][1..] == pd[1][1..] == NatToString(d.g);
    assert NatToString(c.b) == pc[2][1..|pc[2]| - 1] == pd[2][1..|pd[2]| - 1] == NatToString(d.b);
    NatToStringInjective(c.r, d.r);
    NatToStringInjective(c.g, d.g);
    NatToStringInjective(c.b, d.b);
  }

  /** The renderings of states and colours that the library's table tests expect. */
  lemma RenderExamples()
    ensures StateString(1) == "On" && StateString(0) == "Off"
    ensures ColorString(Color(255, 0, 0)) == "rgb(255, 0, 0)"
    ensures ColorString(Color(0, 255, 0)) == "rgb(0, 255, 0)"
    ensures ColorString(Color(0, 0, 255)) == "rgb(0, 0, 255)"
  {
    assert NatToString(25) == "25";
    assert NatToString(255) == "255";
  }

  /** The renderings of a decoded status response that the library's tests expect. */
  lemma StatusRenderExamples()
    ensures StateString(1) == "On"
    ensures BrightnessString(100) == "100%"
    ensures ColorString(Color(255, 0, 0)) == "rgb(255, 0, 0)"
    ensures KelvinString(7200) == "7200K"
  {
    assert NatToString(10) == "10";
    assert NatToString(100) == "100";
    assert NatToString(25) == "25";
    assert NatToString(255) == "255";
    assert NatToString(72) == "72";
    assert NatToString(720) == "720";
    assert NatToString(7200) == "7200";
  }

  /** Sample inputs outside the ranges, clamped to the nearest bound. */
  lemma ClampExamples()
    ensures NewBrightness(150) == 100 && NewBrightness(0) == 0
    ensures NewColor(300, 0, 256) == Color(255, 0, 255)
    ensures NewColorKelvin(500) == 2000 && NewColorKelvin(20000) == 9000
  {
  }
}
