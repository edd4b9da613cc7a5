/**
 * Device inspection done by the Android client before it initialises the
 * engine: the firmware version triple read from the `android.os.Build`
 * properties, and the case-insensitive device-name match.
 *
 * The JNI property lookup is a function parameter `buildProp` (property name
 * to its string value) and the third-party version parser is a function
 * parameter `parse` (string to its list of parts, or None when it does not
 * parse).
 */
module DeviceInfo {
  import opened Common

  /** One component of a parsed version string, as the version parser reports it. */
  datatype Part = Number(value: u64) | Text(text: string)

  /** The engine's firmware version record. */
  datatype Version = Version(major: u32, minor: u32, patch: u32)

  const ZERO_VERSION: Version := Version(0, 0, 0)

  /** Slot `idx` of the triple: the numeric part at `idx`, cast to u32, or 0
      when the part is missing or not numeric. */
  function Slot(parts: seq<Part>, idx: nat): u32
  {
    if idx < |parts| && parts[idx].Number? then AsU32(parts[idx].value) else 0
  }

  function VersionOf(parts: seq<Part>): Version
  {
    Version(Slot(parts, 0), Slot(parts, 1), Slot(parts, 2))
  }

  /** `get_version_helper`: look up one build property, parse it, and fill a
      three-slot array from its first three parts. */
  method GetVersionHelper(buildProp: string -> string, parse: string -> Option<seq<Part>>, propName: string)
    returns (r: Option<seq<u32>>)
    ensures r.Some? <==> parse(buildProp(propName)).Some?
    ensures r.Some? ==> |r.value| == 3
    ensures r.Some? ==> forall i :: 0 <= i < 3 ==> r.value[i] == Slot(parse(buildProp(propName)).value, i)
  {
    var valueStr := buildProp(propName);
    match parse(valueStr) {
      case None =>
        r := None;
      case Some(parts) =>
        var ret: seq<u32> := [0, 0, 0];
        for idx := 0 to 3
          invariant |ret| == 3
          invariant forall i :: 0 <= i < idx ==> ret[i] == Slot(parts, i)
          invariant forall i :: idx <= i < 3 ==> ret[i] == 0
        {
          // `v.part(idx)` is `Ok(Part::Number(val))` exactly in this case.
          if idx < |parts| && parts[idx].Number? {
            ret := ret[idx := AsU32(parts[idx].value)];
          }
        }
        r := Some(ret);
    }
  }

  /** The version the client reports: from `ID` if it parses, else from
      `DISPLAY` if that parses, else 0.0.0. */
  function FirmwareVersionOf(buildProp: string -> string, parse: string -> Option<seq<Part>>): Version
  {
    match parse(buildProp("ID"))
    case Some(parts) => VersionOf(parts)
    case None =>
      match parse(buildProp("DISPLAY"))
      case Some(parts) => VersionOf(parts)
      case None => ZERO_VERSION
  }

  /** `get_firmware_version`. `consulted` lists the build properties read, in
      order: `DISPLAY` is read only when `ID` does not parse. */
  method GetFirmwareVersion(buildProp: string -> string, parse: string -> Option<seq<Part>>)
    returns (v: Version, consulted: seq<string>)
    ensures consulted == if parse(buildProp("ID")).Some? then ["ID"] else ["ID", "DISPLAY"]
    ensures parse(buildProp("ID")).Some? ==> v == VersionOf(parse(buildProp("ID")).value)
    ensures parse(buildProp("ID")).None? && parse(buildProp("DISPLAY")).Some? ==>
              v == VersionOf(parse(buildProp("DISPLAY")).value)
    ensures parse(buildProp("ID")).None? && parse(buildProp("DISPLAY")).None? ==> v == ZERO_VERSION
    ensures v == FirmwareVersionOf(buildProp, parse)
  {
    var slots: seq<u32>;
    var fromId := GetVersionHelper(buildProp, parse, "ID");
    consulted := ["ID"];
    if fromId.Some? {
      slots := fromId.value;
    } else {
      var fromDisplay := GetVersionHelper(buildProp, parse, "DISPLAY");
      consulted := consulted + ["DISPLAY"];
      slots := if fromDisplay.Some? then fromDisplay.value else [0, 0, 0];
    }
    v := Version(slots[0], slots[1], slots[2]);
  }

  /** Worked cases: a full triple, extra and missing parts, a textual part,
      and the u64-to-u32 truncation of `val as u32`. */
  lemma VersionOfExamples()
    ensures VersionOf([Number(12), Number(3), Number(1)]) == Version(12, 3, 1)
    ensures VersionOf([Number(10), Number(4), Number(2), Number(99)]) == Version(10, 4, 2)
    ensures VersionOf([Number(5)]) == Version(5, 0, 0)
    ensures VersionOf([]) == ZERO_VERSION
    ensures VersionOf([Number(1), Text("beta"), Number(7)]) == Version(1, 0, 7)
    ensures VersionOf([Number(0x1_0000_0005)]) == Version(5, 0, 0)
  {
  }

  /** ASCII lower-casing of one character. */
  function LowerChar(c: char): char
  {
    if 'A' <= c <= 'Z' then (c as int + 32) as char else c
  }

  function Lower(s: string): string
  {
    seq(|s|, i requires 0 <= i < |s| => LowerChar(s[i]))
  }

  predicate StartsWith(s: string, prefix: string)
  {
    |prefix| <= |s| && s[..|prefix|] == prefix
  }

  /** `str::contains`: `needle` occurs at some position of `hay`. */
  function Contains(hay: string, needle: string): (r: bool)
    ensures r <==> exists i :: 0 <= i <= |hay| && StartsWith(hay[i..], needle)
    decreases |hay|
  {
    assert hay[0..] == hay;
    if StartsWith(hay, needle) then true
    else if |hay| == 0 then false
    else
      assert forall i :: 1 <= i <= |hay| ==> hay[1..][i - 1..] == hay[i..];
      Contains(hay[1..], needle)
  }

  const DEVICE_PROPERTIES: seq<string> := ["MODEL", "DEVICE", "MANUFACTURER"]

  /** The lower-cased `pname` occurs in the lower-cased model, device or
      manufacturer name. */
  predicate DeviceMatches(pname: string, buildProp: string -> string)
  {
    exists j :: 0 <= j < |DEVICE_PROPERTIES| && Contains(Lower(buildProp(DEVICE_PROPERTIES[j])), Lower(pname))
  }

  /** `is_device`: read the three names, then scan them in order and stop
      at the first match. `consulted` lists the build properties read. */
  method IsDevice(pname: string, buildProp: string -> string) returns (r: bool, consulted: seq<string>)
    ensures r <==> DeviceMatches(pname, buildProp)
    ensures consulted == DEVICE_PROPERTIES
  {
    var key := Lower(pname);
    var names := [Lower(buildProp("MODEL")), Lower(buildProp("DEVICE")), Lower(buildProp("MANUFACTURER"))];
    consulted := ["MODEL", "DEVICE", "MANUFACTURER"];
    assert forall j :: 0 <= j < 3 ==> names[j] == Lower(buildProp(DEVICE_PROPERTIES[j]));
    for i := 0 to |names|
      invariant forall j :: 0 <= j < i ==> !Contains(names[j], key)
    {
      if Contains(names[i], key) {
        return true, consulted;
      }
    }
    return false, consulted;
  }
}
