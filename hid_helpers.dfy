/**
 * The HID framing helpers (lib/hid_helpers.py): the CRC32 checksum of a
 * Bluetooth report, sealing an output report with it, checking the one an
 * input report carries, and picking a controller out of the devices hidapi
 * enumerates.
 *
 * `crc32_le` (lib/crc32.py) is not part of this model: every member that
 * needs it takes it as the parameter `crc32`, a function from a running CRC
 * value and a byte list to the next running value. `hid.enumerate` is foreign
 * code too: `FindDevices` takes the list it returned.
 */
module HidHelpers {
  import opened Wrappers
  import opened Bytes
  import opened Const

  /** 2^32: the checksum is an unsigned 32-bit value. */
  const Modulus32: nat := 0x1_0000_0000

  /** The seed byte `verify_checksum` feeds before an input report's body. */
  const InputSeed: byte := 0xA1

  lemma Pow256Of4()
    ensures Pow256(4) == Modulus32
  {
  }

  /**
   * `get_checksum(report, seed)`: the CRC of the seed byte, continued over the
   * body, complemented (`~`) and reduced to 32 bits. The result is the 32-bit
   * complement of the running CRC.
   */
  function GetChecksum(report: seq<byte>, seed: byte, crc32: (int, seq<byte>) -> int): (r: nat)
    ensures r < Modulus32
    ensures (r + crc32(crc32(0xFFFFFFFF, [seed]), report)) % Modulus32 == Modulus32 - 1
  {
    var crc := crc32(0xFFFFFFFF, [seed]);
    var crc := -crc32(crc, report) - 1;
    crc % Modulus32
  }

  /** A body followed by its checksum for `seed`, four bytes little-endian. */
  function Sealed(body: seq<byte>, seed: byte, crc32: (int, seq<byte>) -> int): (r: seq<byte>)
    ensures |r| == |body| + 4 && r[..|body|] == body
  {
    Pow256Of4();
    body + ToLittleEndian(GetChecksum(body, seed, crc32), 4)
  }

  /** `report[:-4]`: everything but the last four entries (nothing when there are fewer than four). */
  function Body(report: seq<byte>): (r: seq<byte>)
    ensures |report| >= 4 ==> r == report[..|report| - 4]
    ensures |report| < 4 ==> r == []
  {
    if |report| >= 4 then report[..|report| - 4] else []
  }

  /** `report[-4:]`: the last four entries (the whole list when there are fewer than four). */
  function Trailer(report: seq<byte>): (r: seq<byte>)
    ensures |report| >= 4 ==> r == report[|report| - 4..]
    ensures |report| < 4 ==> r == report
  {
    if |report| >= 4 then report[|report| - 4..] else report
  }

  /**
   * `add_checksum(report)`: the last four entries are replaced by the checksum
   * of the rest, seeded with 0xA2. A list of four or more keeps its length and
   * every other entry; a shorter one becomes just the four checksum bytes.
   */
  function AddChecksum(report: seq<byte>, crc32: (int, seq<byte>) -> int): (r: seq<byte>)
    ensures |report| >= 4 ==> |r| == |report| && r[..|r| - 4] == report[..|report| - 4]
    ensures |report| < 4 ==> |r| == 4
    ensures |r| >= 4 && LittleEndian(r[|r| - 4..]) == GetChecksum(r[..|r| - 4], Crc32Seed, crc32)
  {
    var r := Sealed(Body(report), Crc32Seed, crc32);
    assert r[..|r| - 4] == Body(report);
    Pow256Of4();
    LittleEndianOfToLittleEndian(GetChecksum(Body(report), Crc32Seed, crc32), 4);
    r
  }

  /** `verify_checksum(report)`: the trailer, read little-endian, equals the checksum of the rest seeded with 0xA1. */
  function VerifyChecksum(report: seq<byte>, crc32: (int, seq<byte>) -> int): bool
  {
    LittleEndian(Trailer(report)) == GetChecksum(Body(report), InputSeed, crc32)
  }

  /** `verify_checksum` accepts a body plus four trailer bytes exactly when the trailer is the body sealed with seed 0xA1. */
  lemma VerifyAcceptsExactlySealed(body: seq<byte>, trailer: seq<byte>, crc32: (int, seq<byte>) -> int)
    requires |trailer| == 4
    ensures VerifyChecksum(body + trailer, crc32) <==> body + trailer == Sealed(body, InputSeed, crc32)
  {
    var report := body + trailer;
    assert Body(report) == body;
    assert Trailer(report) == trailer;
    var c := GetChecksum(body, InputSeed, crc32);
    Pow256Of4();
    if VerifyChecksum(report, crc32) {
      ToLittleEndianOfLittleEndian(trailer);
    } else if report == Sealed(body, InputSeed, crc32) {
      assert trailer == ToLittleEndian(c, 4);
      LittleEndianOfToLittleEndian(c, 4);
    }
  }

  /**
   * A report sealed by `add_checksum` passes `verify_checksum` only when the
   * two seeds happen to give the same checksum of its body.
   */
  lemma VerifyOfAddChecksum(report: seq<byte>, crc32: (int, seq<byte>) -> int)
    requires |report| >= 4
    ensures VerifyChecksum(AddChecksum(report, crc32), crc32)
            <==> GetChecksum(Body(report), Crc32Seed, crc32) == GetChecksum(Body(report), InputSeed, crc32)
  {
    var r := AddChecksum(report, crc32);
    var body := Body(report);
    assert r == body + r[|r| - 4..];
    VerifyAcceptsExactlySealed(body, r[|r| - 4..], crc32);
    Pow256Of4();
    var s2 := ToLittleEndian(GetChecksum(body, Crc32Seed, crc32), 4);
    var s1 := ToLittleEndian(GetChecksum(body, InputSeed, crc32), 4);
    assert r == body + s2;
    if s2 == s1 {
      LittleEndianOfToLittleEndian(GetChecksum(body, Crc32Seed, crc32), 4);
      LittleEndianOfToLittleEndian(GetChecksum(body, InputSeed, crc32), 4);
    } else {
      assert body + s2 != body + s1 by {
        assert (body + s2)[|body|..] == s2;
        assert (body + s1)[|body|..] == s1;
      }
    }
  }

  // ---- UTF-8, for a device path given as text ----

  /** The UTF-8 bytes of one character. */
  function Utf8Char(c: char): (r: seq<byte>)
    ensures 1 <= |r| <= 4
  {
    var n := c as int;
    if n < 0x80 then [n as byte]
    else if n < 0x800 then [(0xC0 + n / 0x40) as byte, (0x80 + n % 0x40) as byte]
    else if n < 0x1_0000 then [(0xE0 + n / 0x1000) as byte, (0x80 + n / 0x40 % 0x40) as byte, (0x80 + n % 0x40) as byte]
    else [(0xF0 + n / 0x4_0000) as byte, (0x80 + n / 0x1000 % 0x40) as byte, (0x80 + n / 0x40 % 0x40) as byte, (0x80 + n % 0x40) as byte]
  }

  /** `bytes(text, "utf8")`. */
  function Utf8Encode(s: string): (r: seq<byte>)
    ensures |s| <= |r| <= 4 * |s|
  {
    if s == [] then [] else Utf8Char(s[0]) + Utf8Encode(s[1..])
  }

  /** How many bytes a UTF-8 sequence starting with `lead` has. */
  function SequenceLength(lead: byte): nat
  {
    var v := lead as int;
    if v < 0x80 then 1 else if v < 0xE0 then 2 else if v < 0xF0 then 3 else 4
  }

  /** The code point a UTF-8 sequence of `SequenceLength(bs[0])` bytes spells. */
  function CodePoint(bs: seq<byte>): int
    requires |bs| >= 1 && |bs| >= SequenceLength(bs[0])
  {
    var n := SequenceLength(bs[0]);
    if n == 1 then bs[0] as int
    else if n == 2 then (bs[0] as int - 0xC0) * 0x40 + (bs[1] as int - 0x80)
    else if n == 3 then (bs[0] as int - 0xE0) * 0x1000 + (bs[1] as int - 0x80) * 0x40 + (bs[2] as int - 0x80)
    else (bs[0] as int - 0xF0) * 0x4_0000 + (bs[1] as int - 0x80) * 0x1000 + (bs[2] as int - 0x80) * 0x40 + (bs[3] as int - 0x80)
  }

  lemma TwoBytes(n: int)
    requires 0x80 <= n < 0x800
    ensures 0xC2 <= 0xC0 + n / 0x40 < 0xE0 && (n / 0x40) * 0x40 + n % 0x40 == n
  {
  }

  lemma ThreeBytes(n: int)
    requires 0x800 <= n < 0x1_0000
    ensures 0xE0 <= 0xE0 + n / 0x1000 < 0xF0
    ensures (n / 0x1000) * 0x1000 + (n / 0x40 % 0x40) * 0x40 + n % 0x40 == n
  {
  }

  lemma FourBytes(n: int)
    requires 0x1_0000 <= n < 0x11_0000
    ensures 0xF0 <= 0xF0 + n / 0x4_0000 < 0x100
    ensures (n / 0x4_0000) * 0x4_0000 + (n / 0x1000 % 0x40) * 0x1000 + (n / 0x40 % 0x40) * 0x40 + n % 0x40 == n
  {
  }

  lemma DecodesOne(c: char)
    requires c as int < 0x80
    ensures SequenceLength(Utf8Char(c)[0]) == |Utf8Char(c)| && CodePoint(Utf8Char(c)) == c as int
  {
  }

  lemma DecodesTwo(c: char)
    requires 0x80 <= c as int < 0x800
    ensures SequenceLength(Utf8Char(c)[0]) == |Utf8Char(c)| && CodePoint(Utf8Char(c)) == c as int
  {
    TwoBytes(c as int);
  }

  lemma DecodesThree(c: char)
    requires 0x800 <= c as int < 0x1_0000
    ensures SequenceLength(Utf8Char(c)[0]) == |Utf8Char(c)| && CodePoint(Utf8Char(c)) == c as int
  {
    ThreeBytes(c as int);
  }

  lemma DecodesFour(c: char)
    requires 0x1_0000 <= c as int
    ensures SequenceLength(Utf8Char(c)[0]) == |Utf8Char(c)| && CodePoint(Utf8Char(c)) == c as int
  {
    FourBytes(c as int);
  }

  /** A character's encoding announces its own length and spells the character. */
  lemma Utf8CharDecodes(c: char)
    ensures SequenceLength(Utf8Char(c)[0]) == |Utf8Char(c)|
    ensures CodePoint(Utf8Char(c)) == c as int
  {
    var n := c as int;
    if n < 0x80 {
      DecodesOne(c);
    } else if n < 0x800 {
      DecodesTwo(c);
    } else if n < 0x1_0000 {
      DecodesThree(c);
    } else {
      DecodesFour(c);
    }
  }

  /** Different texts never encode to the same path. */
  lemma {:induction false} Utf8EncodeInjective(s: string, t: string)
    requires Utf8Encode(s) == Utf8Encode(t)
    ensures s == t
  {
    if s == [] || t == [] {
      assert |Utf8Encode(s)| == 0 || |Utf8Encode(t)| == 0;
    } else {
      var e := Utf8Encode(s);
      var cs, ct := Utf8Char(s[0]), Utf8Char(t[0]);
      Utf8CharDecodes(s[0]);
      Utf8CharDecodes(t[0]);
      assert e[0] == cs[0] && e[0] == ct[0];
      assert |cs| == |ct|;
      assert cs == e[..|cs|] && ct == e[..|ct|];
      assert s[0] as int == t[0] as int;
      assert Utf8Encode(s[1..]) == e[|cs|..] == Utf8Encode(t[1..]);
      Utf8EncodeInjective(s[1..], t[1..]);
      assert s == [s[0]] + s[1..] && t == [t[0]] + t[1..];
    }
  }

  // ---- device filtering ----

  /** An entry of `hid.enumerate`: the fields `find_devices` and the controller read. */
  datatype Device = Device(path: seq<byte>, serialNumber: string, interfaceNumber: int)

  /** The `path` argument: bytes, or text that is UTF-8-encoded first. */
  datatype PathArg = BytesPath(bytes: seq<byte>) | TextPath(text: string)

  /** What `find_devices` returns: one device, `None`, or the whole list. */
  datatype Found = OneDevice(device: Device) | NoDevice | AllDevices(devices: seq<Device>)

  /** What a scan looks for: a path or a serial number. */
  datatype Key = PathKey(bytes: seq<byte>) | SerialKey(serial: string)

  function PathBytes(p: PathArg): seq<byte>
  {
    match p
    case BytesPath(b) => b
    case TextPath(t) => Utf8Encode(t)
  }

  predicate Matches(d: Device, key: Key)
  {
    match key
    case PathKey(b) => d.path == b
    case SerialKey(s) => d.serialNumber == s
  }

  /** The first device matching `key`, if any. */
  function FirstMatch(devices: seq<Device>, key: Key): (r: Option<nat>)
    ensures r.Some? ==> r.value < |devices| && Matches(devices[r.value], key)
    ensures r.Some? ==> forall j :: 0 <= j < r.value ==> !Matches(devices[j], key)
    ensures r.None? <==> forall j :: 0 <= j < |devices| ==> !Matches(devices[j], key)
  {
    if devices == [] then None
    else if Matches(devices[0], key) then Some(0)
    else match FirstMatch(devices[1..], key)
      case Some(i) => Some(i + 1)
      case None => None
  }

  /** The device a scan for `key` returns, or `None`. */
  function Pick(devices: seq<Device>, key: Key): Found
  {
    match FirstMatch(devices, key)
    case Some(i) => OneDevice(devices[i])
    case None => NoDevice
  }

  /** One of the early-return loops of `find_devices`. */
  method Scan(devices: seq<Device>, key: Key) returns (r: Found)
    ensures r == Pick(devices, key)
  {
    var i := 0;
    while i < |devices|
      invariant 0 <= i <= |devices|
      invariant forall j :: 0 <= j < i ==> !Matches(devices[j], key)
    {
      if Matches(devices[i], key) {
        assert FirstMatch(devices, key) == Some(i);
        return OneDevice(devices[i]);
      }
      i := i + 1;
    }
    return NoDevice;
  }

  /**
   * `find_devices(serial_number, path)` over the list hidapi enumerated: a
   * given path wins and picks the first device with that path; otherwise a
   * given serial number picks the first device with it; with neither, the
   * whole list.
   */
  method FindDevices(devices: seq<Device>, serialNumber: Option<string>, path: Option<PathArg>) returns (r: Found)
    ensures path.Some? ==> r == Pick(devices, PathKey(PathBytes(path.value)))
    ensures path.None? && serialNumber.Some? ==> r == Pick(devices, SerialKey(serialNumber.value))
    ensures path.None? && serialNumber.None? ==> r == AllDevices(devices)
  {
    if path.Some? {
      var p := PathBytes(path.value);
      r := Scan(devices, PathKey(p));
    } else if serialNumber.Some? {
      r := Scan(devices, SerialKey(serialNumber.value));
    } else {
      r := AllDevices(devices);
    }
  }

  /** A path given as text finds the same device as its UTF-8 bytes, and only a device whose path is those bytes. */
  lemma TextPathIsEncoded(devices: seq<Device>, text: string)
    ensures Pick(devices, PathKey(PathBytes(TextPath(text)))) == Pick(devices, PathKey(Utf8Encode(text)))
    ensures forall other: string :: other != text ==>
              forall d :: Matches(d, PathKey(Utf8Encode(text))) ==> !Matches(d, PathKey(Utf8Encode(other)))
  {
    forall other: string, d | other != text && Matches(d, PathKey(Utf8Encode(text)))
      ensures !Matches(d, PathKey(Utf8Encode(other)))
    {
      if Matches(d, PathKey(Utf8Encode(other))) {
        Utf8EncodeInjective(text, other);
      }
    }
  }
}
