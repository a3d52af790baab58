/**
 * The report codec of the controller (dualsense.py): the values an input
 * report holds, read from fixed offsets and bit masks, and the layout of the
 * output report assembled from the components' `get_report()` tuples.
 *
 * Decoding is stated on the byte list after the Bluetooth shift (`pop(1)`):
 * offsets below are those of `_update_inputs`.
 */
module Codec {
  import opened Bytes
  import opened Const
  import opened Touchpads
  import opened Components
  import opened HidHelpers

  // ---------------------------------------------------------------- input

  /** Everything `_update_inputs` reads out of one input report. */
  datatype InputReport = InputReport(
    square: bool, cross: bool, circle: bool, triangle: bool,
    dpad: int,
    share: bool, options: bool, ps: bool, mic: bool,
    leftBumper: bool, rightBumper: bool,
    leftTrigger: byte, rightTrigger: byte,
    leftStickPressed: bool, leftStick: (int, int),
    rightStickPressed: bool, rightStick: (int, int),
    touchClick: bool, touch1: TouchReport, touch2: TouchReport,
    gyro: (int, int, int),
    batteryPercent: int, batteryState: BatteryState)

  /** A stick axis: the raw byte minus 127. */
  function Axis(b: byte): (a: int)
    ensures -127 <= a <= 128
  {
    b as int - 127
  }

  /** `(b & 0xf0) >> 4`: the high nibble of a byte. */
  function HighNibble(b: byte): nat
  {
    Shr(And(b, 0xf0) as nat, 4)
  }

  /** The two nibbles of a byte, as numbers. */
  lemma Nibbles(b: byte)
    ensures And(b, 0x0f) as int == b as int % 16
    ensures HighNibble(b) == b as int / 16
  {
    Masks(b);
    ShrIsDiv(And(b, 0xf0) as nat, 4);
    assert Pow2(4) == 16;
  }

  /** `((b2 & 0x0f) << 8) | b1`: the 12-bit x coordinate of a touch slot, or-ed over 16 bits (all it can reach). */
  function TouchX(b1: byte, b2: byte): nat
  {
    OrBits(Shl(And(b2, 0x0f) as nat, 8), b1 as nat, 16)
  }

  /** `(b3 << 4) | ((b2 & 0xf0) >> 4)`: the 12-bit y coordinate of a touch slot. */
  function TouchY(b2: byte, b3: byte): nat
  {
    OrBits(Shl(b3 as nat, 4), HighNibble(b2), 16)
  }

  /** The shifted pieces of x do not overlap: x is the low nibble of b2 above all of b1. */
  lemma TouchXValue(b1: byte, b2: byte)
    ensures TouchX(b1, b2) == (b2 as int % 16) * 256 + b1 as int
  {
    var lo := And(b2, 0x0f) as nat;
    Nibbles(b2);
    ShlIsMul(lo, 8);
    assert Pow2(8) == 256 && Pow2(16) == 65536;
    assert Shl(lo, 8) == 256 * lo;
    OrDisjoint(lo, b1 as nat, 8, 16);
  }

  /** The shifted pieces of y do not overlap: y is all of b3 above the high nibble of b2. */
  lemma TouchYValue(b2: byte, b3: byte)
    ensures TouchY(b2, b3) == b3 as int * 16 + b2 as int / 16
  {
    Nibbles(b2);
    ShlIsMul(b3 as nat, 4);
    assert Pow2(4) == 16 && Pow2(16) == 65536;
    assert Shl(b3 as nat, 4) == 16 * b3 as nat;
    OrDisjoint(b3 as nat, HighNibble(b2), 4, 16);
  }

  /** One touch slot from its four bytes: a 7-bit id with an inverted activity bit, then x and y. */
  function DecodeTouch(b0: byte, b1: byte, b2: byte, b3: byte): TouchReport
  {
    TouchReport(And(b0, 0x7f) as int, !Bit(b0, 0x80), TouchX(b1, b2), TouchY(b2, b3))
  }

  /** A touch slot's fields as numbers: the id is the low seven bits, and the coordinates are sums of the pieces the shifts place. */
  lemma DecodeTouchFields(b0: byte, b1: byte, b2: byte, b3: byte)
    ensures var t := DecodeTouch(b0, b1, b2, b3);
            && t.id == b0 as int % 128 && (t.active <==> b0 < 128)
            && t.x == (b2 as int % 16) * 256 + b1 as int
            && t.y == b3 as int * 16 + b2 as int / 16
            && 0 <= t.id < 128 && 0 <= t.x < 4096 && 0 <= t.y < 4096
  {
    Masks(b0);
    Bits(b0);
    TouchXValue(b1, b2);
    TouchYValue(b2, b3);
  }

  /** The battery percent of a status byte: ten per step of the low nibble, plus five, at most 100. */
  function BatteryPercent(status: byte): (p: int)
    ensures 5 <= p <= 100
    ensures p == 100 || p % 10 == 5
  {
    var p := And(status, 0x0f) as int * 10 + 5;
    if p <= 100 then p else 100
  }

  /** The battery state of a status byte: the table entry of its high nibble. */
  function BatteryStateOf(status: byte): BatteryState
  {
    Find(HighNibble(status))
  }

  /** The values of a report after the Bluetooth shift; it holds at least the 54 bytes the offsets reach. */
  function DecodeBody(b: seq<byte>): (r: InputReport)
    requires |b| >= 54
    ensures -127 <= r.leftStick.0 <= 128 && -127 <= r.leftStick.1 <= 128
    ensures -127 <= r.rightStick.0 <= 128 && -127 <= r.rightStick.1 <= 128
    ensures -0x8000 <= r.gyro.0 < 0x8000 && -0x8000 <= r.gyro.1 < 0x8000 && -0x8000 <= r.gyro.2 < 0x8000
    ensures 5 <= r.batteryPercent <= 100
  {
    var symbol, top, psMicTouch := b[8], b[9], b[10];
    InputReport(
      Bit(symbol, 0x10), Bit(symbol, 0x20), Bit(symbol, 0x40), Bit(symbol, 0x80),
      And(symbol, 0x0f) as int,
      Bit(top, 0x10), Bit(top, 0x20), Bit(psMicTouch, 0x01), Bit(psMicTouch, 0x04),
      Bit(top, 0x01), Bit(top, 0x02),
      b[5], b[6],
      Bit(top, 0x40), (Axis(b[1]), Axis(b[2])),
      Bit(top, 0x80), (Axis(b[3]), Axis(b[4])),
      Bit(psMicTouch, 0x02), DecodeTouch(b[33], b[34], b[35], b[36]), DecodeTouch(b[37], b[38], b[39], b[40]),
      (SignedLittleEndian([b[22], b[23]]), SignedLittleEndian([b[24], b[25]]), SignedLittleEndian([b[26], b[27]])),
      BatteryPercent(b[53]), BatteryStateOf(b[53]))
  }

  /** The d-pad code of any report is the low nibble of byte 8, so one of the sixteen codes. */
  lemma DpadRange(b: seq<byte>)
    requires |b| >= 54
    ensures DecodeBody(b).dpad == b[8] as int % 16
    ensures 0 <= DecodeBody(b).dpad < 16
  {
    Nibbles(b[8]);
  }

  /** `input_report.pop(1)` when the report came over Bluetooth. */
  function Unshift(raw: seq<byte>, bluetooth: bool): (b: seq<byte>)
    requires |raw| >= 2
    ensures bluetooth ==> |b| == |raw| - 1 && b[0] == raw[0] && forall i :: 1 <= i < |b| ==> b[i] == raw[i + 1]
    ensures !bluetooth ==> b == raw
  {
    if bluetooth then raw[..1] + raw[2..] else raw
  }

  /** The bytes an input report must hold for the offsets to exist. */
  function MinInputLength(bluetooth: bool): nat
  {
    if bluetooth then 55 else 54
  }

  /** Decoding as `_update_inputs` does it. */
  function Decode(raw: seq<byte>, bluetooth: bool): InputReport
    requires |raw| >= MinInputLength(bluetooth)
  {
    DecodeBody(Unshift(raw, bluetooth))
  }

  /** A Bluetooth report decodes exactly like the same bytes with the one at index 1 deleted, read as USB. */
  lemma BluetoothDecodesAsUsb(raw: seq<byte>)
    requires |raw| >= MinInputLength(true)
    ensures Decode(raw, true) == Decode(raw[..1] + raw[2..], false)
  {
  }

  // ---- the inverse: a report built from values, for the round trip

  /** Values an input report can carry. */
  predicate Encodable(r: InputReport)
  {
    && 0 <= r.dpad < 16
    && -127 <= r.leftStick.0 <= 128 && -127 <= r.leftStick.1 <= 128
    && -127 <= r.rightStick.0 <= 128 && -127 <= r.rightStick.1 <= 128
    && TouchEncodable(r.touch1) && TouchEncodable(r.touch2)
    && -0x8000 <= r.gyro.0 < 0x8000 && -0x8000 <= r.gyro.1 < 0x8000 && -0x8000 <= r.gyro.2 < 0x8000
    && (r.batteryPercent == 100 || (5 <= r.batteryPercent <= 95 && r.batteryPercent % 10 == 5))
  }

  predicate TouchEncodable(t: TouchReport)
  {
    0 <= t.id < 128 && 0 <= t.x < 4096 && 0 <= t.y < 4096
  }

  /** The four bytes of a touch slot: the id with the inverted activity bit, then x and y, 12 bits each. */
  function EncodeTouch(t: TouchReport): (bs: seq<byte>)
    requires TouchEncodable(t)
    ensures |bs| == 4
  {
    [(t.id + if t.active then 0 else 0x80) as byte,
     (t.x % 256) as byte,
     (t.x / 256 + (t.y % 16) * 16) as byte,
     (t.y / 16) as byte]
  }

  /** Decoding a touch slot's bytes gives back the slot. */
  lemma TouchRoundTrip(t: TouchReport)
    requires TouchEncodable(t)
    ensures var bs := EncodeTouch(t); DecodeTouch(bs[0], bs[1], bs[2], bs[3]) == t
  {
    var bs := EncodeTouch(t);
    DecodeTouchFields(bs[0], bs[1], bs[2], bs[3]);
    DivModUnique(bs[0] as int, 128, if t.active then 0 else 1, t.id);
    PackCoordinates(t.x, t.y);
  }

  /** The arithmetic of packing two 12-bit coordinates into three bytes, and of unpacking them. */
  lemma PackCoordinates(x: int, y: int)
    requires 0 <= x < 4096 && 0 <= y < 4096
    ensures var b2 := x / 256 + (y % 16) * 16;
            0 <= b2 < 256 && (b2 % 16) * 256 + x % 256 == x && (y / 16) * 16 + b2 / 16 == y
  {
    var b2 := x / 256 + (y % 16) * 16;
    DivModUnique(b2, 16, y % 16, x / 256);
  }

  lemma UnpackCoordinates(b1: int, b2: int, b3: int)
    requires 0 <= b1 < 256 && 0 <= b2 < 256 && 0 <= b3 < 256
    ensures var x, y := (b2 % 16) * 256 + b1, b3 * 16 + b2 / 16;
            x % 256 == b1 && x / 256 + (y % 16) * 16 == b2 && y / 16 == b3
  {
    var x, y := (b2 % 16) * 256 + b1, b3 * 16 + b2 / 16;
    DivModUnique(x, 256, b2 % 16, b1);
    DivModUnique(y, 16, b3, b2 / 16);
  }

  /** Every four bytes decode to a slot that encodes back to those bytes, save the bits the decoder ignores: none. */
  lemma EncodeDecodeTouch(b0: byte, b1: byte, b2: byte, b3: byte)
    ensures var t := DecodeTouch(b0, b1, b2, b3);
            TouchEncodable(t) && EncodeTouch(t) == [b0, b1, b2, b3]
  {
    var t := DecodeTouch(b0, b1, b2, b3);
    DecodeTouchFields(b0, b1, b2, b3);
    var bs := EncodeTouch(t);
    if b0 < 128 {
      DivModUnique(b0 as int, 128, 0, b0 as int);
    } else {
      DivModUnique(b0 as int, 128, 1, b0 as int - 128);
    }
    assert bs[0] == b0;
    UnpackCoordinates(b1 as int, b2 as int, b3 as int);
    assert bs[1] == b1 && bs[2] == b2 && bs[3] == b3;
  }

  /** The two's-complement bytes of a signed value: `v.to_bytes(n, 'little', signed=True)`. */
  function ToSignedLittleEndian(v: int, n: nat): (bs: seq<byte>)
    requires n > 0 && -128 * Pow256(n - 1) <= v < 128 * Pow256(n - 1)
    ensures |bs| == n
  {
    ToLittleEndian(if v < 0 then v + Pow256(n) else v, n)
  }

  /** Reading back the two's-complement bytes of a value gives the value. */
  lemma SignedRoundTrip(v: int, n: nat)
    requires n > 0 && -128 * Pow256(n - 1) <= v < 128 * Pow256(n - 1)
    ensures SignedLittleEndian(ToSignedLittleEndian(v, n)) == v
  {
    var u := if v < 0 then v + Pow256(n) else v;
    LittleEndianOfToLittleEndian(u, n);
  }

  /** The high nibble standing for each battery state; an unlisted nibble (3) for UNKNOWN. */
  function StateNibble(state: BatteryState): (n: nat)
    ensures n < 16 && DocumentedState(n) == state
  {
    match state
    case Discharging => 0x0
    case Full => 0x1
    case Charging => 0x2
    case IncorrectVoltage => 0xa
    case TemperatureError => 0xb
    case Error => 0xf
    case Unknown => 0x3
  }

  /** The status byte of a battery percent and state: the inverse of the two tables. */
  function EncodeStatus(percent: int, state: BatteryState): byte
    requires percent == 100 || (5 <= percent <= 95 && percent % 10 == 5)
  {
    var low := if percent == 100 then 10 else (percent - 5) / 10;
    (StateNibble(state) * 16 + low) as byte
  }

  lemma StatusRoundTrip(percent: int, state: BatteryState)
    requires percent == 100 || (5 <= percent <= 95 && percent % 10 == 5)
    ensures BatteryPercent(EncodeStatus(percent, state)) == percent
    ensures BatteryStateOf(EncodeStatus(percent, state)) == state
  {
    var s := EncodeStatus(percent, state);
    var low := if percent == 100 then 10 else (percent - 5) / 10;
    assert s as int == StateNibble(state) * 16 + low;
    DivModUnique(s as int, 16, StateNibble(state), low);
    Nibbles(s);
    FindIsDocumented(HighNibble(s));
  }

  /** The four symbol buttons, lowest bit first. */
  function SymbolBits(r: InputReport): seq<bool>
  {
    [r.square, r.cross, r.circle, r.triangle]
  }

  /** The top-button bits, lowest first: bumpers, two unused bits, share, options and the stick clicks. */
  function TopBits(r: InputReport): seq<bool>
  {
    [r.leftBumper, r.rightBumper, false, false, r.share, r.options, r.leftStickPressed, r.rightStickPressed]
  }

  /** The PS byte's bits, lowest first: PS, touchpad click and mic. */
  function PsBits(r: InputReport): seq<bool>
  {
    [r.ps, r.touchClick, r.mic]
  }

  /** The symbol-button byte: the d-pad code in the low nibble, square, cross, circle and triangle above it. */
  function SymbolByte(r: InputReport): byte
    requires 0 <= r.dpad < 16
  {
    BitAboveNibble(r.dpad, SymbolBits(r), 0, 0x10);
    (r.dpad + Shl(FromBits(SymbolBits(r)), 4)) as byte
  }

  /** The top-button byte. */
  function TopByte(r: InputReport): byte
  {
    BitOfFromBits(TopBits(r), 0, 0x01);
    FromBits(TopBits(r)) as byte
  }

  /** The PS byte. */
  function PsByte(r: InputReport): byte
  {
    BitOfFromBits(PsBits(r), 0, 0x01);
    FromBits(PsBits(r)) as byte
  }

  lemma SymbolByteRoundTrip(r: InputReport)
    requires 0 <= r.dpad < 16
    ensures var b := SymbolByte(r);
            Bit(b, 0x10) == r.square && Bit(b, 0x20) == r.cross && Bit(b, 0x40) == r.circle
            && Bit(b, 0x80) == r.triangle && And(b, 0x0f) as int == r.dpad
  {
    var bs := SymbolBits(r);
    BitAboveNibble(r.dpad, bs, 0, 0x10);
    BitAboveNibble(r.dpad, bs, 1, 0x20);
    BitAboveNibble(r.dpad, bs, 2, 0x40);
    BitAboveNibble(r.dpad, bs, 3, 0x80);
  }

  lemma TopAndPsRoundTrip(r: InputReport)
    ensures var top, ps := TopByte(r), PsByte(r);
            Bit(top, 0x10) == r.share && Bit(top, 0x20) == r.options && Bit(top, 0x01) == r.leftBumper
            && Bit(top, 0x02) == r.rightBumper && Bit(top, 0x40) == r.leftStickPressed && Bit(top, 0x80) == r.rightStickPressed
            && Bit(ps, 0x01) == r.ps && Bit(ps, 0x02) == r.touchClick && Bit(ps, 0x04) == r.mic
  {
    var top, ps := TopBits(r), PsBits(r);
    BitOfFromBits(top, 0, 0x01);
    BitOfFromBits(top, 1, 0x02);
    BitOfFromBits(top, 4, 0x10);
    BitOfFromBits(top, 5, 0x20);
    BitOfFromBits(top, 6, 0x40);
    BitOfFromBits(top, 7, 0x80);
    BitOfFromBits(ps, 0, 0x01);
    BitOfFromBits(ps, 1, 0x02);
    BitOfFromBits(ps, 2, 0x04);
  }

  /** Byte `i` of a USB input report carrying `r`; every byte the decoder ignores is zero. */
  function InputByte(r: InputReport, i: nat): byte
    requires Encodable(r)
  {
    if i == 1 then (r.leftStick.0 + 127) as byte
    else if i == 2 then (r.leftStick.1 + 127) as byte
    else if i == 3 then (r.rightStick.0 + 127) as byte
    else if i == 4 then (r.rightStick.1 + 127) as byte
    else if i == 5 then r.leftTrigger
    else if i == 6 then r.rightTrigger
    else if i == 8 then SymbolByte(r)
    else if i == 9 then TopByte(r)
    else if i == 10 then PsByte(r)
    else if 22 <= i < 24 then ToSignedLittleEndian(r.gyro.0, 2)[i - 22]
    else if 24 <= i < 26 then ToSignedLittleEndian(r.gyro.1, 2)[i - 24]
    else if 26 <= i < 28 then ToSignedLittleEndian(r.gyro.2, 2)[i - 26]
    else if 33 <= i < 37 then EncodeTouch(r.touch1)[i - 33]
    else if 37 <= i < 41 then EncodeTouch(r.touch2)[i - 37]
    else if i == 53 then EncodeStatus(r.batteryPercent, r.batteryState)
    else 0
  }

  /** The 54 bytes of a USB input report carrying `r`. */
  function EncodeBody(r: InputReport): (b: seq<byte>)
    requires Encodable(r)
    ensures |b| == 54 && forall i :: 0 <= i < 54 ==> b[i] == InputByte(r, i)
  {
    seq(54, i requires 0 <= i < 54 => InputByte(r, i))
  }

  /** The buttons of a report built from `r` read back as `r`'s. */
  lemma ButtonsRoundTrip(r: InputReport)
    requires Encodable(r)
    ensures var d := DecodeBody(EncodeBody(r));
            d.square == r.square && d.cross == r.cross && d.circle == r.circle && d.triangle == r.triangle
            && d.dpad == r.dpad && d.share == r.share && d.options == r.options && d.ps == r.ps && d.mic == r.mic
            && d.leftBumper == r.leftBumper && d.rightBumper == r.rightBumper
            && d.leftStickPressed == r.leftStickPressed && d.rightStickPressed == r.rightStickPressed
            && d.touchClick == r.touchClick
  {
    var b := EncodeBody(r);
    assert b[8] == SymbolByte(r) && b[9] == TopByte(r) && b[10] == PsByte(r);
    ButtonsFromBytes(b, r);
  }

  lemma ButtonsFromBytes(b: seq<byte>, r: InputReport)
    requires |b| >= 54 && 0 <= r.dpad < 16
    requires b[8] == SymbolByte(r) && b[9] == TopByte(r) && b[10] == PsByte(r)
    ensures var d := DecodeBody(b);
            d.square == r.square && d.cross == r.cross && d.circle == r.circle && d.triangle == r.triangle
            && d.dpad == r.dpad && d.share == r.share && d.options == r.options && d.ps == r.ps && d.mic == r.mic
            && d.leftBumper == r.leftBumper && d.rightBumper == r.rightBumper
            && d.leftStickPressed == r.leftStickPressed && d.rightStickPressed == r.rightStickPressed
            && d.touchClick == r.touchClick
  {
    SymbolFromByte(b, r);
    TopFromByte(b, r);
    PsFromByte(b, r);
  }

  lemma SymbolFromByte(b: seq<byte>, r: InputReport)
    requires |b| >= 54 && 0 <= r.dpad < 16 && b[8] == SymbolByte(r)
    ensures var d := DecodeBody(b);
            d.square == r.square && d.cross == r.cross && d.circle == r.circle && d.triangle == r.triangle
            && d.dpad == r.dpad
  {
    var d := DecodeBody(b);
    var symbol := b[8];
    assert d.square == Bit(symbol, 0x10) && d.cross == Bit(symbol, 0x20) && d.circle == Bit(symbol, 0x40)
      && d.triangle == Bit(symbol, 0x80) && d.dpad == And(symbol, 0x0f) as int;
    SymbolByteRoundTrip(r);
  }

  lemma TopFromByte(b: seq<byte>, r: InputReport)
    requires |b| >= 54 && b[9] == TopByte(r)
    ensures var d := DecodeBody(b);
            d.share == r.share && d.options == r.options && d.leftBumper == r.leftBumper
            && d.rightBumper == r.rightBumper && d.leftStickPressed == r.leftStickPressed
            && d.rightStickPressed == r.rightStickPressed
  {
    var d := DecodeBody(b);
    var top := b[9];
    assert d.share == Bit(top, 0x10) && d.options == Bit(top, 0x20) && d.leftBumper == Bit(top, 0x01)
      && d.rightBumper == Bit(top, 0x02) && d.leftStickPressed == Bit(top, 0x40) && d.rightStickPressed == Bit(top, 0x80);
    TopAndPsRoundTrip(r);
  }

  lemma PsFromByte(b: seq<byte>, r: InputReport)
    requires |b| >= 54 && b[10] == PsByte(r)
    ensures var d := DecodeBody(b); d.ps == r.ps && d.touchClick == r.touchClick && d.mic == r.mic
  {
    var d := DecodeBody(b);
    var ps := b[10];
    assert d.ps == Bit(ps, 0x01) && d.touchClick == Bit(ps, 0x02) && d.mic == Bit(ps, 0x04);
    TopAndPsRoundTrip(r);
  }

  /** The sticks and triggers of a report built from `r` read back as `r`'s. */
  lemma AnalogRoundTrip(r: InputReport)
    requires Encodable(r)
    ensures var d := DecodeBody(EncodeBody(r));
            d.leftStick == r.leftStick && d.rightStick == r.rightStick
            && d.leftTrigger == r.leftTrigger && d.rightTrigger == r.rightTrigger
  {
    var b := EncodeBody(r);
    assert b[1] as int == r.leftStick.0 + 127 && b[2] as int == r.leftStick.1 + 127;
    assert b[3] as int == r.rightStick.0 + 127 && b[4] as int == r.rightStick.1 + 127;
    assert b[5] == r.leftTrigger && b[6] == r.rightTrigger;
  }

  /** The touch slots of a report built from `r` read back as `r`'s. */
  lemma TouchesRoundTrip(r: InputReport)
    requires Encodable(r)
    ensures var d := DecodeBody(EncodeBody(r)); d.touch1 == r.touch1 && d.touch2 == r.touch2
  {
    var b := EncodeBody(r);
    var t1, t2 := EncodeTouch(r.touch1), EncodeTouch(r.touch2);
    assert b[33] == t1[0] && b[34] == t1[1] && b[35] == t1[2] && b[36] == t1[3];
    assert b[37] == t2[0] && b[38] == t2[1] && b[39] == t2[2] && b[40] == t2[3];
    TouchRoundTrip(r.touch1);
    TouchRoundTrip(r.touch2);
  }

  /** The gyroscope and battery of a report built from `r` read back as `r`'s. */
  lemma MotionRoundTrip(r: InputReport)
    requires Encodable(r)
    ensures var d := DecodeBody(EncodeBody(r));
            d.gyro == r.gyro && d.batteryPercent == r.batteryPercent && d.batteryState == r.batteryState
  {
    var b := EncodeBody(r);
    assert [b[22], b[23]] == ToSignedLittleEndian(r.gyro.0, 2);
    assert [b[24], b[25]] == ToSignedLittleEndian(r.gyro.1, 2);
    assert [b[26], b[27]] == ToSignedLittleEndian(r.gyro.2, 2);
    SignedRoundTrip(r.gyro.0, 2);
    SignedRoundTrip(r.gyro.1, 2);
    SignedRoundTrip(r.gyro.2, 2);
    assert b[53] == EncodeStatus(r.batteryPercent, r.batteryState);
    StatusRoundTrip(r.batteryPercent, r.batteryState);
  }

  /** Decoding a report built from any carried values gives those values back: every field sits at its offset. */
  lemma DecodeEncodeBody(r: InputReport)
    requires Encodable(r)
    ensures DecodeBody(EncodeBody(r)) == r
  {
    ButtonsRoundTrip(r);
    AnalogRoundTrip(r);
    TouchesRoundTrip(r);
    MotionRoundTrip(r);
  }

  // ---------------------------------------------------------------- output

  /** The nine `get_report()` tuples one output report is assembled from. */
  datatype Reports = Reports(
    mic: MicReport, leftTrigger: TriggerReport, rightTrigger: TriggerReport,
    touchpad: LedReport, player: PlayerReport,
    leftRumble: RumbleReport, rightRumble: RumbleReport,
    speaker: SpeakerReport, microphone: MicrophoneReport)

  /** The value of a byte that starts at zero and has each of `s` or-ed into it, in order. */
  function OrAll(s: seq<byte>): byte
  {
    if s == [] then 0 else Or(OrAll(s[..|s| - 1]), s[|s| - 1])
  }

  /** Nothing or-ed in leaves the byte zero. */
  lemma {:induction false} OrAllZeros(s: seq<byte>)
    requires forall i :: 0 <= i < |s| ==> s[i] == 0
    ensures OrAll(s) == 0
  {
    if s != [] {
      OrAllZeros(s[..|s| - 1]);
      OrLaws(0, 0, 0);
    }
  }

  /** Or-ing `v` into a byte is the same as or-ing it in at a turn that contributed nothing. */
  lemma {:induction false} OrAllSet(s: seq<byte>, k: nat, v: byte)
    requires k < |s| && s[k] == 0
    ensures OrAll(s[k := v]) == Or(OrAll(s), v)
  {
    var n := |s| - 1;
    var rest := OrAll(s[..n]);
    if k == n {
      assert s[k := v][..n] == s[..n];
      OrLaws(rest, v, 0);
    } else {
      assert s[k := v][..n] == s[..n][k := v];
      OrAllSet(s[..n], k, v);
      OrLaws(rest, v, s[n]);
      OrLaws(rest, s[n], v);
      OrLaws(v, s[n], 0);
    }
  }

  /** The update flags of byte 1, in the order the components are asked. */
  function Flags1List(p: Reports): seq<byte>
  {
    [p.leftTrigger.flag, p.rightTrigger.flag, p.leftRumble.flag, p.rightRumble.flag, p.speaker.flag, p.microphone.flag]
  }

  /** The update flags of byte 2, in the order the components are asked. */
  function Flags2List(p: Reports): seq<byte>
  {
    [p.mic.flag, p.touchpad.flag, p.player.flag, p.speaker.muteFlag, p.microphone.muteFlag]
  }

  /** The LED flags of byte 39: the mic button's, the touchpad's and the player LEDs'. */
  function LedFlagsList(p: Reports): seq<byte>
  {
    [p.mic.ledFlag, p.touchpad.ledFlag, p.player.ledFlag]
  }

  /**
   * Byte 43: the brightness shared by the mic LED and the player LEDs. The mic
   * button's wins when it raised its LED flag; the player LEDs' is written only
   * when the mic button did not write it.
   */
  function SharedBrightness(p: Reports): (b: byte)
    ensures p.mic.ledFlag != 0 ==> b == p.mic.brightness
    ensures p.mic.ledFlag == 0 && p.player.ledFlag != 0 ==> b == p.player.brightness
    ensures p.mic.ledFlag == 0 && p.player.ledFlag == 0 ==> b == 0
  {
    if p.mic.ledFlag != 0 then p.mic.brightness
    else if p.player.ledFlag != 0 then p.player.brightness
    else 0
  }

  /** Byte `i` (1 and up) of a USB output report, and of a Bluetooth one two places further on. */
  function BodyByte(p: Reports, i: int): byte
  {
    if i == 1 then OrAll(Flags1List(p))
    else if i == 2 then OrAll(Flags2List(p))
    else if i == 3 then p.rightRumble.intensity
    else if i == 4 then p.leftRumble.intensity
    else if 5 <= i < 7 then p.speaker.volume[i - 5]
    else if i == 7 then p.microphone.volume
    else if i == 8 then OrAll([p.speaker.enable, p.microphone.enable])
    else if i == 9 then p.mic.led
    else if i == 10 then OrAll([p.speaker.mute, p.microphone.mute])
    else if 11 <= i < 15 then p.rightTrigger.profile[i - 11]
    else if 22 <= i < 26 then p.leftTrigger.profile[i - 22]
    else if i == 39 then OrAll(LedFlagsList(p))
    else if i == 42 then p.touchpad.mode
    else if i == 43 then SharedBrightness(p)
    else if i == 44 then p.player.pattern
    else if 45 <= i < 48 then p.touchpad.color[i - 45]
    else 0
  }

  /**
   * The output report of `_generate_report`: over USB 64 bytes, report id 0x02,
   * then the body; over Bluetooth report id 0x31, the two bytes 0x00 and 0x10,
   * the body, and the CRC-32 trailer `add_checksum` writes over the last four.
   */
  function Frame(p: Reports, bluetooth: bool, crc32: (int, seq<byte>) -> int): seq<byte>
  {
    if bluetooth then AddChecksum([0x31, 0x00, 0x10] + seq(BluetoothReportLength - 3, i => BodyByte(p, i + 1)), crc32)
    else seq(UsbReportLength, i => if i == 0 then 0x02 else BodyByte(p, i))
  }

  /**
   * The layout of an output report: over USB 64 bytes, report id 0x02 and
   * the body; over Bluetooth 78 bytes, 0x31, 0x00, 0x10, the body shifted two
   * places, and a little-endian trailer equal to the checksum of the rest
   * seeded with 0xA2.
   */
  lemma FrameLayout(p: Reports, bluetooth: bool, crc32: (int, seq<byte>) -> int)
    ensures var f := Frame(p, bluetooth, crc32);
            !bluetooth ==> |f| == UsbReportLength && f[0] == 0x02
                           && forall i :: 1 <= i < |f| ==> f[i] == BodyByte(p, i)
    ensures var f := Frame(p, bluetooth, crc32);
            bluetooth ==> && |f| == BluetoothReportLength && f[..3] == [0x31, 0x00, 0x10]
                          && (forall i :: 3 <= i < |f| - 4 ==> f[i] == BodyByte(p, i - 2))
                          && LittleEndian(f[|f| - 4..]) == GetChecksum(f[..|f| - 4], Crc32Seed, crc32)
  {
    if bluetooth {
      var body := [0x31, 0x00, 0x10] + seq(BluetoothReportLength - 3, i => BodyByte(p, i + 1));
      var f := AddChecksum(body, crc32);
      assert f[..|f| - 4] == body[..|body| - 4];
      assert f[..3] == body[..3];
      forall i | 3 <= i < |f| - 4
        ensures f[i] == BodyByte(p, i - 2)
      {
        assert f[i] == f[..|f| - 4][i] == body[i];
      }
    }
  }

  /** The tuples of components that have nothing to send and no payload: what a zeroed list holds. */
  const Blank := Reports(
    MicReport(0, 0, 0, 0), TriggerReport(0, [0, 0, 0, 0]), TriggerReport(0, [0, 0, 0, 0]),
    LedReport(0, [0, 0, 0], 0, 0), PlayerReport(0, 0, 0, 0), RumbleReport(0, 0), RumbleReport(0, 0),
    SpeakerReport(0, 0, [0, 0], 0, 0), MicrophoneReport(0, 0, 0, 0, 0))

  /** Bytes 1 and up of `report` are those of the body of `q`, offset by offset. */
  ghost predicate Holds(report: seq<byte>, q: Reports)
  {
    && |report| >= 48
    && report[1] == OrAll(Flags1List(q)) && report[2] == OrAll(Flags2List(q))
    && report[3] == q.rightRumble.intensity && report[4] == q.leftRumble.intensity
    && report[5] == q.speaker.volume[0] && report[6] == q.speaker.volume[1]
    && report[7] == q.microphone.volume && report[8] == OrAll([q.speaker.enable, q.microphone.enable])
    && report[9] == q.mic.led && report[10] == OrAll([q.speaker.mute, q.microphone.mute])
    && report[11] == q.rightTrigger.profile[0] && report[12] == q.rightTrigger.profile[1]
    && report[13] == q.rightTrigger.profile[2] && report[14] == q.rightTrigger.profile[3]
    && (forall i :: 15 <= i < 22 ==> report[i] == 0)
    && report[22] == q.leftTrigger.profile[0] && report[23] == q.leftTrigger.profile[1]
    && report[24] == q.leftTrigger.profile[2] && report[25] == q.leftTrigger.profile[3]
    && (forall i :: 26 <= i < 39 ==> report[i] == 0)
    && report[39] == OrAll(LedFlagsList(q)) && report[40] == 0 && report[41] == 0
    && report[42] == q.touchpad.mode && report[43] == SharedBrightness(q) && report[44] == q.player.pattern
    && report[45] == q.touchpad.color[0] && report[46] == q.touchpad.color[1] && report[47] == q.touchpad.color[2]
    && (forall i :: 48 <= i < |report| ==> report[i] == 0)
  }

  /** Offset by offset is byte by byte. */
  lemma HoldsIsBody(report: seq<byte>, q: Reports)
    requires Holds(report, q)
    ensures forall i :: 1 <= i < |report| ==> report[i] == BodyByte(q, i)
  {
    forall i | 1 <= i < |report|
      ensures report[i] == BodyByte(q, i)
    {
      if i < 11 {
      } else if i < 26 {
      } else if i < 45 {
      } else {
      }
    }
  }

  /** The mic button's edits: flag, LED, LED flag and, when it raised its LED flag, the brightness. */
  method WriteMic(report: seq<byte>, ghost q: Reports, m: MicReport) returns (r: seq<byte>, micSetBrightness: bool)
    requires Holds(report, q) && q.mic == Blank.mic && q.player.ledFlag == 0
    ensures |r| == |report| && r[0] == report[0] && Holds(r, q.(mic := m))
    ensures micSetBrightness <==> m.ledFlag != 0
  {
    r := OrAt(report, 2, m.flag);
    r := r[9 := m.led];
    r := OrAt(r, 39, m.ledFlag);
    micSetBrightness := false;
    if m.ledFlag != 0 {
      r := r[43 := m.brightness];
      micSetBrightness := true;
    }
    ghost var q' := q.(mic := m);
    assert Flags2List(q') == Flags2List(q)[0 := m.flag];
    OrAllSet(Flags2List(q), 0, m.flag);
    assert LedFlagsList(q') == LedFlagsList(q)[0 := m.ledFlag];
    OrAllSet(LedFlagsList(q), 0, m.ledFlag);
  }

  /** A trigger's edits: its flag into byte 1 and its four profile bytes, at 22 (left) or 11 (right). */
  method WriteTrigger(report: seq<byte>, ghost q: Reports, t: TriggerReport, left: bool) returns (r: seq<byte>)
    requires Holds(report, q)
    requires left ==> q.leftTrigger == Blank.leftTrigger
    requires !left ==> q.rightTrigger == Blank.rightTrigger
    ensures |r| == |report| && r[0] == report[0]
    ensures Holds(r, if left then q.(leftTrigger := t) else q.(rightTrigger := t))
  {
    r := OrAt(report, 1, t.flag);
    r := Splice(r, if left then 22 else 11, t.profile);
    ghost var q' := if left then q.(leftTrigger := t) else q.(rightTrigger := t);
    ghost var k := if left then 0 else 1;
    assert Flags1List(q') == Flags1List(q)[k := t.flag];
    OrAllSet(Flags1List(q), k, t.flag);
  }

  /** The touchpad's edits: flag, colour, LED flag and LED mode. */
  method WriteTouchpad(report: seq<byte>, ghost q: Reports, t: LedReport) returns (r: seq<byte>)
    requires Holds(report, q) && q.touchpad == Blank.touchpad
    ensures |r| == |report| && r[0] == report[0] && Holds(r, q.(touchpad := t))
  {
    r := OrAt(report, 2, t.flag);
    r := Splice(r, 45, t.color);
    r := OrAt(r, 39, t.ledFlag);
    r := r[42 := t.mode];
    ghost var q' := q.(touchpad := t);
    assert Flags2List(q') == Flags2List(q)[1 := t.flag];
    OrAllSet(Flags2List(q), 1, t.flag);
    assert LedFlagsList(q') == LedFlagsList(q)[1 := t.ledFlag];
    OrAllSet(LedFlagsList(q), 1, t.ledFlag);
  }

  /** The player LEDs' edits: flag, pattern, LED flag and, unless the mic button wrote it, the brightness. */
  method WritePlayer(report: seq<byte>, ghost q: Reports, l: PlayerReport, micSetBrightness: bool) returns (r: seq<byte>)
    requires Holds(report, q) && q.player == Blank.player
    requires micSetBrightness <==> q.mic.ledFlag != 0
    ensures |r| == |report| && r[0] == report[0] && Holds(r, q.(player := l))
  {
    r := OrAt(report, 2, l.flag);
    r := r[44 := l.pattern];
    r := OrAt(r, 39, l.ledFlag);
    if l.ledFlag != 0 && !micSetBrightness {
      r := r[43 := l.brightness];
    }
    ghost var q' := q.(player := l);
    assert Flags2List(q') == Flags2List(q)[2 := l.flag];
    OrAllSet(Flags2List(q), 2, l.flag);
    assert LedFlagsList(q') == LedFlagsList(q)[2 := l.ledFlag];
    OrAllSet(LedFlagsList(q), 2, l.ledFlag);
  }

  /** A rumble motor's edits: its flag into byte 1 and its intensity at byte 4 (left) or 3 (right). */
  method WriteRumble(report: seq<byte>, ghost q: Reports, m: RumbleReport, left: bool) returns (r: seq<byte>)
    requires Holds(report, q)
    requires left ==> q.leftRumble == Blank.leftRumble
    requires !left ==> q.rightRumble == Blank.rightRumble
    ensures |r| == |report| && r[0] == report[0]
    ensures Holds(r, if left then q.(leftRumble := m) else q.(rightRumble := m))
  {
    r := OrAt(report, 1, m.flag);
    r := r[if left then 4 else 3 := m.intensity];
    ghost var q' := if left then q.(leftRumble := m) else q.(rightRumble := m);
    ghost var k := if left then 2 else 3;
    assert Flags1List(q') == Flags1List(q)[k := m.flag];
    OrAllSet(Flags1List(q), k, m.flag);
  }

  /** The speaker's edits: both flags, the two volume bytes, the enable and mute bits. */
  method WriteSpeaker(report: seq<byte>, ghost q: Reports, k: SpeakerReport) returns (r: seq<byte>)
    requires Holds(report, q) && q.speaker == Blank.speaker
    ensures |r| == |report| && r[0] == report[0] && Holds(r, q.(speaker := k))
  {
    r := OrAt(report, 1, k.flag);
    r := OrAt(r, 2, k.muteFlag);
    r := Splice(r, 5, k.volume);
    r := OrAt(r, 8, k.enable);
    r := OrAt(r, 10, k.mute);
    ghost var q' := q.(speaker := k);
    assert Flags1List(q') == Flags1List(q)[4 := k.flag];
    OrAllSet(Flags1List(q), 4, k.flag);
    assert Flags2List(q') == Flags2List(q)[3 := k.muteFlag];
    OrAllSet(Flags2List(q), 3, k.muteFlag);
    OrAllSet([0, q.microphone.enable], 0, k.enable);
    OrAllSet([0, q.microphone.mute], 0, k.mute);
  }

  /** The microphone's edits: both flags, the volume byte, the enable and mute bits. */
  method WriteMicrophone(report: seq<byte>, ghost q: Reports, m: MicrophoneReport) returns (r: seq<byte>)
    requires Holds(report, q) && q.microphone == Blank.microphone
    ensures |r| == |report| && r[0] == report[0] && Holds(r, q.(microphone := m))
  {
    r := OrAt(report, 1, m.flag);
    r := OrAt(r, 2, m.muteFlag);
    r := r[7 := m.volume];
    r := OrAt(r, 8, m.enable);
    r := OrAt(r, 10, m.mute);
    ghost var q' := q.(microphone := m);
    assert Flags1List(q') == Flags1List(q)[5 := m.flag];
    OrAllSet(Flags1List(q), 5, m.flag);
    assert Flags2List(q') == Flags2List(q)[4 := m.muteFlag];
    OrAllSet(Flags2List(q), 4, m.muteFlag);
    OrAllSet([q.speaker.enable, 0], 1, m.enable);
    OrAllSet([q.speaker.mute, 0], 1, m.mute);
  }

  /**
   * The list edits of `_generate_report`, once the components have handed over
   * their tuples: a zeroed list (two shorter over Bluetooth), the report id,
   * each tuple written or or-ed at its offsets in source order, and over
   * Bluetooth the two inserted bytes and the checksum.
   */
  method Assemble(p: Reports, bluetooth: bool, crc32: (int, seq<byte>) -> int) returns (report: seq<byte>)
    ensures report == Frame(p, bluetooth, crc32)
  {
    report := Zeros(if bluetooth then BluetoothReportLength else UsbReportLength);
    if bluetooth {
      report := report[..|report| - 1];
      report := report[..|report| - 1];
    }
    report := report[0 := if bluetooth then 0x31 else 0x02];
    BlankHolds(report);

    ghost var q := Blank;
    var micSetBrightness;
    report, micSetBrightness := WriteMic(report, q, p.mic);
    q := q.(mic := p.mic);
    report := WriteTrigger(report, q, p.leftTrigger, true);
    q := q.(leftTrigger := p.leftTrigger);
    report := WriteTrigger(report, q, p.rightTrigger, false);
    q := q.(rightTrigger := p.rightTrigger);
    report := WriteTouchpad(report, q, p.touchpad);
    q := q.(touchpad := p.touchpad);
    report := WritePlayer(report, q, p.player, micSetBrightness);
    q := q.(player := p.player);
    report := WriteRumble(report, q, p.leftRumble, true);
    q := q.(leftRumble := p.leftRumble);
    report := WriteRumble(report, q, p.rightRumble, false);
    q := q.(rightRumble := p.rightRumble);
    report := WriteSpeaker(report, q, p.speaker);
    q := q.(speaker := p.speaker);
    report := WriteMicrophone(report, q, p.microphone);
    q := q.(microphone := p.microphone);
    assert q == p;
    HoldsIsBody(report, p);

    if bluetooth {
      ghost var body := report;
      report := report[..1] + [0x00] + report[1..];
      report := report[..2] + [0x10] + report[2..];
      BluetoothHeader(body, report, p);
      report := AddChecksum(report, crc32);
    } else {
      UsbFrame(report, p);
    }
  }

  /** A zeroed list with a report id in front holds the blank tuples. */
  lemma BlankHolds(report: seq<byte>)
    requires |report| >= 48 && forall i :: 1 <= i < |report| ==> report[i] == 0
    ensures Holds(report, Blank)
  {
    OrAllZeros(Flags1List(Blank));
    OrAllZeros(Flags2List(Blank));
    OrAllZeros(LedFlagsList(Blank));
    OrAllZeros([0, 0]);
  }

  lemma UsbFrame(report: seq<byte>, p: Reports)
    requires |report| == UsbReportLength && report[0] == 0x02
    requires forall i :: 1 <= i < |report| ==> report[i] == BodyByte(p, i)
    ensures report == seq(UsbReportLength, i => if i == 0 then 0x02 else BodyByte(p, i))
  {
  }

  /** Inserting 0x00 at 1 and then 0x10 at 2 into a list that holds the body from byte 1 on. */
  lemma BluetoothHeader(body: seq<byte>, report: seq<byte>, p: Reports)
    requires |body| == BluetoothReportLength - 2 && body[0] == 0x31
    requires forall i :: 1 <= i < |body| ==> body[i] == BodyByte(p, i)
    requires report == (body[..1] + [0x00] + body[1..])[..2] + [0x10] + (body[..1] + [0x00] + body[1..])[2..]
    ensures report == [0x31, 0x00, 0x10] + seq(BluetoothReportLength - 3, i => BodyByte(p, i + 1))
  {
    assert report == [0x31, 0x00, 0x10] + body[1..];
  }
}
