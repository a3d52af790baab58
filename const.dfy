/**
 * Constants of the DualSense protocol: device identity, report lengths, the
 * feature reports, the flag bytes of the output report and the battery-state
 * lookup table (avrgui/lib/controller/pythondualsense/const.py).
 */
module Const {
  import opened Bytes

  const VendorId: int := 0x054c
  const ProductId: int := 0x0CE6
  /** Seed byte fed to the CRC before the body of a Bluetooth output report. */
  const Crc32Seed: byte := 0xA2

  const UsbReportLength: nat := 64
  const BluetoothReportLength: nat := 78

  /** The feature reports read when a controller is opened, as (report id, length). */
  datatype FeatureReport = Calibration | Pairing | Firmware
  {
    function Id(): byte
    {
      match this
      case Calibration => 0x05
      case Pairing => 0x09
      case Firmware => 0x20
    }

    function Length(): nat
    {
      match this
      case Calibration => 41
      case Pairing => 20
      case Firmware => 64
    }
  }

  // UpdateFlags1: flag byte 1 of an output report
  const Flags1None: byte := 0x00
  /** Both low bits are needed for the rumble motors. */
  const Rumble: byte := Or(0x01, 0x02)
  const RightTrigger: byte := 0x04
  const LeftTrigger: byte := 0x08
  const HeadsetVolume: byte := 0x10
  const InternalSpeakerVolume: byte := 0x20
  const MicrophoneVolume: byte := 0x40
  const InternalMicHeadset: byte := 0x80

  // UpdateFlags2: flag byte 2 of an output report
  const Flags2None: byte := 0x00
  const MicrophoneLed: byte := 0x01
  const AudioMicMute: byte := 0x02
  const TouchpadLed: byte := 0x04
  const TurnAllLedsOff: byte := 0x08
  const PlayerLeds: byte := 0x10
  const MotorPower: byte := 0x40

  /**
   * The flag bytes: RUMBLE is the two low bits together, and every other
   * member of `UpdateFlags1` and `UpdateFlags2` is a single bit of its own,
   * so no two members of one byte overlap.
   */
  lemma FlagBits()
    ensures Rumble == 0x03
    ensures RightTrigger as int == Pow2(2) && LeftTrigger as int == Pow2(3)
    ensures HeadsetVolume as int == Pow2(4) && InternalSpeakerVolume as int == Pow2(5)
    ensures MicrophoneVolume as int == Pow2(6) && InternalMicHeadset as int == Pow2(7)
    ensures MicrophoneLed as int == Pow2(0) && AudioMicMute as int == Pow2(1) && TouchpadLed as int == Pow2(2)
    ensures TurnAllLedsOff as int == Pow2(3) && PlayerLeds as int == Pow2(4) && MotorPower as int == Pow2(6)
  {
  }

  // AudioEnableFlags
  const EnableMicrophone: byte := 0x01
  const DisableHeadphones: byte := 0x10
  const EnableInternalSpeaker: byte := 0x20

  // AudioMuteFlags
  const MuteMicrophone: byte := 0x10
  const MuteInternal: byte := 0x20
  const MuteHeadset: byte := 0x40

  // LedFlags: the LED byte of an output report
  const LedNone: byte := 0x0
  const LedPlayerMic: byte := 0x1
  const LedTouchpad: byte := 0x2

  // TouchpadLedModes
  const TouchpadLedModeNone: byte := 0x0
  const FadeBlue: byte := 0x1
  const TurnOff: byte := 0x2

  // BrightnessLevel
  const BrightnessHigh: byte := 0x0
  const BrightnessMedium: byte := 0x1
  const BrightnessLow: byte := 0x2

  datatype BatteryState =
    | Discharging
    | Full
    | Charging
    | IncorrectVoltage
    | TemperatureError
    | Error
    | Unknown

  /**
   * `_BATTERY_STATES`: sixteen UNKNOWN entries, then three, one, one and one
   * entries overwritten, in the order the module does it.
   */
  const BatteryStates: seq<BatteryState> :=
    [Unknown, Unknown, Unknown, Unknown, Unknown, Unknown, Unknown, Unknown,
     Unknown, Unknown, Unknown, Unknown, Unknown, Unknown, Unknown, Unknown][0 := Discharging][1 := Full][2 := Charging]
      [0xa := IncorrectVoltage][0xb := TemperatureError][0xf := Error]

  /** `BatteryState.find`: a table lookup whose IndexError becomes UNKNOWN. */
  function Find(num: nat): (s: BatteryState)
    ensures num >= 16 ==> s == Unknown
  {
    if num < |BatteryStates| then BatteryStates[num] else Unknown
  }

  /** The state table as documented: which nibble means which state. */
  function DocumentedState(num: nat): BatteryState
  {
    match num
    case 0 => Discharging
    case 1 => Full
    case 2 => Charging
    case 0xa => IncorrectVoltage
    case 0xb => TemperatureError
    case 0xf => Error
    case _ => Unknown
  }

  /** The table built at module load agrees with the documented table everywhere. */
  lemma {:induction false} FindIsDocumented(num: nat)
    ensures Find(num) == DocumentedState(num)
  {
    assert |BatteryStates| == 16;
    if num < 16 {
      assert BatteryStates[num] == DocumentedState(num);
    }
  }
}
