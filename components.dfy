/**
 * The output-bearing components the controller imports from files outside
 * this model: `MicButton`, `PlayerLed`, `Trigger`, `RumbleMotor`, `Speaker`
 * and `Microphone`. Only what the controller relies on is modelled: the
 * shapes of their `get_report()` tuples, `force_update()`, the brightness
 * hand-over between the mic button and the player LEDs, and the inputs the
 * decoder feeds to the mic button and the triggers.
 *
 * Every one follows the dirty-flag scheme of the touchpad's light bars: a
 * setter stores a value and marks it dirty, `force_update` marks it dirty
 * without changing it, and `get_report` returns the component's update flag
 * when dirty (zero otherwise) beside the payload, and clears the dirty mark.
 * Which flag constant each component reports is fixed below.
 */
module Components {
  import opened Bytes
  import opened Const
  import opened Buttons

  /** The flag a dirty component reports, or zero. */
  function FlagIf(dirty: bool, flag: byte): (r: byte)
    ensures dirty ==> r == flag
    ensures !dirty ==> r == 0
  {
    if dirty then flag else 0
  }

  /** A trigger's force-profile payload: the four bytes written at its offset. */
  type Profile = p: seq<byte> | |p| == 4 witness [0, 0, 0, 0]

  /** A volume payload of the speaker: the two bytes written at offset 5. */
  type Volumes = v: seq<byte> | |v| == 2 witness [0, 0]

  /** `mic_button.get_report()`: update flag, LED byte, LED flag and brightness byte. */
  datatype MicReport = MicReport(flag: byte, led: byte, ledFlag: byte, brightness: byte)

  /** `player_led.get_report()`: update flag, pattern byte, LED flag and brightness byte. */
  datatype PlayerReport = PlayerReport(flag: byte, pattern: byte, ledFlag: byte, brightness: byte)

  /** `trigger.get_report()` and `rumble_motor.get_report()`: update flag and payload. */
  datatype TriggerReport = TriggerReport(flag: byte, profile: Profile)
  datatype RumbleReport = RumbleReport(flag: byte, intensity: byte)

  /** `speaker.get_report()` / `microphone.get_report()`: volume flag, mute flag, volume, enable bits, mute bits. */
  datatype SpeakerReport = SpeakerReport(flag: byte, muteFlag: byte, volume: Volumes, enable: byte, mute: byte)
  datatype MicrophoneReport = MicrophoneReport(flag: byte, muteFlag: byte, volume: byte, enable: byte, mute: byte)

  /** The mic button's output side: its LED byte and its copy of the LED brightness, each with a dirty mark. */
  datatype MicLight = MicLight(led: byte, ledDirty: bool, brightness: byte, brightnessDirty: bool)

  /** The player LEDs: the pattern byte and their copy of the LED brightness, each with a dirty mark. */
  datatype PlayerLight = PlayerLight(pattern: byte, patternDirty: bool, brightness: byte, brightnessDirty: bool)

  /** A trigger's force profile and its dirty mark. */
  datatype TriggerForce = TriggerForce(profile: Profile, dirty: bool)

  /** A rumble motor's intensity and its dirty mark. */
  datatype Motor = Motor(intensity: byte, dirty: bool)

  /** The speaker's volumes, enable and mute bits; the volumes and the mute bits each have a dirty mark. */
  datatype SpeakerOut = SpeakerOut(volume: Volumes, volumeDirty: bool, enable: byte, mute: byte, muteDirty: bool)

  /** The microphone's volume, enable and mute bits; the volume and the mute bits each have a dirty mark. */
  datatype MicrophoneIn = MicrophoneIn(volume: byte, volumeDirty: bool, enable: byte, mute: byte, muteDirty: bool)

  /** The tuple `mic_button.get_report()` returns for state `m`. */
  function MicReportOf(m: MicLight): (r: MicReport)
    ensures r.flag != 0 <==> m.ledDirty
    ensures r.ledFlag != 0 <==> m.brightnessDirty
    ensures r.led == m.led && r.brightness == m.brightness
  {
    MicReport(FlagIf(m.ledDirty, MicrophoneLed), m.led, FlagIf(m.brightnessDirty, LedPlayerMic), m.brightness)
  }

  function PlayerReportOf(p: PlayerLight): (r: PlayerReport)
    ensures r.flag != 0 <==> p.patternDirty
    ensures r.ledFlag != 0 <==> p.brightnessDirty
    ensures r.pattern == p.pattern && r.brightness == p.brightness
  {
    PlayerReport(FlagIf(p.patternDirty, PlayerLeds), p.pattern, FlagIf(p.brightnessDirty, LedPlayerMic), p.brightness)
  }

  function TriggerReportOf(flag: byte, t: TriggerForce): (r: TriggerReport)
    ensures flag != 0 ==> (r.flag != 0 <==> t.dirty)
    ensures r.profile == t.profile
  {
    TriggerReport(FlagIf(t.dirty, flag), t.profile)
  }

  function RumbleReportOf(m: Motor): (r: RumbleReport)
    ensures r.flag != 0 <==> m.dirty
    ensures r.intensity == m.intensity
  {
    RumbleReport(FlagIf(m.dirty, Rumble), m.intensity)
  }

  function SpeakerReportOf(s: SpeakerOut): (r: SpeakerReport)
    ensures r.flag != 0 <==> s.volumeDirty
    ensures r.muteFlag != 0 <==> s.muteDirty
    ensures r.volume == s.volume && r.enable == s.enable && r.mute == s.mute
  {
    SpeakerReport(FlagIf(s.volumeDirty, Or(HeadsetVolume, InternalSpeakerVolume)), FlagIf(s.muteDirty, AudioMicMute),
                  s.volume, s.enable, s.mute)
  }

  function MicrophoneReportOf(m: MicrophoneIn): (r: MicrophoneReport)
    ensures r.flag != 0 <==> m.volumeDirty
    ensures r.muteFlag != 0 <==> m.muteDirty
    ensures r.volume == m.volume && r.enable == m.enable && r.mute == m.mute
  {
    MicrophoneReport(FlagIf(m.volumeDirty, MicrophoneVolume), FlagIf(m.muteDirty, AudioMicMute), m.volume, m.enable, m.mute)
  }

  /**
   * The microphone button: a Button (the decoder updates it from bit 0x04 of
   * the PS byte) that also owns the mic LED and a copy of the shared LED
   * brightness.
   */
  class MicButton {
    var pressed: bool
    var led: byte
    var ledDirty: bool
    var brightness: byte
    var brightnessDirty: bool

    function Light(): MicLight
      reads this
    {
      MicLight(led, ledDirty, brightness, brightnessDirty)
    }

    constructor ()
      ensures !pressed && led == 0 && !ledDirty && brightness == BrightnessHigh && !brightnessDirty
    {
      pressed := false;
      led := 0;
      ledDirty := false;
      brightness := BrightnessHigh;
      brightnessDirty := false;
    }

    /** `update(state)`, inherited from Button. */
    method Update(state: bool) returns (fired: seq<ButtonEvent>)
      modifies this
      ensures pressed == state && fired == Edge(old(pressed), state)
      ensures led == old(led) && ledDirty == old(ledDirty)
      ensures brightness == old(brightness) && brightnessDirty == old(brightnessDirty)
    {
      fired := [];
      if state != pressed {
        pressed := state;
        if state {
          fired := fired + [Pressed];
        }
        fired := fired + [StateChanged(state)];
      }
    }

    /** Sets the mic LED byte. */
    method SetLed(value: byte)
      modifies this
      ensures led == value && ledDirty
      ensures pressed == old(pressed) && brightness == old(brightness) && brightnessDirty == old(brightnessDirty)
    {
      led := value;
      ledDirty := true;
    }

    /** Sets the LED brightness, to be sent with the next report. */
    method SetLedBrightness(value: byte)
      modifies this
      ensures brightness == value && brightnessDirty
      ensures pressed == old(pressed) && led == old(led) && ledDirty == old(ledDirty)
    {
      brightness := value;
      brightnessDirty := true;
    }

    /** `update_led_brightness(value)`: takes over the brightness the player LEDs sent, without sending it again. */
    method UpdateLedBrightness(value: byte)
      modifies this
      ensures brightness == value
      ensures pressed == old(pressed) && led == old(led) && ledDirty == old(ledDirty) && brightnessDirty == old(brightnessDirty)
    {
      brightness := value;
    }

    method ForceUpdate()
      modifies this
      ensures ledDirty && brightnessDirty
      ensures pressed == old(pressed) && led == old(led) && brightness == old(brightness)
    {
      ledDirty := true;
      brightnessDirty := true;
    }

    method GetReport() returns (r: MicReport)
      modifies this
      ensures r == MicReportOf(old(Light()))
      ensures Light() == old(Light()).(ledDirty := false, brightnessDirty := false)
      ensures pressed == old(pressed)
    {
      r := MicReport(FlagIf(ledDirty, MicrophoneLed), led, FlagIf(brightnessDirty, LedPlayerMic), brightness);
      ledDirty := false;
      brightnessDirty := false;
    }
  }

  /** The player-indicator LEDs: a pattern byte and a copy of the shared LED brightness. */
  class PlayerLed {
    var pattern: byte
    var patternDirty: bool
    var brightness: byte
    var brightnessDirty: bool

    function Light(): PlayerLight
      reads this
    {
      PlayerLight(pattern, patternDirty, brightness, brightnessDirty)
    }

    constructor ()
      ensures pattern == 0 && !patternDirty && brightness == BrightnessHigh && !brightnessDirty
    {
      pattern := 0;
      patternDirty := false;
      brightness := BrightnessHigh;
      brightnessDirty := false;
    }

    method SetPattern(value: byte)
      modifies this
      ensures pattern == value && patternDirty
      ensures brightness == old(brightness) && brightnessDirty == old(brightnessDirty)
    {
      pattern := value;
      patternDirty := true;
    }

    /** Sets the LED brightness, to be sent with the next report. */
    method SetBrightness(value: byte)
      modifies this
      ensures brightness == value && brightnessDirty
      ensures pattern == old(pattern) && patternDirty == old(patternDirty)
    {
      brightness := value;
      brightnessDirty := true;
    }

    /** `update_brightness(value)`: takes over the brightness the mic button sent, without sending it again. */
    method UpdateBrightness(value: byte)
      modifies this
      ensures brightness == value
      ensures pattern == old(pattern) && patternDirty == old(patternDirty) && brightnessDirty == old(brightnessDirty)
    {
      brightness := value;
    }

    method ForceUpdate()
      modifies this
      ensures patternDirty && brightnessDirty
      ensures pattern == old(pattern) && brightness == old(brightness)
    {
      patternDirty := true;
      brightnessDirty := true;
    }

    method GetReport() returns (r: PlayerReport)
      modifies this
      ensures r == PlayerReportOf(old(Light()))
      ensures Light() == old(Light()).(patternDirty := false, brightnessDirty := false)
    {
      r := PlayerReport(FlagIf(patternDirty, PlayerLeds), pattern, FlagIf(brightnessDirty, LedPlayerMic), brightness);
      patternDirty := false;
      brightnessDirty := false;
    }
  }

  /** An adaptive trigger: the analog value it reports and the force profile it is sent; `flag` is given at construction. */
  class Trigger {
    const flag: byte
    var value: byte
    var profile: Profile
    var dirty: bool

    function Force(): TriggerForce
      reads this
    {
      TriggerForce(profile, dirty)
    }

    constructor (flag: byte)
      ensures this.flag == flag && value == 0 && profile == [0, 0, 0, 0] && !dirty
    {
      this.flag := flag;
      value := 0;
      profile := [0, 0, 0, 0];
      dirty := false;
    }

    /** `update(value)`: the analog position 0..255 from the input report. */
    method Update(v: byte)
      modifies this
      ensures value == v && profile == old(profile) && dirty == old(dirty)
    {
      value := v;
    }

    method SetProfile(p: Profile)
      modifies this
      ensures profile == p && dirty && value == old(value)
    {
      profile := p;
      dirty := true;
    }

    method ForceUpdate()
      modifies this
      ensures dirty && value == old(value) && profile == old(profile)
    {
      dirty := true;
    }

    method GetReport() returns (r: TriggerReport)
      modifies this
      ensures r == TriggerReportOf(flag, old(Force()))
      ensures Force() == old(Force()).(dirty := false) && value == old(value)
    {
      r := TriggerReport(FlagIf(dirty, flag), profile);
      dirty := false;
    }
  }

  /** A rumble motor: one intensity byte, dirty only when it changes. */
  class RumbleMotor {
    var intensity: byte
    var dirty: bool

    function State(): Motor
      reads this
    {
      Motor(intensity, dirty)
    }

    constructor ()
      ensures intensity == 0 && !dirty
    {
      intensity := 0;
      dirty := false;
    }

    method SetIntensity(v: byte)
      modifies this
      ensures intensity == v
      ensures dirty == (old(dirty) || v != old(intensity))
    {
      if v != intensity {
        intensity := v;
        dirty := true;
      }
    }

    method ForceUpdate()
      modifies this
      ensures dirty && intensity == old(intensity)
    {
      dirty := true;
    }

    method GetReport() returns (r: RumbleReport)
      modifies this
      ensures r == RumbleReportOf(old(State()))
      ensures State() == old(State()).(dirty := false)
    {
      r := RumbleReport(FlagIf(dirty, Rumble), intensity);
      dirty := false;
    }
  }

  /** The speaker and headset output: two volume bytes, the enable bits and the mute bits. */
  class Speaker {
    var volume: Volumes
    var volumeDirty: bool
    var enable: byte
    var mute: byte
    var muteDirty: bool

    function State(): SpeakerOut
      reads this
    {
      SpeakerOut(volume, volumeDirty, enable, mute, muteDirty)
    }

    constructor ()
      ensures volume == [0, 0] && !volumeDirty && enable == 0 && mute == 0 && !muteDirty
    {
      volume := [0, 0];
      volumeDirty := false;
      enable := 0;
      mute := 0;
      muteDirty := false;
    }

    method SetVolume(v: Volumes)
      modifies this
      ensures volume == v && volumeDirty
      ensures enable == old(enable) && mute == old(mute) && muteDirty == old(muteDirty)
    {
      volume := v;
      volumeDirty := true;
    }

    /** Sets the enable bits (AudioEnableFlags) and the mute bits (AudioMuteFlags). */
    method SetRouting(enableBits: byte, muteBits: byte)
      modifies this
      ensures enable == enableBits && mute == muteBits && muteDirty
      ensures volume == old(volume) && volumeDirty == old(volumeDirty)
    {
      enable := enableBits;
      mute := muteBits;
      muteDirty := true;
    }

    method ForceUpdate()
      modifies this
      ensures volumeDirty && muteDirty
      ensures volume == old(volume) && enable == old(enable) && mute == old(mute)
    {
      volumeDirty := true;
      muteDirty := true;
    }

    method GetReport() returns (r: SpeakerReport)
      modifies this
      ensures r == SpeakerReportOf(old(State()))
      ensures State() == old(State()).(volumeDirty := false, muteDirty := false)
    {
      r := SpeakerReport(FlagIf(volumeDirty, Or(HeadsetVolume, InternalSpeakerVolume)),
                         FlagIf(muteDirty, AudioMicMute), volume, enable, mute);
      volumeDirty := false;
      muteDirty := false;
    }
  }

  /** The microphone input: one volume byte, the enable bits and the mute bits. */
  class Microphone {
    var volume: byte
    var volumeDirty: bool
    var enable: byte
    var mute: byte
    var muteDirty: bool

    function State(): MicrophoneIn
      reads this
    {
      MicrophoneIn(volume, volumeDirty, enable, mute, muteDirty)
    }

    constructor ()
      ensures volume == 0 && !volumeDirty && enable == 0 && mute == 0 && !muteDirty
    {
      volume := 0;
      volumeDirty := false;
      enable := 0;
      mute := 0;
      muteDirty := false;
    }

    method SetVolume(v: byte)
      modifies this
      ensures volume == v && volumeDirty
      ensures enable == old(enable) && mute == old(mute) && muteDirty == old(muteDirty)
    {
      volume := v;
      volumeDirty := true;
    }

    /** Sets the enable bits (AudioEnableFlags) and the mute bits (AudioMuteFlags). */
    method SetRouting(enableBits: byte, muteBits: byte)
      modifies this
      ensures enable == enableBits && mute == muteBits && muteDirty
      ensures volume == old(volume) && volumeDirty == old(volumeDirty)
    {
      enable := enableBits;
      mute := muteBits;
      muteDirty := true;
    }

    method ForceUpdate()
      modifies this
      ensures volumeDirty && muteDirty
      ensures volume == old(volume) && enable == old(enable) && mute == old(mute)
    {
      volumeDirty := true;
      muteDirty := true;
    }

    method GetReport() returns (r: MicrophoneReport)
      modifies this
      ensures r == MicrophoneReportOf(old(State()))
      ensures State() == old(State()).(volumeDirty := false, muteDirty := false)
    {
      r := MicrophoneReport(FlagIf(volumeDirty, MicrophoneVolume), FlagIf(muteDirty, AudioMicMute), volume, enable, mute);
      volumeDirty := false;
      muteDirty := false;
    }
  }
}
