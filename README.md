# DualSense driver and action client, in Dafny

This project models the DualSense game-controller driver embedded in a
ground-control application (`avrgui/lib/controller/pythondualsense/`), and two
small neighbours of it: the goal/cancel/result client of the robot's action
bridge (`avrgui/lib/action.py`) and the integer helpers of `avrgui/lib/utils.py`.

The driver reads fixed-layout HID input reports from the controller and
decodes them with bit masks and byte offsets into buttons, a d-pad code,
sticks, triggers, two touch slots, a gyroscope and a battery status. Every
component fires its callbacks only when its state changes. In the other
direction, the driver collects the `get_report()` tuples of the
output-bearing components (LEDs, triggers, rumble motors, audio) and lays
them out in an output report. Over Bluetooth this report gets a 2-byte
sub-header and a CRC-32 trailer.

The modules follow the source files:

| module | file | models |
|---|---|---|
| `Utils` | utils.dfy | `get_min`, `get_max`, `constrain` |
| `Buttons` | button.dfy | `Button` and the callbacks of one `update` |
| `Dpads` | dpad.dfy | `DpadDirection` as a set of IntFlag members, `build_from_value`, `Dpad` |
| `Thumbsticks` | thumbstick.dfy | `Thumbstick` |
| `Touchpads` | touchpad.dfy | `TouchPoint`, `Touchpad` and its light bars |
| `Gyroscopes` | gyroscope.dfy | `Gyroscope` |
| `Const` | const.dfy | the constants and the battery-state table |
| `HidHelpers` | hid_helpers.dfy | checksums and `find_devices` |
| `Callbacks` | callback.dfy | the `Callback` registry |
| `Components` | components.dfy | the output components whose source is not part of this model |
| `Codec` | codec.dfy | decoding an input report and laying out an output report |
| `Dualsenses` | dualsense.dfy | the controller object and its update loop |
| `Actions` | action.dfy | the `Action` client |
| `Bytes`, `Wrappers` | bytes.dfy, wrappers.dfy | bytes, `|`/`&`, little-endian helpers, `Option` |

Each component with mutable fields is a class, and its methods are proved
against functions: the new state and the trace of callbacks a call fires.
The controller class keeps its components' states as datatype values
(`Inputs`, `Outputs`), and its operations are proved against the same
functions as the component classes. Callbacks are not run. Each operation
returns the trace of callback firings, in the order the source fires them.

The `on_state` callback is documented as called on connect and on disconnect
(`dualsense.py:82-84`). The `finally` clause of `_update` (`dualsense.py:367`)
fires `on_state(False)` only when the controller never connected. The loop
fires `on_state(True)` on its first turn, also when that turn's read had the
wrong length and was not decoded (`dualsense.py:345-353`); the model does the
same. The `finally` clause is a finding (see "## Findings"), so it
exists in both forms. `FinishAsWritten`, `SessionLifecycleAsWritten` and
`Dualsense.RunAsWritten` follow the code. `Finish`, `SessionLifecycle` and
`Dualsense.Run` follow the correction. The same holds for the second finding,
in `action.py`. `CancelStep`, `IdleCancelSwallowsNextResult` and
`Action.CancelAsWritten` follow the code. `CancelIntended`,
`CancelIntendedKeepsNextResult` and `Action.Cancel` follow the correction.

## Model

| member | source | states |
|---|---|---|
| Utils.GetMin | avrgui/lib/utils.py:8-9 | the result is at most both arguments and is one of them: the minimum |
| Utils.GetMax | avrgui/lib/utils.py:12-13 | the result is at least both arguments and is one of them: the maximum |
| Utils.Constrain | avrgui/lib/utils.py:16-17 | for lo <= hi the result lies in [lo, hi]; it is v when v is inside, lo below, hi above; an empty range yields hi |
| Utils.ConstrainIdempotent | avrgui/lib/utils.py:16-17 | clamping a clamped value changes nothing |
| Buttons.EdgeMeaning | avrgui/lib/controller/pythondualsense/components/button.py:42-46 | a repeated state fires nothing; `on_press` fires exactly on a false-to-true change; `on_state(s)` fires exactly when the state changes to s |
| Buttons.Button.constructor | avrgui/lib/controller/pythondualsense/components/button.py:18-21 | a new button is not pressed (`pressed` and `__bool__` read the field) |
| Buttons.Button.Update | avrgui/lib/controller/pythondualsense/components/button.py:35-46 | after `update(s)` the button holds s and the firings are the edge from the old state to s |
| Buttons.RunCountsEdges | avrgui/lib/controller/pythondualsense/components/button.py:42-46 | over any sequence of updates, `on_press` fires once per rise and `on_state` once per change |
| Buttons.RunSteadyIsSilent | avrgui/lib/controller/pythondualsense/components/button.py:42 | reporting the held state any number of times fires nothing |
| Thumbsticks.NextPos | avrgui/lib/controller/pythondualsense/components/thumbstick.py:55-56 | a given position is stored; an omitted one leaves the position as it was |
| Thumbsticks.MoveEvents | avrgui/lib/controller/pythondualsense/components/thumbstick.py:55-57 | `on_move` fires once, with the new position, iff a position is given and differs from the stored one |
| Thumbsticks.StickReplayIsSilent | avrgui/lib/controller/pythondualsense/components/thumbstick.py:54-57 | giving a stick the click state and position it holds fires nothing |
| Thumbsticks.Thumbstick.constructor | avrgui/lib/controller/pythondualsense/components/thumbstick.py:8-17 | a new stick is released at (0, 0); `x`, `y`, `pos` read the position |
| Thumbsticks.Thumbstick.Update | avrgui/lib/controller/pythondualsense/components/thumbstick.py:46-57 | the click follows `Button.update` exactly, then the position and `on_move` as above |
| Gyroscopes.Gyroscope.constructor | avrgui/lib/controller/pythondualsense/components/gyroscope.py:2-32 | a new gyroscope reads roll = pitch = yaw = 0 |
| Gyroscopes.Gyroscope.Update | avrgui/lib/controller/pythondualsense/components/gyroscope.py:34-41 | roll, pitch and yaw take the tuple's values unconditionally, with no event |
| Dpads.Value | avrgui/lib/controller/pythondualsense/components/dpad.py:8-13 | the integer of a direction is below 32 |
| Dpads.ValueInjective | avrgui/lib/controller/pythondualsense/components/dpad.py:8-13 | NONE, UP, DOWN, LEFT, RIGHT are the bits 1, 2, 4, 8, 16 (`auto()`), and distinct directions have distinct integers |
| Dpads.BuildFromValue | avrgui/lib/controller/pythondualsense/components/dpad.py:51-86 | NONE is always set; up iff v in {7,0,1}, down iff v in {3,4,5}, left iff v in {5,6,7}, right iff v in {1,2,3}; never up and down, nor left and right; any code outside 0..7 is NONE alone |
| Dpads.BuildFromValueIsDocumented | avrgui/lib/controller/pythondualsense/components/dpad.py:56-86 | the arrows set are exactly those of the documented hat-code table |
| Dpads.ArrowEvents | avrgui/lib/controller/pythondualsense/components/dpad.py:138-141 | an unchanged direction fires no button callback |
| Dpads.StepIdempotent | avrgui/lib/controller/pythondualsense/components/dpad.py:132-136 | repeating a code changes nothing and fires nothing |
| Dpads.Dpad.constructor | avrgui/lib/controller/pythondualsense/components/dpad.py:89-102 | a new d-pad holds code 0 with direction NONE (not UP) and four released buttons |
| Dpads.Dpad.SetArrows | avrgui/lib/controller/pythondualsense/components/dpad.py:138-141 | the four buttons mirror the new direction, firing their edges in the order up, down, left, right |
| Dpads.Dpad.Update | avrgui/lib/controller/pythondualsense/components/dpad.py:125-141 | a changed code is stored, the direction derived, `on_direction` fired once, then the buttons; a repeated one does nothing; the buttons always mirror the direction |
| Touchpads.PointStep | avrgui/lib/controller/pythondualsense/components/touchpad.py:95-104 | after an update a slot holds the reported id, activity and position |
| Touchpads.PointEvents | avrgui/lib/controller/pythondualsense/components/touchpad.py:97-105 | `on_touch((id, active))` fires iff the activity changed, `on_move((x, y))` iff the position changed; nothing else fires, and `on_touch` comes first |
| Touchpads.PointReplay | avrgui/lib/controller/pythondualsense/components/touchpad.py:31-38 | a repeated report fires nothing and changes nothing; after a report the slot iterates to its position when active, to (-1, -1) otherwise |
| Touchpads.TouchPoint.constructor | avrgui/lib/controller/pythondualsense/components/touchpad.py:24-26 | a new slot has id -1, is not selected and sits at (-1, -1) |
| Touchpads.TouchPoint.Iter | avrgui/lib/controller/pythondualsense/components/touchpad.py:28-38 | iteration yields the position while selected, (-1, -1) otherwise |
| Touchpads.TouchPoint.Update | avrgui/lib/controller/pythondualsense/components/touchpad.py:88-105 | the slot's new state and firings are `PointStep` and `PointEvents` |
| Touchpads.LightReport | avrgui/lib/controller/pythondualsense/components/touchpad.py:188-194 | flag 0x04 iff changed, else 0; LED flag 0x2 and mode FADE_BLUE iff a fade is pending, else both 0; the colour as held |
| Touchpads.Touchpad.constructor | avrgui/lib/controller/pythondualsense/components/touchpad.py:109-120 | released, two new slots, colour (0, 0, 0), nothing to send |
| Touchpads.Touchpad.SetLedColor | avrgui/lib/controller/pythondualsense/components/touchpad.py:131-142 | an accepted colour (three components in 0..255) is stored and marked changed even when equal; anything else changes nothing |
| Touchpads.Touchpad.LedOff | avrgui/lib/controller/pythondualsense/components/touchpad.py:144-146 | colour (0, 0, 0), marked changed |
| Touchpads.Touchpad.FadeToBlue | avrgui/lib/controller/pythondualsense/components/touchpad.py:148-153 | a fade is pending; nothing else changes |
| Touchpads.Touchpad.ForceUpdate | avrgui/lib/controller/pythondualsense/components/touchpad.py:174-178 | marked changed without altering the colour |
| Touchpads.Touchpad.GetReport | avrgui/lib/controller/pythondualsense/components/touchpad.py:180-194 | returns the `LightReport` of the old state and clears both requests, so an immediate second call reports nothing |
| Touchpads.Touchpad.Update | avrgui/lib/controller/pythondualsense/components/touchpad.py:155-172 | the click as `Button.update`, then each slot whose report is given; the light bars do not move |
| Const.FlagBits | avrgui/lib/controller/pythondualsense/const.py:26-44 | RUMBLE is 0x03; every other member of both update-flag enums except NONE is a single bit of its own |
| Const.Find | avrgui/lib/controller/pythondualsense/const.py:96-106 | an index of 16 or more yields UNKNOWN (the IndexError is caught) |
| Const.FindIsDocumented | avrgui/lib/controller/pythondualsense/const.py:103-113 | the table maps 0, 1, 2 to DISCHARGING, FULL, CHARGING, 0xa, 0xb, 0xf to INCORRECT_VOLTAGE, TEMPERATURE_ERROR, ERROR, and everything else to UNKNOWN |
| HidHelpers.GetChecksum | avrgui/lib/controller/pythondualsense/lib/hid_helpers.py:83-96 | the result lies in [0, 2^32) and is the 32-bit complement of the CRC run over the seed byte, then the body |
| HidHelpers.Body | avrgui/lib/controller/pythondualsense/lib/hid_helpers.py:112 | `report[:-4]`: all but the last four entries, or nothing |
| HidHelpers.Trailer | avrgui/lib/controller/pythondualsense/lib/hid_helpers.py:108 | `report[-4:]`: the last four entries, or the whole list |
| HidHelpers.AddChecksum | avrgui/lib/controller/pythondualsense/lib/hid_helpers.py:117-127 | the length and every entry but the last four are kept; the last four read little-endian are the 0xA2-seeded checksum of the rest |
| HidHelpers.VerifyAcceptsExactlySealed | avrgui/lib/controller/pythondualsense/lib/hid_helpers.py:99-114 | `verify_checksum` accepts a report iff its trailer is the 0xA1-seeded checksum of its body |
| HidHelpers.VerifyOfAddChecksum | avrgui/lib/controller/pythondualsense/lib/hid_helpers.py:99-127 | a report sealed by `add_checksum` passes `verify_checksum` iff the two seeds give the same checksum of its body |
| HidHelpers.Utf8Encode | avrgui/lib/controller/pythondualsense/lib/hid_helpers.py:32-33 | each character takes one to four bytes |
| HidHelpers.Utf8EncodeInjective | avrgui/lib/controller/pythondualsense/lib/hid_helpers.py:32-33 | different texts never encode to the same path |
| HidHelpers.FirstMatch | avrgui/lib/controller/pythondualsense/lib/hid_helpers.py:34-43 | the index found matches and no earlier device does; none iff no device matches |
| HidHelpers.Scan | avrgui/lib/controller/pythondualsense/lib/hid_helpers.py:34-43 | an early-return scan returns the first matching device, or None |
| HidHelpers.FindDevices | avrgui/lib/controller/pythondualsense/lib/hid_helpers.py:13-46 | a path wins and picks the first device with it; else a serial number picks the first device with it; with neither, the whole list |
| HidHelpers.TextPathIsEncoded | avrgui/lib/controller/pythondualsense/lib/hid_helpers.py:31-37 | a text path finds what its UTF-8 bytes find, and no other text finds the same device |
| Callbacks.RemoveFirst | avrgui/lib/controller/pythondualsense/lib/callback.py:69-72 | `list.remove`: one entry fewer, the first occurrence gone, the rest in order |
| Callbacks.Dispatch | avrgui/lib/controller/pythondualsense/lib/callback.py:28-36 | the callables are called in order with the same argument; all of them iff none raises anything but a TypeError; otherwise the call stops at the first that does |
| Callbacks.Callback.constructor | avrgui/lib/controller/pythondualsense/lib/callback.py:13-20 | both lists start empty |
| Callbacks.Callback.Len | avrgui/lib/controller/pythondualsense/lib/callback.py:38-42 | the sum of both list lengths; 0 iff both are empty |
| Callbacks.Callback.IsSet | avrgui/lib/controller/pythondualsense/lib/callback.py:44-45 | holds iff the length is positive |
| Callbacks.Callback.Register | avrgui/lib/controller/pythondualsense/lib/callback.py:55-61 | a coroutine function is appended to the async list, anything else to the plain list; duplicates kept |
| Callbacks.Callback.Unregister | avrgui/lib/controller/pythondualsense/lib/callback.py:63-72 | removes the first occurrence from the plain list, else from the async list, else nothing |
| Callbacks.Callback.Call | avrgui/lib/controller/pythondualsense/lib/callback.py:22-36 | the calls made are `Dispatch` over the plain list; no coroutine function is ever called |
| Components.MicReportOf | avrgui/lib/controller/pythondualsense/dualsense.py:450-457 | the mic button's tuple: flag iff its LED changed, LED flag iff its brightness changed, LED and brightness as held |
| Components.PlayerReportOf | avrgui/lib/controller/pythondualsense/dualsense.py:473-479 | the player LEDs' tuple: flag iff the pattern changed, LED flag iff the brightness changed |
| Components.TriggerReportOf | avrgui/lib/controller/pythondualsense/dualsense.py:459-465 | a trigger's tuple: its flag iff dirty, its four profile bytes |
| Components.RumbleReportOf | avrgui/lib/controller/pythondualsense/dualsense.py:481-487 | a motor's tuple: flag iff dirty, its intensity |
| Components.SpeakerReportOf | avrgui/lib/controller/pythondualsense/dualsense.py:489-494 | the speaker's tuple: volume flag and mute flag iff dirty, its two volume bytes, enable and mute bits |
| Components.MicrophoneReportOf | avrgui/lib/controller/pythondualsense/dualsense.py:496-501 | the microphone's tuple, likewise with one volume byte |
| Components.MicButton.constructor | avrgui/lib/controller/pythondualsense/dualsense.py:55 | released, LED off, high brightness, nothing to send |
| Components.MicButton.Update | avrgui/lib/controller/pythondualsense/dualsense.py:396 | the button part follows `Button.update`; the LED does not move |
| Components.MicButton.SetLed | avrgui/lib/controller/pythondualsense/dualsense.py:450-452 | the LED byte is stored and marked |
| Components.MicButton.SetLedBrightness | avrgui/lib/controller/pythondualsense/dualsense.py:450-457 | the brightness is stored and marked |
| Components.MicButton.UpdateLedBrightness | avrgui/lib/controller/pythondualsense/dualsense.py:477-478 | takes over the player LEDs' brightness without marking it |
| Components.MicButton.ForceUpdate | avrgui/lib/controller/pythondualsense/dualsense.py:326 | both marks set, values kept |
| Components.MicButton.GetReport | avrgui/lib/controller/pythondualsense/dualsense.py:450 | returns `MicReportOf` the old state and clears both marks |
| Components.PlayerLed.constructor | avrgui/lib/controller/pythondualsense/dualsense.py:68 | pattern 0, high brightness, nothing to send |
| Components.PlayerLed.SetPattern | avrgui/lib/controller/pythondualsense/dualsense.py:473-475 | the pattern is stored and marked |
| Components.PlayerLed.SetBrightness | avrgui/lib/controller/pythondualsense/dualsense.py:473-479 | the brightness is stored and marked |
| Components.PlayerLed.UpdateBrightness | avrgui/lib/controller/pythondualsense/dualsense.py:454-455 | takes over the mic button's brightness without marking it |
| Components.PlayerLed.ForceUpdate | avrgui/lib/controller/pythondualsense/dualsense.py:330 | both marks set, values kept |
| Components.PlayerLed.GetReport | avrgui/lib/controller/pythondualsense/dualsense.py:473 | returns `PlayerReportOf` the old state and clears both marks |
| Components.Trigger.constructor | avrgui/lib/controller/pythondualsense/dualsense.py:60-61 | keeps the flag it is built with; value 0, zero profile, nothing to send |
| Components.Trigger.Update | avrgui/lib/controller/pythondualsense/dualsense.py:401-402 | stores the analog value; the profile does not move |
| Components.Trigger.SetProfile | avrgui/lib/controller/pythondualsense/dualsense.py:459-465 | the profile is stored and marked |
| Components.Trigger.ForceUpdate | avrgui/lib/controller/pythondualsense/dualsense.py:327-328 | marked, values kept |
| Components.Trigger.GetReport | avrgui/lib/controller/pythondualsense/dualsense.py:459-465 | returns `TriggerReportOf` the old state and clears the mark |
| Components.RumbleMotor.constructor | avrgui/lib/controller/pythondualsense/dualsense.py:70-71 | intensity 0, nothing to send |
| Components.RumbleMotor.SetIntensity | avrgui/lib/controller/pythondualsense/dualsense.py:481-487 | stores the intensity, marked when it changed |
| Components.RumbleMotor.ForceUpdate | avrgui/lib/controller/pythondualsense/dualsense.py:331-332 | marked, intensity kept |
| Components.RumbleMotor.GetReport | avrgui/lib/controller/pythondualsense/dualsense.py:481-487 | returns `RumbleReportOf` the old state and clears the mark |
| Components.Speaker.constructor | avrgui/lib/controller/pythondualsense/dualsense.py:73 | zero volumes and bits, nothing to send |
| Components.Speaker.SetVolume | avrgui/lib/controller/pythondualsense/dualsense.py:489-492 | the volumes are stored and marked |
| Components.Speaker.SetRouting | avrgui/lib/controller/pythondualsense/dualsense.py:489-494 | the enable and mute bits are stored, the mute mark set |
| Components.Speaker.ForceUpdate | avrgui/lib/controller/pythondualsense/dualsense.py:333 | both marks set, values kept |
| Components.Speaker.GetReport | avrgui/lib/controller/pythondualsense/dualsense.py:489 | returns `SpeakerReportOf` the old state and clears both marks |
| Components.Microphone.constructor | avrgui/lib/controller/pythondualsense/dualsense.py:74 | zero volume and bits, nothing to send |
| Components.Microphone.SetVolume | avrgui/lib/controller/pythondualsense/dualsense.py:496-499 | the volume is stored and marked |
| Components.Microphone.SetRouting | avrgui/lib/controller/pythondualsense/dualsense.py:496-501 | the enable and mute bits are stored, the mute mark set |
| Components.Microphone.ForceUpdate | avrgui/lib/controller/pythondualsense/dualsense.py:334 | both marks set, values kept |
| Components.Microphone.GetReport | avrgui/lib/controller/pythondualsense/dualsense.py:496 | returns `MicrophoneReportOf` the old state and clears both marks |
| Codec.Axis | avrgui/lib/controller/pythondualsense/dualsense.py:404-405 | a stick axis (raw byte minus 127) lies in [-127, 128] |
| Codec.TouchXValue | avrgui/lib/controller/pythondualsense/dualsense.py:407 | x is the low nibble of byte 35 above all of byte 34 |
| Codec.TouchYValue | avrgui/lib/controller/pythondualsense/dualsense.py:408 | y is byte 36 above the high nibble of byte 35 |
| Codec.DecodeTouchFields | avrgui/lib/controller/pythondualsense/dualsense.py:407-413 | id = byte & 0x7f, active iff bit 0x80 is clear, x and y as above, both in [0, 4095] |
| Codec.BatteryPercent | avrgui/lib/controller/pythondualsense/dualsense.py:426-427 | min(low nibble * 10 + 5, 100) lies in [5, 100] and is 100 or ends in 5 |
| Codec.DecodeBody | avrgui/lib/controller/pythondualsense/dualsense.py:382-431 | axes in [-127, 128], gyro values 16-bit signed, battery percent in [5, 100] |
| Codec.DpadRange | avrgui/lib/controller/pythondualsense/dualsense.py:382-388 | the d-pad code is the low nibble of byte 8 |
| Codec.Unshift | avrgui/lib/controller/pythondualsense/dualsense.py:379-380 | over Bluetooth the byte at index 1 is removed, over USB the list is kept |
| Codec.BluetoothDecodesAsUsb | avrgui/lib/controller/pythondualsense/dualsense.py:379-380 | a Bluetooth report decodes exactly like the same bytes without index 1, read as USB |
| Codec.TouchRoundTrip | avrgui/lib/controller/pythondualsense/dualsense.py:407-413 | the four bytes of a touch slot decode back to the slot |
| Codec.EncodeDecodeTouch | avrgui/lib/controller/pythondualsense/dualsense.py:407-413 | any four bytes decode to a slot that encodes back to them: the decoder drops no bit |
| Codec.SignedRoundTrip | avrgui/lib/controller/pythondualsense/dualsense.py:421-423 | `int.from_bytes(..., 'little', signed=True)` reads back the two's-complement bytes of any value in range |
| Codec.StateNibble | avrgui/lib/controller/pythondualsense/const.py:109-113 | every battery state has a nibble the table maps to it |
| Codec.StatusRoundTrip | avrgui/lib/controller/pythondualsense/dualsense.py:426-431 | every reachable percent and every state are read back from a status byte |
| Codec.SymbolByteRoundTrip | avrgui/lib/controller/pythondualsense/dualsense.py:382-388 | square, cross, circle, triangle are bits 0x10, 0x20, 0x40, 0x80 of byte 8 and the d-pad its low nibble |
| Codec.TopAndPsRoundTrip | avrgui/lib/controller/pythondualsense/dualsense.py:390-399 | L1, R1, share, options, L3, R3 are bits 0x01, 0x02, 0x10, 0x20, 0x40, 0x80 of byte 9; PS, touchpad click, mic bits 0x01, 0x02, 0x04 of byte 10 |
| Codec.ButtonsRoundTrip | avrgui/lib/controller/pythondualsense/dualsense.py:382-399 | every button of a built report reads back |
| Codec.AnalogRoundTrip | avrgui/lib/controller/pythondualsense/dualsense.py:401-405 | triggers (bytes 5, 6) and stick axes (bytes 1 to 4) read back |
| Codec.TouchesRoundTrip | avrgui/lib/controller/pythondualsense/dualsense.py:407-419 | both touch slots (bytes 33 to 40) read back |
| Codec.MotionRoundTrip | avrgui/lib/controller/pythondualsense/dualsense.py:421-431 | gyroscope (bytes 22 to 27) and battery (byte 53) read back |
| Codec.DecodeEncodeBody | avrgui/lib/controller/pythondualsense/dualsense.py:372-434 | decoding a report built from any carried values gives those values back |
| Codec.SharedBrightness | avrgui/lib/controller/pythondualsense/dualsense.py:449-479 | byte 43 is the mic button's brightness when it raised its LED flag, else the player LEDs' when they did, else 0 |
| Codec.WriteMic | avrgui/lib/controller/pythondualsense/dualsense.py:449-457 | the mic button's writes; it claims byte 43 iff its LED flag is raised |
| Codec.WriteTrigger | avrgui/lib/controller/pythondualsense/dualsense.py:459-465 | a trigger's flag or-ed into byte 1 and its profile at 22 (left) or 11 (right) |
| Codec.WriteTouchpad | avrgui/lib/controller/pythondualsense/dualsense.py:467-471 | the touchpad's flag, colour at 45, LED flag, mode at 42 |
| Codec.WritePlayer | avrgui/lib/controller/pythondualsense/dualsense.py:473-479 | the player LEDs' writes; byte 43 only when the mic button did not write it |
| Codec.WriteRumble | avrgui/lib/controller/pythondualsense/dualsense.py:481-487 | a motor's flag into byte 1 and its intensity at 4 (left) or 3 (right) |
| Codec.WriteSpeaker | avrgui/lib/controller/pythondualsense/dualsense.py:489-494 | the speaker's flags, volumes at 5, enable and mute bits |
| Codec.WriteMicrophone | avrgui/lib/controller/pythondualsense/dualsense.py:496-501 | the microphone's flags, volume at 7, enable and mute bits |
| Codec.Assemble | avrgui/lib/controller/pythondualsense/dualsense.py:442-508 | the in-place edits of `_generate_report` build exactly `Frame` of the tuples |
| Codec.FrameLayout | avrgui/lib/controller/pythondualsense/dualsense.py:442-447 | USB: 64 bytes, byte 0 = 0x02; Bluetooth: 78 bytes, 0x31 0x00 0x10, the body two places on, and a trailer equal to the 0xA2 checksum of the rest |
| Dualsenses.ReplayKeepsState | avrgui/lib/controller/pythondualsense/dualsense.py:372-434 | decoding the same report twice leaves the state once did |
| Dualsenses.ReplayIsSilent | avrgui/lib/controller/pythondualsense/dualsense.py:372-434 | decoding the same report again fires no callback |
| Dualsenses.ReadEventsFromReport | avrgui/lib/controller/pythondualsense/dualsense.py:372-434 | decoding never fires `on_state` or `on_update` |
| Dualsenses.BatteryCallbacks | avrgui/lib/controller/pythondualsense/dualsense.py:426-434 | each battery callback fires exactly when its value changes, with the new value, which the state then holds |
| Dualsenses.ChargingNibble | avrgui/lib/controller/pythondualsense/dualsense.py:212-219 | `battery_charging` holds after a status byte iff its high nibble is 2 |
| Dualsenses.Outgoing | avrgui/lib/controller/pythondualsense/dualsense.py:449-501 | no flag is raised iff nothing is pending; the player LEDs send the mic brightness when the mic button sent one; every payload is the one held |
| Dualsenses.Sent | avrgui/lib/controller/pythondualsense/dualsense.py:449-501 | every mark cleared; both components hold the brightness that went out; nothing else moves |
| Dualsenses.Forced | avrgui/lib/controller/pythondualsense/dualsense.py:322-334 | every mark set, every value kept, the fade request untouched |
| Dualsenses.QuietFrame | avrgui/lib/controller/pythondualsense/dualsense.py:442-501 | with nothing pending both flag bytes, the LED-flag byte and the brightness byte are 0 |
| Dualsenses.SentOnce | avrgui/lib/controller/pythondualsense/dualsense.py:436-508 | a change goes out once: the next report raises no flag |
| Dualsenses.ForcedSendsAll | avrgui/lib/controller/pythondualsense/dualsense.py:322-334 | after `force_update` the next report raises every component's flag and carries every held payload |
| Dualsenses.ReportLength | avrgui/lib/controller/pythondualsense/dualsense.py:296 | the expected length covers every offset the decoder reads |
| Dualsenses.TurnLifecycle | avrgui/lib/controller/pythondualsense/dualsense.py:343-362 | one turn fires `on_state(True)` when not yet connected, then `on_update` |
| Dualsenses.RunLifecycle | avrgui/lib/controller/pythondualsense/dualsense.py:343-362 | over n turns `on_state(True)` fires once, first, if not connected, and `on_update` once per turn |
| Dualsenses.SessionLifecycle | avrgui/lib/controller/pythondualsense/dualsense.py:341-370 | with the corrected `finally`: connect once, n updates, disconnect once, ready for the next session |
| Dualsenses.SessionLifecycleAsWritten | avrgui/lib/controller/pythondualsense/dualsense.py:365-370 | as written: no disconnect after a session with turns, and the next session announces no connection |
| Dualsenses.Slice | avrgui/lib/controller/pythondualsense/dualsense.py:291-293 | Python slicing: both ends clamped, entries in place |
| Dualsenses.VersionWord | avrgui/lib/controller/pythondualsense/dualsense.py:175-182 | None before `open`, an IndexError for fewer than four bytes, else the little-endian value of the first four |
| Dualsenses.WordIsLittleEndian | avrgui/lib/controller/pythondualsense/dualsense.py:178-181 | or-ing the bytes at shifts 0, 8, 16, 24 is their little-endian sum |
| Dualsenses.Hex | avrgui/lib/controller/pythondualsense/dualsense.py:161 | `hex(n)[2:]` has no dot, one digit iff n < 16, at most two for a byte |
| Dualsenses.HexRoundTrip | avrgui/lib/controller/pythondualsense/dualsense.py:161 | the hexadecimal digits spell the number back |
| Dualsenses.MacFields | avrgui/lib/controller/pythondualsense/dualsense.py:156-164 | the address text has one dot-separated field per byte, holding its digits |
| Dualsenses.MacRoundTrip | avrgui/lib/controller/pythondualsense/dualsense.py:156-164 | parsing each field gives back the address bytes |
| Dualsenses.Dualsense.constructor | avrgui/lib/controller/pythondualsense/dualsense.py:37-104 | USB, nothing read, battery 0 and UNKNOWN, not connected, nothing pending |
| Dualsenses.Dualsense.Open | avrgui/lib/controller/pythondualsense/dualsense.py:258-311 | the transport (forced, or Bluetooth iff the serial's device has interface -1), the pairing and firmware slices and the report length; a failed lookup is the TypeError of subscripting None |
| Dualsenses.Dualsense.MacAddress | avrgui/lib/controller/pythondualsense/dualsense.py:147-164 | None before `open`, else the dotted text of the bytes |
| Dualsenses.Dualsense.HardwareVersion | avrgui/lib/controller/pythondualsense/dualsense.py:166-182 | the `VersionWord` of the hardware bytes |
| Dualsenses.Dualsense.FirmwareVersion | avrgui/lib/controller/pythondualsense/dualsense.py:184-200 | the `VersionWord` of the firmware bytes |
| Dualsenses.Dualsense.ForceUpdate | avrgui/lib/controller/pythondualsense/dualsense.py:322-334 | the outputs become `Forced` of the old ones; nothing else changes |
| Dualsenses.Dualsense.UpdateInputs | avrgui/lib/controller/pythondualsense/dualsense.py:372-434 | the state and the firings are `Read` and `ReadEvents` of the decoded report |
| Dualsenses.Dualsense.ApplyReport | avrgui/lib/controller/pythondualsense/dualsense.py:382-434 | the components, then the battery fields, from a decoded report |
| Dualsenses.Dualsense.UpdateBattery | avrgui/lib/controller/pythondualsense/dualsense.py:426-434 | both battery fields take the report's values; each fires iff it changed |
| Dualsenses.Dualsense.GenerateReport | avrgui/lib/controller/pythondualsense/dualsense.py:436-508 | the report is `Frame` of the `Outgoing` tuples, and the outputs become `Sent` |
| Dualsenses.Dualsense.Step | avrgui/lib/controller/pythondualsense/dualsense.py:343-362 | one loop turn: decode a report of the right length, announce the first connection, send, `on_update` |
| Dualsenses.Dualsense.Turns | avrgui/lib/controller/pythondualsense/dualsense.py:343-362 | over all reads: the state is `Absorbed`, the first report carries what was pending and every later one `Sent` state, the firings are `RunEvents` |
| Dualsenses.Dualsense.Run | avrgui/lib/controller/pythondualsense/dualsense.py:336-370 | the turns, then the corrected `finally`: a connected controller reports the disconnection and ends disconnected |
| Dualsenses.Dualsense.RunAsWritten | avrgui/lib/controller/pythondualsense/dualsense.py:336-370 | the turns, then the `finally` as written: `on_state(False)` fires and the flag is cleared only if the controller never connected; a connected one stays marked connected |
| Actions.GoalOnce | avrgui/lib/action.py:52-60 | a goal goes out iff not running, then the action runs; a second `send_goal` sends nothing |
| Actions.CancelAlwaysMarks | avrgui/lib/action.py:62-70 | as written, `cancel` always stops and marks; a request goes out iff it was running |
| Actions.FeedbackGate | avrgui/lib/action.py:72-80 | feedback reaches the callback iff the id matches, the data decodes and the action runs |
| Actions.ResultGate | avrgui/lib/action.py:82-94 | a result after a cancellation is swallowed and keeps `running`; any other stops the action, and reaches the callback iff id, data and the previous `running` allow |
| Actions.GoalThenResult | avrgui/lib/action.py:52-94 | from idle, a goal then its result delivers the result and leaves the action idle |
| Actions.CancelledResultSwallowed | avrgui/lib/action.py:62-94 | after `cancel` the next result is swallowed and the action is idle |
| Actions.IdleCancelSwallowsNextResult | avrgui/lib/action.py:62-94 | as written, cancelling an idle action swallows the next goal's result and leaves the action running. Every `send_goal` then sends nothing and changes nothing, until a result message (any id) or a `cancel` stops it |
| Actions.CancelIntendedKeepsNextResult | avrgui/lib/action.py:62-94 | with the corrected `cancel`, an idle cancel changes nothing and a running one still swallows its result |
| Actions.Action.constructor | avrgui/lib/action.py:44-50 | not running, nothing marked, one cancel request for the id sent |
| Actions.Action.SendGoal | avrgui/lib/action.py:52-60 | the flags and requests follow `GoalStep` |
| Actions.Action.Cancel | avrgui/lib/action.py:62-70 | the flags and requests follow the corrected `CancelIntended` |
| Actions.Action.CancelAsWritten | avrgui/lib/action.py:62-70 | the flags and requests follow `CancelStep`: always stopped and marked, a request only if it was running |
| Actions.Action.Feedback | avrgui/lib/action.py:72-80 | the data delivered is `FeedbackDelivered` |
| Actions.Action.Result | avrgui/lib/action.py:82-94 | the flags and the data delivered follow `ResultStep`; no request is made |

## Left out

- Threads and blocking: `_update` runs on its own thread; `open`'s `hold` busy-wait, `close`, `__del__` and `is_open` depend on it. `Run` takes the finite list of reads the loop makes before it stops (by `close` or by an `OSError`), and `Open` takes whether the device is already open.
- Dualsenses.Dualsense.Run: a turn cut short by an `OSError` from `self._device.write` (dualsense.py:357) is not modelled. Such a turn has already fired `on_state(True)` if it was the first, and `_generate_report` has already cleared every dirty mark. The write and `on_update` are then skipped and `finally` runs, so the pending output changes are lost unsent. `Turns`, `Run` and `RunAsWritten` model whole turns only. A failed read ends the loop between turns and is covered by the finite list of reads.
- hidapi calls are foreign code. These are `hid.enumerate`, `device.open`/`open_path`, `get_serial_number_string`, `get_feature_report`, `read`, `write` and `get_device`. They become parameters: the enumerated devices, the serial string read, the pairing and firmware feature reports, the reads and the written reports. `get_calibration_info` is only a hidapi call and is not modelled.
- Dualsenses.Dualsense.Open: the `IOError`/`OSError`/`ValueError` re-raised after closing the device is not modelled. Only the `TypeError` of subscripting a failed lookup is.
- `crc32_le` (lib/crc32.py) is not part of this model. It is the parameter `crc32` of every member that needs it.
- The output components `mic_button`, `player_led`, `trigger`, `rumble_motor`, `speaker` and `microphone` are not part of this model. `Components` gives them a dirty-flag scheme with fixed flag constants and fixed payload widths: trigger profile 4 bytes, touchpad colour 3, speaker volume 2. These are assumptions, read off how `_generate_report` consumes their tuples.
- Components.Trigger.Update: fires no callback. This is an assumption: `Trigger` is built with the event loop (dualsense.py:60-61), like the Buttons that do fire, so its source may well fire on a change of value. The controller's trace `ReadEvents` therefore has no trigger events.
- Components.MicButton.Update: fires the callbacks of `Button.update`. This is an assumption: `MicButton()` is built without an event loop (dualsense.py:55), so its callbacks may differ. The controller's trace `ReadEvents` includes the mic button's edges on the same assumption.
- Dualsenses.Dualsense.Run: runs the corrected `finally` clause (see "## Findings"). The code as written is `Dualsense.RunAsWritten`, proved against `FinishAsWritten`.
- Actions.Action.Cancel: runs the corrected `cancel` (`CancelIntended`), which leaves an idle action unmarked; the code marks it. The code as written is `Action.CancelAsWritten`, proved against `CancelStep`.
- The controller object holds its components' states as values, so object identity and aliasing are not modelled. An example is application code that keeps `controller.circle` and updates it directly. The component classes are modelled separately and proved against the same functions.
- Callbacks registered on components are not dispatched. Operations return traces of firings, and `Callbacks` models the registry on its own. An exception other than `TypeError`, escaping a callback into the update loop, is therefore not modelled.
- `Callback.__iadd__` and `__isub__` are modelled as `register` and `unregister`. Their `isinstance(other, Callable)` filter is not modelled, nor their `None` result, which rebinds the attribute that `+=` is applied to.
- `print` calls and the debugging field `self.r` are not modelled.
- `map_value` (avrgui/lib/utils.py:1-5) is floating-point and is not modelled.
- Const.Find: the index is a `nat`. Python's negative indices, which count from the end of the table, are not modelled. The decoder only passes a nibble, 0 to 15.
- Dpads.Dpad.Update: the source compares codes with `is not`. The model uses `!=`, which agrees for the small integers the decoder produces.
- Touchpads.Touchpad.SetLedColor: the identity test `color is not (r, g, b)` is taken as always true, which holds for every freshly built tuple.
- Actions: the `roslibpy` services and topics are not modelled. A service call is recorded in `requests`, and the goal service's reply callback, which only prints, is left out. `json.dumps`/`json.loads` are the parameters `dumps`/`loads`. A message without an `id` or `data` key (a `KeyError`) is not modelled.
- Bluetooth input reports carry a CRC that the driver does not check. `verify_checksum` is modelled, but the update loop does not call it, as in the source.

## Findings

| source | as written | input that shows it | evidently intended | confidence | as-written member | corrected member |
|---|---|---|---|---|---|---|
| avrgui/lib/controller/pythondualsense/dualsense.py:367 | the `finally` clause fires `on_state(False)` and clears `_last_state` only when `_last_state` is already false | a session with at least one loop turn: the turn sets `_last_state`, so closing fires no `on_state(False)` and `_last_state` stays true; the next `open` then fires no `on_state(True)` either | `if self._last_state:` fires the disconnection once and clears the flag (line 369 assigns `False`, which only makes sense under that test) | high, not executed | Dualsenses.SessionLifecycleAsWritten | Dualsenses.SessionLifecycle |
| avrgui/lib/action.py:69-70 | `cancel` sets `_cancel_requested` even when no goal is running and no cancel request was sent | `cancel()` on an idle action, then `send_goal(g)`, then the result message for g: the result is swallowed and `_running` stays true, so later `send_goal`s send nothing until a result message or a `cancel` arrives | mark the next result only when a cancel request went out | medium, not executed | Actions.IdleCancelSwallowsNextResult | Actions.CancelIntendedKeepsNextResult |
