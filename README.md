# XY MIDI controller

A model of `XYMidiController`, a small desktop tool. Dragging the pointer over a 2-D pad sends
two MIDI Control Change (CC) messages: one carries the horizontal position and the other the
vertical position, each as a 7-bit value 0..127. The user chooses:

- the two controller numbers, typed into entry fields;
- the MIDI channel 1..16, from a read-only selector;
- the output device, from a read-only list of the devices that have an output.

The model has eight modules:

- `Wrappers`: the `Option` type.
- `PyInt`: Python's `int(text)` and `str(n)` on decimal text. The controller uses them to read
  the CC entries, the channel selector and the device index in a device label. It also uses
  them to write a kept CC number back into its entry.
- `Mapping`: the arithmetic of `update_position`. A pointer position is clamped to the canvas,
  then scaled to 0..127 with the Y axis inverted, then clamped to 0..127 again.
- `Midi`: the Control Change message `0xB0 | channel, controller, value`, what a receiver
  decodes from it, and the output port.
- `Devices`: the device list `"{i}: {name}"` and reading the index back from a label. It also
  covers the device switch, which closes the held port, opens the chosen device and sets the
  status line.
- `Fields`: validating the CC entries and reading the channel selector.
- `Pad`: the pointer handlers as a pure state machine over a snapshot of the pad state. A press
  starts a drag and maps the point at once. A motion maps only while dragging. A release only
  ends the drag.
- `Controller`: the class `XYMidiController`. It has the source's fields, plus string fields for
  the Tk variables and a log `sent` of the messages the output port received. Each callback is
  a method, proved against the functions of `Pad`, `Fields` and `Devices`.

Two details of the code that the model follows as written:

- The 400 × 250 size substituted for a canvas that is not laid out yet (size 1 or less) is used
  only to draw the crosshair (`MIDI_XY_controller.py:170-173`). `update_position` divides by the
  size Tk reports, with no substitute.
- When a device fails to open, `on_midi_device_change` has already closed the previous port and
  does not reset `midi_out`. The closed handle stays in place, so later writes raise and
  `send_midi_cc` drops them: nothing is delivered until another device is opened.

## Model

| member | source | states |
|---|---|---|
| `Mapping.Clamp` | MIDI_XY_controller.py:204-206 | `max(lo, min(hi, v))` lies in `lo..hi`. It is `v` inside the range and the nearer end outside it. |
| `Mapping.AxisX` | MIDI_XY_controller.py:199-214 | The X value of any pointer column on any canvas is a 7-bit value. |
| `Mapping.AxisY` | MIDI_XY_controller.py:199-214 | The inverted Y value of any pointer row is a 7-bit value. |
| `Mapping.ScaleInRange` | MIDI_XY_controller.py:209-210 | Scaling a position already clamped to the canvas gives 0..127. |
| `Mapping.ReclampIsOnlyAGuard` | MIDI_XY_controller.py:212-214 | In exact arithmetic the second clamp never changes a value. |
| `Mapping.Corners` | MIDI_XY_controller.py:204-214 | Top-left maps to (0, 127) and bottom-right to (127, 0), on every canvas size. |
| `Mapping.OutsideSaturates` | MIDI_XY_controller.py:204-206 | A pointer dragged past an edge gives that edge's value. |
| `Mapping.AxisXMonotone` | MIDI_XY_controller.py:209 | Moving right never lowers X. |
| `Mapping.AxisYAntitone` | MIDI_XY_controller.py:210 | Moving down never raises Y: the axis is inverted. |
| `Mapping.AxisYMirrorsAxisX` | MIDI_XY_controller.py:209-210 | Y at row `y` equals X at column `height - y`: the same mapping read from the bottom edge. |
| `Mapping.DefaultPadCentre` | MIDI_XY_controller.py:40 | The centre of a 400 × 250 canvas maps to (63, 63). |
| `Mapping.EvenCanvasCentre` | MIDI_XY_controller.py:209-210 | The centre of any canvas of even width and height maps to (63, 63). |
| `Mapping.EveryValueReachable` | MIDI_XY_controller.py:209 | On a canvas at least 127 pixels wide, every value 0..127 is produced by some column on the canvas. |
| `Midi.StatusByte` | MIDI_XY_controller.py:228 | 0xB0 or-ed with the channel is 0xB0 plus the channel, for every channel 0..15. |
| `Midi.ControlChange` | MIDI_XY_controller.py:228-230 | The message written is a well-formed Control Change exactly when the controller and the value are 7-bit numbers. |
| `Midi.StatusByteCarriesChannel` | MIDI_XY_controller.py:228 | The status byte 0xB0 or-ed with the channel is a Control Change status 0xB0..0xBF whose low nibble is the channel. |
| `Midi.DecodeControlChangeRoundTrip` | MIDI_XY_controller.py:228-230 | A receiver decodes a Control Change back into the channel, controller and value that were sent. |
| `Midi.Emit` | MIDI_XY_controller.py:223-232 | One send delivers nothing without a writable port. Otherwise it delivers exactly two messages on the same status byte. |
| `Midi.EmitDecodes` | MIDI_XY_controller.py:228-230 | The first message sent decodes to (channel, X CC, X value) and the second to (channel, Y CC, Y value). |
| `Midi.EmitWellFormed` | MIDI_XY_controller.py:223-232 | Every message one send delivers is a well-formed Control Change. |
| `PyInt.ParseInt` | MIDI_XY_controller.py:237 | `int(text)` reads a number exactly when the text, stripped of white space, is a signed numeral. A leading minus gives a number at most 0, and no minus a number at least 0. |
| `PyInt.IntToString` | MIDI_XY_controller.py:242 | `str(i)` is non-empty and starts with a minus exactly when `i` is negative. |
| `PyInt.NatToString` | MIDI_XY_controller.py:242 | `str(n)` is a non-empty run of digits, with a leading zero only for 0. |
| `PyInt.StripLeadingShape` | MIDI_XY_controller.py:237 | `int()`'s leading strip keeps a suffix, removes only white space and leaves none in front. |
| `PyInt.StripTrailingShape` | MIDI_XY_controller.py:237 | `int()`'s trailing strip keeps a prefix, removes only white space and leaves none at the end. |
| `PyInt.NatToStringValue` | MIDI_XY_controller.py:242 | The digits `str(n)` writes have the value `n`. |
| `PyInt.ParseNatToString` | MIDI_XY_controller.py:139 | `int(str(n)) == n` for every natural number. |
| `PyInt.ParseNegated` | MIDI_XY_controller.py:242 | `int("-" + str(n)) == -n` for every natural number. |
| `PyInt.ParseIntToString` | MIDI_XY_controller.py:242 | `int(str(i)) == i` for every integer, negative ones included. |
| `PyInt.BlankIsNotANumber` | MIDI_XY_controller.py:243-245 | `int()` of empty or all-blank text raises `ValueError`. |
| `PyInt.SeparatorIsNotANumber` | MIDI_XY_controller.py:243-245 | `int()` rejects text led by U+001C: the information separators are not white space to it. |
| `PyInt.ParsedTextAlphabet` | MIDI_XY_controller.py:237 | Text that `int()` accepts holds only white space, signs, digits and underscores. |
| `Devices.FormatLabel` | MIDI_XY_controller.py:127 | The label is the digits of the index, a colon, a space and then the unchanged name. |
| `Devices.ParseDeviceId` | MIDI_XY_controller.py:151 | Text without a colon is read whole by `int()`. Text starting with a colon has no device index. |
| `Devices.BeforeFirstColon` | MIDI_XY_controller.py:151 | `s.split(':')[0]` is a colon-free prefix of `s`, followed by a colon when it is shorter than `s`. |
| `Devices.BeforeFirstColonOfLabel` | MIDI_XY_controller.py:127 | The text before the first colon of a label is the index it was formatted from. |
| `Devices.LabelRoundTrip` | MIDI_XY_controller.py:127 | `int(label.split(':')[0])` recovers the device index of every label, whatever its name holds, colons included. |
| `Devices.OutputIndices` | MIDI_XY_controller.py:122-125 | Every listed index is below the device count and has the output flag. |
| `Devices.DeviceLabels` | MIDI_XY_controller.py:122-127 | The list has one label per output device. |
| `Devices.OutputIndicesIncreasing` | MIDI_XY_controller.py:122 | Output devices are listed in increasing index order. |
| `Devices.OutputIndicesComplete` | MIDI_XY_controller.py:125 | Every device with the output flag is listed. |
| `Devices.DeviceLabelsAt` | MIDI_XY_controller.py:127 | Label `k` is `"{i}: {name}"` of the `k`-th output device `i`. |
| `Devices.ListedLabelsNameTheirDevice` | MIDI_XY_controller.py:151 | The index read back from any listed label is the output device that label was built from. |
| `Devices.Close` | MIDI_XY_controller.py:146-147 | A closed port is not writable. Closing keeps whether a port is held. |
| `Devices.SelectOutput` | MIDI_XY_controller.py:143-159 | The result is writable exactly when the text is non-empty, its prefix parses and the device opens. Then it is connected to the parsed device. Otherwise it holds the closed port, or none for empty text. The status is "no device" exactly for empty text, and "connection failed" whenever non-empty text does not connect. |
| `Devices.SelectListedDevice` | MIDI_XY_controller.py:143-153 | Choosing a listed label, with a device that opens, connects to exactly that output device. |
| `Fields.ValidateCc` | MIDI_XY_controller.py:236-245 | Text is accepted as a CC exactly when `int()` reads a number in 0..127. It is rejected as not a number exactly when `int()` raises, and as out of range otherwise. |
| `Fields.CommitCc` | MIDI_XY_controller.py:234-245 | An accepted number becomes the CC and the text stays. A rejected one keeps the old CC, and the entry is reset to `str(old)`, which reads back as the old CC. |
| `Fields.CcTextAccepted` | MIDI_XY_controller.py:66 | The text `str(cc)` of every valid CC is accepted as that CC. |
| `Fields.CommitCcIdempotent` | MIDI_XY_controller.py:234-258 | Committing an entry twice is the same as committing it once. |
| `Fields.RejectedEntryKeepsCc` | MIDI_XY_controller.py:238-245 | Text that is not a whole number in 0..127 never changes the CC. |
| `Fields.ChannelChoices` | MIDI_XY_controller.py:91 | The selector offers 16 values, the labels "1".."16" in order. |
| `Fields.ChannelFromText` | MIDI_XY_controller.py:134-141 | Empty text keeps the channel. A number `k` gives channel `k - 1`. Non-numeric text gives channel 0. |
| `Fields.ChannelChoiceRoundTrip` | MIDI_XY_controller.py:139 | Choosing a channel's label selects that channel: the 1-based display and the 0-based channel agree. |
| `Fields.ChoiceGivesChannel` | MIDI_XY_controller.py:89-94 | Every selector value gives a channel in 0..15 whose own label is that value. |
| `Fields.ChannelChoicesInRange` | MIDI_XY_controller.py:91 | Every label gives a channel in 0..15. Distinct channels have distinct labels, and distinct labels give distinct channels. |
| `Pad.Track` | MIDI_XY_controller.py:199-221 | A mapping sets the values to `AxisX`/`AxisY` of the pointer and leaves the drag flag, CCs, channel and port alone. |
| `Pad.Step` | MIDI_XY_controller.py:185-197 | No pointer event changes the channel. |
| `Pad.TrackReports` | MIDI_XY_controller.py:221-230 | A mapping keeps the invariant. With a writable port it appends exactly two messages, which decode to the new X and Y on the current CCs and channel. Otherwise it sends nothing. |
| `Pad.StepPreservesInv` | MIDI_XY_controller.py:185-197 | Every pointer event keeps the values, CCs and channel in range and sends only well-formed messages. |
| `Pad.RunPreservesInv` | MIDI_XY_controller.py:185-197 | So does any sequence of pointer events. |
| `Pad.PressStartsDrag` | MIDI_XY_controller.py:185-188 | A press starts a drag and maps the press point at once. |
| `Pad.ReleaseOnlyEndsDrag` | MIDI_XY_controller.py:195-197 | A release ends the drag and changes nothing else. |
| `Pad.MotionGatedByDrag` | MIDI_XY_controller.py:190-193 | A motion while idle is ignored. While dragging it maps the pointer. |
| `Pad.IdleIgnoresAllButPress` | MIDI_XY_controller.py:190-197 | Without a press, an idle pad stays exactly as it is, and nothing is sent. |
| `Pad.ReleaseThenMotionsInert` | MIDI_XY_controller.py:190-197 | After a release, further motions change nothing until the next press. |
| `Pad.RunExtendsLog` | MIDI_XY_controller.py:223-232 | The message log only grows: earlier messages are never dropped or rewritten. |
| `Pad.RunMessageCount` | MIDI_XY_controller.py:185-232 | With a writable port, each press and each motion during a drag sends exactly two messages. Without one, nothing is sent. |
| `Controller.XYMidiController.constructor` | MIDI_XY_controller.py:8-23 | Defaults are X CC 78, Y CC 77, values 64/64, channel 0, not dragging, nothing sent. The device list is built, and the first device is selected if there is one. |
| `Controller.XYMidiController.RefreshMidiDevices` | MIDI_XY_controller.py:117-132 | The list becomes the labels of the output devices. If nothing was selected and the list is not empty, the first entry is selected and opened; otherwise the selection is kept. |
| `Controller.XYMidiController.OnMidiChannelChange` | MIDI_XY_controller.py:134-141 | The channel follows `ChannelFromText`. For a selector value it is in 0..15 and matches the display. |
| `Controller.XYMidiController.SelectChannel` | MIDI_XY_controller.py:89-94 | Picking label `k + 1` selects channel `k` and keeps the invariant. |
| `Controller.XYMidiController.OnMidiDeviceChange` | MIDI_XY_controller.py:143-159 | Port and status become `SelectOutput` of the held port and the selected text. |
| `Controller.XYMidiController.SelectDevice` | MIDI_XY_controller.py:78-81 | Picking entry `k` of the device list switches to it as `SelectOutput` says. |
| `Controller.XYMidiController.OnMouseDown` | MIDI_XY_controller.py:185-188 | The new pad state is `Step` on a press. |
| `Controller.XYMidiController.OnMouseDrag` | MIDI_XY_controller.py:190-193 | The new pad state is `Step` on a motion. |
| `Controller.XYMidiController.OnMouseUp` | MIDI_XY_controller.py:195-197 | The new pad state is `Step` on a release. |
| `Controller.XYMidiController.UpdatePosition` | MIDI_XY_controller.py:199-221 | The new pad state is `Track`, and the invariant is kept. |
| `Controller.XYMidiController.SendMidiCc` | MIDI_XY_controller.py:223-232 | The log grows by exactly `Emit` of the current port, channel, CCs and values. |
| `Controller.XYMidiController.EditXCcText` | MIDI_XY_controller.py:66 | Typing replaces the X entry text. |
| `Controller.XYMidiController.EditYCcText` | MIDI_XY_controller.py:58 | Typing replaces the Y entry text. |
| `Controller.XYMidiController.UpdateXCc` | MIDI_XY_controller.py:234-245 | The X CC and entry become `CommitCc`, and the dialog shown is the rejection reason. |
| `Controller.XYMidiController.UpdateYCc` | MIDI_XY_controller.py:247-258 | The Y CC and entry become `CommitCc`, and the dialog shown is the rejection reason. |

## Left out

- The Tk user interface is not modelled: window layout, colours, `draw_crosshair`, the values
  label and the text of the status line. The status is the datatype `Status`.
- The error dialogs (`messagebox.showerror`) are not modelled beyond naming the dialog shown:
  `UpdateXCc`/`UpdateYCc` return it. The dialog of a failed device change is
  `Status.ConnectionFailed`.
- `pygame.midi` is foreign code, so it is replaced by parameters and state:
  - `init`, `get_count` and `get_device_info` become the parameter `infos`;
  - whether `Output(device_id)` succeeds is the parameter `opens`;
  - `write_short` appends to `sent`;
  - `close` clears the port's open flag;
  - `quit` is not modelled.
- Device names are already-decoded strings. The UTF-8 decoding of the name bytes is not
  modelled.
- PyInt.ParseInt: accepts only ASCII decimal digits, and puts no limit on the number of
  digits. Python's `int()` also accepts other Unicode decimal digits. Recent Python versions raise
  `ValueError` on a numeral of more than 4300 digits, a limit the interpreter's configuration can
  change. Here such a numeral is read by its value. A long run of leading zeros before a number in
  0..127 is therefore accepted, and any other such numeral is rejected as out of range. Python
  rejects both with "Please enter a valid number".
- Mapping.AxisX: uses the exact quotient `(c * 127) / size` where the source computes
  `int((c / size) * 127)` in double precision. Rounding differences are not modelled.
- Mapping.AxisY: uses the exact quotient in the same way as `AxisX`.
- Controller.XYMidiController.SendMidiCc: assumes an open port accepts every write. A transient
  error raised by an open port, which is caught and printed, is not modelled. Writes to a closed
  port raise and are dropped, and that is modelled.
- The canvas size is a parameter of each pointer event and must be positive. Tk reports at
  least 1, so a zero size cannot occur.
- `run`, `cleanup`, the `main` entry point, and the imported `threading` and `time` modules are
  not modelled: they are the event loop and process shutdown.
