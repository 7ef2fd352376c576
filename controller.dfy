/**
  The `XYMidiController` object: the fields its Tk callbacks update in place, and one method per
  callback. Each method is proved against the functions of `Pad`, `Fields` and `Devices`, so the
  properties proved there hold of every state the controller reaches.

  The Tk variables behind the entry fields and selectors are plain string fields
  (`xCcText`, `yCcText`, `channelText`, `deviceText`); the values of the device selector are
  `deviceChoices`; the messages the open output port received are `sent`.
 */
module Controller {
  import opened Wrappers
  import opened PyInt
  import opened Mapping
  import opened Midi
  import opened Devices
  import opened Fields
  import opened Pad

  class XYMidiController {
    var midiOut: Option<Port>
    var midiChannel: int
    var xCc: int
    var yCc: int
    var currentXValue: int
    var currentYValue: int
    var isDragging: bool

    var xCcText: string
    var yCcText: string
    var channelText: string
    var deviceText: string
    var deviceChoices: seq<string>
    var status: Status

    var sent: seq<Message>

    /** The pad part of the state. */
    function PadView(): PadState
      reads this
    {
      PadState(isDragging, currentXValue, currentYValue, xCc, yCc, midiChannel, midiOut, sent)
    }

    /**
      `Pad.Inv` of `PadView()`, spelt out over the fields so that its reads frame names only the
      fields it depends on; it is the same invariant, not a second one.
     */
    ghost predicate InRange()
      reads this`currentXValue, this`currentYValue, this`xCc, this`yCc, this`midiChannel, this`sent
    {
      0 <= currentXValue <= MidiMax && 0 <= currentYValue <= MidiMax &&
      0 <= xCc <= MidiMax && 0 <= yCc <= MidiMax &&
      0 <= midiChannel < 16 &&
      forall m :: m in sent ==> IsControlChange(m)
    }

    /** `InRange`, and the channel selector shows the current channel. */
    ghost predicate Valid()
      reads this`currentXValue, this`currentYValue, this`xCc, this`yCc, this`midiChannel, this`sent, this`channelText
    {
      InRange() && channelText == ChannelChoice(midiChannel)
    }

    /** `__init__` followed by `setup_midi`, with `infos` the devices pygame reports. */
    constructor (infos: seq<DeviceInfo>, opens: bool)
      ensures Valid()
      ensures xCc == 78 && yCc == 77 && currentXValue == 64 && currentYValue == 64
      ensures !isDragging && midiChannel == 0 && sent == []
      ensures xCcText == IntToString(78) && yCcText == IntToString(77)
      ensures deviceChoices == DeviceLabels(infos, |infos|)
      ensures deviceChoices == [] ==> deviceText == "" && midiOut == None && status == Ready
      ensures deviceChoices != [] ==>
                deviceText == deviceChoices[0] && Selection(midiOut, status) == SelectOutput(None, deviceChoices[0], opens)
    {
      midiOut := None;
      midiChannel := 0;
      xCc, yCc := 78, 77;
      currentXValue, currentYValue := 64, 64;
      isDragging := false;
      xCcText := IntToString(78);
      yCcText := IntToString(77);
      channelText := "1";
      deviceText := "";
      deviceChoices := [];
      status := Ready;
      sent := [];
      new;
      RefreshMidiDevices(infos, opens);
    }

    /**
      `refresh_midi_devices`: lists the output devices of `infos`; when the list is not empty and
      nothing is selected yet, selects the first entry and connects to it.
     */
    method RefreshMidiDevices(infos: seq<DeviceInfo>, opens: bool)
      requires Valid()
      modifies this`deviceChoices, this`deviceText, this`midiOut, this`status
      ensures Valid()
      ensures deviceChoices == DeviceLabels(infos, |infos|)
      ensures deviceChoices != [] && old(deviceText) == "" ==>
                deviceText == deviceChoices[0] &&
                Selection(midiOut, status) == SelectOutput(old(midiOut), deviceChoices[0], opens)
      ensures !(deviceChoices != [] && old(deviceText) == "") ==>
                deviceText == old(deviceText) && midiOut == old(midiOut) && status == old(status)
    {
      var devices: seq<string> := [];
      var i := 0;
      while i < |infos|
        invariant 0 <= i <= |infos|
        invariant devices == DeviceLabels(infos, i)
      {
        var info := infos[i];
        if info.isOutput {
          devices := devices + [FormatLabel(i, info.name)];
        }
        i := i + 1;
      }
      deviceChoices := devices;
      if devices != [] && deviceText == "" {
        deviceText := devices[0];
        OnMidiDeviceChange(opens);
      }
    }

    /**
      `on_midi_channel_change`: the channel becomes the 0-based number of the selector's text.
      The selector is read-only, so in practice its text is one of its own values, and then the
      channel stays in 0..15 and matches what the selector shows.
     */
    method OnMidiChannelChange()
      requires InRange()
      modifies this`midiChannel
      ensures midiChannel == ChannelFromText(channelText, old(midiChannel))
      ensures channelText in ChannelChoices() ==> Valid()
    {
      if channelText != "" {
        match ParseInt(channelText)
        case Some(n) => midiChannel := n - 1;
        case None => midiChannel := 0;
      }
      if channelText in ChannelChoices() {
        ChoiceGivesChannel(channelText, old(midiChannel));
      }
    }

    /** The user picks channel `channel + 1` in the read-only selector. */
    method SelectChannel(channel: int)
      requires Valid() && 0 <= channel < 16
      modifies this`channelText, this`midiChannel
      ensures Valid()
      ensures midiChannel == channel && channelText == ChannelChoice(channel)
    {
      channelText := ChannelChoices()[channel];
      OnMidiChannelChange();
      ChannelChoiceRoundTrip(channel, old(midiChannel));
    }

    /**
      `on_midi_device_change`: closes the held port, then opens the device whose index prefixes
      the selected text; `opens` says whether pygame manages to open it.
     */
    method OnMidiDeviceChange(opens: bool)
      requires Valid()
      modifies this`midiOut, this`status
      ensures Valid()
      ensures Selection(midiOut, status) == SelectOutput(old(midiOut), deviceText, opens)
    {
      ghost var closed := Close(midiOut);
      if midiOut.Some? {
        midiOut := Some(midiOut.value.(isOpen := false));
      }
      assert midiOut == closed;
      if deviceText != "" {
        var id := ParseDeviceId(deviceText);
        if id.Some? && opens {
          midiOut := Some(Port(id.value, true));
          status := Connected(deviceText);
        } else {
          status := ConnectionFailed;
        }
      } else {
        midiOut := None;
        status := NoDeviceSelected;
      }
      assert PadView() == old(PadView()).(out := midiOut);
    }

    /** The user picks entry `k` of the read-only device selector. */
    method SelectDevice(k: nat, opens: bool)
      requires Valid() && k < |deviceChoices|
      modifies this`deviceText, this`midiOut, this`status
      ensures Valid()
      ensures deviceText == deviceChoices[k]
      ensures Selection(midiOut, status) == SelectOutput(old(midiOut), deviceChoices[k], opens)
    {
      deviceText := deviceChoices[k];
      OnMidiDeviceChange(opens);
    }

    /** `on_mouse_down`. */
    method OnMouseDown(x: int, y: int, width: int, height: int)
      requires Valid() && width > 0 && height > 0
      modifies this`isDragging, this`currentXValue, this`currentYValue, this`sent
      ensures Valid()
      ensures PadView() == Step(old(PadView()), Press(x, y, width, height))
    {
      isDragging := true;
      UpdatePosition(x, y, width, height);
    }

    /** `on_mouse_drag`. */
    method OnMouseDrag(x: int, y: int, width: int, height: int)
      requires Valid() && width > 0 && height > 0
      modifies this`currentXValue, this`currentYValue, this`sent
      ensures Valid()
      ensures PadView() == Step(old(PadView()), Motion(x, y, width, height))
    {
      if isDragging {
        UpdatePosition(x, y, width, height);
      }
    }

    /** `on_mouse_up`. */
    method OnMouseUp()
      requires Valid()
      modifies this`isDragging
      ensures Valid()
      ensures PadView() == Step(old(PadView()), Release)
    {
      isDragging := false;
    }

    /**
      `update_position` on a canvas of the given size: clamp the pointer to the canvas, scale
      both axes to 0..127 (Y inverted), clamp again, then send.
     */
    method UpdatePosition(x: int, y: int, width: int, height: int)
      requires Valid() && width > 0 && height > 0
      modifies this`currentXValue, this`currentYValue, this`sent
      ensures Valid()
      ensures PadView() == Track(old(PadView()), x, y, width, height)
    {
      var canvasX := Max(0, Min(width, x));
      var canvasY := Max(0, Min(height, y));
      currentXValue := (canvasX * MidiMax) / width;
      currentYValue := ((height - canvasY) * MidiMax) / height;
      currentXValue := Max(0, Min(MidiMax, currentXValue));
      currentYValue := Max(0, Min(MidiMax, currentYValue));
      SendMidiCc();
    }

    /**
      `send_midi_cc`: with a port, writes the X then the Y Control Change; writes to a closed port
      raise and are dropped.
     */
    method SendMidiCc()
      requires Valid()
      modifies this`sent
      ensures Valid()
      ensures sent == old(sent) + Emit(midiOut, midiChannel, xCc, currentXValue, yCc, currentYValue)
    {
      EmitWellFormed(midiOut, midiChannel, xCc, currentXValue, yCc, currentYValue);
      if midiOut.Some? {
        if midiOut.value.isOpen {
          sent := sent + [Message(StatusByte(midiChannel), xCc, currentXValue)];
          sent := sent + [Message(StatusByte(midiChannel), yCc, currentYValue)];
        }
      }
    }

    /** The user types `text` into the X CC entry. */
    method EditXCcText(text: string)
      modifies this`xCcText
      ensures xCcText == text
    {
      xCcText := text;
    }

    /** The user types `text` into the Y CC entry. */
    method EditYCcText(text: string)
      modifies this`yCcText
      ensures yCcText == text
    {
      yCcText := text;
    }

    /**
      `update_x_cc` (on Return or focus out): accepts the entry as the X CC number, or shows the
      error dialog `shown` and resets the entry to the kept number.
     */
    method UpdateXCc() returns (shown: Option<CcError>)
      requires Valid()
      modifies this`xCc, this`xCcText
      ensures Valid()
      ensures CcField(xCc, xCcText) == CommitCc(old(xCc), old(xCcText))
      ensures shown == (match ValidateCc(old(xCcText)) case Accept(_) => None case Reject(e) => Some(e))
    {
      var parsed := ParseInt(xCcText);
      if parsed.Some? && 0 <= parsed.value <= 127 {
        xCc := parsed.value;
        shown := None;
      } else {
        shown := Some(if parsed.None? then NotANumber else OutOfRange);
        xCcText := IntToString(xCc);
      }
    }

    /** `update_y_cc`: the same for the Y CC number. */
    method UpdateYCc() returns (shown: Option<CcError>)
      requires Valid()
      modifies this`yCc, this`yCcText
      ensures Valid()
      ensures CcField(yCc, yCcText) == CommitCc(old(yCc), old(yCcText))
      ensures shown == (match ValidateCc(old(yCcText)) case Accept(_) => None case Reject(e) => Some(e))
    {
      var parsed := ParseInt(yCcText);
      if parsed.Some? && 0 <= parsed.value <= 127 {
        yCc := parsed.value;
        shown := None;
      } else {
        shown := Some(if parsed.None? then NotANumber else OutOfRange);
        yCcText := IntToString(yCc);
      }
    }
  }
}
