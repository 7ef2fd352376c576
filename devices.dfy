/**
  The MIDI output device list and device selection: `refresh_midi_devices` lists every output
  device as the label "{i}: {name}", and `on_midi_device_change` reads the device index back from
  the selected label as `int(label.split(':')[0])`, closes the port it holds and opens that device.
 */
module Devices {
  import opened Wrappers
  import opened PyInt
  import opened Midi

  /** One entry of `pygame.midi.get_device_info(i)`: (interface, name, input, output, opened). */
  datatype DeviceInfo = DeviceInfo(interface: string, name: string, isInput: bool, isOutput: bool, isOpened: bool)

  /** The combobox label of device `i`: `f"{i}: {name}"`, the digits of `i`, a colon, a space and the name. */
  function FormatLabel(i: nat, name: string): (text: string)
    ensures |text| == |NatToString(i)| + 2 + |name|
    ensures text[..|NatToString(i)|] == NatToString(i) && text[|NatToString(i)|] == ':'
    ensures text[|NatToString(i)| + 1] == ' '
    ensures text[|NatToString(i)| + 2..] == name
  {
    NatToString(i) + ": " + name
  }

  /** `s.split(':')[0]`: the text before the first colon, or all of `s` when it has none. */
  function BeforeFirstColon(s: string): (t: string)
    ensures |t| <= |s| && t == s[..|t|]
    ensures ':' !in t
    ensures |t| < |s| ==> s[|t|] == ':'
  {
    if s == [] || s[0] == ':' then [] else [s[0]] + BeforeFirstColon(s[1..])
  }

  /** `int(label.split(':')[0])`; `None` where Python raises `ValueError`. */
  function ParseDeviceId(choice: string): (id: Option<int>)
    ensures ':' !in choice ==> id == ParseInt(choice)
    ensures |choice| > 0 && choice[0] == ':' ==> id == None
  {
    var prefix := BeforeFirstColon(choice);
    assert |prefix| < |choice| ==> choice[|prefix|] in choice;
    assert ':' !in choice ==> prefix == choice[..|choice|] == choice;
    ParseInt(BeforeFirstColon(choice))
  }

  /** The text before the first colon of a label is exactly the index it was formatted from. */
  lemma BeforeFirstColonOfLabel(i: nat, name: string)
    ensures BeforeFirstColon(FormatLabel(i, name)) == NatToString(i)
  {
    var digits := NatToString(i);
    var text := FormatLabel(i, name);
    assert forall k :: 0 <= k < |digits| ==> text[k] == digits[k];
    assert text[|digits|] == ':';
  }

  /** The index read back from a label is the device it names, whatever the name holds, colons included. */
  lemma LabelRoundTrip(i: nat, name: string)
    ensures ParseDeviceId(FormatLabel(i, name)) == Some(i)
  {
    BeforeFirstColonOfLabel(i, name);
    ParseNatToString(i);
  }

  /** The indices below `n` of the devices whose info has the output flag, in increasing order. */
  function OutputIndices(infos: seq<DeviceInfo>, n: nat): (ids: seq<nat>)
    requires n <= |infos|
    ensures forall k :: 0 <= k < |ids| ==> ids[k] < n && infos[ids[k]].isOutput
  {
    if n == 0 then []
    else OutputIndices(infos, n - 1) + (if infos[n - 1].isOutput then [n - 1] else [])
  }

  /** The labels the loop of `refresh_midi_devices` has built after its first `n` rounds. */
  function DeviceLabels(infos: seq<DeviceInfo>, n: nat): (labels: seq<string>)
    requires n <= |infos|
    ensures |labels| == |OutputIndices(infos, n)|
  {
    if n == 0 then []
    else DeviceLabels(infos, n - 1) +
         (if infos[n - 1].isOutput then [FormatLabel(n - 1, infos[n - 1].name)] else [])
  }

  /** Output devices are listed in increasing index order. */
  lemma {:induction false} OutputIndicesIncreasing(infos: seq<DeviceInfo>, n: nat)
    requires n <= |infos|
    ensures forall j, k :: 0 <= j < k < |OutputIndices(infos, n)| ==>
              OutputIndices(infos, n)[j] < OutputIndices(infos, n)[k]
  {
    if n > 0 {
      OutputIndicesIncreasing(infos, n - 1);
    }
  }

  /** Every device below `n` with the output flag is listed. */
  lemma {:induction false} OutputIndicesComplete(infos: seq<DeviceInfo>, n: nat, i: nat)
    requires i < n <= |infos| && infos[i].isOutput
    ensures i in OutputIndices(infos, n)
  {
    if i < n - 1 {
      OutputIndicesComplete(infos, n - 1, i);
    }
  }

  /** Label `k` of the list is the label of the `k`-th output device. */
  lemma {:induction false} DeviceLabelsAt(infos: seq<DeviceInfo>, n: nat)
    requires n <= |infos|
    ensures forall k :: 0 <= k < |DeviceLabels(infos, n)| ==>
              DeviceLabels(infos, n)[k] ==
              FormatLabel(OutputIndices(infos, n)[k], infos[OutputIndices(infos, n)[k]].name)
  {
    if n > 0 {
      DeviceLabelsAt(infos, n - 1);
    }
  }

  /**
    Selecting any listed label opens the output device it was built from: the index read back
    from label `k` is the `k`-th output device.
   */
  lemma ListedLabelsNameTheirDevice(infos: seq<DeviceInfo>, k: nat)
    requires k < |DeviceLabels(infos, |infos|)|
    ensures ParseDeviceId(DeviceLabels(infos, |infos|)[k]) == Some(OutputIndices(infos, |infos|)[k])
    ensures infos[OutputIndices(infos, |infos|)[k]].isOutput
  {
    DeviceLabelsAt(infos, |infos|);
    var i := OutputIndices(infos, |infos|)[k];
    LabelRoundTrip(i, infos[i].name);
  }

  /**
    The status line: `Ready` is only the text the window starts with; the other three are what
    `on_midi_device_change` leaves.
   */
  datatype Status = Ready | Connected(choice: string) | NoDeviceSelected | ConnectionFailed

  /** The port `on_midi_device_change` holds after `self.midi_out.close()`. */
  function Close(out: Option<Port>): (r: Option<Port>)
    ensures !Writable(r)
    ensures r.Some? <==> out.Some?
  {
    if out.Some? then Some(out.value.(isOpen := false)) else None
  }

  /** The port and status after a device change. */
  datatype Selection = Selection(out: Option<Port>, status: Status)

  /**
    `on_midi_device_change` for the selected text `choice`, where `opens` says whether
    `pygame.midi.Output(device_id)` succeeds. The held port is closed first; an empty selection
    drops it; a label whose prefix is not a number, or a device that fails to open, leaves the
    closed port in place and reports the failure.
   */
  function SelectOutput(out: Option<Port>, choice: string, opens: bool): (r: Selection)
    ensures Writable(r.out) <==> choice != "" && ParseDeviceId(choice).Some? && opens
    ensures Writable(r.out) ==> r.out.value.device == ParseDeviceId(choice).value && r.status == Connected(choice)
    ensures !Writable(r.out) ==> r.out == (if choice == "" then None else Close(out))
    ensures choice == "" <==> r.status == NoDeviceSelected
    ensures choice != "" && !Writable(r.out) ==> r.status == ConnectionFailed
  {
    var closed := Close(out);
    if choice == "" then Selection(None, NoDeviceSelected)
    else match ParseDeviceId(choice)
      case None => Selection(closed, ConnectionFailed)
      case Some(id) =>
        if opens then Selection(Some(Port(id, true)), Connected(choice))
        else Selection(closed, ConnectionFailed)
  }

  /** Choosing a listed label with a device that opens connects to exactly that output device. */
  lemma SelectListedDevice(out: Option<Port>, infos: seq<DeviceInfo>, k: nat)
    requires k < |DeviceLabels(infos, |infos|)|
    ensures var r := SelectOutput(out, DeviceLabels(infos, |infos|)[k], true);
            Writable(r.out) && r.out.value.device == OutputIndices(infos, |infos|)[k]
  {
    ListedLabelsNameTheirDevice(infos, k);
    DeviceLabelsAt(infos, |infos|);
  }
}
