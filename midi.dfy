/**
  The Control Change messages `send_midi_cc` writes, and the output port it writes them to.

  A Control Change is a channel voice message of the MIDI 1.0 Detailed Specification: a status
  byte 1011nnnn (0xB0 with the channel number 0..15 in its low four bits) followed by two data
  bytes, the controller number and the controller value, each 0..127.

  The port stands for the `pygame.midi.Output` object: the messages written to an open port are
  appended to the controller's log; a port that has been closed raises on every write, and
  `send_midi_cc` catches and only prints that error, so nothing reaches the log.
 */
module Midi {
  import opened Wrappers

  /** A raw three-byte short message, as passed to `write_short(status, data1, data2)`. */
  datatype Message = Message(status: int, data1: int, data2: int)

  /** The output port the controller holds in `midi_out`. */
  datatype Port = Port(device: int, isOpen: bool)

  const ControlChangeKind: bv8 := 0xB0

  /** `0xB0 | channel`: for a channel below 16 the or-ing adds the channel to 0xB0. */
  function StatusByte(channel: int): (status: int)
    requires 0 <= channel < 16
    ensures status == 0xB0 + channel
  {
    var c := channel as bv8;
    OrLowNibble(c);
    assert c as int == channel;
    assert (ControlChangeKind | c) as int == 0xB0 + channel;
    (ControlChangeKind | c) as int
  }

  /**
    The Control Change message setting `controller` to `value` on `channel`; it is well-formed
    exactly when the controller and the value are 7-bit numbers.
   */
  function ControlChange(channel: int, controller: int, value: int): (m: Message)
    requires 0 <= channel < 16
    ensures IsControlChange(m) <==> 0 <= controller <= 127 && 0 <= value <= 127
  {
    Message(StatusByte(channel), controller, value)
  }

  /** A well-formed Control Change: status 0xB0..0xBF and two 7-bit data bytes. */
  predicate IsControlChange(m: Message) {
    0xB0 <= m.status <= 0xBF && 0 <= m.data1 <= 127 && 0 <= m.data2 <= 127
  }

  /** What a receiver reads from a Control Change. */
  datatype ControlChangeFields = ControlChangeFields(channel: int, controller: int, value: int)

  /** A receiver's reading of a short message: the low nibble of the status is the channel. */
  function DecodeControlChange(m: Message): Option<ControlChangeFields> {
    if IsControlChange(m) then
      Some(ControlChangeFields((m.status as bv8 & 0x0F) as int, m.data1, m.data2))
    else None
  }

  /** On bytes: or-ing a channel below 16 into 0xB0 adds it, and masking the low nibble recovers it. */
  lemma OrLowNibble(c: bv8)
    requires c < 16
    ensures ControlChangeKind | c == ControlChangeKind + c
    ensures (ControlChangeKind | c) & 0x0F == c
  {
  }

  /** The status byte of a channel is a Control Change status carrying that channel. */
  lemma StatusByteCarriesChannel(channel: int)
    requires 0 <= channel < 16
    ensures 0xB0 <= StatusByte(channel) <= 0xBF
    ensures StatusByte(channel) == 0xB0 + channel
    ensures (StatusByte(channel) as bv8 & 0x0F) as int == channel
  {
    var c := channel as bv8;
    OrLowNibble(c);
    assert StatusByte(channel) as bv8 == ControlChangeKind | c;
  }

  /** A receiver decodes a Control Change back into the channel, controller and value sent. */
  lemma DecodeControlChangeRoundTrip(channel: int, controller: int, value: int)
    requires 0 <= channel < 16 && 0 <= controller <= 127 && 0 <= value <= 127
    ensures IsControlChange(ControlChange(channel, controller, value))
    ensures DecodeControlChange(ControlChange(channel, controller, value))
            == Some(ControlChangeFields(channel, controller, value))
  {
    StatusByteCarriesChannel(channel);
  }

  /** A port accepts writes only while it is open. */
  predicate Writable(out: Option<Port>) {
    out.Some? && out.value.isOpen
  }

  /**
    The messages one `send_midi_cc` call delivers: nothing without a writable port, otherwise the
    X message and then the Y message, on the same channel.
   */
  function Emit(out: Option<Port>, channel: int, xCc: int, xValue: int, yCc: int, yValue: int): (ms: seq<Message>)
    requires 0 <= channel < 16
    ensures !Writable(out) ==> ms == []
    ensures Writable(out) ==> |ms| == 2 && ms[0].status == ms[1].status
  {
    if Writable(out) then [ControlChange(channel, xCc, xValue), ControlChange(channel, yCc, yValue)] else []
  }

  /** With valid CC numbers and values, both messages are well-formed and decode to what was sent. */
  lemma EmitDecodes(out: Option<Port>, channel: int, xCc: int, xValue: int, yCc: int, yValue: int)
    requires 0 <= channel < 16
    requires 0 <= xCc <= 127 && 0 <= xValue <= 127 && 0 <= yCc <= 127 && 0 <= yValue <= 127
    requires Writable(out)
    ensures var ms := Emit(out, channel, xCc, xValue, yCc, yValue);
            DecodeControlChange(ms[0]) == Some(ControlChangeFields(channel, xCc, xValue)) &&
            DecodeControlChange(ms[1]) == Some(ControlChangeFields(channel, yCc, yValue))
  {
    DecodeControlChangeRoundTrip(channel, xCc, xValue);
    DecodeControlChangeRoundTrip(channel, yCc, yValue);
  }

  /** Everything one send delivers is a well-formed Control Change. */
  lemma EmitWellFormed(out: Option<Port>, channel: int, xCc: int, xValue: int, yCc: int, yValue: int)
    requires 0 <= channel < 16
    requires 0 <= xCc <= 127 && 0 <= xValue <= 127 && 0 <= yCc <= 127 && 0 <= yValue <= 127
    ensures forall m :: m in Emit(out, channel, xCc, xValue, yCc, yValue) ==> IsControlChange(m)
  {
    StatusByteCarriesChannel(channel);
  }
}
