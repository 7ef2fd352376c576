/**
  The two validated inputs of the controller: the CC number entry fields (`update_x_cc`,
  `update_y_cc`) and the MIDI channel selector (`on_midi_channel_change`).
 */
module Fields {
  import opened Wrappers
  import opened PyInt

  /** The two error dialogs a CC entry can raise. */
  datatype CcError =
    | NotANumber   // "Please enter a valid number": `int()` raised ValueError
    | OutOfRange   // "CC values must be between 0 and 127"

  /** The outcome of validating a CC entry. */
  datatype CcEdit = Accept(cc: int) | Reject(error: CcError)

  /** `int(text)` checked against `0 <= new_cc <= 127`. */
  function ValidateCc(text: string): (r: CcEdit)
    ensures r.Accept? ==> 0 <= r.cc <= 127 && ParseInt(text) == Some(r.cc)
    ensures r == Reject(NotANumber) <==> ParseInt(text).None?
    ensures r == Reject(OutOfRange) <==> ParseInt(text).Some? && !(0 <= ParseInt(text).value <= 127)
  {
    match ParseInt(text)
    case None => Reject(NotANumber)
    case Some(n) => if 0 <= n <= 127 then Accept(n) else Reject(OutOfRange)
  }

  /** The CC number and entry text after a CC entry is committed. */
  datatype CcField = CcField(cc: int, text: string)

  /**
    Committing a CC entry: an accepted number becomes the CC number and the text is left as
    typed; a rejected one keeps the old number and writes `str(old)` back into the entry.
   */
  function CommitCc(current: int, text: string): (r: CcField)
    ensures ValidateCc(text).Accept? ==> r == CcField(ValidateCc(text).cc, text)
    ensures ValidateCc(text).Reject? ==>
              r.cc == current && r.text == IntToString(current) && ParseInt(r.text) == Some(current)
  {
    match ValidateCc(text)
    case Accept(n) => CcField(n, text)
    case Reject(_) => ParseIntToString(current); CcField(current, IntToString(current))
  }

  /** The text `str(cc)` of every valid CC number is accepted as that number. */
  lemma CcTextAccepted(cc: int)
    requires 0 <= cc <= 127
    ensures ValidateCc(IntToString(cc)) == Accept(cc)
  {
    ParseIntToString(cc);
  }

  /**
    Committing is idempotent: once a value is committed, committing the entry again changes
    neither the CC number nor the text. After a rejection this is because the entry was reset
    to the kept number.
   */
  lemma CommitCcIdempotent(current: int, text: string)
    requires 0 <= current <= 127
    ensures var once := CommitCc(current, text);
            CommitCc(once.cc, once.text) == once
  {
    var once := CommitCc(current, text);
    if ValidateCc(text).Reject? {
      CcTextAccepted(current);
    }
  }

  /** Entry text that is not a whole number in 0..127 never changes the CC number. */
  lemma RejectedEntryKeepsCc(current: int, text: string)
    requires ParseInt(text).None? || ParseInt(text).value < 0 || ParseInt(text).value > 127
    ensures CommitCc(current, text).cc == current
  {
  }

  /** The 1-based channel labels the channel selector offers: "1" .. "16". */
  function ChannelChoice(channel: int): string
    requires 0 <= channel < 16
  {
    NatToString(channel + 1)
  }

  /** The values of the read-only channel selector, in the order it lists them. */
  function ChannelChoices(): (choices: seq<string>)
    ensures |choices| == 16
    ensures forall channel :: 0 <= channel < 16 ==> choices[channel] == ChannelChoice(channel)
  {
    seq(16, channel requires 0 <= channel < 16 => ChannelChoice(channel))
  }

  /**
    `on_midi_channel_change`: an empty selection keeps the channel, a number `k` gives the
    0-based channel `k - 1`, and text that is not a number falls back to channel 0.
   */
  function ChannelFromText(text: string, current: int): (channel: int)
    ensures text == "" ==> channel == current
    ensures text != "" && ParseInt(text).None? ==> channel == 0
    ensures text != "" && ParseInt(text).Some? ==> channel + 1 == ParseInt(text).value
  {
    if text == "" then current
    else match ParseInt(text)
      case None => 0
      case Some(k) => k - 1
  }

  /** Choosing the label of a channel selects that channel: the 1-based display and the 0-based channel agree. */
  lemma ChannelChoiceRoundTrip(channel: int, current: int)
    requires 0 <= channel < 16
    ensures ChannelFromText(ChannelChoice(channel), current) == channel
  {
    ParseNatToString(channel + 1);
  }

  /** Any value of the selector gives a channel in 0..15 whose own label is that value. */
  lemma ChoiceGivesChannel(text: string, current: int)
    requires text in ChannelChoices()
    ensures 0 <= ChannelFromText(text, current) < 16
    ensures text == ChannelChoice(ChannelFromText(text, current))
  {
    var k :| 0 <= k < 16 && ChannelChoices()[k] == text;
    ChannelChoiceRoundTrip(k, current);
  }

  /**
    Every label the selector offers gives a channel in 0..15; distinct channels have distinct
    labels, and distinct labels give distinct channels.
   */
  lemma ChannelChoicesInRange(a: int, b: int, current: int)
    requires 0 <= a < 16 && 0 <= b < 16
    ensures 0 <= ChannelFromText(ChannelChoice(a), current) < 16
    ensures a != b ==> ChannelChoice(a) != ChannelChoice(b)
    ensures ChannelChoice(a) != ChannelChoice(b) ==>
              ChannelFromText(ChannelChoice(a), current) != ChannelFromText(ChannelChoice(b), current)
  {
    ChannelChoiceRoundTrip(a, current);
    ChannelChoiceRoundTrip(b, current);
  }
}
