/**
  The XY pad as a state machine: the drag flag, the two current values, the CC numbers and
  channel they are sent with, the output port and the log of messages the port received.

  Two states, Idle and Dragging (`dragging`). A press starts a drag and maps the press point at
  once; a motion maps the pointer only while dragging; a release ends the drag and changes
  nothing else. Every mapping sends the X and the Y Control Change.
 */
module Pad {
  import opened Wrappers
  import opened Mapping
  import opened Midi

  datatype PadState = PadState(
    dragging: bool,
    xValue: int,
    yValue: int,
    xCc: int,
    yCc: int,
    channel: int,
    out: Option<Port>,
    sent: seq<Message>)

  /** The pointer events bound on the canvas, with the canvas size Tk reports when each arrives. */
  datatype PointerEvent =
    | Press(x: int, y: int, width: int, height: int)     // <Button-1>
    | Motion(x: int, y: int, width: int, height: int)    // <B1-Motion>
    | Release                                            // <ButtonRelease-1>

  /** A laid-out canvas has a positive size; `update_position` divides by it. */
  predicate LaidOut(e: PointerEvent) {
    e.Release? || (e.width > 0 && e.height > 0)
  }

  /** What the controller keeps true: 7-bit values and CC numbers, a 4-bit channel, well-formed messages. */
  predicate Inv(s: PadState) {
    0 <= s.xValue <= MidiMax && 0 <= s.yValue <= MidiMax &&
    0 <= s.xCc <= MidiMax && 0 <= s.yCc <= MidiMax &&
    0 <= s.channel < 16 &&
    forall m :: m in s.sent ==> IsControlChange(m)
  }

  /** `update_position` followed by `send_midi_cc`. */
  function Track(s: PadState, x: int, y: int, width: int, height: int): (r: PadState)
    requires width > 0 && height > 0 && 0 <= s.channel < 16
    ensures r.dragging == s.dragging && r.channel == s.channel && r.out == s.out
    ensures r.xCc == s.xCc && r.yCc == s.yCc
    ensures r.xValue == AxisX(x, width) && r.yValue == AxisY(y, height)
  {
    var xv := AxisX(x, width);
    var yv := AxisY(y, height);
    s.(xValue := xv, yValue := yv, sent := s.sent + Emit(s.out, s.channel, s.xCc, xv, s.yCc, yv))
  }

  /** The handlers `on_mouse_down`, `on_mouse_drag` and `on_mouse_up`. */
  function Step(s: PadState, e: PointerEvent): (r: PadState)
    requires LaidOut(e) && 0 <= s.channel < 16
    ensures r.channel == s.channel
  {
    match e
    case Press(x, y, w, h) => Track(s.(dragging := true), x, y, w, h)
    case Motion(x, y, w, h) => if s.dragging then Track(s, x, y, w, h) else s
    case Release => s.(dragging := false)
  }

  /** A sequence of pointer events handled in order. */
  function Run(s: PadState, es: seq<PointerEvent>): PadState
    requires forall e :: e in es ==> LaidOut(e)
    requires 0 <= s.channel < 16
    decreases |es|
  {
    if es == [] then s else Run(Step(s, es[0]), es[1..])
  }

  /** A mapping keeps the invariant and delivers, when the port is writable, the new values on the current CC numbers. */
  lemma TrackReports(s: PadState, x: int, y: int, width: int, height: int)
    requires width > 0 && height > 0 && Inv(s)
    ensures var r := Track(s, x, y, width, height);
            Inv(r) &&
            (!Writable(s.out) ==> r.sent == s.sent) &&
            (Writable(s.out) ==>
               |r.sent| == |s.sent| + 2 && r.sent[..|s.sent|] == s.sent &&
               DecodeControlChange(r.sent[|s.sent|]) == Some(ControlChangeFields(s.channel, s.xCc, r.xValue)) &&
               DecodeControlChange(r.sent[|s.sent| + 1]) == Some(ControlChangeFields(s.channel, s.yCc, r.yValue)))
  {
    var xv, yv := AxisX(x, width), AxisY(y, height);
    var ms := Emit(s.out, s.channel, s.xCc, xv, s.yCc, yv);
    EmitWellFormed(s.out, s.channel, s.xCc, xv, s.yCc, yv);
    if Writable(s.out) {
      EmitDecodes(s.out, s.channel, s.xCc, xv, s.yCc, yv);
      var r := Track(s, x, y, width, height);
      assert r.sent[|s.sent|] == ms[0] && r.sent[|s.sent| + 1] == ms[1];
    }
  }

  lemma StepPreservesInv(s: PadState, e: PointerEvent)
    requires LaidOut(e) && Inv(s)
    ensures Inv(Step(s, e))
  {
    match e
    case Press(x, y, w, h) => TrackReports(s.(dragging := true), x, y, w, h);
    case Motion(x, y, w, h) => if s.dragging { TrackReports(s, x, y, w, h); }
    case Release =>
  }

  /** Any sequence of pointer events keeps values, CC numbers and channel in range and sends only well-formed messages. */
  lemma {:induction false} RunPreservesInv(s: PadState, es: seq<PointerEvent>)
    requires forall e :: e in es ==> LaidOut(e)
    requires Inv(s)
    ensures Inv(Run(s, es))
    decreases |es|
  {
    if es != [] {
      StepPreservesInv(s, es[0]);
      RunPreservesInv(Step(s, es[0]), es[1..]);
    }
  }

  /** A press starts a drag and maps the press point at once. */
  lemma PressStartsDrag(s: PadState, x: int, y: int, width: int, height: int)
    requires width > 0 && height > 0 && 0 <= s.channel < 16
    ensures var r := Step(s, Press(x, y, width, height));
            r.dragging && r.xValue == AxisX(x, width) && r.yValue == AxisY(y, height)
  {
  }

  /** A release ends the drag and changes nothing else: no values, no messages. */
  lemma ReleaseOnlyEndsDrag(s: PadState)
    requires 0 <= s.channel < 16
    ensures Step(s, Release) == s.(dragging := false)
  {
  }

  /** A motion while idle is ignored; while dragging it maps the pointer. */
  lemma MotionGatedByDrag(s: PadState, x: int, y: int, width: int, height: int)
    requires width > 0 && height > 0 && 0 <= s.channel < 16
    ensures !s.dragging ==> Step(s, Motion(x, y, width, height)) == s
    ensures s.dragging ==> Step(s, Motion(x, y, width, height)) == Track(s, x, y, width, height)
  {
  }

  /** Events that are not presses. */
  predicate NoPress(es: seq<PointerEvent>) {
    forall e :: e in es ==> !e.Press?
  }

  /** Without a press, an idle pad stays exactly as it is: no value changes and nothing is sent. */
  lemma {:induction false} IdleIgnoresAllButPress(s: PadState, es: seq<PointerEvent>)
    requires forall e :: e in es ==> LaidOut(e)
    requires 0 <= s.channel < 16 && !s.dragging && NoPress(es)
    ensures Run(s, es) == s
    decreases |es|
  {
    if es != [] {
      assert es[0] in es;
      assert Step(s, es[0]) == s;
      assert forall e :: e in es[1..] ==> e in es;
      IdleIgnoresAllButPress(s, es[1..]);
    }
  }

  /** After a release, further motions change nothing until the next press. */
  lemma ReleaseThenMotionsInert(s: PadState, es: seq<PointerEvent>)
    requires forall e :: e in es ==> LaidOut(e)
    requires 0 <= s.channel < 16 && NoPress(es)
    ensures Run(s, [Release] + es) == s.(dragging := false)
  {
    var rest := ([Release] + es)[1..];
    assert rest == es;
    IdleIgnoresAllButPress(s.(dragging := false), es);
  }

  /** The log only grows: pointer events append messages and never drop or rewrite one. */
  lemma {:induction false} RunExtendsLog(s: PadState, es: seq<PointerEvent>)
    requires forall e :: e in es ==> LaidOut(e)
    requires 0 <= s.channel < 16
    ensures |s.sent| <= |Run(s, es).sent| && Run(s, es).sent[..|s.sent|] == s.sent
    decreases |es|
  {
    if es != [] {
      var t := Step(s, es[0]);
      assert |s.sent| <= |t.sent| && t.sent[..|s.sent|] == s.sent;
      assert forall e :: e in es[1..] ==> e in es;
      RunExtendsLog(t, es[1..]);
      var r := Run(t, es[1..]);
      assert r.sent[..|s.sent|] == r.sent[..|t.sent|][..|s.sent|];
    }
  }

  /** How many of the events map the pointer: every press, and every motion during a drag. */
  function Mappings(dragging: bool, es: seq<PointerEvent>): nat
    decreases |es|
  {
    if es == [] then 0
    else match es[0]
      case Press(_, _, _, _) => 1 + Mappings(true, es[1..])
      case Motion(_, _, _, _) => (if dragging then 1 else 0) + Mappings(dragging, es[1..])
      case Release => Mappings(false, es[1..])
  }

  /** With an open port, every mapping delivers exactly two messages; without one, nothing is delivered. */
  lemma {:induction false} RunMessageCount(s: PadState, es: seq<PointerEvent>)
    requires forall e :: e in es ==> LaidOut(e)
    requires 0 <= s.channel < 16
    ensures Run(s, es).out == s.out
    ensures |Run(s, es).sent| == |s.sent| + (if Writable(s.out) then 2 * Mappings(s.dragging, es) else 0)
    decreases |es|
  {
    if es != [] {
      var t := Step(s, es[0]);
      assert forall e :: e in es[1..] ==> e in es;
      RunMessageCount(t, es[1..]);
    }
  }
}
