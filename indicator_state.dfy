/** The state machine of the single-LED ("advanced") status indicator: six
    states, two capability flags, and what each indicator call does to them.
    Each call is an operation on an `Indicator` value; a run of calls is a
    sequence of operations. The class in StatusIndicators performs the same
    updates in place and is proved to agree with `Apply`. */
module IndicatorState {

  datatype State = Idle | Recording | Detecting | Notification | RecordingAndDetecting | Error

  /** The state chosen by the fixed precedence: both flags, detection
      alone, recording alone, neither. */
  function FromFlags(detecting: bool, recording: bool): (s: State)
    ensures s != Error && s != Notification
    ensures (s == Detecting || s == RecordingAndDetecting) <==> detecting
    ensures (s == Recording || s == RecordingAndDetecting) <==> recording
  {
    if detecting && recording then RecordingAndDetecting
    else if detecting then Detecting
    else if recording then Recording
    else Idle
  }

  /** The visible state with the weed-detection and image-recording flags. */
  datatype Indicator = Indicator(state: State, detecting: bool, recording: bool)

  /** A new indicator: idle, both capabilities off. */
  const Initial: Indicator := Indicator(Idle, false, false)

  /** The calls that can reach the state machine. `ErrorCall` is `error`
      with any code (the code itself is kept elsewhere). */
  datatype Op =
    | EnableDetection
    | DisableDetection
    | EnableRecording
    | DisableRecording
    | ImageWrite
    | WeedDetect
    | Notify
    | ErrorCall

  /** Recomputing the state from the flags, unless the state is Error. */
  function Recompute(i: Indicator): (r: Indicator)
    ensures r.detecting == i.detecting && r.recording == i.recording
    ensures Consistent(r)
    ensures i.state == Error <==> r.state == Error
  {
    if i.state == Error then i else i.(state := FromFlags(i.detecting, i.recording))
  }

  /** The state and flags after one call returns. A notification shows the
      Notification state only while it holds the lock and puts back the state
      it found; the two pulses only blink. */
  function Apply(i: Indicator, op: Op): (r: Indicator)
    ensures Consistent(i) ==> Consistent(r)
    ensures i.state == Error ==> r.state == Error
    ensures r.state == Error <==> i.state == Error || op == ErrorCall
  {
    match op
    case EnableDetection => Recompute(i.(detecting := true))
    case DisableDetection => Recompute(i.(detecting := false))
    case EnableRecording => Recompute(i.(recording := true))
    case DisableRecording => Recompute(i.(recording := false))
    case ImageWrite => i
    case WeedDetect => i
    case Notify => i
    case ErrorCall => i.(state := Error)
  }

  /** The calls of `ops`, one after another. */
  function Run(i: Indicator, ops: seq<Op>): Indicator
    decreases |ops|
  {
    if ops == [] then i else Run(Apply(i, ops[0]), ops[1..])
  }

  /** The state is Error, or it is what the precedence gives for the flags. */
  predicate Consistent(i: Indicator) {
    i.state == Error || i.state == FromFlags(i.detecting, i.recording)
  }

  /** Whether `image_write_indicator` blinks in this state. */
  predicate ImageWritePulses(s: State) {
    s != Error && s != Detecting && s != RecordingAndDetecting
  }

  /** Whether `weed_detect_indicator` blinks in this state. */
  predicate WeedDetectPulses(s: State) {
    s == Detecting || s == RecordingAndDetecting
  }

  /** The detection flag after `ops`: the last detection toggle wins. */
  function DetectingAfter(d: bool, ops: seq<Op>): bool
    decreases |ops|
  {
    if ops == [] then d
    else DetectingAfter(
      match ops[0] case EnableDetection => true case DisableDetection => false case _ => d,
      ops[1..])
  }

  /** The recording flag after `ops`: the last recording toggle wins. */
  function RecordingAfter(r: bool, ops: seq<Op>): bool
    decreases |ops|
  {
    if ops == [] then r
    else RecordingAfter(
      match ops[0] case EnableRecording => true case DisableRecording => false case _ => r,
      ops[1..])
  }

  /** There is no path out of Error: whatever is called afterwards, the
      state stays Error. */
  lemma {:induction false} ErrorIsSticky(i: Indicator, ops: seq<Op>)
    requires i.state == Error
    ensures Run(i, ops).state == Error
    decreases |ops|
  {
    if ops != [] {
      ErrorIsSticky(Apply(i, ops[0]), ops[1..]);
    }
  }

  /** The state is Error after a run exactly when it was Error before or an
      error was raised during the run. */
  lemma {:induction false} ErrorExactlyWhenRaised(i: Indicator, ops: seq<Op>)
    ensures Run(i, ops).state == Error <==> i.state == Error || ErrorCall in ops
    decreases |ops|
  {
    if ops != [] {
      var j := Apply(i, ops[0]);
      ErrorExactlyWhenRaised(j, ops[1..]);
      assert j.state == Error <==> i.state == Error || ops[0] == ErrorCall;
      assert ErrorCall in ops <==> ops[0] == ErrorCall || ErrorCall in ops[1..] by {
        assert ops == [ops[0]] + ops[1..];
      }
    }
  }

  /** Toggles change their flag whatever the state, Error included: the
      flags are the last value each was set to. */
  lemma {:induction false} FlagsFollowToggles(i: Indicator, ops: seq<Op>)
    ensures Run(i, ops).detecting == DetectingAfter(i.detecting, ops)
    ensures Run(i, ops).recording == RecordingAfter(i.recording, ops)
    decreases |ops|
  {
    if ops != [] {
      FlagsFollowToggles(Apply(i, ops[0]), ops[1..]);
    }
  }

  /** Every call keeps the state consistent with the flags, so between
      calls the state is Error or follows from the two flags alone, and
      Notification is never left behind. */
  lemma {:induction false} ConsistentPreserved(i: Indicator, ops: seq<Op>)
    requires Consistent(i)
    ensures Consistent(Run(i, ops))
    ensures Run(i, ops).state != Notification
    decreases |ops|
  {
    if ops != [] {
      ConsistentPreserved(Apply(i, ops[0]), ops[1..]);
    }
  }

  /** A new indicator is consistent. */
  lemma InitialConsistent()
    ensures Consistent(Initial) && Initial.state == Idle
  {
  }

  /** Without an error, the state reached depends only on the flags reached,
      not on the order or number of the toggles that set them. */
  lemma ToggleOrderIrrelevant(i: Indicator, ops1: seq<Op>, ops2: seq<Op>)
    requires Consistent(i) && i.state != Error
    requires ErrorCall !in ops1 && ErrorCall !in ops2
    requires Run(i, ops1).detecting == Run(i, ops2).detecting
    requires Run(i, ops1).recording == Run(i, ops2).recording
    ensures Run(i, ops1).state == Run(i, ops2).state
    ensures Run(i, ops1).state == FromFlags(Run(i, ops1).detecting, Run(i, ops1).recording)
  {
    ConsistentPreserved(i, ops1);
    ConsistentPreserved(i, ops2);
    ErrorExactlyWhenRaised(i, ops1);
    ErrorExactlyWhenRaised(i, ops2);
  }

  /** In a consistent state other than Error the weed-detection pulse
      blinks exactly when detection is enabled, and the image-write pulse
      exactly when it is not (recording plays no part). In Error neither
      blinks. */
  lemma PulseGuards(i: Indicator)
    requires Consistent(i)
    ensures i.state == Error ==> !ImageWritePulses(i.state) && !WeedDetectPulses(i.state)
    ensures i.state != Error ==> (WeedDetectPulses(i.state) <==> i.detecting)
    ensures i.state != Error ==> (ImageWritePulses(i.state) <==> !i.detecting)
  {
  }
}
