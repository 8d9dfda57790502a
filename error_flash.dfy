/** The bookkeeping behind `error(code)` on every status indicator: the
    current error code and the background loop that flashes it. Threads are
    not modelled; a loop is represented by whether it is still alive, and the
    number of loops ever started is kept so that "a second error does not
    start a second loop" can be stated. */
module ErrorFlash {
  import opened Devices

  /** The indicator's flashing thread: never created, or created and either
      still alive or finished. */
  datatype FlashThread = NoThread | Thread(alive: bool)

  /** The error code last raised (None before any error), the flashing
      thread, and how many flashing loops have been started so far. */
  datatype FlashLoop = FlashLoop(code: Option<int>, thread: FlashThread, started: nat)

  /** The state of a freshly constructed indicator. */
  const NoError: FlashLoop := FlashLoop(None, NoThread, 0)

  /** A flashing loop exists and is alive. */
  predicate Flashing(f: FlashLoop) {
    f.thread.Thread? && f.thread.alive
  }

  /** `error(code)`: the code is always recorded; a new loop is started only
      when no live loop exists. The loop body runs `while running`, so a loop
      started after `stop()` ends at once and is not alive. */
  function RaiseError(f: FlashLoop, code: int, running: bool): (r: FlashLoop)
    ensures r.code == Some(code)
    ensures Flashing(r) <==> Flashing(f) || running
    ensures Flashing(f) ==> r.thread == f.thread && r.started == f.started
    ensures !Flashing(f) ==> r.started == f.started + 1
  {
    if Flashing(f) then f.(code := Some(code))
    else FlashLoop(Some(code), Thread(running), f.started + 1)
  }

  /** `stop()` of the two indicators with LEDs: once `running` is cleared
      the loop leaves its `while running` and is joined, so no loop is alive
      afterwards; the code is kept. */
  function StopFlashing(f: FlashLoop): (r: FlashLoop)
    ensures !Flashing(r)
    ensures r.code == f.code && r.started == f.started
  {
    f.(thread := if f.thread.Thread? then Thread(false) else NoThread)
  }

  /** Several `error` calls in a row, with `running` fixed. */
  function RaiseAll(f: FlashLoop, codes: seq<int>, running: bool): FlashLoop
    decreases |codes|
  {
    if codes == [] then f else RaiseAll(RaiseError(f, codes[0], running), codes[1..], running)
  }

  /** While the indicator runs, any number of `error` calls start at most
      one flashing loop, none if one is already alive, and the last code
      wins. After `stop()` every call starts a loop that ends at once. */
  lemma {:induction false} OneLoopWhileRunning(f: FlashLoop, codes: seq<int>, running: bool)
    requires codes != []
    ensures RaiseAll(f, codes, running).code == Some(codes[|codes| - 1])
    ensures Flashing(RaiseAll(f, codes, running)) <==> Flashing(f) || running
    ensures running ==> RaiseAll(f, codes, running).started == f.started + (if Flashing(f) then 0 else 1)
    ensures Flashing(f) ==> RaiseAll(f, codes, running).thread == f.thread
    ensures !running && !Flashing(f) ==> RaiseAll(f, codes, running).started == f.started + |codes|
    decreases |codes|
  {
    var g := RaiseError(f, codes[0], running);
    if |codes| > 1 {
      OneLoopWhileRunning(g, codes[1..], running);
      assert codes[1..][|codes[1..]| - 1] == codes[|codes| - 1];
    }
  }

  /** After `stop()`, a later `error` records its code but leaves no loop
      alive. */
  lemma ErrorAfterStop(f: FlashLoop, code: int)
    ensures !Flashing(RaiseError(StopFlashing(f), code, false))
    ensures RaiseError(StopFlashing(f), code, false).code == Some(code)
  {
  }

  /** The LED call made once per flash of the advanced indicator's error
      code: a 0.2 s pulse, one repetition, the driver's default off time. */
  const ErrorPulse: LedCommand := Blink(0.2, None, Some(1))

  /** One round of the advanced indicator's flashing loop: `code` pulses
      (`range(code)` is empty for a code below one). */
  function ErrorRound(code: int): (r: seq<LedCommand>)
    ensures |r| == if code > 0 then code else 0
    ensures forall i :: 0 <= i < |r| ==> r[i] == ErrorPulse
    decreases code
  {
    if code <= 0 then [] else ErrorRound(code - 1) + [ErrorPulse]
  }
}
