# Output manager of the OWL weed sprayer, in Dafny

The output manager turns detection events into actions on hardware. It
covers two parts.

- **Relays.** Each detection becomes a job on a per-channel queue that holds
  at most five jobs and drops the oldest when full. A consumer per channel
  drains its queue. Before the first job of a run it waits that job's delay
  and switches the relay on. For every job it keeps the relay on for
  whatever is left of the job's duration. When the queue is empty it
  switches the relay off. The relay board is a dictionary of
  relay devices plus a buzzer.
- **Status indicators.** There are three kinds:
  - a headless one, which only tracks the drive-full flag;
  - a two-LED one, with a record LED and a storage LED that blinks faster as
    the drive fills;
  - a single-LED one, driven by a six-state machine (idle, recording,
    detecting, notification, recording-and-detecting, error).

  All three poll disk usage and raise error codes. An error starts
  a background loop when none is alive. The single-LED indicator's loop flashes the
  current code on its LED; the other two run the base loop, which only
  sleeps.

Files:

- `devices.dfy` (`Devices`): the calls made into LED, relay and buzzer
  drivers. These are recorded as events in logs.
- `error_flash.dfy` (`ErrorFlash`): the error-code bookkeeping, and the
  guarantee that at most one flashing loop is alive.
- `storage.dfy` (`Storage`): disk usage sorted into the 90/85/80/75/50 %
  buckets, and the blink rates of the two-LED indicator.
- `indicator_state.dfy` (`IndicatorState`): the six-state machine as a pure
  transition function, with its invariants.
- `status_indicators.dfy` (`StatusIndicators`): the three indicator
  classes. Their fields change in place. Each method is proved against the
  pure functions above.
- `relay_control.dfy` (`RelayBoard`): the relay board class. Its device
  dictionary is a map plus the key order.
- `relay_controller.dfy` (`Relays`): the job queues, the consumer's draining
  loop, its timing specification, and the controller class.

Conventions:

- Times are exact `real` seconds.
- The clock is a parameter, and it moves forward only by what the consumer
  sleeps.
- Disk usage is a pair of naturals, and thresholds are compared exactly:
  `100*used >= p*total`.

## Model

| member | source | states |
|---|---|---|
| ErrorFlash.RaiseError | owl/utils/output_manager_avmodif.py:162-166 | `error(code)` always records the code. It starts a new flashing loop (the started count grows by one) only when none is alive, and keeps the live loop otherwise. A loop started while not running is not alive. |
| ErrorFlash.StopFlashing | owl/utils/output_manager_avmodif.py:231-236 | After the joining `stop()` of the two indicators with LEDs, no flashing loop is alive. The code and the count of loops started are kept. |
| ErrorFlash.OneLoopWhileRunning | owl/utils/output_manager_avmodif.py:162-172 | Over any non-empty run of `error` calls, the last code wins. While running, at most one loop is started, and none if one was alive. After stop, each call starts a loop that is dead at once. |
| ErrorFlash.ErrorAfterStop | owl/utils/output_manager_avmodif.py:162-182 | An `error` after `stop()` records its code but leaves no loop alive. |
| ErrorFlash.ErrorRound | owl/utils/output_manager_avmodif.py:331-336 | One round of the single-LED flashing loop is exactly `code` pulses of 0.2 s, and none for a code below one. |
| Storage.LevelOf | owl/utils/output_manager_avmodif.py:204-218 | The bucket of a sample is the highest threshold it reaches. Each bucket holds exactly when its threshold is reached and the next one up is not. |
| Storage.LevelMonotone | owl/utils/output_manager_avmodif.py:204-218 | A fuller drive never falls into a lower bucket. |
| Storage.AtLeastMonotone | owl/utils/output_manager_avmodif.py:204-218 | A fuller drive reaches every threshold that an emptier one reaches. |
| Storage.SlowerWhenEmptier | owl/utils/output_manager_avmodif.py:209-218 | A lower bucket's storage blink has a period at least as long as a higher bucket's, and strictly longer when the buckets differ. |
| Storage.FullerBlinksFaster | owl/utils/output_manager_avmodif.py:204-218 | Over two samples below 90 %, the fuller drive's storage LED never blinks slower. |
| IndicatorState.FromFlags | owl/utils/output_manager_avmodif.py:275-282 | The state picked from the flags is never Error or Notification. It shows detection exactly when detection is enabled, and recording exactly when recording is enabled. |
| IndicatorState.Recompute | owl/utils/output_manager_avmodif.py:273-282 | `_update_state` keeps the flags, leaves Error unchanged and makes the state consistent with the flags. |
| IndicatorState.Apply | owl/utils/output_manager_avmodif.py:273-329 | One call keeps the state consistent. It never leaves Error. The state becomes Error exactly when it was Error already or the call is `error`. |
| IndicatorState.ErrorIsSticky | owl/utils/output_manager_avmodif.py:273-329 | Once in Error, no sequence of calls leaves it. |
| IndicatorState.ErrorExactlyWhenRaised | owl/utils/output_manager_avmodif.py:273-329 | After a run of calls the state is Error exactly when it was Error before or `error` was called. |
| IndicatorState.FlagsFollowToggles | owl/utils/output_manager_avmodif.py:284-302 | After a run, each flag equals the last value its enable/disable calls set, in any state, including Error. |
| IndicatorState.ConsistentPreserved | owl/utils/output_manager_avmodif.py:273-321 | Between calls, the state is Error or is determined by the two flags. Notification is never left behind. |
| IndicatorState.InitialConsistent | owl/utils/output_manager_avmodif.py:258-262 | A new indicator is idle and consistent. |
| IndicatorState.ToggleOrderIrrelevant | owl/utils/output_manager_avmodif.py:273-302 | Without an error, two runs that reach the same flags reach the same state, whatever order their toggles came in. |
| IndicatorState.PulseGuards | owl/utils/output_manager_avmodif.py:304-312 | In a consistent non-error state, the weed pulse fires exactly when detection is enabled and the image-write pulse exactly when it is not. Neither fires in Error. |
| StatusIndicators.HeadlessStatusIndicator.constructor | owl/utils/output_manager_avmodif.py:125-139 | A new indicator is running, the drive is not full, and there is no error and no loop. |
| StatusIndicators.HeadlessStatusIndicator.Error | owl/utils/output_manager_avmodif.py:162-166 | The flashing state becomes `RaiseError` of the old one. |
| StatusIndicators.HeadlessStatusIndicator.UpdateStorageIndicator | owl/utils/output_manager_avmodif.py:192-194 | The drive-full flag is set at 90 % and never cleared. |
| StatusIndicators.HeadlessStatusIndicator.Update | owl/utils/output_manager_avmodif.py:151-160 | With a save directory, the sample is judged. With saving off, nothing changes. Otherwise error 6 is raised. |
| StatusIndicators.HeadlessStatusIndicator.Stop | owl/utils/output_manager_avmodif.py:178-182 | Running is cleared and no flashing loop is alive. |
| StatusIndicators.UteStatusIndicator.constructor | owl/utils/output_manager_avmodif.py:198-202 | A new indicator is running with both LED logs empty. |
| StatusIndicators.UteStatusIndicator.Error | owl/utils/output_manager_avmodif.py:162-166 | The flashing state becomes `RaiseError` of the old one. |
| StatusIndicators.UteStatusIndicator.UpdateStorageIndicator | owl/utils/output_manager_avmodif.py:204-218 | At 90 %, the drive is full, the storage LED is steady and the record LED is off. Below that, only the storage LED changes: it gets its bucket's blink. |
| StatusIndicators.UteStatusIndicator.Update | owl/utils/output_manager_avmodif.py:151-160 | With a save directory, the sample is judged. Without one, error 6 is raised and the LEDs are untouched. |
| StatusIndicators.UteStatusIndicator.SetupSuccess | owl/utils/output_manager_avmodif.py:220-222 | Both LEDs blink three times. |
| StatusIndicators.UteStatusIndicator.ImageWriteIndicator | owl/utils/output_manager_avmodif.py:224-225 | The record LED pulses once. |
| StatusIndicators.UteStatusIndicator.AlertFlash | owl/utils/output_manager_avmodif.py:227-229 | Both LEDs blink without end. |
| StatusIndicators.UteStatusIndicator.Stop | owl/utils/output_manager_avmodif.py:231-236 | Running is cleared, no flashing loop is alive, and both LEDs are off. |
| StatusIndicators.UteStatusIndicator.Close | owl/utils/output_manager_avmodif.py:238-241 | Stop, then both LED devices are closed. |
| StatusIndicators.AdvancedStatusIndicator.constructor | owl/utils/output_manager_avmodif.py:254-263 | A new indicator is idle with both capabilities off, and consistent. |
| StatusIndicators.AdvancedStatusIndicator.SetupSuccess | owl/utils/output_manager_avmodif.py:270-271 | The LED blinks twice and the state is untouched. |
| StatusIndicators.AdvancedStatusIndicator.UpdateState | owl/utils/output_manager_avmodif.py:273-282 | The state becomes `Recompute` of the old state, so it is consistent with the flags. |
| StatusIndicators.AdvancedStatusIndicator.EnableWeedDetection | owl/utils/output_manager_avmodif.py:284-287 | The state and flags move as `Apply(EnableDetection)` says, and consistency is kept. |
| StatusIndicators.AdvancedStatusIndicator.DisableWeedDetection | owl/utils/output_manager_avmodif.py:289-292 | The state and flags move as `Apply(DisableDetection)` says, and consistency is kept. |
| StatusIndicators.AdvancedStatusIndicator.EnableImageRecording | owl/utils/output_manager_avmodif.py:294-297 | The state and flags move as `Apply(EnableRecording)` says, and consistency is kept. |
| StatusIndicators.AdvancedStatusIndicator.DisableImageRecording | owl/utils/output_manager_avmodif.py:299-302 | The state and flags move as `Apply(DisableRecording)` says, and consistency is kept. |
| StatusIndicators.AdvancedStatusIndicator.ImageWriteIndicator | owl/utils/output_manager_avmodif.py:304-307 | One 0.1 s pulse, exactly when the state is not Error, Detecting or Recording-and-Detecting. Nothing else changes. |
| StatusIndicators.AdvancedStatusIndicator.WeedDetectIndicator | owl/utils/output_manager_avmodif.py:309-312 | One 0.05 s pulse, exactly when detection is shown. Nothing else changes. |
| StatusIndicators.AdvancedStatusIndicator.GenericNotification | owl/utils/output_manager_avmodif.py:314-321 | The LED goes off and blinks twice. The state on return is the state on entry. |
| StatusIndicators.AdvancedStatusIndicator.Error | owl/utils/output_manager_avmodif.py:323-329 | The state becomes Error as `Apply(ErrorCall)` says, and the flashing state follows `RaiseError`. |
| StatusIndicators.AdvancedStatusIndicator.FlashErrorRound | owl/utils/output_manager_avmodif.py:331-336 | While running, one round appends exactly `ErrorRound(code)` to the LED. After stop it appends nothing. |
| StatusIndicators.AdvancedStatusIndicator.UpdateStorageIndicator | owl/utils/output_manager_avmodif.py:265-268 | At 90 %, the drive is full and error 1 is raised, which puts the state in Error. Below 90 %, nothing changes. |
| StatusIndicators.AdvancedStatusIndicator.Update | owl/utils/output_manager_avmodif.py:151-160 | With a save directory, the sample is judged. Without one, error 6 is raised. |
| StatusIndicators.AdvancedStatusIndicator.Stop | owl/utils/output_manager_avmodif.py:338-342 | Running is cleared, no flashing loop is alive, and the LED is off. |
| StatusIndicators.AdvancedStatusIndicator.Close | owl/utils/output_manager_avmodif.py:344-346 | Stop, then the LED device is closed. |
| RelayBoard.Without | owl/utils/output_manager_avmodif.py:401-404 | Popping a key removes exactly that key, keeps the keys distinct, and changes nothing when the key is absent. |
| RelayBoard.RelayControl.constructor | owl/utils/output_manager_avmodif.py:350-376 | One device per configured relay, on its configured pin, in configuration order. |
| RelayBoard.RelayControl.RelayOn | owl/utils/output_manager_avmodif.py:378-382 | A relay on the board is switched on. |
| RelayBoard.RelayControl.RelayOff | owl/utils/output_manager_avmodif.py:384-388 | A relay on the board is switched off. |
| RelayBoard.RelayControl.Beep | owl/utils/output_manager_avmodif.py:390-391 | The buzzer beeps `repeats` times, `duration` on and half of it off. |
| RelayBoard.RelayControl.AllOn | owl/utils/output_manager_avmodif.py:393-395 | Every relay is switched on, in dictionary order. |
| RelayBoard.RelayControl.AllOff | owl/utils/output_manager_avmodif.py:397-399 | Every relay is switched off, in dictionary order. |
| RelayBoard.RelayControl.Remove | owl/utils/output_manager_avmodif.py:401-404 | A known relay is closed and removed. An unknown one changes nothing. The board stays consistent. |
| RelayBoard.RelayControl.Clear | owl/utils/output_manager_avmodif.py:406-408 | Every relay is closed, in dictionary order, and the dictionary ends empty. |
| RelayBoard.RelayControl.Stop | owl/utils/output_manager_avmodif.py:410-411 | Every relay is switched off. |
| RelayBoard.RelayControl.Close | owl/utils/output_manager_avmodif.py:413-417 | All relays off, then all closed and removed, then the buzzer closed. |
| Relays.Enqueue | owl/utils/output_manager_avmodif.py:441 | Appending to a queue keeps the newest five jobs, and the new job is last. |
| Relays.EnqueueCases | owl/utils/output_manager_avmodif.py:441 | With room left the job is appended. When the queue is full, the oldest is evicted and the length stays five. |
| Relays.NewestOfNewest | owl/utils/output_manager_avmodif.py:441 | Trimming to five and then appending and trimming again is the same as trimming once. |
| Relays.EnqueueAllKeepsNewest | owl/utils/output_manager_avmodif.py:453-459 | After any number of `receive` calls, a queue holds the newest five of its old jobs and the arrivals, oldest first. |
| Relays.OnDuration | owl/utils/output_manager_avmodif.py:472 | The on-time is what remains of the duration from the job's event time, clamped at zero. |
| Relays.OnDurationEndsAtDeadline | owl/utils/output_manager_avmodif.py:472-486 | A job past its duration gets no on-time. Sleeping the on-time brings the clock to the later of now and the job's end of duration. |
| Relays.Drain | owl/utils/output_manager_avmodif.py:466-489 | One on-time is computed per job drained. |
| Relays.DrainAccounts | owl/utils/output_manager_avmodif.py:466-489 | A drain gives one non-negative on-time per job. It ends after the first delay (if the relay was off) plus the sum of the on-times, so the relay is held on from its switch-on time for exactly the sum of the on-times. |
| Relays.DrainAdvance | owl/utils/output_manager_avmodif.py:466-489 | Taking the next job moves the draining loop one step along the specification, Drain. |
| Relays.DrainEndsAtLatestDeadline | owl/utils/output_manager_avmodif.py:468-489 | With the relay on, a drain ends at the latest end of duration of its jobs, or at once if all have passed. |
| Relays.LatestDeadlineBounds | owl/utils/output_manager_avmodif.py:468-489 | The latest deadline is at least the start time and every job's end of duration. |
| Relays.DrainFromIdle | owl/utils/output_manager_avmodif.py:466-494 | From idle, the relay goes off no earlier than any drained job's end of duration. The exact end is the latest deadline after the first job's delay. |
| Relays.SingleJobTiming | owl/utils/output_manager_avmodif.py:466-494 | A single 1 s job with a 0.1 s delay, taken at its event time, switches the relay on at 0.1 s, holds it for 1.0 s, and the pass ends at 1.1 s. |
| Relays.RelayController.constructor | owl/utils/output_manager_avmodif.py:421-451 | One empty queue per configured relay, channels numbered from 0, and one confirmation beep of 0.5 s. |
| Relays.RelayController.Receive | owl/utils/output_manager_avmodif.py:453-459 | The job joins its channel's queue as `Enqueue` says. The other queues are unchanged. |
| Relays.RelayController.ConsumerPass | owl/utils/output_manager_avmodif.py:461-497 | One consumer pass takes the switch-on time, the on-times and the end time given by `Drain` of the queue from idle, and empties the queue. A non-empty queue switches the relay on exactly once and off exactly once, and pulses the status LED once. After stop, the pass does nothing. |
| Relays.RelayController.Stop | owl/utils/output_manager_avmodif.py:499-507 | The consumers are told to stop. The board is closed: all off, all closed, buzzer closed. The queues are left alone. |

Notes on the code:

- The single-LED indicator's image-write pulse fires in Idle, Recording and
  Notification. That is exactly when detection is not enabled
  (`PulseGuards`), whether recording is on or not.
- A second `stop()` of the relay controller switches off and closes no
  relay, because the dictionary is already empty, but it closes the buzzer
  again: `Close` always logs `BuzzerClosed`.
- `receive` indexes the queue dictionary directly, so an unknown channel
  raises `KeyError`. `Receive` requires an existing channel.
- The relay controller's `stop` wakes the consumers and closes the board;
  it does not join the consumer threads.
- Queues are numbered 0 to n-1, but the consumer switches the relay with
  that number through the board's dictionary. Channel numbers must
  therefore be relay keys. `ConsumerPass` requires this for the channel it
  drains.

## Left out

- Threads, locks and condition variables:
  - Each consumer is modelled as one sequential pass of its outer loop, run
    alone.
  - A `receive` that arrives while a consumer is sleeping between jobs is
    not modelled, and neither are interleavings of the indicator's calls.
  - The flashing thread is reduced to whether it is alive.
- `time.sleep`, `time.time` and the `wait` timeouts:
  - The clock is a parameter that moves forward exactly by the sleeps.
  - The outer `while running` loops (`run_update`, the flashing loop, the
    consumer's wait) are modelled one round at a time: `Update`,
    `FlashErrorRound` and `ConsumerPass`.
- Floating-point rounding of the disk-usage fraction and of times. The model
  uses exact rationals.
- `shutil.disk_usage` is foreign I/O. Its result is the `used`/`total`
  parameters of `Update`.
- GPIO-busy detection and `OWLAlreadyRunningError` in `RelayControl`, and
  the choice between real and test drivers.
- The logger, the `verbose` printing of `relay_on`/`relay_off`, and
  `RelayVis`. The `vis` flag and its visual updates are not modelled.
- The `location` argument of `receive`, which the code ignores.
- `start_storage_indicator` (it only starts the update thread).
- `close` of the headless indicator (it is its `stop`).
- The base class's `_flash_error_code`, which only sleeps and makes no
  calls, and its `_update_storage_indicator`, which only raises
  `NotImplementedError`.
- The unused `error_queue` of the single-LED indicator.
- The delay of 0.5 s between error pulses and 2 s between rounds.
- StatusIndicators.HeadlessStatusIndicator.Stop: the base `stop()` does not
  join the flashing loop. The loop exits at the next check of `running`
  after at most one round. The model treats it as no longer alive on
  return.
- ErrorFlash.StopFlashing: it states the `stop()` of the two indicators
  with LEDs, which join the flashing loop. The base `stop()` used by the
  headless indicator does not join it, so there the loop can outlive the
  call by up to one round.
- Relays.RelayController.ConsumerPass: it requires the first job's delay
  to be non-negative. In the code a negative delay makes `time.sleep`
  raise `ValueError` outside the `try`, and that channel's consumer thread
  dies for good. It also requires the channel to be a relay key; otherwise
  `relay_on` raises `KeyError` and the thread dies the same way. These
  crashes are not modelled.
- Storage.LevelOf: it requires a non-zero total, and so do the `Update` and
  `UpdateStorageIndicator` methods of all three indicators. In the code a
  zero total raises `ZeroDivisionError` in the storage thread, which ends
  the storage polling. That crash is not modelled.
- RelayBoard.RelayControl.RelayOn: it requires the relay to be on the
  board. In the code an unknown relay raises `KeyError`, which is not
  modelled.
- RelayBoard.RelayControl.RelayOff: it requires the relay to be on the
  board. In the code an unknown relay raises `KeyError`, which is not
  modelled.
- Relays.RelayController.Receive: it requires an existing channel. In the
  code an unknown channel raises `KeyError` to the caller, which is not
  modelled.
- The demonstration program at the end of the file, and the configuration
  module `configOWL.py`.
