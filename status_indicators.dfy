/** The three status indicators of the output manager, as objects whose
    fields change in place: the headless one (no LEDs), the two-LED one
    (record and storage LEDs) and the single-LED one with the state machine
    of IndicatorState. The LEDs are logs of the commands sent to them. The
    shared base class is written out in each class: `Error` and `Update`
    have the same body in all three, through the shared functions
    ErrorFlash.RaiseError and Storage.LevelOf. */
module StatusIndicators {
  import opened Devices
  import opened ErrorFlash
  import opened Storage
  import opened IndicatorState

  /** The indicator used when there are no LEDs: it only tracks the
      drive-full flag and the error code. */
  class HeadlessStatusIndicator {
    const hasSaveDirectory: bool
    const noSave: bool
    var driveFull: bool
    var flash: FlashLoop
    var running: bool

    constructor (hasSaveDirectory: bool, noSave: bool)
      ensures this.hasSaveDirectory == hasSaveDirectory && this.noSave == noSave
      ensures !driveFull && flash == NoError && running
    {
      this.hasSaveDirectory := hasSaveDirectory;
      this.noSave := noSave;
      driveFull := false;
      flash := NoError;
      running := true;
    }

    /** `error(code)` of the base class. */
    method Error(code: int)
      modifies this`flash
      ensures flash == RaiseError(old(flash), code, running)
    {
      flash := RaiseError(flash, code, running);
    }

    /** At 90% full or more the drive-full flag is set; it is never
        cleared. */
    method UpdateStorageIndicator(used: nat, total: nat)
      requires total > 0
      modifies this`driveFull
      ensures driveFull == (old(driveFull) || LevelOf(used, total) == Full)
    {
      if AtLeast(used, total, 90) {
        driveFull := true;
      }
    }

    /** One poll of the storage loop: with a save directory, the sample
        `used`/`total` is judged; with saving switched off nothing happens;
        otherwise error 6 is raised. */
    method Update(used: nat, total: nat)
      requires hasSaveDirectory ==> total > 0
      modifies this`driveFull, this`flash
      ensures hasSaveDirectory ==> flash == old(flash) && driveFull == (old(driveFull) || LevelOf(used, total) == Full)
      ensures !hasSaveDirectory && noSave ==> flash == old(flash) && driveFull == old(driveFull)
      ensures !hasSaveDirectory && !noSave ==> flash == RaiseError(old(flash), 6, running) && driveFull == old(driveFull)
    {
      if hasSaveDirectory {
        UpdateStorageIndicator(used, total);
      } else if noSave {
      } else {
        Error(6);
      }
    }

    /** `stop()`: the running flag is cleared, so the flashing loop ends
        within one round; it is not joined, and is taken as ended here. */
    method Stop()
      modifies this`running, this`flash
      ensures !running && flash == StopFlashing(old(flash))
    {
      running := false;
      flash := StopFlashing(flash);
    }
  }

  /** The indicator with a record LED and a storage LED. */
  class UteStatusIndicator {
    const hasSaveDirectory: bool
    var driveFull: bool
    var flash: FlashLoop
    var running: bool
    var recordLed: seq<LedCommand>
    var storageLed: seq<LedCommand>

    constructor (hasSaveDirectory: bool)
      ensures this.hasSaveDirectory == hasSaveDirectory
      ensures !driveFull && flash == NoError && running
      ensures recordLed == [] && storageLed == []
    {
      this.hasSaveDirectory := hasSaveDirectory;
      driveFull := false;
      flash := NoError;
      running := true;
      recordLed, storageLed := [], [];
    }

    /** `error(code)` of the base class. */
    method Error(code: int)
      modifies this`flash
      ensures flash == RaiseError(old(flash), code, running)
    {
      flash := RaiseError(flash, code, running);
    }

    /** At 90% full the storage LED is lit steadily and the record LED put
        out; below that the storage LED blinks at the rate of its bucket. */
    method UpdateStorageIndicator(used: nat, total: nat)
      requires total > 0
      modifies this`driveFull, this`recordLed, this`storageLed
      ensures LevelOf(used, total) == Full ==>
        driveFull && storageLed == old(storageLed) + [LedOn] && recordLed == old(recordLed) + [LedOff]
      ensures LevelOf(used, total) != Full ==>
        driveFull == old(driveFull) && recordLed == old(recordLed) &&
        storageLed == old(storageLed) + [StorageBlink(LevelOf(used, total))]
    {
      if AtLeast(used, total, 90) {
        driveFull := true;
        storageLed := storageLed + [LedOn];
        recordLed := recordLed + [LedOff];
      } else if AtLeast(used, total, 85) {
        storageLed := storageLed + [Blink(0.2, Some(0.2), None)];
      } else if AtLeast(used, total, 80) {
        storageLed := storageLed + [Blink(0.5, Some(0.5), None)];
      } else if AtLeast(used, total, 75) {
        storageLed := storageLed + [Blink(0.5, Some(1.5), None)];
      } else if AtLeast(used, total, 50) {
        storageLed := storageLed + [Blink(0.5, Some(3.0), None)];
      } else {
        storageLed := storageLed + [Blink(0.5, Some(4.5), None)];
      }
    }

    /** One poll of the storage loop; saving cannot be switched off on this
        indicator, so without a save directory error 6 is raised. */
    method Update(used: nat, total: nat)
      requires hasSaveDirectory ==> total > 0
      modifies this`driveFull, this`flash, this`recordLed, this`storageLed
      ensures hasSaveDirectory ==> flash == old(flash)
      ensures hasSaveDirectory && LevelOf(used, total) == Full ==>
        driveFull && storageLed == old(storageLed) + [LedOn] && recordLed == old(recordLed) + [LedOff]
      ensures hasSaveDirectory && LevelOf(used, total) != Full ==>
        driveFull == old(driveFull) && recordLed == old(recordLed) &&
        storageLed == old(storageLed) + [StorageBlink(LevelOf(used, total))]
      ensures !hasSaveDirectory ==>
        flash == RaiseError(old(flash), 6, running) && driveFull == old(driveFull) &&
        recordLed == old(recordLed) && storageLed == old(storageLed)
    {
      if hasSaveDirectory {
        UpdateStorageIndicator(used, total);
      } else {
        Error(6);
      }
    }

    /** Both LEDs blink three times together once setup has succeeded. */
    method SetupSuccess()
      modifies this`recordLed, this`storageLed
      ensures storageLed == old(storageLed) + [Blink(0.1, Some(0.2), Some(3))]
      ensures recordLed == old(recordLed) + [Blink(0.1, Some(0.2), Some(3))]
    {
      storageLed := storageLed + [Blink(0.1, Some(0.2), Some(3))];
      recordLed := recordLed + [Blink(0.1, Some(0.2), Some(3))];
    }

    /** One short pulse of the record LED per written image, in any state;
        the off time is left to the driver. */
    method ImageWriteIndicator()
      modifies this`recordLed
      ensures recordLed == old(recordLed) + [Blink(0.1, None, Some(1))]
    {
      recordLed := recordLed + [Blink(0.1, None, Some(1))];
    }

    /** Both LEDs blink without end, half a second on and off. */
    method AlertFlash()
      modifies this`recordLed, this`storageLed
      ensures storageLed == old(storageLed) + [Blink(0.5, Some(0.5), None)]
      ensures recordLed == old(recordLed) + [Blink(0.5, Some(0.5), None)]
    {
      storageLed := storageLed + [Blink(0.5, Some(0.5), None)];
      recordLed := recordLed + [Blink(0.5, Some(0.5), None)];
    }

    /** `stop()`: running cleared, the flashing loop joined, both LEDs out. */
    method Stop()
      modifies this`running, this`flash, this`recordLed, this`storageLed
      ensures !running && flash == StopFlashing(old(flash))
      ensures storageLed == old(storageLed) + [LedOff] && recordLed == old(recordLed) + [LedOff]
    {
      running := false;
      flash := StopFlashing(flash);
      storageLed := storageLed + [LedOff];
      recordLed := recordLed + [LedOff];
    }

    /** `close()`: stop, then both LED devices released. */
    method Close()
      modifies this`running, this`flash, this`recordLed, this`storageLed
      ensures !running && flash == StopFlashing(old(flash))
      ensures storageLed == old(storageLed) + [LedOff, LedClosed]
      ensures recordLed == old(recordLed) + [LedOff, LedClosed]
    {
      Stop();
      storageLed := storageLed + [LedClosed];
      recordLed := recordLed + [LedClosed];
    }
  }

  /** The single-LED indicator with the six-state machine. */
  class AdvancedStatusIndicator {
    const hasSaveDirectory: bool
    var state: State
    var weedDetectionEnabled: bool
    var imageRecordingEnabled: bool
    var driveFull: bool
    var flash: FlashLoop
    var running: bool
    var led: seq<LedCommand>

    /** The state and the two flags, as a value of the state machine. */
    function Snapshot(): Indicator
      reads this
    {
      Indicator(state, weedDetectionEnabled, imageRecordingEnabled)
    }

    /** Between calls the state agrees with the flags unless it is Error. */
    ghost predicate Valid()
      reads this
    {
      Consistent(Snapshot())
    }

    constructor (hasSaveDirectory: bool)
      ensures Valid()
      ensures this.hasSaveDirectory == hasSaveDirectory
      ensures Snapshot() == Initial
      ensures !driveFull && flash == NoError && running && led == []
    {
      this.hasSaveDirectory := hasSaveDirectory;
      state := Idle;
      weedDetectionEnabled, imageRecordingEnabled := false, false;
      driveFull := false;
      flash := NoError;
      running := true;
      led := [];
    }

    /** Two blinks once setup has succeeded; the state is untouched. */
    method SetupSuccess()
      modifies this`led
      ensures led == old(led) + [Blink(0.1, Some(0.1), Some(2))]
    {
      led := led + [Blink(0.1, Some(0.1), Some(2))];
    }

    /** `_update_state`: recompute the state from the flags unless it is
        Error. */
    method UpdateState()
      modifies this`state
      ensures Snapshot() == Recompute(old(Snapshot()))
      ensures Consistent(Snapshot())
    {
      if state != State.Error {
        if weedDetectionEnabled && imageRecordingEnabled {
          state := RecordingAndDetecting;
        } else if weedDetectionEnabled {
          state := Detecting;
        } else if imageRecordingEnabled {
          state := Recording;
        } else {
          state := Idle;
        }
      }
    }

    method EnableWeedDetection()
      modifies this`state, this`weedDetectionEnabled
      ensures Valid()
      ensures Snapshot() == Apply(old(Snapshot()), EnableDetection)
    {
      weedDetectionEnabled := true;
      UpdateState();
    }

    method DisableWeedDetection()
      modifies this`state, this`weedDetectionEnabled
      ensures Valid()
      ensures Snapshot() == Apply(old(Snapshot()), DisableDetection)
    {
      weedDetectionEnabled := false;
      UpdateState();
    }

    method EnableImageRecording()
      modifies this`state, this`imageRecordingEnabled
      ensures Valid()
      ensures Snapshot() == Apply(old(Snapshot()), EnableRecording)
    {
      imageRecordingEnabled := true;
      UpdateState();
    }

    method DisableImageRecording()
      modifies this`state, this`imageRecordingEnabled
      ensures Valid()
      ensures Snapshot() == Apply(old(Snapshot()), DisableRecording)
    {
      imageRecordingEnabled := false;
      UpdateState();
    }

    /** A short pulse for a written image, except in Error or while
        detection is shown. */
    method ImageWriteIndicator()
      modifies this`led
      ensures led == old(led) + if ImageWritePulses(state) then [Blink(0.1, Some(0.1), Some(1))] else []
    {
      if state != State.Error && state != Detecting && state != RecordingAndDetecting {
        led := led + [Blink(0.1, Some(0.1), Some(1))];
      }
    }

    /** A shorter pulse for a detected weed, only while detection is
        shown. */
    method WeedDetectIndicator()
      modifies this`led
      ensures led == old(led) + if WeedDetectPulses(state) then [Blink(0.05, Some(0.05), Some(1))] else []
    {
      if state == Detecting || state == RecordingAndDetecting {
        led := led + [Blink(0.05, Some(0.05), Some(1))];
      }
    }

    /** Two blinks in the foreground. The state reads Notification only
        inside the call; the state found on entry is put back. */
    method GenericNotification()
      modifies this`state, this`led
      ensures state == old(state)
      ensures led == old(led) + [LedOff, Blink(0.1, Some(0.1), Some(2))]
    {
      var initState := state;
      state := Notification;
      led := led + [LedOff];
      led := led + [Blink(0.1, Some(0.1), Some(2))];
      state := initState;
    }

    /** `error(code)`: the code is recorded, the state becomes Error, and a
        flashing loop is started if none is alive. */
    method Error(code: int)
      modifies this`flash, this`state
      ensures Valid()
      ensures Snapshot() == Apply(old(Snapshot()), ErrorCall)
      ensures flash == RaiseError(old(flash), code, running)
    {
      flash := flash.(code := Some(code));
      state := State.Error;
      if !Flashing(flash) {
        flash := FlashLoop(flash.code, Thread(running), flash.started + 1);
      }
    }

    /** One round of the flashing loop, run while `running` holds: one
        pulse per unit of the current code (then a pause, not modelled). */
    method FlashErrorRound()
      requires flash.code.Some?
      modifies this`led
      ensures led == old(led) + if running then ErrorRound(flash.code.value) else []
    {
      if running {
        var code := flash.code.value;
        var n := if code > 0 then code else 0;
        var k := 0;
        while k < n
          invariant 0 <= k <= n
          invariant led == old(led) + ErrorRound(k)
        {
          led := led + [ErrorPulse];
          k := k + 1;
        }
      }
    }

    /** At 90% full the drive-full flag is set and error 1 is raised, which
        puts the indicator in Error for good. */
    method UpdateStorageIndicator(used: nat, total: nat)
      requires Valid()
      requires total > 0
      modifies this`driveFull, this`flash, this`state
      ensures Valid()
      ensures LevelOf(used, total) == Full ==>
        driveFull && state == State.Error && flash == RaiseError(old(flash), 1, running) &&
        Snapshot() == Apply(old(Snapshot()), ErrorCall)
      ensures LevelOf(used, total) != Full ==>
        driveFull == old(driveFull) && flash == old(flash) && Snapshot() == old(Snapshot())
    {
      if AtLeast(used, total, 90) {
        driveFull := true;
        Error(1);
      }
    }

    /** One poll of the storage loop; saving cannot be switched off on this
        indicator, so without a save directory error 6 is raised. */
    method Update(used: nat, total: nat)
      requires Valid()
      requires hasSaveDirectory ==> total > 0
      modifies this`driveFull, this`flash, this`state
      ensures Valid()
      ensures hasSaveDirectory && LevelOf(used, total) == Full ==>
        driveFull && state == State.Error && flash == RaiseError(old(flash), 1, running)
      ensures hasSaveDirectory && LevelOf(used, total) != Full ==>
        driveFull == old(driveFull) && flash == old(flash) && Snapshot() == old(Snapshot())
      ensures !hasSaveDirectory ==>
        driveFull == old(driveFull) && state == State.Error && flash == RaiseError(old(flash), 6, running)
    {
      if hasSaveDirectory {
        UpdateStorageIndicator(used, total);
      } else {
        Error(6);
      }
    }

    /** `stop()`: running cleared, the flashing loop joined, the LED out. */
    method Stop()
      modifies this`running, this`flash, this`led
      ensures !running && flash == StopFlashing(old(flash))
      ensures led == old(led) + [LedOff]
    {
      running := false;
      flash := StopFlashing(flash);
      led := led + [LedOff];
    }

    /** `close()`: stop, then the LED device released. */
    method Close()
      modifies this`running, this`flash, this`led
      ensures !running && flash == StopFlashing(old(flash))
      ensures led == old(led) + [LedOff, LedClosed]
    {
      Stop();
      led := led + [LedClosed];
    }
  }
}
