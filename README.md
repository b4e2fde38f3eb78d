# Gesture lock: the gesture engine in Dafny

This project models the gesture engine of the STM32 gesture lock
(`Gesture_Lock/Src/state_machine.c`). An accelerometer sample comes in
through the main loop. One peak detector per axis counts three alternating
peaks. The arbiter turns the dominant completed axis, together with the
hand's roll, into a symbol from 1 to 18, and appends it to the working
sequence. The mode machine (Standby, Unlock, Record) collects symbols until
five seconds pass without one. It then compares the sequence with the key
kept in flash, or saves the sequence as the new key.

The C globals are updated in place, so each one is a class here, and each
class method is proved against a pure specification function:

- `PeakDetector.AxisDetector` is `Motion_Detect_Buf_t`, specified by `PeakStep`.
- `Arbiter.MotionState` is `Motion_State_t`, specified by `MotionInit`, `Updated` and `Arbitrate`.
- `Sequences.GestureSeq` is `Gesture_Seq_t`, both for `g_seq` and for the flash-resident `key`.
- `StateMachine.GestureLock` is `main_state` together with the other three, specified by `Step` and `InputCheck`.

The properties of the engine are proved about those functions. Single calls
are covered by their `ensures` clauses. Runs of calls are covered by lemmas
over `PeakDetector.Run` and `StateMachine.Replay`.

Files:

- `options.dfy`: `Option`.
- `clock.dfy`: the 32-bit millisecond tick and its wrap-around difference.
- `peak_detector.dfy`: `Motion_Detect_Buf_Init` and `Motion_Peak_Update`.
- `arbiter.dfy`: `Motion_Roll_Check`, the symbol encoding, `Motion_State_Init` and `Motion_Input_Check`.
- `gesture_seq.dfy`: `Gesture_Seq_t`, `Gesture_Seq_Init`, `Flash_Save_Seq` and `Flash_Init`.
- `state_machine.dfy`: `Main_State_Init`, `State_Machine_Init`, `Motion_Seq_Check`, `Motion_Seq_Save` and `State_Update_Main`.

The hardware is replaced by inputs:

- **Clock.** Each call receives `now`, the value of `HAL_GetTick()`. Differences are taken modulo 2^32, as `uint32_t` subtraction does.
- **Sensor sample.** A pending sample is `Some(Sample(ax, ay, az, pitch))`; `None` means `UpdateFlag` is clear. The `consumed` result says whether the call cleared the flag.
- **Button.** The button is a `Press` event: `NoPress` (which covers a press that fails the debounce), `ShortPress` or `LongPress`.
- **Flash key.** The key in flash is a `GestureSeq` handed to the constructor, because it survives a reset. The sector erase writes 0xFF to every byte.

The model follows the code on these points, which a reader might not expect:

- Symbols run from 1 to 18, not from 0 to 17.
- A Record session that ends too short leaves `is_unlocked` as it was.
- The working sequence is not cleared at the end of a Record session. The next session clears it.
- The first peak is confirmed by a count of samples, not by a run of consecutive samples. In stage 0 a sample in one direction does not clear the other direction's count, so the samples +, +, -, + confirm a positive peak. The count left in the other direction carries into stage 1, so two more negative samples then confirm the second peak. The second and third peaks need consecutive samples: any other sample clears the counter.
- The 300 ms peak timeout drops its sample without updating `max_abs_val`.

## Model

| member | source | states |
|---|---|---|
| Clock.Elapsed | Gesture_Lock/Src/state_machine.c:377 | the `uint32_t` difference `now - since`: the plain difference when `since <= now`, the difference across the wrap otherwise |
| Clock.ElapsedRoundTrip | Gesture_Lock/Src/state_machine.c:257 | adding the elapsed time to `since` modulo 2^32 gives back `now` |
| PeakDetector.DetectorInit | Gesture_Lock/Src/state_machine.c:130-137 | counters, peak count and running maximum are zero, the peak time is `now`, and `first_peak_dir` is kept |
| PeakDetector.TrackMax | Gesture_Lock/Src/state_machine.c:435 | the running maximum never decreases, covers the sample's absolute value, and is either the old value or that one |
| PeakDetector.PeakStep | Gesture_Lock/Src/state_machine.c:348-437 | keeps every counter below 3 and the peak count within 0..3; the peak count rises by at most one per sample; a completed detector restarts at 0 or 1; a stage 1 or 2 detector past the 300 ms gap is reset and the sample is dropped; a newly confirmed peak stamps `now`; outside the timeout path the running maximum becomes the larger of the old one (0 after a self-clear) and the sample's absolute value. Its sub-definitions `AwaitFirst` (lines 352-375) and `AwaitNext` (lines 376-433) are covered by `IdleRule` and `DirectionRule` |
| PeakDetector.SelfClear | Gesture_Lock/Src/state_machine.c:349-351 | a detector at peak count 3 behaves exactly like a freshly reset one |
| PeakDetector.NoDoubleCompletion | Gesture_Lock/Src/state_machine.c:349-351 | peak count 3 never holds after two consecutive calls |
| PeakDetector.IdleRule | Gesture_Lock/Src/state_machine.c:352-375 | in stage 0 a quiet sample zeroes both counters; a sample in one direction leaves the other counter unchanged and, unless it confirms the peak, raises its own counter by one; the first peak is confirmed exactly when a counter reaches 3, and it records the sample's direction and time |
| PeakDetector.DirectionRule | Gesture_Lock/Src/state_machine.c:376-433 | within the gap, the second peak advances only on samples opposite to the first peak and the third only on samples in its direction; the third such sample confirms the peak and clears both counters; any other sample zeroes the counter and keeps the stage |
| PeakDetector.QuietRunNeverAdvances | Gesture_Lock/Src/state_machine.c:352-433 | over any run of samples inside the threshold the peak count never rises, so no gesture completes |
| PeakDetector.CompletionNeedsRun | Gesture_Lock/Src/state_machine.c:398-432 | from stage 0 or 1, a stage 2 detector's active count is made of the latest samples, all toward the first peak's direction, and peak count 3 is reached only on the last of 3 consecutive samples toward that direction |
| PeakDetector.NoRunNoGesture | Gesture_Lock/Src/state_machine.c:405-432 | if no 3 consecutive samples lie beyond the threshold in one direction, no prefix of the run leaves the detector at peak count 3: no gesture on noise |
| PeakDetector.InterleavedSamplesConfirmPeak | Gesture_Lock/Src/state_machine.c:353-368 | from a reset detector, samples +, +, -, + confirm a positive first peak and leave the negative count at 1 |
| PeakDetector.FirstPeak | Gesture_Lock/Src/state_machine.c:352-375 | three samples toward one direction confirm the first peak in that direction, stamped with the third sample's time |
| PeakDetector.NextPeak | Gesture_Lock/Src/state_machine.c:376-433 | three samples in the wanted direction, each within 300 ms of the last peak, advance the peak count by one and clear both counters |
| PeakDetector.FullGesture | Gesture_Lock/Src/state_machine.c:348-437 | a burst toward `dir`, one against it and one toward it again, each within the gap, complete a gesture whose first-peak direction is `dir` |
| PeakDetector.AxisDetector.constructor | Gesture_Lock/Src/state_machine.c:59-66 | the zero-initialised global detector |
| PeakDetector.AxisDetector.Init | Gesture_Lock/Src/state_machine.c:130-137 | the detector in place equals `DetectorInit` of its old value |
| PeakDetector.AxisDetector.PeakUpdate | Gesture_Lock/Src/state_machine.c:348-437 | the detector in place equals `PeakStep` of its old value |
| Arbiter.RollBand | Gesture_Lock/Src/state_machine.c:448-452 | band 0 exactly when pitch < -45, band 12 exactly when pitch >= 45, band 6 otherwise |
| Arbiter.RollBandMonotone | Gesture_Lock/Src/state_machine.c:448-452 | a larger pitch never gives a lower band |
| Arbiter.Encode | Gesture_Lock/Src/state_machine.c:486 | the symbol `base + first_peak_dir + band` (base 1, 3 or 5 for x, y or z) lies in 1..18 |
| Arbiter.Decode | Gesture_Lock/Src/state_machine.c:486-508 | a byte names a gesture exactly when it lies in 1..18 |
| Arbiter.DecodeEncode | Gesture_Lock/Src/state_machine.c:486-508 | decoding the symbol of a gesture gives back that gesture |
| Arbiter.EncodeDecode | Gesture_Lock/Src/state_machine.c:486-508 | every symbol in 1..18 is the encoding of the gesture it decodes to |
| Arbiter.EncodeInjective | Gesture_Lock/Src/state_machine.c:486 | no two (axis, direction, band) triples share a symbol |
| Arbiter.MotionInit | Gesture_Lock/Src/state_machine.c:144-151 | the start flag is clear, the start time is `now`, all three detectors are reset and well formed, and their first-peak directions are kept |
| Arbiter.FirstCompleted | Gesture_Lock/Src/state_machine.c:483-505 | the axis examined is the first of x, y, z whose peak count is 3, and none when no axis has completed |
| Arbiter.Arbitrate | Gesture_Lock/Src/state_machine.c:483-516 | a gesture is produced exactly when the first completed axis has 0.8 of its maximum strictly above both other maxima; it carries that axis, that axis's first-peak direction and the pitch's band |
| Arbiter.AtMostOneDominant | Gesture_Lock/Src/state_machine.c:484-485 | at most one axis can dominate the other two |
| Arbiter.RejectedXBlocksLaterAxes | Gesture_Lock/Src/state_machine.c:483-493 | a completed x axis that does not dominate yields nothing, even when y or z would |
| Arbiter.Updated | Gesture_Lock/Src/state_machine.c:469-481 | keeps the detectors well formed; an already started motion keeps its start time; otherwise the motion starts, stamped `now`, exactly when some detector is at peak count 1 |
| Arbiter.InputCheck | Gesture_Lock/Src/state_machine.c:460-519 | the sample is consumed exactly when one is pending and the 1000 ms motion window has not run out; a timeout resets the motion state and yields nothing; with no sample nothing changes; an accepted symbol lies in 1..18 and resets the motion state; a rejected sample leaves the updated detectors; a consumed sample yields a symbol exactly when the arbitration of the updated detectors yields a gesture, and that symbol is the gesture's encoding |
| Arbiter.ThirdPeakEmits | Gesture_Lock/Src/state_machine.c:426-488 | a stage 2 x detector that gets its third qualifying sample within the gap, with a reading that beats the other axes by the factor 0.8, makes the call emit the x symbol with the first-peak direction of x and the pitch's band, and resets the motion |
| Arbiter.AcceptedSymbolMeaning | Gesture_Lock/Src/state_machine.c:483-512 | an accepted symbol decodes to the first completed, dominant axis of the updated detectors, with that axis's first-peak direction and the sample's roll band |
| Arbiter.NoDoubleEmission | Gesture_Lock/Src/state_machine.c:488 | after an accepted gesture, the next call cannot accept another |
| Arbiter.QuietSampleEmitsNothing | Gesture_Lock/Src/state_machine.c:467-516 | a sample inside the threshold on all three axes yields no symbol while no detector has completed |
| Arbiter.MotionState.constructor | Gesture_Lock/Src/state_machine.c:68-75 | the zero-initialised global motion state, with three distinct detectors |
| Arbiter.MotionState.Init | Gesture_Lock/Src/state_machine.c:144-151 | the motion state in place equals `MotionInit` of its old value |
| Arbiter.MotionState.Update | Gesture_Lock/Src/state_machine.c:469-481 | the motion state in place equals `Updated` of its old value |
| Arbiter.MotionState.PickGesture | Gesture_Lock/Src/state_machine.c:483-516 | the x-then-y-then-z chain returns `Arbitrate` of the current motion state |
| Sequences.GestureSeq.Contents | Gesture_Lock/Inc/state_machine.h:21-24 | the sequence is the first `len` symbols of the buffer |
| Sequences.GestureSeq.constructor | Gesture_Lock/Inc/state_machine.h:21-24 | an empty sequence with a 64-byte buffer |
| Sequences.GestureSeq.Init | Gesture_Lock/Src/state_machine.c:158-161 | the length is 0 and the contents are empty |
| Sequences.GestureSeq.SaveSeq | Gesture_Lock/Src/state_machine.c:163-177 | after the sector erase and the byte-by-byte program, the key's length and contents equal those of the saved sequence, and every byte past them reads 0xFF |
| Sequences.GestureSeq.FlashInit | Gesture_Lock/Src/state_machine.c:183-192 | the key becomes the default {12, 11, 10, 9} |
| StateMachine.Step | Gesture_Lock/Src/state_machine.c:216-338 | built from `StartSession` (lines 229-232, 246-249; see `SessionStartClears`) and `Capture` (lines 282-294, 321-333; see `CaptureRule`); a session ends exactly when more than 5000 ms have passed since its last gesture; -1 is returned exactly for Standby without a press; Record is entered only from an unlocked Standby on a long press; the key changes only at a Record end with at least 3 symbols, and then becomes the working sequence; the lock opens only at an Unlock end whose sequence equals the key; a sample is consumed only inside a running session |
| StateMachine.StandbyRule | Gesture_Lock/Src/state_machine.c:219-254 | a short press starts Unlock; a long press starts Record when unlocked and otherwise changes nothing; no press changes nothing and returns -1; the key and the lock flag are kept |
| StateMachine.SessionStartClears | Gesture_Lock/Src/state_machine.c:229-232 | entering a session clears the working sequence and the motion state and restarts the session clock |
| StateMachine.UnlockEnd | Gesture_Lock/Src/state_machine.c:257-280 | an Unlock end returns to Standby, unlocks exactly when the lengths are equal and every symbol matches, empties the working sequence and keeps the key |
| StateMachine.RecordEnd | Gesture_Lock/Src/state_machine.c:300-319 | a Record end returns to Standby; with at least 3 symbols the key becomes the working sequence and the lock closes; with fewer the key and the lock flag are unchanged |
| StateMachine.CaptureRule | Gesture_Lock/Src/state_machine.c:282-294 | inside a session an accepted gesture appends exactly one symbol, keeps the earlier ones and refreshes the session clock; otherwise neither the sequence nor the clock moves |
| StateMachine.StepKeepsInv | Gesture_Lock/Src/state_machine.c:216-338 | every call keeps the detectors well formed, both sequences within 64 symbols, and the lock open throughout Record |
| StateMachine.ReplayKeepsInv | Gesture_Lock/Src/state_machine.c:216-338 | the invariant holds after any run of calls |
| StateMachine.KeyChangesOnlyBySave | Gesture_Lock/Src/state_machine.c:300-310 | over any run, a changed key implies that some call ended a Record session holding at least 3 symbols |
| StateMachine.GestureLock.constructor | Gesture_Lock/Src/state_machine.c:96-110 | Standby and locked, with the motion state reset and the working sequence empty; a flash key of length 64 or more is replaced by the default key, otherwise it is kept |
| StateMachine.GestureLock.MainStateInit | Gesture_Lock/Src/state_machine.c:117-123 | Standby, locked, with the session clock at `now` |
| StateMachine.GestureLock.MotionInputCheck | Gesture_Lock/Src/state_machine.c:460-519 | the motion state in place equals that of `InputCheck`, and the working sequence grows by exactly the symbol it accepts |
| StateMachine.GestureLock.SeqCheck | Gesture_Lock/Src/state_machine.c:527-541 | returns true exactly when the working sequence equals the key, always empties the working sequence, and never writes the key |
| StateMachine.GestureLock.SeqSave | Gesture_Lock/Src/state_machine.c:547-555 | the key's contents become the working sequence's |
| StateMachine.GestureLock.EnterSession | Gesture_Lock/Src/state_machine.c:226-250 | the state in place equals `StartSession` of the old state |
| StateMachine.GestureLock.EndUnlock | Gesture_Lock/Src/state_machine.c:257-280 | Standby, unlocked exactly when the working sequence equals the key, the working sequence emptied |
| StateMachine.GestureLock.EndRecord | Gesture_Lock/Src/state_machine.c:300-319 | Standby; with at least 3 symbols the key is replaced and the lock closed, otherwise both are kept |
| StateMachine.GestureLock.Poll | Gesture_Lock/Src/state_machine.c:282-294 | the state in place equals `Capture` of the old state |
| StateMachine.GestureLock.StateUpdateMain | Gesture_Lock/Src/state_machine.c:216-338 | the state in place, the return code and the consumed flag equal those of `Step` |

## Left out

- OLED output (`Standby_Print`, `Motion_Seq_Print`, every `OLED_*` call) and the `printf` traces: presentation only.
- `HAL_Delay` and the busy wait for the button's release: a call reads the clock once, as `now`. In the source, the session clock set when a session starts is read after the 20 ms debounce and the 1000 ms press wait (and, for a long press, after the button is released), so the session's first silence window starts later than `now`. The stamp taken when a session ends comes after display delays of up to 6.3 s (300 + 6000 ms on a save), but Standby never reads it.
- Button GPIO sampling and the 20 ms debounce are reduced to the `Press` input. A press that fails the debounce is `NoPress`.
- `UpdateFlag` is set by the sensor driver's interrupt. Here it is the `Option` of the sample input, and the interrupt is not modelled.
- Floating point: accelerations, pitch, the 0.5 g threshold and the 0.8 factor are exact reals. `fabs` is the exact absolute value.
- The `uint8_t` counters are unbounded integers. `PeakStep` keeps them below 3, so they never wrap.
- StateMachine.GestureLock.MotionInputCheck: the source writes the symbol at `g_seq.seq[g_seq.len]` without checking the capacity. The model requires room for the symbol, and `Fits` requires it for `StateUpdateMain`, so a 65th gesture in one session (which overruns the buffer in the source) is outside the model.
- StateMachine.GestureLock.StateUpdateMain: the `else return -1` at `Gesture_Lock/Src/state_machine.c:336`, for a mode outside Standby, Unlock and Record, is unreachable, since `Mode` has exactly those three values. The `return -1` at line 337 is the Standby-without-a-press outcome and is modelled.
- The flash key at address 0x08010000 is a `GestureSeq` object. The raw pointer cast, the flash unlock and lock calls, and the wait for each flash operation are left out, and a failed erase or program is not modelled.
- StateMachine.GestureLock.constructor: the reset at boot is keyed on `len >= 64`, as in the source. A recorded key of exactly 64 symbols is therefore replaced by the default at the next boot, and the model shows this rather than preventing it.
- `Gesture_Lock/Src/serial_debug.c` and `Gesture_Lock/User/Src/serial_debug.c` (stdio over UART and USB, telemetry frames) are not part of this model: they are I/O.
