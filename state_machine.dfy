/** The mode state machine of the gesture lock (State_Update_Main): Standby
    waits for the button, Unlock and Record collect gestures until five
    seconds pass without one, then compare the sequence with the key or save
    it as the new key. */
module StateMachine {
  import opened Options
  import opened Clock
  import opened PeakDetector
  import opened Arbiter
  import opened Sequences

  /** Silence, in ms, that ends an Unlock or Record session (MotionGapTime). */
  const MotionGapTime: Tick := 5000
  /** Fewest gestures a recorded key may have (MinSeqLen). */
  const MinSeqLen: nat := 3

  /** GL_Mode. */
  datatype Mode = Standby | Unlock | Record

  /** What the button did during one Standby call: a press that fails the
      20 ms debounce counts as NoPress; a press still held after the
      ShortPressMax wait is a LongPress. */
  datatype Press = NoPress | ShortPress | LongPress

  /** The whole state of the lock: Main_State_t, the motion state, the working
      sequence g_seq and the key in flash. */
  datatype Lock = Lock(
    mode: Mode,
    updateTime: Tick,
    isUnlocked: bool,
    motion: Motion,
    gseq: seq<byte>,
    key: seq<byte>)

  /** The result of one State_Update_Main call: the new state, the return
      code (0, or -1 when Standby saw no press), and whether the pending
      sensor sample was taken. */
  datatype Outcome = Outcome(lock: Lock, ret: int, consumed: bool)

  /** The silence window of the current session has run out. */
  predicate SessionOver(s: Lock, now: Tick)
  {
    Exceeds(now, s.updateTime, MotionGapTime)
  }

  /** Entering Unlock or Record: motion state and working sequence cleared,
      session clock started. */
  function StartSession(s: Lock, mode: Mode, now: Tick): Lock
  {
    s.(mode := mode, motion := MotionInit(s.motion, now), gseq := [], updateTime := now)
  }

  /** One gesture poll inside a session: an accepted gesture is appended and
      restarts the silence clock. */
  function Capture(s: Lock, sample: Option<Sample>, now: Tick): Outcome
  {
    var c := InputCheck(s.motion, sample, now);
    match c.symbol
    case Some(sym) => Outcome(s.(motion := c.motion, gseq := s.gseq + [sym], updateTime := now), 0, c.consumed)
    case None => Outcome(s.(motion := c.motion), 0, c.consumed)
  }

  /** State_Update_Main. */
  function Step(s: Lock, press: Press, sample: Option<Sample>, now: Tick): (r: Outcome)
    ensures s.mode != Standby ==> (r.lock.mode == Standby <==> SessionOver(s, now))
    ensures r.ret == -1 <==> s.mode == Standby && press == NoPress
    ensures r.lock.mode == Record && s.mode != Record ==> s.isUnlocked && press == LongPress
    ensures r.lock.key != s.key ==>
              s.mode == Record && SessionOver(s, now) && |s.gseq| >= MinSeqLen && r.lock.key == s.gseq
    ensures !s.isUnlocked && r.lock.isUnlocked ==>
              s.mode == Unlock && SessionOver(s, now) && s.gseq == s.key
    ensures r.consumed ==> s.mode != Standby && !SessionOver(s, now) && sample.Some?
  {
    match s.mode
    case Standby =>
      (match press
       case NoPress => Outcome(s, -1, false)
       case LongPress =>
         if s.isUnlocked then Outcome(StartSession(s, Record, now), 0, false)
         else Outcome(s, 0, false)
       case ShortPress => Outcome(StartSession(s, Unlock, now), 0, false))
    case Unlock =>
      if SessionOver(s, now) then
        Outcome(s.(mode := Standby, updateTime := now, isUnlocked := s.gseq == s.key, gseq := []), 0, false)
      else
        Capture(s, sample, now)
    case Record =>
      if SessionOver(s, now) then
        if |s.gseq| >= MinSeqLen then
          Outcome(s.(mode := Standby, updateTime := now, key := s.gseq, isUnlocked := false), 0, false)
        else
          Outcome(s.(mode := Standby, updateTime := now), 0, false)
      else
        Capture(s, sample, now)
  }

  /** The source appends to g_seq without checking its capacity: a call is
      only defined when the sequence it leaves behind still fits. */
  predicate Fits(s: Lock, press: Press, sample: Option<Sample>, now: Tick)
  {
    |Step(s, press, sample, now).lock.gseq| <= SeqLength
  }

  /** What every reachable state satisfies. */
  predicate Inv(s: Lock)
  {
    && WellFormedMotion(s.motion)
    && |s.gseq| <= SeqLength
    && |s.key| <= SeqLength
    && (s.mode == Record ==> s.isUnlocked)
  }

  /** Standby: a short press opens an Unlock session; a long press opens a
      Record session only when unlocked and otherwise changes nothing; no
      press changes nothing and returns -1. */
  lemma StandbyRule(s: Lock, press: Press, sample: Option<Sample>, now: Tick)
    requires s.mode == Standby
    ensures var r := Step(s, press, sample, now);
            && !r.consumed
            && r.lock.key == s.key && r.lock.isUnlocked == s.isUnlocked
            && (press == ShortPress ==> r.lock == StartSession(s, Unlock, now) && r.ret == 0)
            && (press == LongPress && s.isUnlocked ==> r.lock == StartSession(s, Record, now) && r.ret == 0)
            && (press == LongPress && !s.isUnlocked ==> r.lock == s && r.ret == 0)
            && (press == NoPress ==> r.lock == s && r.ret == -1)
  {
  }

  /** A session start clears the working sequence and every detector. */
  lemma SessionStartClears(s: Lock, mode: Mode, now: Tick)
    ensures var t := StartSession(s, mode, now);
            t.gseq == [] && MotionReset(t.motion, now) && t.updateTime == now
            && t.key == s.key && t.isUnlocked == s.isUnlocked
  {
  }

  /** End of an Unlock session: unlocked exactly when the working sequence
      equals the key, the working sequence is consumed, the key is kept. */
  lemma UnlockEnd(s: Lock, press: Press, sample: Option<Sample>, now: Tick)
    requires s.mode == Unlock && SessionOver(s, now)
    ensures var r := Step(s, press, sample, now).lock;
            && r.mode == Standby && r.updateTime == now
            && (r.isUnlocked <==> |s.gseq| == |s.key| && forall i :: 0 <= i < |s.gseq| ==> s.gseq[i] == s.key[i])
            && r.gseq == [] && r.key == s.key
  {
    var r := Step(s, press, sample, now).lock;
    if |s.gseq| == |s.key| && forall i :: 0 <= i < |s.gseq| ==> s.gseq[i] == s.key[i] {
      assert s.gseq == s.key;
    }
  }

  /** End of a Record session: at least MinSeqLen gestures become the key and
      lock the device; fewer change neither the key nor the lock. The working
      sequence is left as it is either way. */
  lemma RecordEnd(s: Lock, press: Press, sample: Option<Sample>, now: Tick)
    requires s.mode == Record && SessionOver(s, now)
    ensures var r := Step(s, press, sample, now).lock;
            && r.mode == Standby && r.updateTime == now && r.gseq == s.gseq
            && (|s.gseq| >= MinSeqLen ==> r.key == s.gseq && !r.isUnlocked)
            && (|s.gseq| < MinSeqLen ==> r.key == s.key && r.isUnlocked == s.isUnlocked)
  {
  }

  /** Inside a session: each accepted gesture appends one symbol (earlier
      ones untouched) and restarts the silence clock; otherwise neither the
      sequence nor the clock moves. Mode, lock and key stay. */
  lemma CaptureRule(s: Lock, press: Press, sample: Option<Sample>, now: Tick)
    requires s.mode != Standby && !SessionOver(s, now)
    ensures var c := InputCheck(s.motion, sample, now);
            var r := Step(s, press, sample, now);
            && r.lock.mode == s.mode && r.lock.key == s.key && r.lock.isUnlocked == s.isUnlocked
            && r.lock.motion == c.motion && r.ret == 0 && r.consumed == c.consumed
            && (c.symbol.Some? ==> && |r.lock.gseq| == |s.gseq| + 1
                                   && r.lock.gseq[..|s.gseq|] == s.gseq
                                   && r.lock.gseq[|s.gseq|] == c.symbol.value
                                   && r.lock.updateTime == now)
            && (c.symbol.None? ==> r.lock.gseq == s.gseq && r.lock.updateTime == s.updateTime)
  {
  }

  /** Every call keeps the invariant: in particular the device is unlocked
      throughout a Record session. */
  lemma StepKeepsInv(s: Lock, press: Press, sample: Option<Sample>, now: Tick)
    requires Inv(s) && Fits(s, press, sample, now)
    ensures Inv(Step(s, press, sample, now).lock)
  {
  }

  /** One call of the main loop. */
  datatype Event = Event(press: Press, sample: Option<Sample>, now: Tick)

  function Replay(s: Lock, evs: seq<Event>): Lock
    decreases |evs|
  {
    if evs == [] then s else Replay(Step(s, evs[0].press, evs[0].sample, evs[0].now).lock, evs[1..])
  }

  /** Every call of the run leaves a sequence that fits the buffer. */
  predicate AllFit(s: Lock, evs: seq<Event>)
    decreases |evs|
  {
    evs == [] ||
    (Fits(s, evs[0].press, evs[0].sample, evs[0].now)
     && AllFit(Step(s, evs[0].press, evs[0].sample, evs[0].now).lock, evs[1..]))
  }

  lemma {:induction false} ReplayKeepsInv(s: Lock, evs: seq<Event>)
    requires Inv(s) && AllFit(s, evs)
    ensures Inv(Replay(s, evs))
    decreases |evs|
  {
    if evs != [] {
      StepKeepsInv(s, evs[0].press, evs[0].sample, evs[0].now);
      ReplayKeepsInv(Step(s, evs[0].press, evs[0].sample, evs[0].now).lock, evs[1..]);
    }
  }

  /** A call that ends a Record session with a long enough sequence. */
  predicate SavesKey(s: Lock, now: Tick)
  {
    s.mode == Record && SessionOver(s, now) && |s.gseq| >= MinSeqLen
  }

  /** Over any run, the key only ever changes at the end of a Record session
      that collected at least MinSeqLen gestures. */
  lemma {:induction false} KeyChangesOnlyBySave(s: Lock, evs: seq<Event>)
    requires Replay(s, evs).key != s.key
    ensures exists i :: 0 <= i < |evs| && SavesKey(Replay(s, evs[..i]), evs[i].now)
    decreases |evs|
  {
    if evs == [] {
      assert false;
    } else {
      var s1 := Step(s, evs[0].press, evs[0].sample, evs[0].now).lock;
      assert evs[..0] == [];
      if s1.key != s.key {
        assert SavesKey(Replay(s, evs[..0]), evs[0].now);
      } else {
        KeyChangesOnlyBySave(s1, evs[1..]);
        var i :| 0 <= i < |evs[1..]| && SavesKey(Replay(s1, evs[1..][..i]), evs[1..][i].now);
        assert evs[..i + 1][1..] == evs[1..][..i];
        assert Replay(s, evs[..i + 1]) == Replay(s1, evs[1..][..i]);
        assert SavesKey(Replay(s, evs[..i + 1]), evs[i + 1].now);
      }
    }
  }

  /** The lock's global state, updated in place: main_state's fields, and
      the motion state, working sequence and flash key it works on. */
  class GestureLock {
    var mode: Mode
    var updateTime: Tick
    var isUnlocked: bool
    const motion: MotionState
    const gseq: GestureSeq
    const key: GestureSeq

    ghost predicate Structural()
      reads this, motion, gseq, key
    {
      && motion.Valid() && gseq.Valid() && key.Valid()
      && gseq != key && gseq.symbols != key.symbols
      && gseq.len as int <= SeqLength && key.len as int <= SeqLength
    }

    ghost function State(): Lock
      reads this, motion, motion.x, motion.y, motion.z, gseq, gseq.symbols, key, key.symbols
      requires Structural()
    {
      Lock(mode, updateTime, isUnlocked, motion.Value(), gseq.Contents(), key.Contents())
    }

    ghost predicate Valid()
      reads this, motion, motion.x, motion.y, motion.z, gseq, gseq.symbols, key, key.symbols
    {
      Structural() && Inv(State())
    }

    /** State_Machine_Init, with `flash` the key found in flash at boot. */
    constructor (flash: GestureSeq, now: Tick)
      requires flash.Valid()
      modifies flash, flash.symbols
      ensures Valid() && key == flash && fresh(motion) && fresh(gseq)
      ensures mode == Standby && updateTime == now && !isUnlocked
      ensures MotionReset(motion.Value(), now) && gseq.Contents() == []
      ensures old(flash.len) as int >= SeqLength ==> key.Contents() == DefaultKey
      ensures old(flash.len) as int < SeqLength ==> key.Contents() == old(flash.symbols[..flash.len])
    {
      motion := new MotionState();
      gseq := new GestureSeq();
      key := flash;
      new;
      MainStateInit(now);
      motion.Init(now);
      gseq.Init();
      if key.len as int >= SeqLength {
        key.FlashInit();
      }
    }

    /** Main_State_Init. */
    method MainStateInit(now: Tick)
      modifies this
      ensures mode == Standby && updateTime == now && !isUnlocked
    {
      mode := Standby;
      updateTime := now;
      isUnlocked := false;
    }

    /** Motion_Input_Check. The symbol is written at g_seq.seq[g_seq.len]
        unchecked, so the caller must leave room for it. */
    method MotionInputCheck(sample: Option<Sample>, now: Tick) returns (gesture: bool, consumed: bool)
      requires Valid()
      requires gseq.len as int < SeqLength || InputCheck(motion.Value(), sample, now).symbol.None?
      modifies motion, motion.x, motion.y, motion.z, gseq, gseq.symbols
      ensures Valid()
      ensures var c := InputCheck(old(motion.Value()), sample, now);
              && motion.Value() == c.motion
              && gesture == c.symbol.Some?
              && consumed == c.consumed
              && gseq.Contents() == old(gseq.Contents()) + (if c.symbol.Some? then [c.symbol.value] else [])
    {
      if motion.startFlag && Exceeds(now, motion.startTime, MotionDurTime) {
        motion.Init(now);
        return false, false;
      }
      if sample.None? {
        return false, false;
      }
      motion.Update(sample.value, now);
      var g := motion.PickGesture(sample.value.pitch);
      if g.Some? {
        gseq.symbols[gseq.len] := Encode(g.value);
        gseq.len := gseq.len + 1;
        motion.Init(now);
        return true, true;
      }
      return false, true;
    }

    /** Motion_Seq_Check: compares the working sequence with the key, length
        first, then symbol by symbol; the working sequence is emptied either
        way and the key is only read. */
    method SeqCheck() returns (matched: bool)
      requires Valid()
      modifies gseq
      ensures Valid()
      ensures matched <==> old(gseq.Contents()) == key.Contents()
      ensures gseq.len == 0
    {
      if key.len != gseq.len {
        gseq.Init();
        return false;
      }
      for i := 0 to gseq.len as int
        invariant forall j :: 0 <= j < i ==> key.symbols[j] == gseq.symbols[j]
      {
        if key.symbols[i] != gseq.symbols[i] {
          assert gseq.Contents()[i] != key.Contents()[i];
          gseq.Init();
          return false;
        }
      }
      assert gseq.Contents() == key.Contents();
      gseq.Init();
      return true;
    }

    /** Motion_Seq_Save: the working sequence becomes the key in flash. */
    method SeqSave()
      requires Valid()
      modifies key, key.symbols
      ensures Valid()
      ensures key.Contents() == gseq.Contents()
    {
      key.SaveSeq(gseq);
    }

    /** Entering a session from Standby (the long-press branch when
        unlocked, or the short-press branch). */
    method EnterSession(m: Mode, now: Tick)
      requires Valid() && mode == Standby && (m == Unlock || (m == Record && isUnlocked))
      modifies this, motion, motion.x, motion.y, motion.z, gseq
      ensures Valid() && State() == StartSession(old(State()), m, now)
    {
      motion.Init(now);
      gseq.Init();
      mode := m;
      updateTime := now;
    }

    /** The end of an Unlock session. */
    method EndUnlock(now: Tick)
      requires Valid() && mode == Unlock
      modifies this, gseq
      ensures Valid()
      ensures var s := old(State());
              State() == s.(mode := Standby, updateTime := now, isUnlocked := s.gseq == s.key, gseq := [])
    {
      var matched := SeqCheck();
      isUnlocked := matched;
      mode := Standby;
      updateTime := now;
    }

    /** The end of a Record session. */
    method EndRecord(now: Tick)
      requires Valid() && mode == Record
      modifies this, key, key.symbols
      ensures Valid()
      ensures var s := old(State());
              State() == if |s.gseq| >= MinSeqLen
                         then s.(mode := Standby, updateTime := now, key := s.gseq, isUnlocked := false)
                         else s.(mode := Standby, updateTime := now)
    {
      if gseq.len as int >= MinSeqLen {
        SeqSave();
        isUnlocked := false;
      }
      mode := Standby;
      updateTime := now;
    }

    /** Waiting for input inside a session: an accepted gesture restarts the
        silence clock. */
    method Poll(sample: Option<Sample>, now: Tick) returns (consumed: bool)
      requires Valid() && mode != Standby
      requires gseq.len as int < SeqLength || InputCheck(motion.Value(), sample, now).symbol.None?
      modifies this, motion, motion.x, motion.y, motion.z, gseq, gseq.symbols
      ensures Valid()
      ensures var o := Capture(old(State()), sample, now);
              State() == o.lock && consumed == o.consumed
    {
      var gesture;
      gesture, consumed := MotionInputCheck(sample, now);
      if gesture {
        updateTime := now;
      }
    }

    /** State_Update_Main. */
    method StateUpdateMain(press: Press, sample: Option<Sample>, now: Tick) returns (ret: int, consumed: bool)
      requires Valid() && Fits(State(), press, sample, now)
      modifies this, motion, motion.x, motion.y, motion.z, gseq, gseq.symbols, key, key.symbols
      ensures Valid()
      ensures var o := Step(old(State()), press, sample, now);
              State() == o.lock && ret == o.ret && consumed == o.consumed
    {
      if mode == Standby {
        if press != NoPress {
          if press == LongPress {
            if isUnlocked {
              EnterSession(Record, now);
            }
          } else {
            EnterSession(Unlock, now);
          }
          return 0, false;
        }
      } else if mode == Unlock {
        if Exceeds(now, updateTime, MotionGapTime) {
          EndUnlock(now);
          return 0, false;
        } else {
          consumed := Poll(sample, now);
          return 0, consumed;
        }
      } else if mode == Record {
        if Exceeds(now, updateTime, MotionGapTime) {
          EndRecord(now);
          return 0, false;
        } else {
          consumed := Poll(sample, now);
          return 0, consumed;
        }
      }
      return -1, false;
    }
  }
}
