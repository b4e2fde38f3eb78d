/** The gesture arbiter (Motion_Input_Check, Motion_Roll_Check): feeds one
    accelerometer sample to the three axis detectors, picks the dominant
    completed axis and encodes it, with the hand's roll, as a gesture symbol.
    A motion that is started but not finished within MotionDurTime is
    abandoned. */
module Arbiter {
  import opened Options
  import opened Clock
  import opened PeakDetector
  import opened Sequences

  /** Longest time, in ms, from a motion's first peak to its completion (MotionDurTime). */
  const MotionDurTime: Tick := 1000
  /** A completed axis wins only if 0.8 of its peak exceeds the other axes' peaks (PeakMaxPre). */
  const PeakMaxPre: real := 0.8

  /** One accelerometer reading: accelerations in g and the pitch in degrees. */
  datatype Sample = Sample(ax: real, ay: real, az: real, pitch: real)

  datatype Axis = X | Y | Z

  /** Roll offset of a symbol: 0 palm up, 6 palm left, 12 palm down. */
  type Band = b: int | b == 0 || b == 6 || b == 12

  /** What one symbol stands for: the axis, the direction of its first peak
      and the roll band. */
  datatype Gesture = Gesture(axis: Axis, dir: Bit, band: Band)

  /** Motion_Roll_Check: the roll band of a pitch. */
  function RollBand(pitch: real): (b: Band)
    ensures b == 0 <==> pitch < -45.0
    ensures b == 12 <==> pitch >= 45.0
  {
    if pitch < -45.0 then 0 else if pitch < 45.0 then 6 else 12
  }

  /** Tilting further never lowers the band. */
  lemma RollBandMonotone(p: real, q: real)
    requires p <= q
    ensures RollBand(p) <= RollBand(q)
  {
  }

  function Base(a: Axis): int
  {
    match a
    case X => 1
    case Y => 3
    case Z => 5
  }

  /** The symbol stored for a gesture: base(axis) + first_peak_dir + roll band. */
  function Encode(g: Gesture): (s: byte)
    ensures 1 <= s <= 18
  {
    (Base(g.axis) + g.dir + g.band) as byte
  }

  /** Reads a symbol back as the gesture it encodes; symbols outside 1..18
      encode none. */
  function Decode(s: byte): (r: Option<Gesture>)
    ensures r.Some? <==> 1 <= s <= 18
  {
    if 1 <= s <= 18 then
      var k := s as int - 1;
      var band: Band := if k < 6 then 0 else if k < 12 then 6 else 12;
      var rest := k - band;
      Some(Gesture(if rest < 2 then X else if rest < 4 then Y else Z, rest % 2, band))
    else
      None
  }

  lemma DecodeEncode(g: Gesture)
    ensures Decode(Encode(g)) == Some(g)
  {
  }

  lemma EncodeDecode(s: byte)
    requires Decode(s).Some?
    ensures Encode(Decode(s).value) == s
  {
  }

  /** The 18 symbols are told apart: no two gestures share a symbol. */
  lemma EncodeInjective(g1: Gesture, g2: Gesture)
    requires Encode(g1) == Encode(g2)
    ensures g1 == g2
  {
    DecodeEncode(g1);
    DecodeEncode(g2);
  }

  /** Motion_State_t: the three axis detectors and the motion-start flag. */
  datatype Motion = Motion(startTime: Tick, startFlag: bool, x: Detector, y: Detector, z: Detector)

  function Pick(m: Motion, a: Axis): Detector
  {
    match a
    case X => m.x
    case Y => m.y
    case Z => m.z
  }

  predicate WellFormedMotion(m: Motion)
  {
    WellFormed(m.x) && WellFormed(m.y) && WellFormed(m.z)
  }

  /** The state Motion_State_Init leaves behind. */
  predicate MotionReset(m: Motion, now: Tick)
  {
    !m.startFlag && m.startTime == now && IsReset(m.x, now) && IsReset(m.y, now) && IsReset(m.z, now)
  }

  /** Motion_State_Init. */
  function MotionInit(m: Motion, now: Tick): (r: Motion)
    ensures MotionReset(r, now) && WellFormedMotion(r)
    ensures forall a :: Pick(r, a).firstPeakDir == Pick(m, a).firstPeakDir
  {
    Motion(now, false, DetectorInit(m.x, now), DetectorInit(m.y, now), DetectorInit(m.z, now))
  }

  /** The MotionDurTime window of a started motion has run out. */
  predicate TimedOut(m: Motion, now: Tick)
  {
    m.startFlag && Exceeds(now, m.startTime, MotionDurTime)
  }

  /** Peak `w` beats the other two axes' peaks by the factor PeakMaxPre. */
  predicate Dominates(w: Detector, o1: Detector, o2: Detector)
  {
    w.maxAbsVal * PeakMaxPre > o1.maxAbsVal && w.maxAbsVal * PeakMaxPre > o2.maxAbsVal
  }

  predicate Dominant(m: Motion, a: Axis)
  {
    match a
    case X => Dominates(m.x, m.y, m.z)
    case Y => Dominates(m.y, m.x, m.z)
    case Z => Dominates(m.z, m.x, m.y)
  }

  /** The axis the arbiter looks at: the first of x, y, z that has just
      completed a gesture. */
  function FirstCompleted(m: Motion): (r: Option<Axis>)
    ensures r.Some? ==> Pick(m, r.value).peakCnt == 3
    ensures r.None? ==> forall a :: Pick(m, a).peakCnt != 3
    ensures r == Some(Y) ==> m.x.peakCnt != 3
    ensures r == Some(Z) ==> m.x.peakCnt != 3 && m.y.peakCnt != 3
  {
    if m.x.peakCnt == 3 then Some(X)
    else if m.y.peakCnt == 3 then Some(Y)
    else if m.z.peakCnt == 3 then Some(Z)
    else None
  }

  /** The arbitration of Motion_Input_Check: the first completed axis yields
      a gesture if it dominates; otherwise nothing is produced, even when a
      later axis has completed and would dominate. */
  function Arbitrate(m: Motion, pitch: real): (r: Option<Gesture>)
    ensures r.Some? <==> FirstCompleted(m).Some? && Dominant(m, FirstCompleted(m).value)
    ensures r.Some? ==> && r.value.axis == FirstCompleted(m).value
                        && r.value.dir == Pick(m, r.value.axis).firstPeakDir
                        && r.value.band == RollBand(pitch)
  {
    match FirstCompleted(m)
    case None => None
    case Some(a) =>
      if Dominant(m, a) then Some(Gesture(a, Pick(m, a).firstPeakDir, RollBand(pitch))) else None
  }

  /** Dominance is strict, so at most one axis can dominate: the x, y, z
      order decides nothing between two winners, only which completed axis is
      looked at. */
  lemma AtMostOneDominant(m: Motion, a: Axis, b: Axis)
    requires WellFormedMotion(m)
    requires Dominant(m, a) && Dominant(m, b)
    ensures a == b
  {
  }

  /** A completed x axis that does not dominate blocks y and z in that call. */
  lemma RejectedXBlocksLaterAxes(m: Motion, pitch: real)
    requires m.x.peakCnt == 3 && !Dominant(m, X)
    ensures Arbitrate(m, pitch) == None
  {
  }

  /** The three detectors after one sample, with the motion-start flag raised
      (and its time stamped) when a detector has just confirmed its first peak. */
  function Updated(m: Motion, s: Sample, now: Tick): (r: Motion)
    ensures WellFormedMotion(m) ==> WellFormedMotion(r)
    ensures m.startFlag ==> r.startFlag && r.startTime == m.startTime
    ensures !m.startFlag ==> (r.startFlag <==> exists a :: Pick(r, a).peakCnt == 1)
    ensures r.startFlag && !m.startFlag ==> r.startTime == now
  {
    var x := PeakStep(m.x, s.ax, now);
    var y := PeakStep(m.y, s.ay, now);
    var z := PeakStep(m.z, s.az, now);
    var starts := !m.startFlag && (x.peakCnt == 1 || y.peakCnt == 1 || z.peakCnt == 1);
    assert starts ==> Pick(Motion(now, true, x, y, z), if x.peakCnt == 1 then X else if y.peakCnt == 1 then Y else Z).peakCnt == 1;
    Motion(if starts then now else m.startTime, m.startFlag || starts, x, y, z)
  }

  /** The result of one Motion_Input_Check: the new motion state, the symbol
      appended to the working sequence if a gesture was accepted, and whether
      the pending sample was taken (its UpdateFlag cleared). */
  datatype Check = Check(motion: Motion, symbol: Option<byte>, consumed: bool)

  /** Motion_Input_Check. The motion timeout is tested first and, when it
      fires, resets the motion state without taking the pending sample. */
  function InputCheck(m: Motion, sample: Option<Sample>, now: Tick): (r: Check)
    ensures WellFormedMotion(m) ==> WellFormedMotion(r.motion)
    ensures r.consumed <==> sample.Some? && !TimedOut(m, now)
    ensures TimedOut(m, now) ==> r.symbol.None? && MotionReset(r.motion, now)
    ensures sample.None? && !TimedOut(m, now) ==> r == Check(m, None, false)
    ensures r.symbol.Some? ==> && sample.Some?
                               && 1 <= r.symbol.value <= 18
                               && MotionReset(r.motion, now)
    ensures r.symbol.None? && r.consumed ==> r.motion == Updated(m, sample.value, now)
    ensures r.consumed ==>
              var g := Arbitrate(Updated(m, sample.value, now), sample.value.pitch);
              && (r.symbol.Some? <==> g.Some?)
              && (g.Some? ==> r.symbol == Some(Encode(g.value)))
  {
    if TimedOut(m, now) then
      Check(MotionInit(m, now), None, false)
    else if sample.None? then
      Check(m, None, false)
    else
      var u := Updated(m, sample.value, now);
      match Arbitrate(u, sample.value.pitch)
      case Some(g) => Check(MotionInit(u, now), Some(Encode(g)), true)
      case None => Check(u, None, true)
  }

  /** A symbol is the encoding of the dominant completed axis of the updated
      detectors, with the first-peak direction of that axis and the band of
      the sample's pitch. */
  lemma AcceptedSymbolMeaning(m: Motion, s: Sample, now: Tick)
    requires InputCheck(m, Some(s), now).symbol.Some?
    ensures var u := Updated(m, s, now);
            var g := Decode(InputCheck(m, Some(s), now).symbol.value);
            && g.Some?
            && FirstCompleted(u) == Some(g.value.axis)
            && Dominant(u, g.value.axis)
            && g.value.dir == Pick(u, g.value.axis).firstPeakDir
            && g.value.band == RollBand(s.pitch)
  {
    var u := Updated(m, s, now);
    DecodeEncode(Arbitrate(u, s.pitch).value);
  }

  /** A gesture is emitted: when the sample brings a stage 2 x detector its
      third qualifying sample within the gap, and the sample's x reading
      beats, by the factor PeakMaxPre, both the y and z readings and the y
      and z running maxima, the call returns the x symbol with the first-peak
      direction of x and the sample's roll band, and resets the motion. */
  lemma ThirdPeakEmits(m: Motion, s: Sample, now: Tick)
    requires WellFormedMotion(m) && !TimedOut(m, now)
    requires m.x.peakCnt == 2 && ActiveCount(m.x) + 1 == PeakSampNum
    requires !Exceeds(now, m.x.peakTime, AccPeakGapTime) && Toward(s.ax, WantedDir(m.x))
    requires Abs(s.ax) * PeakMaxPre > m.y.maxAbsVal && Abs(s.ax) * PeakMaxPre > Abs(s.ay)
    requires Abs(s.ax) * PeakMaxPre > m.z.maxAbsVal && Abs(s.ax) * PeakMaxPre > Abs(s.az)
    ensures var c := InputCheck(m, Some(s), now);
            && c.consumed
            && c.symbol == Some(Encode(Gesture(X, m.x.firstPeakDir, RollBand(s.pitch))))
            && MotionReset(c.motion, now)
  {
  }

  /** An accepted gesture resets every detector, so the next call cannot
      accept another one. */
  lemma NoDoubleEmission(m: Motion, s1: Option<Sample>, t1: Tick, s2: Option<Sample>, t2: Tick)
    requires InputCheck(m, s1, t1).symbol.Some?
    ensures InputCheck(InputCheck(m, s1, t1).motion, s2, t2).symbol.None?
  {
    var m1 := InputCheck(m, s1, t1).motion;
    if s2.Some? && !TimedOut(m1, t2) {
      var u := Updated(m1, s2.value, t2);
      assert FirstCompleted(u).None?;
    }
  }

  /** A sample inside the threshold on all three axes emits nothing while no
      detector has completed. */
  lemma QuietSampleEmitsNothing(m: Motion, s: Sample, now: Tick)
    requires WellFormedMotion(m)
    requires m.x.peakCnt < 3 && m.y.peakCnt < 3 && m.z.peakCnt < 3
    requires Quiet(s.ax) && Quiet(s.ay) && Quiet(s.az)
    ensures InputCheck(m, Some(s), now).symbol.None?
  {
    if !TimedOut(m, now) {
      QuietRunNeverAdvances(m.x, [Reading(s.ax, now)]);
      QuietRunNeverAdvances(m.y, [Reading(s.ay, now)]);
      QuietRunNeverAdvances(m.z, [Reading(s.az, now)]);
      RunCons(m.x, [Reading(s.ax, now)]);
      RunCons(m.y, [Reading(s.ay, now)]);
      RunCons(m.z, [Reading(s.az, now)]);
      assert FirstCompleted(Updated(m, s, now)).None?;
    }
  }

  /** The global motion_state, updated in place. */
  class MotionState {
    var startTime: Tick
    var startFlag: bool
    const x: AxisDetector
    const y: AxisDetector
    const z: AxisDetector

    ghost predicate Valid()
      reads this
    {
      x != y && y != z && x != z
    }

    function Value(): Motion
      reads this, x, y, z
    {
      Motion(startTime, startFlag, x.Value(), y.Value(), z.Value())
    }

    /** The zero-initialised global. */
    constructor ()
      ensures Valid() && fresh(x) && fresh(y) && fresh(z)
      ensures Value() == Motion(0, false, Detector(0, 0, 0, 0, 0, 0.0),
                                Detector(0, 0, 0, 0, 0, 0.0), Detector(0, 0, 0, 0, 0, 0.0))
    {
      startTime, startFlag := 0, false;
      x := new AxisDetector();
      y := new AxisDetector();
      z := new AxisDetector();
    }

    /** Motion_State_Init. */
    method Init(now: Tick)
      requires Valid()
      modifies this, x, y, z
      ensures Valid() && Value() == MotionInit(old(Value()), now)
    {
      startTime := now;
      startFlag := false;
      x.Init(now);
      y.Init(now);
      z.Init(now);
    }

    /** The first half of Motion_Input_Check once a sample is present: the
        three detectors take it, and the motion-start flag is raised. */
    method Update(s: Sample, now: Tick)
      requires Valid()
      modifies this, x, y, z
      ensures Valid() && Value() == Updated(old(Value()), s, now)
    {
      x.PeakUpdate(s.ax, now);
      y.PeakUpdate(s.ay, now);
      z.PeakUpdate(s.az, now);
      if !startFlag {
        if x.peakCnt == 1 || y.peakCnt == 1 || z.peakCnt == 1 {
          startFlag := true;
          startTime := now;
        }
      }
    }

    /** The second half of Motion_Input_Check: the x, y, z chain that tests
        the completed axis for dominance. */
    method PickGesture(pitch: real) returns (g: Option<Gesture>)
      requires Valid()
      ensures g == Arbitrate(Value(), pitch)
    {
      if x.peakCnt == 3 {
        if x.maxAbsVal * PeakMaxPre > y.maxAbsVal && x.maxAbsVal * PeakMaxPre > z.maxAbsVal {
          return Some(Gesture(X, x.firstPeakDir, RollBand(pitch)));
        }
      } else if y.peakCnt == 3 {
        if y.maxAbsVal * PeakMaxPre > x.maxAbsVal && y.maxAbsVal * PeakMaxPre > z.maxAbsVal {
          return Some(Gesture(Y, y.firstPeakDir, RollBand(pitch)));
        }
      } else if z.peakCnt == 3 {
        if z.maxAbsVal * PeakMaxPre > x.maxAbsVal && z.maxAbsVal * PeakMaxPre > y.maxAbsVal {
          return Some(Gesture(Z, z.firstPeakDir, RollBand(pitch)));
        }
      }
      return None;
    }
  }
}
