/** The per-axis peak detector (Motion_Peak_Update): a counter machine that
    confirms three alternating peaks of one acceleration axis, each peak being
    three samples beyond the threshold, with at most 300 ms between peaks. */
module PeakDetector {
  import opened Clock

  /** Acceleration, in g, a sample must exceed to count toward a peak (MotionPeakTH). */
  const PeakThreshold: real := 0.5
  /** Samples beyond the threshold that confirm one peak (PeakSampNum). */
  const PeakSampNum: nat := 3
  /** Longest gap, in ms, allowed between two peaks of one gesture (AccPeakGapTime). */
  const AccPeakGapTime: Tick := 300

  /** Direction of the first peak: 0 for negative, 1 for positive. */
  type Bit = x: int | 0 <= x <= 1

  /** Motion_Detect_Buf_t. The uint8_t counters are unbounded here;
      WellFormed keeps them below PeakSampNum, so they never wrap. */
  datatype Detector = Detector(
    maxCnt: nat,        // qualifying positive samples so far
    minCnt: nat,        // qualifying negative samples so far
    peakCnt: nat,       // peaks confirmed: 0, 1, 2 or 3
    firstPeakDir: Bit,  // direction of the first peak
    peakTime: Tick,     // time of the last confirmed peak
    maxAbsVal: real)    // largest |acceleration| seen since the last reset

  /** One sample of one axis with the time it was taken. */
  datatype Reading = Reading(acc: real, now: Tick)

  function Abs(x: real): real { if x < 0.0 then -x else x }

  /** True when `acc` lies beyond the threshold in direction `dir`. */
  predicate Toward(acc: real, dir: Bit)
  {
    if dir == 1 then acc > PeakThreshold else acc < -PeakThreshold
  }

  /** A sample that counts toward no peak. */
  predicate Quiet(acc: real)
  {
    -PeakThreshold <= acc <= PeakThreshold
  }

  /** The state Motion_Detect_Buf_Init leaves behind. */
  predicate IsReset(d: Detector, now: Tick)
  {
    d.maxCnt == 0 && d.minCnt == 0 && d.peakCnt == 0 && d.peakTime == now && d.maxAbsVal == 0.0
  }

  /** Motion_Detect_Buf_Init: clears the counters and the running maximum and
      stamps the time. It does not touch firstPeakDir. */
  function DetectorInit(d: Detector, now: Tick): (r: Detector)
    ensures IsReset(r, now) && r.firstPeakDir == d.firstPeakDir
  {
    d.(maxCnt := 0, minCnt := 0, peakCnt := 0, peakTime := now, maxAbsVal := 0.0)
  }

  /** The direction the detector waits for in stages 1 and 2: the second peak
      opposes the first, the third repeats it. */
  function WantedDir(d: Detector): Bit
  {
    if d.peakCnt == 1 then 1 - d.firstPeakDir else d.firstPeakDir
  }

  /** The counter that stage 1 or 2 increments, and the one it leaves alone. */
  function ActiveCount(d: Detector): nat
  {
    if WantedDir(d) == 1 then d.maxCnt else d.minCnt
  }

  function InactiveCount(d: Detector): nat
  {
    if WantedDir(d) == 1 then d.minCnt else d.maxCnt
  }

  /** What every reachable detector satisfies. */
  predicate WellFormed(d: Detector)
  {
    && d.maxCnt < PeakSampNum
    && d.minCnt < PeakSampNum
    && d.peakCnt <= 3
    && d.maxAbsVal >= 0.0
    && ((d.peakCnt == 1 || d.peakCnt == 2) ==> InactiveCount(d) == 0)
    && (d.peakCnt == 3 ==> d.maxCnt == 0 && d.minCnt == 0)
  }

  /** The running maximum of |acceleration|, raised by each sample that
      exceeds it. */
  function TrackMax(d: Detector, acc: real): (r: Detector)
    ensures r.maxAbsVal >= d.maxAbsVal && r.maxAbsVal >= Abs(acc)
    ensures r.maxAbsVal == d.maxAbsVal || r.maxAbsVal == Abs(acc)
  {
    if d.maxAbsVal < Abs(acc) then d.(maxAbsVal := Abs(acc)) else d
  }

  /** Stage 0: a positive sample bumps maxCnt, a negative one bumps minCnt and
      neither clears the other counter; only a quiet sample clears both. The
      counter that reaches PeakSampNum is cleared, the other one is kept. */
  function AwaitFirst(e: Detector, acc: real, now: Tick): Detector
  {
    var mx := if acc > PeakThreshold then e.maxCnt + 1
              else if acc < -PeakThreshold then e.maxCnt else 0;
    var mn := if acc > PeakThreshold then e.minCnt
              else if acc < -PeakThreshold then e.minCnt + 1 else 0;
    if mx == PeakSampNum then
      e.(maxCnt := 0, minCnt := mn, firstPeakDir := 1, peakCnt := 1, peakTime := now)
    else if mn == PeakSampNum then
      e.(maxCnt := mx, minCnt := 0, firstPeakDir := 0, peakCnt := 1, peakTime := now)
    else
      e.(maxCnt := mx, minCnt := mn)
  }

  /** Stages 1 and 2: only samples in the wanted direction count, any other
      sample clears that counter; a confirmed peak clears both counters,
      advances the stage and restamps the time. */
  function AwaitNext(e: Detector, acc: real, now: Tick): Detector
  {
    var countPositive := if e.peakCnt == 1 then e.firstPeakDir != 1 else e.firstPeakDir == 1;
    var f := if countPositive then e.(maxCnt := if acc > PeakThreshold then e.maxCnt + 1 else 0)
             else e.(minCnt := if acc < -PeakThreshold then e.minCnt + 1 else 0);
    if f.maxCnt == PeakSampNum || f.minCnt == PeakSampNum then
      f.(maxCnt := 0, minCnt := 0, peakCnt := e.peakCnt + 1, peakTime := now)
    else
      f
  }

  /** Motion_Peak_Update on one sample `acc` taken at `now`. A detector that
      completed a gesture on the previous call is reset first; a stage 1 or 2
      detector whose last peak is more than AccPeakGapTime old is reset and
      the sample is dropped (not even the running maximum sees it). */
  function PeakStep(d: Detector, acc: real, now: Tick): (r: Detector)
    ensures WellFormed(d) ==> WellFormed(r)
    ensures r.peakCnt <= d.peakCnt + 1
    ensures d.peakCnt == 3 ==> r.peakCnt <= 1
    ensures (d.peakCnt == 1 || d.peakCnt == 2) && Exceeds(now, d.peakTime, AccPeakGapTime)
            ==> r == DetectorInit(d, now)
    ensures r.peakCnt != d.peakCnt && r.peakCnt != 0 ==> r.peakTime == now
    ensures !((d.peakCnt == 1 || d.peakCnt == 2) && Exceeds(now, d.peakTime, AccPeakGapTime)) ==>
              var base := if d.peakCnt == 3 then 0.0 else d.maxAbsVal;
              r.maxAbsVal == if base < Abs(acc) then Abs(acc) else base
  {
    var e := if d.peakCnt == 3 then DetectorInit(d, now) else d;
    if e.peakCnt == 0 then
      TrackMax(AwaitFirst(e, acc, now), acc)
    else if e.peakCnt == 1 || e.peakCnt == 2 then
      if Exceeds(now, e.peakTime, AccPeakGapTime) then DetectorInit(e, now)
      else TrackMax(AwaitNext(e, acc, now), acc)
    else
      TrackMax(e, acc)
  }

  /** Feeding a stream of readings to one detector. */
  function Run(d: Detector, rs: seq<Reading>): Detector
    decreases |rs|
  {
    if rs == [] then d else Run(PeakStep(d, rs[0].acc, rs[0].now), rs[1..])
  }

  /** A completed detector is reset before the new sample is looked at: the
      call behaves exactly as on a freshly initialised detector. */
  lemma SelfClear(d: Detector, acc: real, now: Tick)
    requires d.peakCnt == 3
    ensures PeakStep(d, acc, now) == PeakStep(DetectorInit(d, now), acc, now)
  {
  }

  /** A gesture is reported for one call only: two calls in a row never both
      leave the detector at peakCnt 3. */
  lemma NoDoubleCompletion(d: Detector, a1: real, t1: Tick, a2: real, t2: Tick)
    requires PeakStep(d, a1, t1).peakCnt == 3
    ensures PeakStep(PeakStep(d, a1, t1), a2, t2).peakCnt <= 1
  {
  }

  /** Stage 0 (or a completed detector, which restarts in stage 0). A quiet
      sample clears both counters; a sample in one direction bumps its own
      counter and leaves the other one as it was; a first peak records its
      direction. */
  lemma IdleRule(d: Detector, acc: real, now: Tick)
    requires WellFormed(d) && (d.peakCnt == 0 || d.peakCnt == 3)
    ensures var e := if d.peakCnt == 3 then DetectorInit(d, now) else d;
            var r := PeakStep(d, acc, now);
            && (Quiet(acc) ==> r.maxCnt == 0 && r.minCnt == 0 && r.peakCnt == 0)
            && (acc > PeakThreshold ==> r.minCnt == e.minCnt)
            && (acc < -PeakThreshold ==> r.maxCnt == e.maxCnt)
            && (acc > PeakThreshold && r.peakCnt == 0 ==> r.maxCnt == e.maxCnt + 1)
            && (acc < -PeakThreshold && r.peakCnt == 0 ==> r.minCnt == e.minCnt + 1)
            && (r.peakCnt == 1 <==>
                  ((acc > PeakThreshold && e.maxCnt + 1 == PeakSampNum)
                   || (acc < -PeakThreshold && e.minCnt + 1 == PeakSampNum)))
            && (r.peakCnt == 1 ==> Toward(acc, r.firstPeakDir) && r.peakTime == now)
  {
  }

  /** Stages 1 and 2 within the gap: a sample in the wanted direction bumps the
      active counter and confirms the next peak on the PeakSampNum-th one; any
      other sample clears the counter and the stage stays put. */
  lemma DirectionRule(d: Detector, acc: real, now: Tick)
    requires WellFormed(d) && (d.peakCnt == 1 || d.peakCnt == 2)
    requires !Exceeds(now, d.peakTime, AccPeakGapTime)
    ensures var r := PeakStep(d, acc, now);
            && r.firstPeakDir == d.firstPeakDir
            && (Toward(acc, WantedDir(d)) && ActiveCount(d) + 1 == PeakSampNum ==>
                  r.peakCnt == d.peakCnt + 1 && r.maxCnt == 0 && r.minCnt == 0 && r.peakTime == now)
            && (Toward(acc, WantedDir(d)) && ActiveCount(d) + 1 < PeakSampNum ==>
                  r.peakCnt == d.peakCnt && ActiveCount(r) == ActiveCount(d) + 1
                  && InactiveCount(r) == 0 && r.peakTime == d.peakTime)
            && (!Toward(acc, WantedDir(d)) ==>
                  r.peakCnt == d.peakCnt && r.maxCnt == 0 && r.minCnt == 0 && r.peakTime == d.peakTime)
  {
  }

  lemma RunCons(d: Detector, rs: seq<Reading>)
    requires rs != []
    ensures Run(d, rs) == Run(PeakStep(d, rs[0].acc, rs[0].now), rs[1..])
  {
  }

  lemma {:induction false} RunAppend(d: Detector, a: seq<Reading>, b: seq<Reading>)
    ensures Run(d, a + b) == Run(Run(d, a), b)
    decreases |a|
  {
    if a == [] {
      assert a + b == b;
    } else {
      assert (a + b)[1..] == a[1..] + b;
      RunAppend(PeakStep(d, a[0].acc, a[0].now), a[1..], b);
    }
  }

  /** Quiet samples never advance a detector: without a sample beyond the
      threshold no peak, and so no gesture, is ever confirmed. */
  lemma {:induction false} QuietRunNeverAdvances(d: Detector, rs: seq<Reading>)
    requires WellFormed(d) && d.peakCnt < 3
    requires forall i :: 0 <= i < |rs| ==> Quiet(rs[i].acc)
    ensures WellFormed(Run(d, rs)) && Run(d, rs).peakCnt <= d.peakCnt
    decreases |rs|
  {
    if rs != [] {
      var d1 := PeakStep(d, rs[0].acc, rs[0].now);
      if d.peakCnt == 0 {
        IdleRule(d, rs[0].acc, rs[0].now);
      } else if !Exceeds(rs[0].now, d.peakTime, AccPeakGapTime) {
        DirectionRule(d, rs[0].acc, rs[0].now);
      }
      assert d1.peakCnt <= d.peakCnt;
      QuietRunNeverAdvances(d1, rs[1..]);
    }
  }

  /** Peaks are counted, not runs: from a fresh detector the samples
      +, +, -, + (all beyond the threshold) confirm a positive first peak,
      although no three of them in a row are positive, because the negative
      sample does not clear the positive count. */
  lemma InterleavedSamplesConfirmPeak(d: Detector, rs: seq<Reading>)
    requires IsReset(d, d.peakTime)
    requires |rs| == 4
    requires rs[0].acc > PeakThreshold && rs[1].acc > PeakThreshold
    requires rs[2].acc < -PeakThreshold && rs[3].acc > PeakThreshold
    ensures Run(d, rs).peakCnt == 1 && Run(d, rs).firstPeakDir == 1
    ensures Run(d, rs).minCnt == 1
  {
    var d1 := PeakStep(d, rs[0].acc, rs[0].now);
    var d2 := PeakStep(d1, rs[1].acc, rs[1].now);
    var d3 := PeakStep(d2, rs[2].acc, rs[2].now);
    var d4 := PeakStep(d3, rs[3].acc, rs[3].now);
    assert d2.maxCnt == 2 && d2.peakCnt == 0;
    assert d3.maxCnt == 2 && d3.minCnt == 1 && d3.peakCnt == 0;
    RunCons(d, rs);
    RunCons(d1, rs[1..]);
    RunCons(d2, rs[2..]);
    RunCons(d3, rs[3..]);
    assert rs[4..] == [];
  }

  /** Three samples toward `dir` confirm the first peak of a detector whose
      counters are clear. */
  lemma FirstPeak(d: Detector, rs: seq<Reading>, dir: Bit)
    requires WellFormed(d) && d.peakCnt == 0 && d.maxCnt == 0 && d.minCnt == 0
    requires |rs| == PeakSampNum
    requires forall i :: 0 <= i < |rs| ==> Toward(rs[i].acc, dir)
    ensures var r := Run(d, rs);
            WellFormed(r) && r.peakCnt == 1 && r.firstPeakDir == dir
            && r.maxCnt == 0 && r.minCnt == 0 && r.peakTime == rs[2].now
  {
    var d1 := PeakStep(d, rs[0].acc, rs[0].now);
    var d2 := PeakStep(d1, rs[1].acc, rs[1].now);
    var d3 := PeakStep(d2, rs[2].acc, rs[2].now);
    assert d1.peakCnt == 0 && (if dir == 1 then d1.maxCnt == 1 && d1.minCnt == 0 else d1.minCnt == 1 && d1.maxCnt == 0);
    assert d2.peakCnt == 0 && (if dir == 1 then d2.maxCnt == 2 && d2.minCnt == 0 else d2.minCnt == 2 && d2.maxCnt == 0);
    RunCons(d, rs);
    RunCons(d1, rs[1..]);
    RunCons(d2, rs[2..]);
    assert rs[3..] == [];
  }

  /** Three samples in the wanted direction, each within AccPeakGapTime of
      the last peak, confirm the next peak of a stage 1 or 2 detector whose
      active counter is clear. */
  lemma {:induction false} NextPeak(d: Detector, rs: seq<Reading>)
    requires WellFormed(d) && (d.peakCnt == 1 || d.peakCnt == 2) && ActiveCount(d) == 0
    requires |rs| == PeakSampNum
    requires forall i :: 0 <= i < |rs| ==>
               Toward(rs[i].acc, WantedDir(d)) && !Exceeds(rs[i].now, d.peakTime, AccPeakGapTime)
    ensures var r := Run(d, rs);
            WellFormed(r) && r.peakCnt == d.peakCnt + 1 && r.firstPeakDir == d.firstPeakDir
            && r.maxCnt == 0 && r.minCnt == 0 && r.peakTime == rs[2].now
  {
    DirectionRule(d, rs[0].acc, rs[0].now);
    var d1 := PeakStep(d, rs[0].acc, rs[0].now);
    DirectionRule(d1, rs[1].acc, rs[1].now);
    var d2 := PeakStep(d1, rs[1].acc, rs[1].now);
    DirectionRule(d2, rs[2].acc, rs[2].now);
    var d3 := PeakStep(d2, rs[2].acc, rs[2].now);
    RunCons(d, rs);
    RunCons(d1, rs[1..]);
    RunCons(d2, rs[2..]);
    assert rs[3..] == [];
  }

  /** A whole gesture on one axis: three samples toward `dir`, three against
      it, three toward it again, each group within AccPeakGapTime of the
      previous peak, take a cleared detector to peakCnt 3 with `dir` as its
      first-peak direction. Reversing the directions flips only `dir`. */
  lemma {:induction false} FullGesture(d: Detector, a: seq<Reading>, b: seq<Reading>, c: seq<Reading>, dir: Bit)
    requires WellFormed(d) && d.peakCnt == 0 && d.maxCnt == 0 && d.minCnt == 0
    requires |a| == |b| == |c| == PeakSampNum
    requires forall i :: 0 <= i < |a| ==> Toward(a[i].acc, dir)
    requires forall i :: 0 <= i < |b| ==>
               Toward(b[i].acc, 1 - dir) && !Exceeds(b[i].now, a[2].now, AccPeakGapTime)
    requires forall i :: 0 <= i < |c| ==>
               Toward(c[i].acc, dir) && !Exceeds(c[i].now, b[2].now, AccPeakGapTime)
    ensures Run(d, a + b + c).peakCnt == 3 && Run(d, a + b + c).firstPeakDir == dir
  {
    FirstPeak(d, a, dir);
    var d1 := Run(d, a);
    NextPeak(d1, b);
    var d2 := Run(d1, b);
    NextPeak(d2, c);
    RunAppend(d, a, b);
    RunAppend(d, a + b, c);
  }

  /** Feeding one more reading at the end of a run. */
  lemma RunSnoc(d: Detector, rs: seq<Reading>, x: Reading)
    ensures Run(d, rs + [x]) == PeakStep(Run(d, rs), x.acc, x.now)
  {
    RunAppend(d, rs, [x]);
    RunCons(Run(d, rs), [x]);
    assert [x][1..] == [];
  }

  /** The last two peaks need runs: in stage 2 the samples counted toward
      the third peak are the latest ones, all toward the first peak's
      direction, and a detector at peak count 3 got there on the last of
      PeakSampNum consecutive samples toward that direction. */
  lemma {:induction false} CompletionNeedsRun(d: Detector, rs: seq<Reading>)
    requires WellFormed(d) && d.peakCnt < 2
    ensures WellFormed(Run(d, rs))
    ensures var r := Run(d, rs);
            r.peakCnt == 2 ==>
              && ActiveCount(r) <= |rs|
              && forall i :: |rs| - ActiveCount(r) <= i < |rs| ==> Toward(rs[i].acc, r.firstPeakDir)
    ensures var r := Run(d, rs);
            r.peakCnt == 3 ==>
              && PeakSampNum <= |rs|
              && forall i :: |rs| - PeakSampNum <= i < |rs| ==> Toward(rs[i].acc, r.firstPeakDir)
    decreases |rs|
  {
    if rs == [] {
      assert Run(d, rs) == d;
    } else {
      var front := rs[..|rs| - 1];
      var x := rs[|rs| - 1];
      assert rs == front + [x];
      CompletionNeedsRun(d, front);
      RunSnoc(d, front, x);
      var p := Run(d, front);
      var r := Run(d, rs);
      assert r == PeakStep(p, x.acc, x.now);
      if (p.peakCnt == 1 || p.peakCnt == 2) && !Exceeds(x.now, p.peakTime, AccPeakGapTime) {
        DirectionRule(p, x.acc, x.now);
      }
    }
  }

  /** No gesture on noise: if no PeakSampNum consecutive readings lie beyond
      the threshold in one direction, no prefix of the run leaves the
      detector at peak count 3, so the axis never reports a gesture. */
  lemma NoRunNoGesture(d: Detector, rs: seq<Reading>)
    requires WellFormed(d) && d.peakCnt < 2
    requires forall i, dir: Bit :: 0 <= i && i + 2 < |rs| ==>
               !(Toward(rs[i].acc, dir) && Toward(rs[i + 1].acc, dir) && Toward(rs[i + 2].acc, dir))
    ensures forall k :: 0 <= k <= |rs| ==> Run(d, rs[..k]).peakCnt != 3
  {
    forall k | 0 <= k <= |rs|
      ensures Run(d, rs[..k]).peakCnt != 3
    {
      CompletionNeedsRun(d, rs[..k]);
      var dir := Run(d, rs[..k]).firstPeakDir;
      if PeakSampNum <= k {
        assert !(Toward(rs[k - 3].acc, dir) && Toward(rs[k - 2].acc, dir) && Toward(rs[k - 1].acc, dir));
        assert rs[..k][k - 3] == rs[k - 3] && rs[..k][k - 2] == rs[k - 2] && rs[..k][k - 1] == rs[k - 1];
      }
    }
  }

  /** One Motion_Detect_Buf_t, updated in place. */
  class AxisDetector {
    var maxCnt: nat
    var minCnt: nat
    var peakCnt: nat
    var firstPeakDir: Bit
    var peakTime: Tick
    var maxAbsVal: real

    function Value(): Detector
      reads this
    {
      Detector(maxCnt, minCnt, peakCnt, firstPeakDir, peakTime, maxAbsVal)
    }

    /** A zero-initialised global buffer. */
    constructor ()
      ensures Value() == Detector(0, 0, 0, 0, 0, 0.0)
    {
      maxCnt, minCnt, peakCnt, firstPeakDir, peakTime, maxAbsVal := 0, 0, 0, 0, 0, 0.0;
    }

    /** Motion_Detect_Buf_Init. */
    method Init(now: Tick)
      modifies this
      ensures Value() == DetectorInit(old(Value()), now)
    {
      maxCnt := 0;
      minCnt := 0;
      peakCnt := 0;
      peakTime := now;
      maxAbsVal := 0.0;
    }

    /** Motion_Peak_Update. */
    method PeakUpdate(acc: real, now: Tick)
      modifies this
      ensures Value() == PeakStep(old(Value()), acc, now)
    {
      if peakCnt == 3 {
        Init(now);
      }
      if peakCnt == 0 {
        if acc > PeakThreshold {
          maxCnt := maxCnt + 1;
        } else if acc < -PeakThreshold {
          minCnt := minCnt + 1;
        } else {
          maxCnt := 0;
          minCnt := 0;
        }
        if maxCnt == PeakSampNum {
          maxCnt := 0;
          firstPeakDir := 1;
          peakCnt := 1;
          peakTime := now;
        } else if minCnt == PeakSampNum {
          minCnt := 0;
          firstPeakDir := 0;
          peakCnt := 1;
          peakTime := now;
        }
      } else if peakCnt == 1 {
        if Exceeds(now, peakTime, AccPeakGapTime) {
          Init(now);
          return;
        }
        if firstPeakDir == 1 {
          if acc < -PeakThreshold { minCnt := minCnt + 1; } else { minCnt := 0; }
        } else {
          if acc > PeakThreshold { maxCnt := maxCnt + 1; } else { maxCnt := 0; }
        }
        if maxCnt == PeakSampNum || minCnt == PeakSampNum {
          maxCnt := 0;
          minCnt := 0;
          peakCnt := 2;
          peakTime := now;
        }
      } else if peakCnt == 2 {
        if Exceeds(now, peakTime, AccPeakGapTime) {
          Init(now);
          return;
        }
        if firstPeakDir == 1 {
          if acc > PeakThreshold { maxCnt := maxCnt + 1; } else { maxCnt := 0; }
        } else {
          if acc < -PeakThreshold { minCnt := minCnt + 1; } else { minCnt := 0; }
        }
        if maxCnt == PeakSampNum || minCnt == PeakSampNum {
          maxCnt := 0;
          minCnt := 0;
          peakCnt := 3;
          peakTime := now;
        }
      }
      if maxAbsVal < Abs(acc) {
        maxAbsVal := Abs(acc);
      }
    }
  }
}
