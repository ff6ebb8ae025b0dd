/** The circular progress view: durations mapped to degrees, and one wedge
  * per recorded break. Angles are exact `real`s, an idealisation of the
  * source's `Float` arithmetic. */
module ProgressAngle {
  import opened Data
  import opened BreakLedger

  const FullAngleDegree: real := 360.0
  const MinutsInHour: real := 60.0
  /** Declared beside the others but not used by the formula. */
  const SecondsInMinuts: real := 60.0
  const MillisecondsInSeconds: real := 1000.0
  /** The target shift length, in hours. */
  const WorkTimeHours: real := 8.0

  /** `time * 360 / (8 * 60 * 1000)`: the seconds-per-minute factor is
    * missing, so one full turn is 480 000 ms (8 minutes), not 8 hours. */
  function CountProgressAngle(time: int): (angle: real)
    ensures angle == 0.0 <==> time == 0
    ensures angle > 0.0 <==> time > 0
  {
    time as real * FullAngleDegree / (WorkTimeHours * MinutsInHour * MillisecondsInSeconds)
  }

  /** The time a full turn of the dial stands for, as the formula is written. */
  const FullTurnTime: int := 480000

  lemma AngleOfZero()
    ensures CountProgressAngle(0) == 0.0
  {
  }

  /** The angle is linear in the duration. */
  lemma AngleLinear(a: int, b: int)
    ensures CountProgressAngle(a + b) == CountProgressAngle(a) + CountProgressAngle(b)
    ensures CountProgressAngle(a - b) == CountProgressAngle(a) - CountProgressAngle(b)
  {
  }

  lemma AngleMonotonic(a: int, b: int)
    requires a <= b
    ensures CountProgressAngle(a) <= CountProgressAngle(b)
  {
  }

  /** Durations within one turn give angles in [0, 360]; a full turn is
    * 8 minutes, so an 8-hour shift is 60 full turns (21600 degrees). */
  lemma AngleScale(time: int)
    ensures 0 <= time <= FullTurnTime ==> 0.0 <= CountProgressAngle(time) <= 360.0
    ensures CountProgressAngle(FullTurnTime) == 360.0
    ensures CountProgressAngle(8 * 60 * 60 * 1000) == 21600.0
  {
  }

  /** The wedge of one recorded break, before any live time is added. */
  function SegmentOf(b: BreakTime): BreakProgressAngle
  {
    BreakProgressAngle(CountProgressAngle(b.jobTimeThatPass), CountProgressAngle(Duration(b)), b.breakType)
  }

  /** The `map` step: one wedge per break, same length and order. */
  function ProgressAngleList(breaks: seq<BreakTime>): (r: seq<BreakProgressAngle>)
    ensures |r| == |breaks|
    ensures forall i :: 0 <= i < |breaks| ==> r[i] == SegmentOf(breaks[i])
  {
    if breaks == [] then [] else [SegmentOf(breaks[0])] + ProgressAngleList(breaks[1..])
  }

  /** The wedges of `breaks` with the live break time `time` added to the
    * sweep of the last one; with no breaks there are no wedges. */
  ghost predicate IsProgressAngleList(segments: seq<BreakProgressAngle>, breaks: seq<BreakTime>, time: int)
  {
    && |segments| == |breaks|
    && (forall i :: 0 <= i < |breaks| ==>
          segments[i].startAngle == CountProgressAngle(breaks[i].jobTimeThatPass)
          && segments[i].breakType == breaks[i].breakType)
    && (forall i :: 0 <= i < |breaks| - 1 ==>
          segments[i].sweepAngle == CountProgressAngle(Duration(breaks[i])))
    && (|breaks| > 0 ==>
          segments[|breaks| - 1].sweepAngle == CountProgressAngle(Duration(breaks[|breaks| - 1]) + time))
  }

  /** The description above fixes the list: at most one list meets it. */
  lemma ProgressAngleListUnique(s1: seq<BreakProgressAngle>, s2: seq<BreakProgressAngle>,
                                breaks: seq<BreakTime>, time: int)
    requires IsProgressAngleList(s1, breaks, time) && IsProgressAngleList(s2, breaks, time)
    ensures s1 == s2
  {
    forall i | 0 <= i < |s1|
      ensures s1[i] == s2[i]
    {
      if i < |breaks| - 1 {
        assert s1[i].sweepAngle == s2[i].sweepAngle;
      } else {
        assert i == |breaks| - 1;
      }
    }
  }

  /** With no live break time the list is the plain per-break map, so the
    * sweep read back is exactly `CountProgressAngle(stop - start)`. */
  lemma NoLiveTime(segments: seq<BreakProgressAngle>, breaks: seq<BreakTime>)
    requires IsProgressAngleList(segments, breaks, 0)
    ensures segments == ProgressAngleList(breaks)
  {
    var plain := ProgressAngleList(breaks);
    assert IsProgressAngleList(plain, breaks, 0);
    ProgressAngleListUnique(segments, plain, breaks, 0);
  }

  /** Build the wedges, then grow the last wedge's sweep in place by the
    * angle of the live break time. */
  method TransformToProgressAngleList(breaks: seq<BreakTime>, time: int) returns (segments: seq<BreakProgressAngle>)
    ensures IsProgressAngleList(segments, breaks, time)
    ensures breaks == [] ==> segments == []
    ensures time == 0 ==> segments == ProgressAngleList(breaks)
  {
    segments := ProgressAngleList(breaks);
    if |segments| > 0 {
      var last := |segments| - 1;
      segments := segments[last := segments[last].(sweepAngle := segments[last].sweepAngle + CountProgressAngle(time))];
      AngleLinear(Duration(breaks[last]), time);
    }
    if time == 0 {
      NoLiveTime(segments, breaks);
    }
  }

  /** The payload combined from the latest job tick and the latest break tick. */
  method CombineProgressAngles(latestJobTime: int, latestBreakTime: int, breaks: seq<BreakTime>)
    returns (angles: ProgressAngles)
    ensures angles.jobAngle == CountProgressAngle(latestJobTime)
    ensures IsProgressAngleList(angles.breakAngles, breaks, latestBreakTime)
  {
    var segments := TransformToProgressAngleList(breaks, latestBreakTime);
    angles := ProgressAngles(CountProgressAngle(latestJobTime), segments);
  }

  /** A one-hour job followed by a five-minute smoking break: 300 000 ms of
    * smoking time, and, as the formula is written, the break starts at
    * 2700 degrees (7.5 turns) rather than at 45 degrees. */
  lemma SmokingBreakScenario()
    ensures var breaks := [BreakTime(Smoking, 3600000, 3900000, 3600000)];
            GetBreakTime(Smoking, breaks) == 300000
            && GetBreakTime(Lunch, breaks) == 0
            && GetBreakTotalTime(breaks) == 300000
            && ProgressAngleList(breaks)[0].startAngle == 2700.0
            && ProgressAngleList(breaks)[0].sweepAngle == 225.0
  {
    var breaks := [BreakTime(Smoking, 3600000, 3900000, 3600000)];
    assert breaks[1..] == [];
  }
}
