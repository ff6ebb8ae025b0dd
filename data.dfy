/**
 * The records the timer core works on. Durations and timestamps are
 * milliseconds; Kotlin's `Long` is modelled by the unbounded `int`.
 */
module Data {

  /** The three break categories. Each one also selects a display colour,
    * which the model keeps as the category itself. */
  datatype BreakType = Lunch | Smoking | Other

  /** One recorded break. `jobTimeThatPass` is the job time that had
    * elapsed when the break began; it places the break on the dial. */
  datatype BreakTime = BreakTime(
    breakType: BreakType,
    startTimestamp: int,
    stopTimestamp: int,
    jobTimeThatPass: int)

  /** The shift that is handed to the repository on save. */
  datatype WorkTime = WorkTime(totalJobTime: int, breakTimes: seq<BreakTime>, savedAt: int)

  /** One break wedge of the circular progress view, in degrees. */
  datatype BreakProgressAngle = BreakProgressAngle(startAngle: real, sweepAngle: real, breakType: BreakType)

  /** What the view draws: the job angle and one wedge per break. */
  datatype ProgressAngles = ProgressAngles(jobAngle: real, breakAngles: seq<BreakProgressAngle>)
}
