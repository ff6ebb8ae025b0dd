/** The mutable session record the timer service and the presenter share. */
module TimerConfig {
  import opened Wrappers
  import opened Data

  /** The value of every field at one instant. */
  datatype ConfigurationState = ConfigurationState(
    isRunning: bool,
    activeBreakType: Option<BreakType>,
    totalJobTimeThatPass: int,
    timeThatPass: int,
    startJobTime: int,
    breakTimesList: seq<BreakTime>)

  class TimerConfigurationImpl {
    var isRunning: bool
    var activeBreakType: Option<BreakType>
    var totalJobTimeThatPass: int
    var timeThatPass: int
    /** The clock reading (ms) taken when the record was created. */
    var startJobTime: int
    var breakTimesList: seq<BreakTime>

    function Snapshot(): ConfigurationState
      reads this
    {
      ConfigurationState(isRunning, activeBreakType, totalJobTimeThatPass, timeThatPass, startJobTime, breakTimesList)
    }

    /** A fresh record: not running, no break, nothing elapsed, no breaks
      * recorded, and `startJobTime` set from the clock reading `now`. */
    constructor (now: int)
      ensures !isRunning && activeBreakType == None
      ensures totalJobTimeThatPass == 0 && timeThatPass == 0
      ensures startJobTime == now && breakTimesList == []
    {
      isRunning := false;
      activeBreakType := None;
      totalJobTimeThatPass := 0;
      timeThatPass := 0;
      startJobTime := now;
      breakTimesList := [];
    }

    // The property setters: each assigns its own field and no other.

    method SetIsRunning(value: bool)
      modifies this
      ensures Snapshot() == old(Snapshot()).(isRunning := value)
    {
      isRunning := value;
    }

    method SetActiveBreakType(value: Option<BreakType>)
      modifies this
      ensures Snapshot() == old(Snapshot()).(activeBreakType := value)
    {
      activeBreakType := value;
    }

    method SetTotalJobTimeThatPass(value: int)
      modifies this
      ensures Snapshot() == old(Snapshot()).(totalJobTimeThatPass := value)
    {
      totalJobTimeThatPass := value;
    }

    method SetTimeThatPass(value: int)
      modifies this
      ensures Snapshot() == old(Snapshot()).(timeThatPass := value)
    {
      timeThatPass := value;
    }

    method SetStartJobTime(value: int)
      modifies this
      ensures Snapshot() == old(Snapshot()).(startJobTime := value)
    {
      startJobTime := value;
    }

    method SetBreakTimesList(value: seq<BreakTime>)
      modifies this
      ensures Snapshot() == old(Snapshot()).(breakTimesList := value)
    {
      breakTimesList := value;
    }
  }
}
