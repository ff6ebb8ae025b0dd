/**
 * The main screen as the presenter drives it: four selectable buttons
 * (job, smoking, lunch, other), the save button's visibility, and the last
 * value handed to each time text. The texts are shown through a time
 * formatter that is not part of this model, so each text records the
 * duration (ms) that was formatted into it; `None` until first set.
 */
module MainFragmentView {
  import opened Wrappers

  datatype ViewState = ViewState(
    jobSelected: bool,
    smokingSelected: bool,
    lunchSelected: bool,
    otherSelected: bool,
    saveVisible: bool,
    jobTime: Option<int>,
    smokingTimeText: Option<int>,
    lunchTimeText: Option<int>,
    otherTimeText: Option<int>,
    breakTotalTime: Option<int>)

  class View {
    var jobSelected: bool
    var smokingSelected: bool
    var lunchSelected: bool
    var otherSelected: bool
    var saveVisible: bool
    var jobTime: Option<int>
    var smokingTimeText: Option<int>
    var lunchTimeText: Option<int>
    var otherTimeText: Option<int>
    var breakTotalTime: Option<int>

    function State(): ViewState
      reads this
    {
      ViewState(jobSelected, smokingSelected, lunchSelected, otherSelected, saveVisible,
                jobTime, smokingTimeText, lunchTimeText, otherTimeText, breakTotalTime)
    }

    /** The screen as laid out initially, which the layout decides. */
    constructor (initial: ViewState)
      ensures State() == initial
    {
      jobSelected := initial.jobSelected;
      smokingSelected := initial.smokingSelected;
      lunchSelected := initial.lunchSelected;
      otherSelected := initial.otherSelected;
      saveVisible := initial.saveVisible;
      jobTime := initial.jobTime;
      smokingTimeText := initial.smokingTimeText;
      lunchTimeText := initial.lunchTimeText;
      otherTimeText := initial.otherTimeText;
      breakTotalTime := initial.breakTotalTime;
    }

    method ActiveJobButton()
      modifies this
      ensures State() == old(State()).(jobSelected := true)
    {
      jobSelected := true;
    }

    method DeactivateJobButton()
      modifies this
      ensures State() == old(State()).(jobSelected := false)
    {
      jobSelected := false;
    }

    method ActiveSmokingButton()
      modifies this
      ensures State() == old(State()).(smokingSelected := true)
    {
      smokingSelected := true;
    }

    method DeactivateSmokingButton()
      modifies this
      ensures State() == old(State()).(smokingSelected := false)
    {
      smokingSelected := false;
    }

    method ActiveLunchButton()
      modifies this
      ensures State() == old(State()).(lunchSelected := true)
    {
      lunchSelected := true;
    }

    method DeactivateLunchButton()
      modifies this
      ensures State() == old(State()).(lunchSelected := false)
    {
      lunchSelected := false;
    }

    method ActiveOtherButton()
      modifies this
      ensures State() == old(State()).(otherSelected := true)
    {
      otherSelected := true;
    }

    method DeactivateOtherButton()
      modifies this
      ensures State() == old(State()).(otherSelected := false)
    {
      otherSelected := false;
    }

    method ShowSaveButton()
      modifies this
      ensures State() == old(State()).(saveVisible := true)
    {
      saveVisible := true;
    }

    method HideSaveButton()
      modifies this
      ensures State() == old(State()).(saveVisible := false)
    {
      saveVisible := false;
    }

    method SetJobTime(time: int)
      modifies this
      ensures State() == old(State()).(jobTime := Some(time))
    {
      jobTime := Some(time);
    }

    method SetBreakTotalTime(time: int)
      modifies this
      ensures State() == old(State()).(breakTotalTime := Some(time))
    {
      breakTotalTime := Some(time);
    }

    method SetSmokingTimeText(time: int)
      modifies this
      ensures State() == old(State()).(smokingTimeText := Some(time))
    {
      smokingTimeText := Some(time);
    }

    method SetLunchTimeText(time: int)
      modifies this
      ensures State() == old(State()).(lunchTimeText := Some(time))
    {
      lunchTimeText := Some(time);
    }

    method SetOtherTimeText(time: int)
      modifies this
      ensures State() == old(State()).(otherTimeText := Some(time))
    {
      otherTimeText := Some(time);
    }
  }
}
