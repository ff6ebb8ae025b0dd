/**
 * The main screen's presenter: the job/break toggle state machine, the
 * tick handlers and the save handler. Its collaborators are kept as state:
 * the timer service as a command log, the two tick subjects as the lists of
 * values pushed into them, the repository and the router as one ordered
 * call log, and the view as a `View` object.
 */
module Presenter {
  import opened Wrappers
  import opened Data
  import opened BreakLedger
  import opened TimerService
  import opened TimerConfig
  import opened MainFragmentView

  datatype CollaboratorCall = SaveWorkTime(workTime: WorkTime) | NavigateToSummaryScreen

  /** Everything the presenter has sent out so far. */
  datatype Calls = Calls(
    service: seq<ServiceCommand>,
    jobTimes: seq<int>,
    breakTimes: seq<int>,
    collaborators: seq<CollaboratorCall>)

  /** The service call pausing issues: `PauseBreak` if a break was active, nothing otherwise. */
  function PauseIfActive(active: Option<BreakType>): seq<ServiceCommand>
  {
    if active.Some? then [PauseBreak] else []
  }

  /** Sending the pause call to a service that runs a break exactly when one
    * is active leaves it well formed and running no break. */
  lemma PauseClosesBreak(active: Option<BreakType>, log: seq<ServiceCommand>)
    requires NeverTwoBreaks(log) && OpenBreaks(log) == (if active.Some? then 1 else 0)
    ensures NeverTwoBreaks(log + PauseIfActive(active)) && OpenBreaks(log + PauseIfActive(active)) == 0
  {
    if active.Some? {
      Extend(log, PauseBreak);
    } else {
      assert log + [] == log;
    }
  }

  /** The values of the three break buttons once `t` is selected and the others not. */
  function OnlySelected(s: ViewState, t: BreakType): ViewState
  {
    s.(smokingSelected := t == Smoking, lunchSelected := t == Lunch, otherSelected := t == Other)
  }

  class MainFragmentPresenter {
    const view: View
    const configuration: TimerConfigurationImpl
    var serviceCalls: seq<ServiceCommand>
    /** The values pushed into the job-time subject, oldest first. */
    var jobTimeSubject: seq<int>
    /** The values pushed into the break-time subject, oldest first. */
    var breakTimeSubject: seq<int>
    /** Repository and router calls, in the order they were made. */
    var collaboratorCalls: seq<CollaboratorCall>

    ghost function Sent(): Calls
      reads this
    {
      Calls(serviceCalls, jobTimeSubject, breakTimeSubject, collaboratorCalls)
    }

    /** The break buttons show exactly the active break. */
    ghost predicate ButtonsMatchBreak()
      reads view, configuration
    {
      && view.smokingSelected == (configuration.activeBreakType == Some(Smoking))
      && view.lunchSelected == (configuration.activeBreakType == Some(Lunch))
      && view.otherSelected == (configuration.activeBreakType == Some(Other))
    }

    /** The service has never been told to run two breaks at once, and it
      * runs a break exactly when the configuration has one active. */
    ghost predicate ServiceInSync()
      reads this, configuration
    {
      && NeverTwoBreaks(serviceCalls)
      && OpenBreaks(serviceCalls) == (if configuration.activeBreakType.Some? then 1 else 0)
    }

    ghost predicate Consistent()
      reads this, view, configuration
    {
      ButtonsMatchBreak() && ServiceInSync()
    }

    constructor (view: View, configuration: TimerConfigurationImpl)
      ensures this.view == view && this.configuration == configuration
      ensures Sent() == Calls([], [], [], [])
      ensures configuration.activeBreakType == None ==> ServiceInSync()
    {
      this.view := view;
      this.configuration := configuration;
      serviceCalls := [];
      jobTimeSubject := [];
      breakTimeSubject := [];
      collaboratorCalls := [];
      new;
      assert serviceCalls[..0] == [];
    }

    /** Tell the service to pause the break if one is active; no break is active afterwards. */
    method PauseBreakTimer()
      modifies this, configuration
      ensures configuration.Snapshot() == old(configuration.Snapshot()).(activeBreakType := None)
      ensures Sent() == old(Sent()).(service := old(serviceCalls) + PauseIfActive(old(configuration.activeBreakType)))
      ensures old(configuration.activeBreakType) == None ==>
                configuration.Snapshot() == old(configuration.Snapshot()) && Sent() == old(Sent())
      ensures old(ServiceInSync()) ==> ServiceInSync()
    {
      ghost var wasInSync := ServiceInSync();
      if configuration.activeBreakType.Some? {
        if wasInSync {
          Extend(serviceCalls, PauseBreak);
        }
        serviceCalls := serviceCalls + [PauseBreak];
      }
      configuration.SetActiveBreakType(None);
    }

    /** Pause any active break, then make `breakType` the active one and start it. */
    method StartBreakTimer(breakType: BreakType)
      modifies this, configuration
      ensures configuration.Snapshot() == old(configuration.Snapshot()).(activeBreakType := Some(breakType))
      ensures Sent() == old(Sent()).(service := old(serviceCalls) + PauseIfActive(old(configuration.activeBreakType)) + [StartBreak(breakType)])
      ensures old(ServiceInSync()) ==> ServiceInSync()
    {
      ghost var wasInSync := ServiceInSync();
      ghost var before := serviceCalls;
      if configuration.activeBreakType.Some? {
        serviceCalls := serviceCalls + [PauseBreak];
      }
      configuration.SetActiveBreakType(Some(breakType));
      serviceCalls := serviceCalls + [StartBreak(breakType)];
      if wasInSync {
        SwitchBreak(before, PauseIfActive(old(configuration.activeBreakType)), breakType);
      }
    }

    /** Start the job timer, select the job button and hide the save button. */
    method StartTimer()
      modifies this, view
      ensures view.State() == old(view.State()).(jobSelected := true, saveVisible := false)
      ensures Sent() == old(Sent()).(service := old(serviceCalls) + [StartJob])
      ensures old(ServiceInSync()) ==> ServiceInSync()
    {
      if ServiceInSync() {
        Extend(serviceCalls, StartJob);
      }
      serviceCalls := serviceCalls + [StartJob];
      view.ActiveJobButton();
      view.HideSaveButton();
    }

    /** Deselect the job button and the three break buttons. */
    method DeactivateAllButtons()
      modifies view
      ensures view.State() == old(view.State()).(jobSelected := false, smokingSelected := false,
                                                 lunchSelected := false, otherSelected := false)
    {
      view.DeactivateJobButton();
      view.DeactivateSmokingButton();
      view.DeactivateLunchButton();
      view.DeactivateOtherButton();
    }

    /** Pause the job timer and any active break, deselect every button and show the save button. */
    method PauseTimer()
      modifies this, view, configuration
      ensures configuration.Snapshot() == old(configuration.Snapshot()).(activeBreakType := None)
      ensures view.State() == old(view.State()).(jobSelected := false, smokingSelected := false,
                                                 lunchSelected := false, otherSelected := false,
                                                 saveVisible := true)
      ensures Sent() == old(Sent()).(service := old(serviceCalls) + [PauseJob] + PauseIfActive(old(configuration.activeBreakType)))
      ensures old(ServiceInSync()) ==> ServiceInSync()
    {
      if ServiceInSync() {
        Extend(serviceCalls, PauseJob);
      }
      serviceCalls := serviceCalls + [PauseJob];
      PauseBreakTimer();
      DeactivateAllButtons();
      view.ShowSaveButton();
    }

    /** The timer button pauses a running job and starts one that is not running. */
    method OnTimerButtonClicked()
      modifies this, view, configuration
      ensures old(configuration.isRunning) ==>
        && configuration.Snapshot() == old(configuration.Snapshot()).(activeBreakType := None)
        && view.State() == old(view.State()).(jobSelected := false, smokingSelected := false,
                                              lunchSelected := false, otherSelected := false,
                                              saveVisible := true)
        && Sent() == old(Sent()).(service := old(serviceCalls) + [PauseJob] + PauseIfActive(old(configuration.activeBreakType)))
      ensures !old(configuration.isRunning) ==>
        && configuration.Snapshot() == old(configuration.Snapshot())
        && view.State() == old(view.State()).(jobSelected := true, saveVisible := false)
        && Sent() == old(Sent()).(service := old(serviceCalls) + [StartJob])
      ensures old(Consistent()) ==> Consistent()
    {
      if configuration.isRunning {
        PauseTimer();
      } else {
        StartTimer();
      }
    }

    /** Clicking the smoking item: `isSelected` is the item's current selection. */
    method OnSmokingItemClicked(isSelected: bool)
      modifies this, view, configuration
      ensures isSelected ==>
        && configuration.Snapshot() == old(configuration.Snapshot()).(activeBreakType := None)
        && view.State() == old(view.State()).(smokingSelected := false)
        && Sent() == old(Sent()).(service := old(serviceCalls) + PauseIfActive(old(configuration.activeBreakType)))
      ensures !isSelected ==>
        && configuration.Snapshot() == old(configuration.Snapshot()).(activeBreakType := Some(Smoking))
        && view.State() == OnlySelected(old(view.State()), Smoking).(jobSelected := true, saveVisible := false)
        && Sent() == old(Sent()).(service := old(serviceCalls) + PauseIfActive(old(configuration.activeBreakType))
                                             + [StartBreak(Smoking), StartJob])
      ensures old(Consistent()) && isSelected == old(view.smokingSelected) ==> Consistent()
    {
      if isSelected {
        PauseBreakTimer();
        view.DeactivateSmokingButton();
      } else {
        StartBreakTimer(Smoking);
        StartTimer();

        view.DeactivateOtherButton();
        view.DeactivateLunchButton();
        view.ActiveSmokingButton();
      }
    }

    /** Clicking the lunch item: `isSelected` is the item's current selection. */
    method OnLunchItemClicked(isSelected: bool)
      modifies this, view, configuration
      ensures isSelected ==>
        && configuration.Snapshot() == old(configuration.Snapshot()).(activeBreakType := None)
        && view.State() == old(view.State()).(lunchSelected := false)
        && Sent() == old(Sent()).(service := old(serviceCalls) + PauseIfActive(old(configuration.activeBreakType)))
      ensures !isSelected ==>
        && configuration.Snapshot() == old(configuration.Snapshot()).(activeBreakType := Some(Lunch))
        && view.State() == OnlySelected(old(view.State()), Lunch).(jobSelected := true, saveVisible := false)
        && Sent() == old(Sent()).(service := old(serviceCalls) + PauseIfActive(old(configuration.activeBreakType))
                                             + [StartBreak(Lunch), StartJob])
      ensures old(Consistent()) && isSelected == old(view.lunchSelected) ==> Consistent()
    {
      if isSelected {
        PauseBreakTimer();
        view.DeactivateLunchButton();
      } else {
        StartBreakTimer(Lunch);
        StartTimer();

        view.DeactivateOtherButton();
        view.DeactivateSmokingButton();
        view.ActiveLunchButton();
      }
    }

    /** Clicking the other-break item: `isSelected` is the item's current selection. */
    method OnOtherItemClicked(isSelected: bool)
      modifies this, view, configuration
      ensures isSelected ==>
        && configuration.Snapshot() == old(configuration.Snapshot()).(activeBreakType := None)
        && view.State() == old(view.State()).(otherSelected := false)
        && Sent() == old(Sent()).(service := old(serviceCalls) + PauseIfActive(old(configuration.activeBreakType)))
      ensures !isSelected ==>
        && configuration.Snapshot() == old(configuration.Snapshot()).(activeBreakType := Some(Other))
        && view.State() == OnlySelected(old(view.State()), Other).(jobSelected := true, saveVisible := false)
        && Sent() == old(Sent()).(service := old(serviceCalls) + PauseIfActive(old(configuration.activeBreakType))
                                             + [StartBreak(Other), StartJob])
      ensures old(Consistent()) && isSelected == old(view.otherSelected) ==> Consistent()
    {
      if isSelected {
        PauseBreakTimer();
        view.DeactivateOtherButton();
      } else {
        StartBreakTimer(Other);
        StartTimer();

        view.DeactivateSmokingButton();
        view.DeactivateLunchButton();
        view.ActiveOtherButton();
      }
    }

    /** A job tick: push it to the job-time subject and show it. */
    method OnJobTimeReceive(time: int)
      modifies this, view
      ensures view.State() == old(view.State()).(jobTime := Some(time))
      ensures Sent() == old(Sent()).(jobTimes := old(jobTimeSubject) + [time])
      ensures old(Consistent()) ==> Consistent()
    {
      jobTimeSubject := jobTimeSubject + [time];
      view.SetJobTime(time);
    }

    /** A break tick: the category's text shows its recorded time plus the
      * live `time`, the total text the recorded total plus `time`, and
      * `time` is pushed to the break-time subject. */
    method OnBreakTimeReceive(breakType: BreakType, time: int)
      modifies this, view
      ensures var shown := GetBreakTime(breakType, configuration.breakTimesList) + time;
              var total := GetBreakTotalTime(configuration.breakTimesList) + time;
              view.State() == (match breakType
                               case Lunch => old(view.State()).(lunchTimeText := Some(shown))
                               case Smoking => old(view.State()).(smokingTimeText := Some(shown))
                               case Other => old(view.State()).(otherTimeText := Some(shown))
                              ).(breakTotalTime := Some(total))
      ensures Sent() == old(Sent()).(breakTimes := old(breakTimeSubject) + [time])
      ensures old(Consistent()) ==> Consistent()
    {
      var breakTime := GetBreakTime(breakType, configuration.breakTimesList) + time;
      match breakType {
        case Lunch => view.SetLunchTimeText(breakTime);
        case Smoking => view.SetSmokingTimeText(breakTime);
        case Other => view.SetOtherTimeText(breakTime);
      }
      breakTimeSubject := breakTimeSubject + [time];
      view.SetBreakTotalTime(GetBreakTotalTime(configuration.breakTimesList) + time);
    }

    /** On connecting to the service a zero break tick is pushed. */
    method OnServiceConnect()
      modifies this
      ensures Sent() == old(Sent()).(breakTimes := old(breakTimeSubject) + [0])
      ensures old(Consistent()) ==> Consistent()
    {
      breakTimeSubject := breakTimeSubject + [0];
    }

    /** Save the shift (job time and recorded breaks, stamped `now`), then
      * go to the summary screen. */
    method OnSaveClicked(now: int)
      modifies this
      ensures Sent() == old(Sent()).(collaborators := old(collaboratorCalls)
          + [SaveWorkTime(WorkTime(configuration.totalJobTimeThatPass, configuration.breakTimesList, now)),
             NavigateToSummaryScreen])
      ensures old(Consistent()) ==> Consistent()
    {
      var workTime := WorkTime(configuration.totalJobTimeThatPass, configuration.breakTimesList, now);
      collaboratorCalls := collaboratorCalls + [SaveWorkTime(workTime)];

      collaboratorCalls := collaboratorCalls + [NavigateToSummaryScreen];
    }
  }

  /** A short shift driven through the presenter as the screen does it: the
    * job is started, a smoking break is selected and deselected again, and
    * the shift is saved. Recording finished breaks is the timer service's
    * work, so the saved break list is still empty. */
  method SmokingBreakShift(now: int, layout: ViewState)
  {
    var configuration := new TimerConfigurationImpl(now);
    var view := new View(layout.(smokingSelected := false, lunchSelected := false, otherSelected := false));
    var presenter := new MainFragmentPresenter(view, configuration);
    assert presenter.Consistent();
    presenter.OnTimerButtonClicked();
    assert presenter.Consistent();
    presenter.OnSmokingItemClicked(view.smokingSelected);
    assert presenter.Consistent();
    assert configuration.activeBreakType == Some(Smoking) && view.smokingSelected;
    presenter.OnSmokingItemClicked(view.smokingSelected);
    assert presenter.Consistent();
    presenter.OnSaveClicked(now);
    assert presenter.Consistent();
    assert configuration.activeBreakType == None && !view.smokingSelected;
    assert presenter.serviceCalls == [StartJob, StartBreak(Smoking), StartJob, PauseBreak];
    assert presenter.collaboratorCalls == [SaveWorkTime(WorkTime(0, [], now)), NavigateToSummaryScreen];
  }
}
