# Roger work-shift timer: a Dafny model of the main-screen presenter

Roger is a work-shift timer. The user starts and pauses a job timer and records
breaks of three kinds (lunch, smoking, other). The app draws elapsed job time and
the breaks on a circular dial and saves each finished shift. This project models
the logic behind the main screen:

- `TimerConfig` holds the mutable session record `TimerConfigurationImpl`. It is a
  class with one field per Kotlin `var`, a constructor, and one setter per field.
- `BreakLedger` holds the break totals. These are integer sums of
  `stopTimestamp - startTimestamp` over all recorded breaks, or over the breaks of one type.
- `ProgressAngle` converts a duration to a dial angle and builds one wedge per break.
  The live break time is then added to the last wedge's sweep.
- `TimerService` holds the commands the presenter sends to the timer service, as a
  log, and the rule that the log never runs two breaks at once.
- `MainFragmentView` models the screen as state: four button selections, the
  save button's visibility, and the last value given to each time text.
- `Presenter` holds the presenter `MainFragmentPresenter`. It covers the
  job/break toggle state machine, the tick handlers and the save handler.

Durations and timestamps are milliseconds held in unbounded `int`s. Angles are
exact `real`s.

Decisions about the source:

- The angle formula is modelled as written: `time * 360 / (8 * 60 * 1000)`.
  `SECONDS_IN_MINUTS` is declared but never used, so one full turn of the dial is
  480 000 ms (8 minutes), and an 8-hour shift is 60 turns (`AngleScale`). Under an
  8-hour target, one hour of job time would sit at 45 degrees. As written it sits at
  2700 degrees (`SmokingBreakScenario`). The source marks this with a to-do comment,
  and nothing clamps the angle.
- `pauseBreakTimer` and `startBreakTimer` read and assign `activeBreakType` inside
  `with(view)`. No declaration of that name in these files belongs to the view. The model
  uses the configuration's `activeBreakType`, the only declared slot of that name.
- The presenter imports `BreakType` from `pl.jurassic.roger.util.timer`
  (MainFragmentPresenter.kt:18), while the record imports `pl.jurassic.roger.data.BreakType`
  (TimerConfigurationImpl.kt:5). Neither declaration is part of this model; both are taken to
  be the same three kinds of break, merged into the single `Data.BreakType`.
- The presenter never assigns `isRunning`. The timer service presumably does that
  in response to `startJobTimer`/`pauseJobTimer`, and that code is not part of this
  model. So `isRunning` is an input: `OnTimerButtonClicked` branches on it, and every
  contract says that it is unchanged.
- Every text on the screen goes through a formatter that is not shown
  (`DateFormatter.parseTime`). The view records the millisecond value given to the
  formatter, and `None` means the text was never set.
- The Android layout decides the screen's initial state, so `View`'s constructor
  takes that state as a parameter. `DateTime.now()` is a parameter too: `now` of
  `TimerConfigurationImpl`'s constructor and of `OnSaveClicked`.
- Clicking a break item passes that item's current selection (MainFragment.kt:69-71).
  The invariant `Consistent()` says two things. First, the break buttons show exactly
  the active break. Second, the service command log never has two breaks open and has
  one open exactly when a break is active. Every handler preserves `Consistent()`
  when it is called that way.

## Model

| member | source | states |
|---|---|---|
| `TimerConfig.TimerConfigurationImpl.constructor` | app/src/main/kotlin/pl/jurassic/roger/util/timer/TimerConfigurationImpl.kt:9-19 | a fresh record is not running, has no active break, zero job time and zero `timeThatPass`, an empty break list, and `startJobTime` equal to the clock reading at creation |
| `TimerConfig.TimerConfigurationImpl.SetIsRunning` | app/src/main/kotlin/pl/jurassic/roger/util/timer/TimerConfigurationImpl.kt:9 | assigns `isRunning`; every other field is unchanged |
| `TimerConfig.TimerConfigurationImpl.SetActiveBreakType` | app/src/main/kotlin/pl/jurassic/roger/util/timer/TimerConfigurationImpl.kt:11 | assigns `activeBreakType`; every other field is unchanged |
| `TimerConfig.TimerConfigurationImpl.SetTotalJobTimeThatPass` | app/src/main/kotlin/pl/jurassic/roger/util/timer/TimerConfigurationImpl.kt:13 | assigns `totalJobTimeThatPass`; every other field is unchanged |
| `TimerConfig.TimerConfigurationImpl.SetTimeThatPass` | app/src/main/kotlin/pl/jurassic/roger/util/timer/TimerConfigurationImpl.kt:15 | assigns `timeThatPass`; every other field is unchanged |
| `TimerConfig.TimerConfigurationImpl.SetStartJobTime` | app/src/main/kotlin/pl/jurassic/roger/util/timer/TimerConfigurationImpl.kt:17 | assigns `startJobTime`; every other field is unchanged |
| `TimerConfig.TimerConfigurationImpl.SetBreakTimesList` | app/src/main/kotlin/pl/jurassic/roger/util/timer/TimerConfigurationImpl.kt:19 | assigns `breakTimesList`; every other field is unchanged |
| `BreakLedger.GetBreakTotalTime` | app/src/main/kotlin/pl/jurassic/roger/feature/main/presentation/MainFragmentPresenter.kt:109-110 | the sum of `stop - start` over every break, as the source's fold; zero for no breaks, and never negative when every stop is at or after its start; further characterised by `TotalAppend` (additive over concatenation) and `RecordBreak` |
| `BreakLedger.GetBreakTime` | app/src/main/kotlin/pl/jurassic/roger/feature/main/presentation/MainFragmentPresenter.kt:112-115 | the sum of `stop - start` over the breaks of one type, as the source's filter-then-fold; zero when no break has that type; further characterised by `BreakTimeAppend`, `RecordBreak` (a new break counts for its own type only), `TotalIsSumOfTypes` and `BreakTimeBounded` |
| `BreakLedger.FilterByType` | app/src/main/kotlin/pl/jurassic/roger/feature/main/presentation/MainFragmentPresenter.kt:113-114 | the filtered list is no longer than the input, every element has the given type, and a break is in it exactly when it is in the input with that type |
| `BreakLedger.FilterByTypeCounts` | app/src/main/kotlin/pl/jurassic/roger/feature/main/presentation/MainFragmentPresenter.kt:113-114 | the filtered list holds every break of the given type exactly as many times as the input does, and no break of another type |
| `BreakLedger.TotalAppend` | app/src/main/kotlin/pl/jurassic/roger/feature/main/presentation/MainFragmentPresenter.kt:109-110 | the total break time of a concatenation is the sum of the two totals |
| `BreakLedger.FilterAppend` | app/src/main/kotlin/pl/jurassic/roger/feature/main/presentation/MainFragmentPresenter.kt:112-115 | filtering by type distributes over concatenation and keeps order |
| `BreakLedger.BreakTimeAppend` | app/src/main/kotlin/pl/jurassic/roger/feature/main/presentation/MainFragmentPresenter.kt:112-115 | the per-type break time of a concatenation is the sum of the two per-type times |
| `BreakLedger.RecordBreak` | app/src/main/kotlin/pl/jurassic/roger/feature/main/presentation/MainFragmentPresenter.kt:109-115 | recording one more break adds its duration to the total, and to the time of its own type only |
| `BreakLedger.TotalIsSumOfTypes` | app/src/main/kotlin/pl/jurassic/roger/feature/main/presentation/MainFragmentPresenter.kt:109-115 | the total break time equals lunch time plus smoking time plus other time |
| `BreakLedger.BreakTimeBounded` | app/src/main/kotlin/pl/jurassic/roger/feature/main/presentation/MainFragmentPresenter.kt:109-115 | with well-ordered breaks, each type's time lies between 0 and the total |
| `ProgressAngle.CountProgressAngle` | app/src/main/kotlin/pl/jurassic/roger/feature/main/presentation/MainFragmentPresenter.kt:95-96 | the source's formula `time * 360 / (8 * 60 * 1000)` over reals; zero exactly for a zero duration and positive exactly for a positive one; further characterised by `AngleOfZero`, `AngleLinear`, `AngleMonotonic` and `AngleScale` |
| `ProgressAngle.AngleOfZero` | app/src/main/kotlin/pl/jurassic/roger/feature/main/presentation/MainFragmentPresenter.kt:95-96 | a zero duration maps to a zero angle |
| `ProgressAngle.AngleLinear` | app/src/main/kotlin/pl/jurassic/roger/feature/main/presentation/MainFragmentPresenter.kt:95-96 | the angle of a sum or difference of durations is the sum or difference of their angles |
| `ProgressAngle.AngleMonotonic` | app/src/main/kotlin/pl/jurassic/roger/feature/main/presentation/MainFragmentPresenter.kt:95-96 | a longer duration never maps to a smaller angle |
| `ProgressAngle.AngleScale` | app/src/main/kotlin/pl/jurassic/roger/feature/main/presentation/MainFragmentPresenter.kt:32-38 | as written, 480 000 ms is one full turn and durations within it map into [0, 360]; 8 hours map to 21600 degrees |
| `ProgressAngle.ProgressAngleList` | app/src/main/kotlin/pl/jurassic/roger/feature/main/presentation/MainFragmentPresenter.kt:118-123 | one wedge per break, in order: start angle from the job time before the break, sweep from its duration, and its type |
| `ProgressAngle.ProgressAngleListUnique` | app/src/main/kotlin/pl/jurassic/roger/feature/main/presentation/MainFragmentPresenter.kt:117-124 | the description of the wedge list fixes the list: two lists that meet it are equal |
| `ProgressAngle.NoLiveTime` | app/src/main/kotlin/pl/jurassic/roger/feature/main/presentation/MainFragmentPresenter.kt:117-124 | with no live break time, each sweep read back is exactly the angle of stop minus start |
| `ProgressAngle.TransformToProgressAngleList` | app/src/main/kotlin/pl/jurassic/roger/feature/main/presentation/MainFragmentPresenter.kt:117-124 | same length and order as the breaks; every start angle and type as recorded; every sweep but the last untouched; the last sweep grown by the angle of the live time; no breaks gives no wedges and drops the live time |
| `ProgressAngle.CombineProgressAngles` | app/src/main/kotlin/pl/jurassic/roger/feature/main/presentation/MainFragmentPresenter.kt:44-48 | the combined payload is the angle of the latest job tick together with the wedges for the latest break tick |
| `ProgressAngle.SmokingBreakScenario` | app/src/main/kotlin/pl/jurassic/roger/feature/main/presentation/MainFragmentPresenter.kt:95-123 | a 5-minute smoking break after 1 h of job time gives 300 000 ms of smoking time, none of lunch, and a wedge starting at 2700 degrees with a 225-degree sweep |
| `TimerService.Extend` | app/src/main/kotlin/pl/jurassic/roger/feature/main/presentation/MainFragmentPresenter.kt:143-152 | sending a command that keeps the number of running breaks at 0 or 1 keeps the command log well formed |
| `TimerService.SwitchBreak` | app/src/main/kotlin/pl/jurassic/roger/feature/main/presentation/MainFragmentPresenter.kt:148-152 | pausing the running break, if any, and then starting a new one keeps the log well formed with exactly one break running |
| `TimerService.BreaksNeverOverlap` | app/src/main/kotlin/pl/jurassic/roger/feature/main/presentation/MainFragmentPresenter.kt:148-152 | in a well-formed log, a pause-break command lies between any two start-break commands |
| `MainFragmentView.View.constructor` | app/src/main/kotlin/pl/jurassic/roger/feature/main/ui/MainFragment.kt:29-34 | the screen starts in the state the layout gives |
| `MainFragmentView.View.ActiveJobButton` | app/src/main/kotlin/pl/jurassic/roger/feature/main/ui/MainFragment.kt:130-132 | selects the job button only |
| `MainFragmentView.View.DeactivateJobButton` | app/src/main/kotlin/pl/jurassic/roger/feature/main/ui/MainFragment.kt:126-128 | deselects the job button only |
| `MainFragmentView.View.ActiveSmokingButton` | app/src/main/kotlin/pl/jurassic/roger/feature/main/ui/MainFragment.kt:102-104 | selects the smoking button only |
| `MainFragmentView.View.DeactivateSmokingButton` | app/src/main/kotlin/pl/jurassic/roger/feature/main/ui/MainFragment.kt:106-108 | deselects the smoking button only |
| `MainFragmentView.View.ActiveLunchButton` | app/src/main/kotlin/pl/jurassic/roger/feature/main/ui/MainFragment.kt:110-112 | selects the lunch button only |
| `MainFragmentView.View.DeactivateLunchButton` | app/src/main/kotlin/pl/jurassic/roger/feature/main/ui/MainFragment.kt:114-116 | deselects the lunch button only |
| `MainFragmentView.View.ActiveOtherButton` | app/src/main/kotlin/pl/jurassic/roger/feature/main/ui/MainFragment.kt:118-120 | selects the other-break button only |
| `MainFragmentView.View.DeactivateOtherButton` | app/src/main/kotlin/pl/jurassic/roger/feature/main/ui/MainFragment.kt:122-124 | deselects the other-break button only |
| `MainFragmentView.View.ShowSaveButton` | app/src/main/kotlin/pl/jurassic/roger/feature/main/ui/MainFragment.kt:151-154 | makes the save button visible and changes nothing else |
| `MainFragmentView.View.HideSaveButton` | app/src/main/kotlin/pl/jurassic/roger/feature/main/ui/MainFragment.kt:146-149 | hides the save button and changes nothing else |
| `MainFragmentView.View.SetJobTime` | app/src/main/kotlin/pl/jurassic/roger/feature/main/ui/MainFragment.kt:94-96 | the job text shows the given time; nothing else changes |
| `MainFragmentView.View.SetBreakTotalTime` | app/src/main/kotlin/pl/jurassic/roger/feature/main/ui/MainFragment.kt:98-100 | the total-break text shows the given time; nothing else changes |
| `MainFragmentView.View.SetSmokingTimeText` | app/src/main/kotlin/pl/jurassic/roger/feature/main/ui/MainFragment.kt:138-140 | the smoking text shows the given time; nothing else changes |
| `MainFragmentView.View.SetLunchTimeText` | app/src/main/kotlin/pl/jurassic/roger/feature/main/ui/MainFragment.kt:134-136 | the lunch text shows the given time; nothing else changes |
| `MainFragmentView.View.SetOtherTimeText` | app/src/main/kotlin/pl/jurassic/roger/feature/main/ui/MainFragment.kt:142-144 | the other-break text shows the given time; nothing else changes |
| `Presenter.PauseClosesBreak` | app/src/main/kotlin/pl/jurassic/roger/feature/main/presentation/MainFragmentPresenter.kt:143-146 | when the service runs a break exactly when one is active, the pause call leaves its log well formed with no break running |
| `Presenter.MainFragmentPresenter.constructor` | app/src/main/kotlin/pl/jurassic/roger/feature/main/presentation/MainFragmentPresenter.kt:22-30 | nothing has been sent yet; with no active break the service log is in sync |
| `Presenter.MainFragmentPresenter.PauseBreakTimer` | app/src/main/kotlin/pl/jurassic/roger/feature/main/presentation/MainFragmentPresenter.kt:143-146 | afterwards no break is active; `PauseBreak` is sent exactly when one was, and at most once; with no active break nothing changes and nothing is sent; the service log stays in sync |
| `Presenter.MainFragmentPresenter.StartBreakTimer` | app/src/main/kotlin/pl/jurassic/roger/feature/main/presentation/MainFragmentPresenter.kt:148-152 | sends `PauseBreak` first exactly when a break was active (at most once), then `StartBreak(t)`; `t` becomes the one active break; the service log stays in sync |
| `Presenter.MainFragmentPresenter.StartTimer` | app/src/main/kotlin/pl/jurassic/roger/feature/main/presentation/MainFragmentPresenter.kt:70-74 | sends `StartJob`, selects the job button and hides the save button; nothing else changes |
| `Presenter.MainFragmentPresenter.DeactivateAllButtons` | app/src/main/kotlin/pl/jurassic/roger/feature/main/presentation/MainFragmentPresenter.kt:83-88 | deselects all four buttons and changes nothing else on the screen |
| `Presenter.MainFragmentPresenter.PauseTimer` | app/src/main/kotlin/pl/jurassic/roger/feature/main/presentation/MainFragmentPresenter.kt:76-81 | sends `PauseJob`, then `PauseBreak` if a break was active; clears the active break; deselects all four buttons; shows the save button |
| `Presenter.MainFragmentPresenter.OnTimerButtonClicked` | app/src/main/kotlin/pl/jurassic/roger/feature/main/presentation/MainFragmentPresenter.kt:63-68 | when running, behaves as `PauseTimer`; otherwise sends `StartJob`, selects the job button, hides save, and leaves the record unchanged; `Consistent()` is preserved |
| `Presenter.MainFragmentPresenter.OnSmokingItemClicked` | app/src/main/kotlin/pl/jurassic/roger/feature/main/presentation/MainFragmentPresenter.kt:126-141 | if not selected: smoking becomes the active break, its button alone of the three is selected, the job button is selected, save is hidden, and `[PauseBreak]?`, `StartBreak(Smoking)`, `StartJob` are sent; if selected: the active break is cleared and only the smoking button is deselected; `Consistent()` is preserved when `isSelected` is the button's current selection |
| `Presenter.MainFragmentPresenter.OnLunchItemClicked` | app/src/main/kotlin/pl/jurassic/roger/feature/main/presentation/MainFragmentPresenter.kt:154-169 | the same for lunch, with `Consistent()` preserved when `isSelected` is the button's current selection |
| `Presenter.MainFragmentPresenter.OnOtherItemClicked` | app/src/main/kotlin/pl/jurassic/roger/feature/main/presentation/MainFragmentPresenter.kt:171-186 | the same for the other-break item, with `Consistent()` preserved when `isSelected` is the button's current selection |
| `Presenter.MainFragmentPresenter.OnJobTimeReceive` | app/src/main/kotlin/pl/jurassic/roger/feature/main/presentation/MainFragmentPresenter.kt:90-93 | pushes the tick to the job-time subject and shows it as the job text; nothing else changes |
| `Presenter.MainFragmentPresenter.OnBreakTimeReceive` | app/src/main/kotlin/pl/jurassic/roger/feature/main/presentation/MainFragmentPresenter.kt:98-107 | the tick's type text shows that type's recorded time plus the tick; the total text shows the recorded total plus the tick; the tick is pushed to the break-time subject; the record is untouched |
| `Presenter.MainFragmentPresenter.OnServiceConnect` | app/src/main/kotlin/pl/jurassic/roger/feature/main/presentation/MainFragmentPresenter.kt:59-61 | pushes a zero break tick and nothing else |
| `Presenter.MainFragmentPresenter.OnSaveClicked` | app/src/main/kotlin/pl/jurassic/roger/feature/main/presentation/MainFragmentPresenter.kt:188-193 | saves a `WorkTime` of the job time, the unchanged break list and `now`, then navigates to the summary, in that order; the record is untouched |

## Left out

- The reactive plumbing is left out: `initialize`, `clear`, `combineLatest`, the schedulers and the disposables. Only the pure combination `CombineProgressAngles` is modelled. It takes the break list as of the latest break tick.
- `TimerService` internals are not part of this model: how it updates `isRunning`, the tick streams, and the appending of finished breaks to `breakTimesList`.
- Starting a break does not show the job clock running again. Selecting a break sends `StartJob`, but the service sets `isRunning`, so no contract concludes `isRunning == true` afterwards.
- The notification pause/resume handlers are not part of this model. The view calls them (MainFragment.kt:44-45), but `MainFragmentPresenter.kt` does not define them.
- `DateFormatter.parseTime` is a foreign call. The texts record the millisecond value given to it instead of the formatted string.
- `Repository.saveWorkTime` and `Router.navigateToSummaryScreen` are recorded as calls in order. Their effects are not part of this model.
- Aliasing is not modelled. The source hands the configuration's own `ArrayList` to `WorkTime`, and the model hands over a value snapshot of the list.
- `BreakProgressAngle` stores the break's colour resource. The model keeps the break type it is derived from.
- `CountProgressAngle` computes with exact reals, not 32-bit `Float`. No claim is made about rounding.
- The break sums use unbounded integers, so `sumByLong`'s 64-bit overflow is not modelled.
- Android view binding, service binding, fragment lifecycle, dependency injection and the debug tooling (MainFragment.kt, BaseFragment.kt, RogerApp.kt) are UI and process lifecycle, not logic.
