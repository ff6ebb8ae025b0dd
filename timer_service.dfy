/**
 * The timer service as the presenter sees it: a collaborator whose calls
 * are kept, in order, as a command log. How the service reacts to them
 * (its tick streams, `isRunning`) is not part of this model.
 */
module TimerService {
  import opened Data

  datatype ServiceCommand = StartJob | PauseJob | StartBreak(breakType: BreakType) | PauseBreak

  /** How one command changes the number of breaks the service has running. */
  function Delta(c: ServiceCommand): int
  {
    match c
    case StartBreak(_) => 1
    case PauseBreak => -1
    case _ => 0
  }

  /** Breaks started minus breaks paused over the log. */
  function OpenBreaks(log: seq<ServiceCommand>): int
  {
    if log == [] then 0 else OpenBreaks(log[..|log| - 1]) + Delta(log[|log| - 1])
  }

  /** After every prefix of the log, no break or exactly one is running:
    * a break is never paused when none runs and never started over another. */
  ghost predicate NeverTwoBreaks(log: seq<ServiceCommand>)
  {
    forall k :: 0 <= k <= |log| ==> 0 <= OpenBreaks(log[..k]) <= 1
  }

  lemma OpenBreaksStep(log: seq<ServiceCommand>, m: nat)
    requires 0 < m <= |log|
    ensures OpenBreaks(log[..m]) == OpenBreaks(log[..m - 1]) + Delta(log[m - 1])
  {
    assert log[..m][..m - 1] == log[..m - 1];
  }

  /** Appending a command that keeps the open count in {0, 1} keeps the log well formed. */
  lemma Extend(log: seq<ServiceCommand>, c: ServiceCommand)
    requires NeverTwoBreaks(log)
    requires 0 <= OpenBreaks(log) + Delta(c) <= 1
    ensures OpenBreaks(log + [c]) == OpenBreaks(log) + Delta(c)
    ensures NeverTwoBreaks(log + [c])
  {
    var extended := log + [c];
    assert extended[..|extended| - 1] == log;
    forall k | 0 <= k <= |extended|
      ensures 0 <= OpenBreaks(extended[..k]) <= 1
    {
      if k <= |log| {
        assert extended[..k] == log[..k];
      } else {
        assert extended[..k] == extended;
      }
    }
  }

  /** Pausing the running break, if there is one, and then starting a new
    * one keeps the log well formed and leaves exactly one break running. */
  lemma SwitchBreak(log: seq<ServiceCommand>, pause: seq<ServiceCommand>, t: BreakType)
    requires NeverTwoBreaks(log)
    requires (pause == [PauseBreak] && OpenBreaks(log) == 1) || (pause == [] && OpenBreaks(log) == 0)
    ensures NeverTwoBreaks(log + pause + [StartBreak(t)])
    ensures OpenBreaks(log + pause + [StartBreak(t)]) == 1
  {
    if pause == [] {
      assert log + pause == log;
    } else {
      Extend(log, PauseBreak);
    }
    Extend(log + pause, StartBreak(t));
  }

  lemma {:induction false} NoPauseNoDecrease(log: seq<ServiceCommand>, n: nat, m: nat)
    requires n <= m <= |log|
    requires forall k :: n <= k < m ==> log[k] != PauseBreak
    ensures OpenBreaks(log[..m]) >= OpenBreaks(log[..n])
  {
    if n < m {
      NoPauseNoDecrease(log, n, m - 1);
      OpenBreaksStep(log, m);
    }
  }

  /** In a well-formed log, between any two `StartBreak` commands the
    * service is told `PauseBreak`: two breaks never run at once. */
  lemma BreaksNeverOverlap(log: seq<ServiceCommand>, i: nat, j: nat)
    requires NeverTwoBreaks(log)
    requires i < j < |log| && log[i].StartBreak? && log[j].StartBreak?
    ensures exists k :: i < k < j && log[k] == PauseBreak
  {
    if forall k :: i < k < j ==> log[k] != PauseBreak {
      OpenBreaksStep(log, i + 1);
      NoPauseNoDecrease(log, i + 1, j);
      OpenBreaksStep(log, j + 1);
      assert false;
    }
  }
}
