/** The alert shown when the daemon does not answer in time: a status shared by
    all waiting threads, changed under timeout_mtx, and a dialog that is shown
    without it. */
module TimeoutAlert {
  type Tid = nat

  datatype Status = NoAlert | Processing | DeadDaemon

  datatype Response = ForceEject | KeepTrying | DontWarnAgain | NoSelection | Unknown

  // warning is daemon_timeout_p being set, which a thread reads as it goes to sleep;
  // sleepers are the threads asleep with a timeout; noAlerts is a mount option; dead
  // is FSESS_DEAD; inDialog are the threads the alert is showing for.
  datatype State = State(
    status: Status,
    dead: bool,
    warning: bool,
    noAlerts: bool,
    sleepers: set<Tid>,
    inDialog: set<Tid>)

  datatype Step =
    | Sleep(tid: Tid)
    | Wake(tid: Tid)     // an answer or a signal
    | Timeout(tid: Tid)
    | Respond(tid: Tid, r: Response)
    | SetDaemonDead
    | Close

  predicate Enabled(s: State, step: Step) {
    match step
    case Sleep(t) => t !in s.sleepers && t !in s.inDialog
    case Wake(t) => t in s.sleepers
    case Timeout(t) => t in s.sleepers
    case Respond(t, _) => t in s.inDialog
    case _ => true
  }

  function DoSleep(s: State, t: Tid): State {
    s.(sleepers := if s.warning then s.sleepers + {t} else s.sleepers - {t})
  }

  // A wait that times out: show the alert, wait on, or give up.
  function DoTimeout(s: State, t: Tid): State {
    var up := s.(sleepers := s.sleepers - {t});
    if s.noAlerts then up.(status := DeadDaemon, dead := true)
    else match s.status
      case NoAlert => up.(status := Processing, inDialog := s.inDialog + {t})
      case Processing => DoSleep(s, t)
      case DeadDaemon => up.(dead := true)
  }

  function DoRespond(s: State, t: Tid, r: Response): State {
    var s' := s.(inDialog := s.inDialog - {t});
    if r == ForceEject || r == Unknown then s'.(status := DeadDaemon, dead := true)
    else DoSleep(s'.(status := NoAlert, warning := s.warning && r != DontWarnAgain), t)
  }

  function Apply(s: State, step: Step): State {
    match step
    case Sleep(t) => DoSleep(s, t)
    case Wake(t) => s.(sleepers := s.sleepers - {t})
    case Timeout(t) => DoTimeout(s, t)
    case Respond(t, r) => DoRespond(s, t, r)
    case SetDaemonDead => s.(status := DeadDaemon, dead := true)
    case Close => s.(dead := true)
  }

  ghost predicate Runs(s: State, steps: seq<Step>, s': State)
    decreases |steps|
  {
    if steps == [] then s == s' else Enabled(s, steps[0]) && Runs(Apply(s, steps[0]), steps[1..], s')
  }

  function Start(noAlerts: bool, warning: bool): State { State(NoAlert, false, warning, noAlerts, {}, {}) }

  ghost predicate OneAlert(s: State) {
    && |s.inDialog| <= 1 && s.inDialog !! s.sleepers
    && (s.status == Processing ==> |s.inDialog| == 1)
    && (s.inDialog != {} ==> s.status != NoAlert)
  }

  lemma StepKeepsOneAlert(s: State, step: Step)
    requires OneAlert(s) && Enabled(s, step)
    ensures OneAlert(Apply(s, step)) && (s.dead ==> Apply(s, step).dead)
  {
  }

  // For any mix of timeouts, answers and the ioctl: at most one thread shows the
  // alert; PROCESSING means exactly one does; and while one does the status is not
  // NONE. A session that is dead stays dead.
  lemma {:induction false} AtMostOneAlert(s: State, steps: seq<Step>, s': State)
    requires OneAlert(s) && Runs(s, steps, s')
    ensures OneAlert(s') && (s.dead ==> s'.dead)
    decreases |steps|
  {
    if steps != [] {
      StepKeepsOneAlert(s, steps[0]);
      AtMostOneAlert(Apply(s, steps[0]), steps[1..], s');
    }
  }

  lemma RunsFromStart(noAlerts: bool, warning: bool, steps: seq<Step>, s: State)
    requires Runs(Start(noAlerts, warning), steps, s)
    ensures OneAlert(s)
  {
    AtMostOneAlert(Start(noAlerts, warning), steps, s);
  }

  // What declares the session dead: the daemon's own word, the close of the device,
  // an alert that is answered with Force Eject or cannot be understood, and a timeout
  // if the mount wants no alerts.
  predicate Declares(noAlerts: bool, step: Step) {
    match step
    case SetDaemonDead => true
    case Close => true
    case Respond(_, r) => r == ForceEject || r == Unknown
    case Timeout(_) => noAlerts
    case _ => false
  }

  predicate Silences(step: Step) { step.Respond? && step.r == DontWarnAgain }

  // The session is dead or declared dead by the step; the warnings are off or
  // switched off by it.
  lemma StepDeclares(s: State, step: Step)
    requires s.status == DeadDaemon ==> s.dead
    ensures var s' := Apply(s, step);
            && s'.noAlerts == s.noAlerts
            && (s'.dead <==> s.dead || Declares(s.noAlerts, step))
            && (s'.status == DeadDaemon ==> s'.dead)
            && (s'.warning <==> s.warning && !Silences(step))
  {
  }

  lemma {:induction false} RunDeclares(s: State, steps: seq<Step>, s': State)
    requires Runs(s, steps, s') && (s.status == DeadDaemon ==> s.dead)
    ensures s'.dead <==> s.dead || exists i :: 0 <= i < |steps| && Declares(s.noAlerts, steps[i])
    ensures s'.warning <==> s.warning && forall i | 0 <= i < |steps| :: !Silences(steps[i])
    decreases |steps|
  {
    if steps != [] {
      var s1 := Apply(s, steps[0]);
      StepDeclares(s, steps[0]);
      RunDeclares(s1, steps[1..], s');
      assert forall i | 0 <= i < |steps| - 1 :: steps[1..][i] == steps[i + 1];
      assert forall i | 0 < i < |steps| :: steps[i] == steps[1..][i - 1];
    }
  }

  // Over every run: the session is dead exactly if something declared it dead, so
  // Keep Trying and the other answers never do; and the waits are untimed exactly if
  // they were from the start or Don't Warn Again was chosen.
  lemma DeadExactly(noAlerts: bool, warning: bool, steps: seq<Step>, s: State)
    requires Runs(Start(noAlerts, warning), steps, s)
    ensures s.dead <==> exists i :: 0 <= i < |steps| && Declares(noAlerts, steps[i])
    ensures s.warning <==> warning && forall i | 0 <= i < |steps| :: !Silences(steps[i])
  {
    RunDeclares(Start(noAlerts, warning), steps, s);
  }

  // In every state with one alert at most, a timeout puts one up exactly if alerts
  // are wanted, none is up and the daemon was not given up; while one is up, the
  // thread goes back to sleep with the timeout as it then is; otherwise it ends its
  // wait. An answer that does not end the session sends the thread back to sleep.
  lemma TimeoutOutcome(s: State, t: Tid)
    requires OneAlert(s) && Enabled(s, Timeout(t))
    ensures var s' := Apply(s, Timeout(t));
            && s'.inDialog == (if !s.noAlerts && s.inDialog == {} && s.status != DeadDaemon then {t} else s.inDialog)
            && s'.sleepers == (if !s.noAlerts && s.status == Processing && s.warning then s.sleepers
                               else s.sleepers - {t})
  {
    if s.status == NoAlert { assert s.inDialog == {}; }
  }

  // A thread sleeps with a timeout until it is woken, and only if there is one when it
  // goes to sleep; nobody else's step changes that.
  lemma SleepersOutcome(s: State, step: Step, u: Tid)
    requires OneAlert(s) && Enabled(s, step)
    ensures step == Sleep(u) ==> (u in Apply(s, step).sleepers <==> s.warning)
    ensures step == Wake(u) ==> u !in Apply(s, step).sleepers
    ensures (step.Sleep? || step.Wake? || step.Timeout? || step.Respond? ==> step.tid != u) ==>
              (u in Apply(s, step).sleepers <==> u in s.sleepers) && (u in Apply(s, step).inDialog <==> u in s.inDialog)
  {
  }

  lemma RespondOutcome(s: State, t: Tid, r: Response)
    requires OneAlert(s) && Enabled(s, Respond(t, r))
    ensures var s' := Apply(s, Respond(t, r));
            && s'.inDialog == {} && s'.dead == (s.dead || r == ForceEject || r == Unknown)
            && s'.status == (if r == ForceEject || r == Unknown then DeadDaemon else NoAlert)
            && s'.sleepers == (if r != ForceEject && r != Unknown && r != DontWarnAgain && s.warning
                               then s.sleepers + {t} else s.sleepers)
  {
    AloneIn(s.inDialog, t);
  }

  lemma AloneIn(S: set<Tid>, t: Tid)
    requires t in S && |S| <= 1
    ensures S - {t} == {}
  {
    assert |S - {t}| == |S| - 1;
  }

  // The status, unlike the session, can come back from the dead: an answer that
  // arrives after the ioctl resets it.
  lemma StatusForgetsDeath(t: Tid)
    ensures var s1 := Apply(Start(false, true), Sleep(t));
            var s2 := Apply(Apply(s1, Timeout(t)), SetDaemonDead);
            && Enabled(Start(false, true), Sleep(t)) && Enabled(s1, Timeout(t)) && Enabled(s2, Respond(t, KeepTrying))
            && s2.status == DeadDaemon && Apply(s2, Respond(t, KeepTrying)).status == NoAlert
  {
  }

  // ------------------------------------------------ the code in place

  class Alert {
    var status: Status
    var dead: bool
    var warning: bool
    const noAlerts: bool
    ghost var sleepers: set<Tid>
    ghost var inDialog: set<Tid>

    ghost function View(): State
      reads this
    {
      State(status, dead, warning, noAlerts, sleepers, inDialog)
    }

    // msleep with the timeout that daemon_timeout_p gives, if any.
    method GoToSleep(ghost t: Tid) returns (timed: bool)
      modifies this`sleepers
      ensures View() == DoSleep(old(View()), t) && timed == warning
    {
      timed := warning;
      sleepers := if warning then sleepers + {t} else sleepers - {t};
    }

    // msleep returned EAGAIN; show says whether this thread puts up the alert.
    method TimedOut(ghost t: Tid) returns (show: bool)
      modifies this
      ensures View() == DoTimeout(old(View()), t) && show == (!noAlerts && old(status) == NoAlert)
    {
      show := false;
      if noAlerts {
        status, dead := DeadDaemon, true;
        sleepers := sleepers - {t};
      } else {
        match status
        case NoAlert =>
          status, show := Processing, true;
          sleepers, inDialog := sleepers - {t}, inDialog + {t};
        case Processing =>
          var _ := GoToSleep(t);
        case DeadDaemon =>
          dead := true;
          sleepers := sleepers - {t};
      }
    }

    method Responded(ghost t: Tid, r: Response) returns (again: bool)
      modifies this
      ensures View() == DoRespond(old(View()), t, r) && again == (r != ForceEject && r != Unknown)
    {
      inDialog := inDialog - {t};
      again := r != ForceEject && r != Unknown;
      if again {
        status := NoAlert;
        if r == DontWarnAgain {
          warning := false;
        }
        var _ := GoToSleep(t);
      } else {
        status, dead := DeadDaemon, true;
      }
    }
  }
}
