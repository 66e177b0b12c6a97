/** What open, close, mount and unmount guarantee over whole runs. */
module DeviceSafety {
  import opened Common
  import opened Device
  import opened DeviceProtocol
  import opened DeviceInvariant

  lemma StartInv(units: set<Unit>)
    ensures Inv(Start(units))
  {
    var s := Start(units);
    var w := map u | u in units :: Duty(None, None);
    assert MountedSessions(s.reg) == {};
    assert Explains(w, s);
  }

  lemma StepKeepsInv(s: State, step: Step)
    requires Inv(s) && Enabled(s, step)
    ensures Inv(Apply(s, step))
  {
    var w: map<Unit, Duty> :| Explains(w, s);
    match step
    case StartOpen(t, u) => KeepBegin(s, w, t, OpenStart(u));
    case OpenGlobal(t) => KeepOpenGlobal(s, w, t);
    case LockLocal(t) => KeepLockLocal(s, w, t);
    case RunOpen(t) => KeepRunOpen(s, w, t);
    case OpenUndo(t) => KeepOpenUndo(s, w, t);
    case StartClose(t) => KeepStartClose(s, w, t);
    case RunClose(t) => KeepRunClose(s, w, t);
    case CloseDone(t) => KeepCloseDone(s, w, t);
    case StartMount(t, u) => KeepBegin(s, w, t, Wait(u, Mount));
    case RunMount(t, matches, ok) =>
      if !matches || MountSection(s.reg, s.procs[t].u, ok).1.Refused? {
        KeepRefused(s, w, t);
      } else {
        KeepRunMount(s, w, t, ok);
      }
    case MountDone(t, ok) => KeepMountMove(s, w, t, DoMountDone(s, t, ok).procs[t]);
    case RunUndo(t) => KeepRunUndo(s, w, t);
    case StartUnmount(t) => KeepMountMove(s, w, t, Wait(s.procs[t].u, Unmount(s.procs[t].sid)));
    case RunUnmount(t) => KeepUnmounted(s, w, t, s.procs[t].sec.sid);
  }

  lemma {:induction false} RunKeepsInv(s: State, steps: seq<Step>, s': State)
    requires Inv(s) && Runs(s, steps, s')
    ensures Inv(s')
    decreases |steps|
  {
    if steps != [] {
      StepKeepsInv(s, steps[0]);
      RunKeepsInv(Apply(s, steps[0]), steps[1..], s');
    }
  }

  lemma ReachableInv(s: State)
    requires Reachable(s)
    ensures Inv(s)
  {
    var units: set<Unit>, steps :| Runs(Start(units), steps, s);
    StartInv(units);
    RunKeepsInv(Start(units), steps, s);
  }

  // ------------------------------------------------ every reachable state

  ghost predicate InUse(s: State, sid: Sid) {
    sid in s.reg.sessions && (s.reg.sessions[sid].isOpen || s.reg.sessions[sid].isMounted)
  }

  // A slot has data exactly when a session of that device is open or mounted.
  lemma DataIffInUse(s: State, u: Unit)
    requires Reachable(s) && u in s.reg.slots
    ensures s.reg.slots[u].data.Some? ==>
              InUse(s, s.reg.slots[u].data.value) && s.reg.sessions[s.reg.slots[u].data.value].unit == u
    ensures forall sid | InUse(s, sid) && s.reg.sessions[sid].unit == u :: s.reg.slots[u].data == Some(sid)
  {
    ReachableInv(s);
    var w: map<Unit, Duty> :| Explains(w, s);
    UnitAt(s, w, u);
    forall sid | InUse(s, sid) && s.reg.sessions[sid].unit == u
      ensures s.reg.slots[u].data == Some(sid)
    {
      SessionAt(s, w, sid);
      if s.reg.slots[u].data != Some(sid) { ThreadAt(s, w, w[u].owner.value); }
    }
  }

  // Every session ever allocated is there or was destroyed, and that once.
  lemma DestroyedOnce(s: State)
    requires Reachable(s)
    ensures Distinct(s.reg.destroyed)
    ensures forall sid: Sid :: sid < s.reg.next <==> sid in s.reg.sessions || sid in s.reg.destroyed
    ensures forall sid | sid in s.reg.destroyed :: sid !in s.reg.sessions
  {
    ReachableInv(s);
    var w: map<Unit, Duty> :| Explains(w, s);
  }

  // A session that is in use is never destroyed: the step that destroys it first
  // saw it neither open nor mounted, or ends its last use itself.
  lemma DestroyedUnused(s: State, step: Step, sid: Sid)
    requires Reachable(s) && Enabled(s, step) && sid in s.reg.sessions && sid !in Apply(s, step).reg.sessions
    ensures s.reg.sessions[sid].isOpen ==>
              step.RunClose? && s.procs[step.tid].sec.sid == sid && !s.reg.sessions[sid].isMounted
    ensures s.reg.sessions[sid].isMounted ==>
              (step.RunUndo? || step.RunUnmount?) && s.procs[step.tid].sec.sid == sid && !s.reg.sessions[sid].isOpen
  {
    ReachableInv(s);
    var w: map<Unit, Duty> :| Explains(w, s);
    DestroyingSteps(s, step, sid);
    ThreadAt(s, w, step.tid);
    UnitAt(s, w, s.procs[step.tid].u);
  }

  // The steps that destroy a session, and which one.
  lemma DestroyingSteps(s: State, step: Step, sid: Sid)
    requires Enabled(s, step) && sid in s.reg.sessions && sid !in Apply(s, step).reg.sessions
    ensures step.OpenUndo? || step.RunClose? || step.RunUndo? || step.RunUnmount?
    ensures step.OpenUndo? ==> s.procs[step.tid].sid == sid
    ensures step.RunClose? ==> s.procs[step.tid].sec.sid == sid && !s.reg.sessions[sid].isMounted
    ensures step.RunUndo? || step.RunUnmount? ==>
              && s.reg.slots[s.procs[step.tid].u].data == Some(sid)
              && (step.RunUndo? || s.procs[step.tid].sec.sid == sid ==> !s.reg.sessions[sid].isOpen)
  {
  }

  lemma MountCount(s: State)
    requires Reachable(s)
    ensures s.reg.mountCount == |MountedSessions(s.reg)|
  {
    ReachableInv(s);
    var w: map<Unit, Duty> :| Explains(w, s);
  }

  lemma UseCount(s: State, u: Unit)
    requires Reachable(s) && u in s.reg.slots
    ensures 0 <= s.reg.slots[u].usecount <= 1
  {
    ReachableInv(s);
    var w: map<Unit, Duty> :| Explains(w, s);
    UnitAt(s, w, u);
  }

  // A mount that got past its checks finds its own session again, and the branch
  // that would undo somebody else's mount is dead.
  lemma UndoFindsItsOwn(s: State, t: Tid)
    requires Reachable(s) && t in s.procs && SectionIs(s.procs[t]) && s.procs[t].sec.Undo?
    ensures s.procs[t].sec.counted && s.procs[t].u in s.reg.slots
    ensures s.reg.slots[s.procs[t].u].data == Some(s.procs[t].sec.sid)
  {
    ReachableInv(s);
    var w: map<Unit, Duty> :| Explains(w, s);
    ThreadAt(s, w, t);
  }

  // ------------------------------------------------ locks

  // t waits for u: u has the lock t wants.
  predicate Waits(s: State, t: Tid, u: Tid) {
    && t in s.procs
    && match s.procs[t]
       case OpenStart(_) => s.global == Some(u)
       case CloseCount(_) => s.global == Some(u)
       case Backout(_, _) => s.global == Some(u)
       case Wait(v, _) => v in s.local && s.local[v] == Some(u)
       case _ => false
  }

  // The step thread t takes next.
  function NextStep(s: State, t: Tid): Step
    requires t in s.procs
  {
    match s.procs[t]
    case OpenStart(_) => OpenGlobal(t)
    case Wait(_, _) => LockLocal(t)
    case Inside(_, Open) => RunOpen(t)
    case Inside(_, Close(_)) => RunClose(t)
    case Inside(_, Mount) => RunMount(t, true, true)
    case Inside(_, Undo(_, _)) => RunUndo(t)
    case Inside(_, Unmount(_)) => RunUnmount(t)
    case Backout(_, _) => OpenUndo(t)
    case IsOpen(_, _) => StartClose(t)
    case CloseCount(_) => CloseDone(t)
    case MountInit(_, _) => MountDone(t, true)
    case IsMounted(_, _) => StartUnmount(t)
  }

  // A thread can take its next step unless it waits for a lock: no pointer it
  // follows is NULL or dangling, and no panic is reached.
  lemma OnlyLocksBlock(s: State, t: Tid)
    requires Reachable(s) && t in s.procs
    ensures Enabled(s, NextStep(s, t)) || exists u :: Waits(s, t, u)
  {
    ReachableInv(s);
    var w: map<Unit, Duty> :| Explains(w, s);
    ThreadAt(s, w, t);
    UnitAt(s, w, s.procs[t].u);
    if s.global.Some? {
      assert s.procs[t].OpenStart? || s.procs[t].CloseCount? || s.procs[t].Backout? ==> Waits(s, t, s.global.value);
    }
    if s.procs[t].Wait? && s.local[s.procs[t].u].Some? { assert Waits(s, t, s.local[s.procs[t].u].value); }
  }

  // How far a thread is from having all the locks it needs.
  function Rank(pc: Pc): nat {
    if pc.Inside? then 0 else if pc == Wait(pc.u, Open) then 1 else if pc.Backout? then 2 else 3
  }

  // Waiting goes down in rank. In particular the thread that opens a device holds
  // the global lock and wants the device lock, and whoever has that one does not
  // want the global lock: an open that backs out would be using the same device.
  lemma WaitsDescend(s: State, t: Tid, u: Tid)
    requires Reachable(s) && Waits(s, t, u)
    ensures u in s.procs && Rank(s.procs[u]) < Rank(s.procs[t])
  {
    ReachableInv(s);
    var w: map<Unit, Duty> :| Explains(w, s);
    ThreadAt(s, w, t);
    UnitAt(s, w, s.procs[t].u);
    if u in s.procs { ThreadAt(s, w, u); }
  }

  // There is no deadlock: behind every thread that waits there is one that moves.
  lemma {:induction false} SomebodyMoves(s: State, t: Tid) returns (x: Tid)
    requires Reachable(s) && t in s.procs
    ensures x in s.procs && Enabled(s, NextStep(s, x)) && Rank(s.procs[x]) <= Rank(s.procs[t])
    decreases Rank(s.procs[t])
  {
    OnlyLocksBlock(s, t);
    x := t;
    if !Enabled(s, NextStep(s, t)) {
      var u :| Waits(s, t, u);
      WaitsDescend(s, t, u);
      x := SomebodyMoves(s, u);
    }
  }
}
