/** When an open, a mount, a close and an unmount do what is asked of them, told from
    what the other threads are doing, and what a mounted volume went through. */
module DeviceVerdicts {
  import opened Common
  import opened Device
  import opened DeviceProtocol
  import opened DeviceInvariant
  import opened DeviceSafety

  // Somebody is between open and close of the device; the daemon has it open;
  // somebody is between the success of mount's checks and the end of unmount.
  ghost predicate Taken(s: State, u: Unit) { exists t :: t in s.procs && s.procs[t].u == u && Owns(s.procs[t]) }

  ghost predicate DaemonHas(s: State, u: Unit) { exists t :: t in s.procs && s.procs[t].u == u && HasOpen(s.procs[t]) }

  ghost predicate Mounting(s: State, u: Unit) { exists t :: t in s.procs && s.procs[t].u == u && Mounts(s.procs[t]) }

  // The slot and its session record just that.
  lemma SlotTells(s: State, u: Unit)
    requires Reachable(s) && u in s.reg.slots
    ensures s.reg.slots[u].usecount == if Taken(s, u) then 1 else 0
    ensures s.reg.slots[u].data.Some? <==> DaemonHas(s, u) || Mounting(s, u)
    ensures s.reg.slots[u].data.Some? ==>
              && HasData(s.reg, u)
              && s.reg.sessions[s.reg.slots[u].data.value] == Session(u, DaemonHas(s, u), Mounting(s, u))
  {
    ReachableInv(s);
    var w: map<Unit, Duty> :| Explains(w, s);
    UnitAt(s, w, u);
    forall t | t in s.procs
      ensures PcOk(s, w, t)
    {
      ThreadAt(s, w, t);
    }
  }

  // Opening goes on if nobody has the device, and gets it if no mount lingers.
  lemma OpenVerdict(s: State, t: Tid)
    requires Reachable(s) && t in s.procs
    ensures Enabled(s, OpenGlobal(t)) ==>
              var u, s' := s.procs[t].u, DoOpenGlobal(s, t);
              if Taken(s, u) then t !in s'.procs && s'.reg == s.reg else s'.procs == s.procs[t := Wait(u, Open)]
    ensures Enabled(s, RunOpen(t)) ==>
              var u, s' := s.procs[t].u, DoRunOpen(s, t);
              if Mounting(s, u) then s'.procs == s.procs[t := Backout(u, s.reg.next)] && s'.reg.slots == s.reg.slots
              else && s'.procs == s.procs[t := IsOpen(u, s.reg.next)] && s'.local[u] == None
                   && s'.reg.slots[u].data == Some(s.reg.next)
  {
    ReachableInv(s);
    var w: map<Unit, Duty> :| Explains(w, s);
    ThreadAt(s, w, t);
    SlotTells(s, s.procs[t].u);
    if Enabled(s, RunOpen(t)) { OpenerIsNotOpen(s, w, t); }
  }

  lemma OpenerIsNotOpen(s: State, w: map<Unit, Duty>, t: Tid)
    requires Explains(w, s) && Enabled(s, RunOpen(t))
    ensures !DaemonHas(s, s.procs[t].u)
  {
    ThreadAt(s, w, t);
    forall x | x in s.procs && s.procs[x].u == s.procs[t].u
      ensures !HasOpen(s.procs[x])
    {
      ThreadAt(s, w, x);
    }
  }

  // A mount goes on exactly if the number and the credentials match, the daemon has
  // the device open and is alive, and nobody else mounts it; if only the daemon's
  // life or the credentials are missing, it has to be undone; otherwise it leaves
  // everything as it was.
  lemma MountVerdict(s: State, t: Tid, matches: bool, ok: bool)
    requires Reachable(s) && Enabled(s, RunMount(t, matches, ok))
    ensures var u, s' := s.procs[t].u, DoRunMount(s, t, matches, ok);
            var ready := matches && DaemonHas(s, u) && !Mounting(s, u);
            && (t in s'.procs && s'.procs[t].MountInit? <==> ready && ok)
            && (t in s'.procs && SectionIs(s'.procs[t]) && s'.procs[t].sec.Undo? <==> ready && !ok)
            && (ready ==>
                  && s.reg.slots[u].data.Some? && var sid := s.reg.slots[u].data.value;
                     && s'.procs[t] == (if ok then MountInit(u, sid) else Wait(u, Undo(sid, true)))
                     && s'.reg == s.reg.(sessions := s.reg.sessions[sid := Session(u, true, true)],
                                         mountCount := s.reg.mountCount + 1))
            && (!ready ==> t !in s'.procs && s'.reg == s.reg)
            && s'.local == s.local[u := None]
  {
    ReachableInv(s);
    var w: map<Unit, Duty> :| Explains(w, s);
    ThreadAt(s, w, t);
    SlotTells(s, s.procs[t].u);
  }

  // A close destroys the session unless it is mounted, an unmount and the undoing
  // of a mount unless the daemon still has it open; otherwise the other user keeps
  // it, and the slot.
  lemma LastUseDestroys(s: State, step: Step)
    requires Reachable(s) && Enabled(s, step) && (step.RunClose? || step.RunUnmount? || step.RunUndo?)
    ensures var u, sid, s' := s.procs[step.tid].u, s.procs[step.tid].sec.sid, Apply(s, step);
            var last := if step.RunClose? then !Mounting(s, u) else !DaemonHas(s, u);
            && s.reg.slots[u].data == Some(sid)
            && s'.reg.slots[u].data == (if last then None else Some(sid))
            && s'.reg.destroyed == (if last then s.reg.destroyed + [sid] else s.reg.destroyed)
            && (sid in s'.reg.sessions <==> !last)
            && (!last ==> s'.reg.sessions[sid] == Session(u, !step.RunClose?, step.RunClose?))
            && s'.reg.mountCount == s.reg.mountCount - (if step.RunClose? then 0 else 1)
            && s'.local == s.local[u := None]
  {
    ReachableInv(s);
    var w: map<Unit, Duty> :| Explains(w, s);
    var t := step.tid;
    ThreadAt(s, w, t);
    SlotTells(s, s.procs[t].u);
    assert HasOpen(s.procs[t]) || Mounts(s.procs[t]);
  }

  // ------------------------------------------------ the history of a mount

  lemma {:induction false} LastStep(s: State, steps: seq<Step>, s': State) returns (s1: State)
    requires Runs(s, steps, s') && steps != []
    ensures Runs(s, steps[..|steps| - 1], s1) && Enabled(s1, steps[|steps| - 1])
    ensures s' == Apply(s1, steps[|steps| - 1])
    decreases |steps|
  {
    if |steps| == 1 {
      s1 := s;
      assert steps[1..] == [] && steps[..0] == [];
    } else {
      s1 := LastStep(Apply(s, steps[0]), steps[1..], s');
      assert steps[1..][..|steps| - 2] == steps[..|steps| - 1][1..];
    }
  }

  // Where a thread that mounts came from.
  lemma MountMoves(s: State, step: Step, t: Tid)
    requires Reachable(s) && Enabled(s, step) && t in Apply(s, step).procs
    requires Apply(s, step).procs[t].MountInit? || Apply(s, step).procs[t].IsMounted?
    ensures || (t in s.procs && s.procs[t] == Apply(s, step).procs[t])
            || (step == RunMount(t, true, true) && Apply(s, step).procs[t].MountInit?)
            || (step == MountDone(t, true) && t in s.procs && Apply(s, step).procs[t].IsMounted?
                && s.procs[t] == MountInit(s.procs[t].u, s.procs[t].sid)
                  && s.procs[t].sid == Apply(s, step).procs[t].sid
                && s.procs[t].u == Apply(s, step).procs[t].u)
  {
    if step.RunMount? && step.tid == t { MountVerdict(s, t, step.matches, step.ok); }
  }

  lemma {:induction false} InitWasPermitted(units: set<Unit>, steps: seq<Step>, s: State, t: Tid)
    requires Runs(Start(units), steps, s) && t in s.procs && s.procs[t].MountInit?
    ensures exists i :: 0 <= i < |steps| && steps[i] == RunMount(t, true, true)
    decreases |steps|
  {
    var n := |steps| - 1;
    var s1 := LastStep(Start(units), steps, s);
    MountMoves(s1, steps[n], t);
    if steps[n] != RunMount(t, true, true) {
      InitWasPermitted(units, steps[..n], s1, t);
      var i :| 0 <= i < n && steps[..n][i] == RunMount(t, true, true);
      assert steps[i] == RunMount(t, true, true);
    }
  }

  // A mounted volume passed the checks, and then the handshake.
  lemma {:induction false} MountWasPermitted(units: set<Unit>, steps: seq<Step>, s: State, t: Tid)
    requires Runs(Start(units), steps, s) && t in s.procs && s.procs[t].IsMounted?
    ensures exists i, j :: 0 <= i < j < |steps| && steps[i] == RunMount(t, true, true) && steps[j] == MountDone(t, true)
    decreases |steps|
  {
    var n := |steps| - 1;
    var s1 := LastStep(Start(units), steps, s);
    MountMoves(s1, steps[n], t);
    if s1.procs[t].MountInit? {
      InitWasPermitted(units, steps[..n], s1, t);
      var i :| 0 <= i < n && steps[..n][i] == RunMount(t, true, true);
      assert steps[i] == RunMount(t, true, true) && steps[n] == MountDone(t, true);
    } else {
      MountWasPermitted(units, steps[..n], s1, t);
      var i, j :| 0 <= i < j < n && steps[..n][i] == RunMount(t, true, true) && steps[..n][j] == MountDone(t, true);
      assert steps[i] == RunMount(t, true, true) && steps[j] == MountDone(t, true);
    }
  }
}
