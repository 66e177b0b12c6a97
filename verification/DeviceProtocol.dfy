/** Threads that open, close, mount and unmount, with the global device mutex and
    one mutex for each device: which steps they take, and what each waits for. */
module DeviceProtocol {
  import opened Common
  import opened Device

  type Tid = nat

  // What a thread does, or is about to do, under a device's own lock.
  datatype Section = Open | Close(sid: Sid) | Mount | Undo(sid: Sid, counted: bool) | Unmount(sid: Sid)

  datatype Pc =
    | OpenStart(u: Unit)             // wants the global lock
    | Wait(u: Unit, sec: Section)    // wants the device lock; to open, holding the global lock
    | Inside(u: Unit, sec: Section)  // holds the device lock
    | Backout(u: Unit, sid: Sid)     // found a lingering mount: holds the device lock, wants the global one
    | IsOpen(u: Unit, sid: Sid)      // the daemon has the device open
    | CloseCount(u: Unit)            // wants the global lock to lower the use count
    | MountInit(u: Unit, sid: Sid)   // handshake with the daemon, no locks
    | IsMounted(u: Unit, sid: Sid)

  datatype State = State(
    reg: Registry,
    global: Option<Tid>,
    local: map<Unit, Option<Tid>>,
    procs: map<Tid, Pc>)

  ghost function Start(units: set<Unit>): State {
    State(Registry(map u | u in units :: Slot(0, None), map[], [], 0, 0), None, map u | u in units :: None, map[])
  }

  datatype Step =
    | StartOpen(tid: Tid, u: Unit)
    | OpenGlobal(tid: Tid)
    | LockLocal(tid: Tid)
    | RunOpen(tid: Tid)
    | OpenUndo(tid: Tid)
    | StartClose(tid: Tid)
    | RunClose(tid: Tid)
    | CloseDone(tid: Tid)
    | StartMount(tid: Tid, u: Unit)
    | RunMount(tid: Tid, matches: bool, ok: bool)  // the random number matches; alive and permitted
    | MountDone(tid: Tid, ok: bool)
    | RunUndo(tid: Tid)
    | StartUnmount(tid: Tid)
    | RunUnmount(tid: Tid)

  predicate Known(s: State, u: Unit) { u in s.reg.slots && u in s.local }

  // A pointer the code follows: fdev->data, or a saved one.
  predicate DataIsLive(s: State, u: Unit) { Known(s, u) && (s.reg.slots[u].data.Some? ==> HasData(s.reg, u)) }

  predicate InSection(s: State, t: Tid) { t in s.procs && s.procs[t].Inside? && DataIsLive(s, s.procs[t].u) }

  predicate Enabled(s: State, step: Step) {
    match step
    case StartOpen(t, u) => t !in s.procs && Known(s, u)
    case OpenGlobal(t) => t in s.procs && s.procs[t].OpenStart? && Known(s, s.procs[t].u) && s.global == None
    case LockLocal(t) => t in s.procs && s.procs[t].Wait? && Known(s, s.procs[t].u) && s.local[s.procs[t].u] == None
    case RunOpen(t) => InSection(s, t) && s.procs[t].sec.Open?
    case OpenUndo(t) => t in s.procs && s.procs[t].Backout? && Known(s, s.procs[t].u) && s.global == None
    case StartClose(t) =>
      t in s.procs && s.procs[t].IsOpen? && DataIsLive(s, s.procs[t].u) && s.reg.slots[s.procs[t].u].data.Some?
    case RunClose(t) => InSection(s, t) && s.procs[t].sec.Close? && s.procs[t].sec.sid in s.reg.sessions
    case CloseDone(t) => t in s.procs && s.procs[t].CloseCount? && Known(s, s.procs[t].u) && s.global == None
    case StartMount(t, u) => t !in s.procs && Known(s, u)
    case RunMount(t, _, _) => InSection(s, t) && s.procs[t].sec.Mount?
    case MountDone(t, _) => t in s.procs && s.procs[t].MountInit?
    case RunUndo(t) => InSection(s, t) && s.procs[t].sec.Undo?
    case StartUnmount(t) => t in s.procs && s.procs[t].IsMounted?
    case RunUnmount(t) =>
      && InSection(s, t) && s.procs[t].sec.Unmount? && s.procs[t].sec.sid in s.reg.sessions
      && HasData(s.reg, s.procs[t].u)
  }

  function Goto(s: State, t: Tid, pc: Pc): State { s.(procs := s.procs[t := pc]) }

  function Exit(s: State, t: Tid): State { s.(procs := s.procs - {t}) }

  function Unlock(s: State, u: Unit): State { s.(local := s.local[u := None]) }

  function DoOpenGlobal(s: State, t: Tid): State
    requires t in s.procs && s.procs[t].OpenStart? && Known(s, s.procs[t].u)
  {
    var u := s.procs[t].u;
    if s.reg.slots[u].usecount != 0 then Exit(s, t)
    else Goto(s, t, Wait(u, Open)).(reg := SetUse(s.reg, u, s.reg.slots[u].usecount + 1), global := Some(t))
  }

  function DoLockLocal(s: State, t: Tid): State
    requires t in s.procs && s.procs[t].Wait?
  {
    var pc := s.procs[t];
    Goto(s, t, Inside(pc.u, pc.sec)).(local := s.local[pc.u := Some(t)],
      global := if pc.sec.Open? then None else s.global)
  }

  function DoRunOpen(s: State, t: Tid): State
    requires InSection(s, t)
  {
    var u := s.procs[t].u;
    var (g, lingering) := OpenSection(s.reg, u);
    if lingering then Goto(s.(reg := g), t, Backout(u, s.reg.next))
    else Goto(Unlock(s.(reg := g), u), t, IsOpen(u, s.reg.next))
  }

  function DoOpenUndo(s: State, t: Tid): State
    requires t in s.procs && s.procs[t].Backout? && Known(s, s.procs[t].u)
  {
    var u := s.procs[t].u;
    Exit(Unlock(s.(reg := Destroy(SetUse(s.reg, u, s.reg.slots[u].usecount - 1), s.procs[t].sid)), u), t)
  }

  // fuse_device_close reads fdev->data before it takes the lock.
  function DoStartClose(s: State, t: Tid): State
    requires t in s.procs && s.procs[t].IsOpen? && Known(s, s.procs[t].u) && s.reg.slots[s.procs[t].u].data.Some?
  {
    var u := s.procs[t].u;
    Goto(s, t, Wait(u, Close(s.reg.slots[u].data.value)))
  }

  function DoRunClose(s: State, t: Tid): State
    requires InSection(s, t) && s.procs[t].sec.Close? && s.procs[t].sec.sid in s.reg.sessions
  {
    var u := s.procs[t].u;
    Goto(Unlock(s.(reg := CloseSection(s.reg, u, s.procs[t].sec.sid)), u), t, CloseCount(u))
  }

  function DoCloseDone(s: State, t: Tid): State
    requires t in s.procs && s.procs[t].CloseCount? && Known(s, s.procs[t].u)
  {
    var u := s.procs[t].u;
    Exit(s.(reg := SetUse(s.reg, u, s.reg.slots[u].usecount - 1)), t)
  }

  function DoRunMount(s: State, t: Tid, matches: bool, ok: bool): State
    requires InSection(s, t)
  {
    var u := s.procs[t].u;
    if !matches then Exit(Unlock(s, u), t)
    else
      var (g, out) := MountSection(s.reg, u, ok);
      var s' := Unlock(s.(reg := g), u);
      match out
      case Refused => Exit(s', t)
      case Failing(counted) => Goto(s', t, Wait(u, Undo(s.reg.slots[u].data.value, counted)))
      case Going(sid) => Goto(s', t, MountInit(u, sid))
  }

  function DoMountDone(s: State, t: Tid, ok: bool): State
    requires t in s.procs && s.procs[t].MountInit?
  {
    var pc := s.procs[t];
    Goto(s, t, if ok then IsMounted(pc.u, pc.sid) else Wait(pc.u, Undo(pc.sid, true)))
  }

  function DoRunUndo(s: State, t: Tid): State
    requires InSection(s, t) && s.procs[t].sec.Undo?
  {
    var u := s.procs[t].u;
    Exit(Unlock(s.(reg := UndoSection(s.reg, u, s.procs[t].sec.counted)), u), t)
  }

  function DoRunUnmount(s: State, t: Tid): State
    requires InSection(s, t) && s.procs[t].sec.Unmount? && s.procs[t].sec.sid in s.reg.sessions
             && HasData(s.reg, s.procs[t].u)
  {
    var u := s.procs[t].u;
    Exit(Unlock(s.(reg := UnmountSection(s.reg, u, s.procs[t].sec.sid)), u), t)
  }

  function Apply(s: State, step: Step): State
    requires Enabled(s, step)
  {
    match step
    case StartOpen(t, u) => Goto(s, t, OpenStart(u))
    case OpenGlobal(t) => DoOpenGlobal(s, t)
    case LockLocal(t) => DoLockLocal(s, t)
    case RunOpen(t) => DoRunOpen(s, t)
    case OpenUndo(t) => DoOpenUndo(s, t)
    case StartClose(t) => DoStartClose(s, t)
    case RunClose(t) => DoRunClose(s, t)
    case CloseDone(t) => DoCloseDone(s, t)
    case StartMount(t, u) => Goto(s, t, Wait(u, Mount))
    case RunMount(t, matches, ok) => DoRunMount(s, t, matches, ok)
    case MountDone(t, ok) => DoMountDone(s, t, ok)
    case RunUndo(t) => DoRunUndo(s, t)
    case StartUnmount(t) => Goto(s, t, Wait(s.procs[t].u, Unmount(s.procs[t].sid)))
    case RunUnmount(t) => DoRunUnmount(s, t)
  }

  ghost predicate Runs(s: State, steps: seq<Step>, s': State)
    decreases |steps|
  {
    if steps == [] then s == s'
    else Enabled(s, steps[0]) && Runs(Apply(s, steps[0]), steps[1..], s')
  }

  ghost predicate Reachable(s: State) { exists units, steps :: Runs(Start(units), steps, s) }
}
