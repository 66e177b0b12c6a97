/** Why the sharing of a session between the device and the mount is safe: at most
    one thread has the device in use, at most one has it mounted, and every step
    keeps the slot in agreement with the two. */
module DeviceInvariant {
  import opened Common
  import opened Device
  import opened DeviceProtocol

  // Who has the device in use, and who mounts it.
  datatype Duty = Duty(owner: Option<Tid>, mounter: Option<Tid>)

  predicate SectionIs(pc: Pc) { pc.Wait? || pc.Inside? }

  predicate Owns(pc: Pc) {
    pc.Backout? || pc.IsOpen? || pc.CloseCount? || (SectionIs(pc) && (pc.sec.Open? || pc.sec.Close?))
  }

  predicate Mounts(pc: Pc) {
    pc.MountInit? || pc.IsMounted? || (SectionIs(pc) && (pc.sec.Undo? || pc.sec.Unmount?))
  }

  predicate HasOpen(pc: Pc) { pc.IsOpen? || (SectionIs(pc) && pc.sec.Close?) }

  predicate HoldsLocal(pc: Pc) { pc.Inside? || pc.Backout? }

  // The session a thread has a pointer to.
  function Pointer(pc: Pc): Sid
    requires HasOpen(pc) || Mounts(pc) || pc.Backout?
  {
    if SectionIs(pc) then pc.sec.sid else pc.sid
  }

  ghost predicate PcOk(s: State, w: map<Unit, Duty>, t: Tid)
    requires t in s.procs && w.Keys == s.reg.slots.Keys == s.local.Keys
  {
    var pc := s.procs[t];
    && pc.u in w
    && (Owns(pc) ==> w[pc.u].owner == Some(t))
    && (Mounts(pc) ==> w[pc.u].mounter == Some(t) && (SectionIs(pc) && pc.sec.Undo? ==> pc.sec.counted))
    && (HasOpen(pc) || Mounts(pc) ==> s.reg.slots[pc.u].data == Some(Pointer(pc)))
    && (HoldsLocal(pc) ==> s.local[pc.u] == Some(t))
    && (pc == Wait(pc.u, Open) ==> s.global == Some(t))
    && (pc.Backout? ==>
          pc.sid in s.reg.sessions && s.reg.sessions[pc.sid] == Session(pc.u, false, false)
            && s.reg.slots[pc.u].data != Some(pc.sid))
  }

  predicate At(s: State, o: Option<Tid>, u: Unit) { o.Some? ==> o.value in s.procs && s.procs[o.value].u == u }

  predicate SlotOpen(s: State, d: Duty) { d.owner.Some? && d.owner.value in s.procs && HasOpen(s.procs[d.owner.value]) }

  ghost predicate UnitOk(s: State, w: map<Unit, Duty>, u: Unit)
    requires u in w && w.Keys == s.reg.slots.Keys == s.local.Keys
  {
    var d := w[u];
    && s.reg.slots[u].usecount == (if d.owner.Some? then 1 else 0)
    && At(s, d.owner, u) && (d.owner.Some? ==> Owns(s.procs[d.owner.value]))
    && At(s, d.mounter, u) && (d.mounter.Some? ==> Mounts(s.procs[d.mounter.value]))
    && At(s, s.local[u], u) && (s.local[u].Some? ==> HoldsLocal(s.procs[s.local[u].value]))
    && match s.reg.slots[u].data
       case None => d.mounter == None && !SlotOpen(s, d)
       case Some(sid) =>
         && sid in s.reg.sessions && s.reg.sessions[sid].unit == u
         && (s.reg.sessions[sid].isOpen <==> SlotOpen(s, d))
         && (s.reg.sessions[sid].isMounted <==> d.mounter.Some?)
         && (s.reg.sessions[sid].isOpen || s.reg.sessions[sid].isMounted)
  }

  // A session is the data of its slot, or in the hands of an open that backs out.
  ghost predicate SessionOk(s: State, w: map<Unit, Duty>, sid: Sid)
    requires sid in s.reg.sessions
  {
    var u := s.reg.sessions[sid].unit;
    && u in w && u in s.reg.slots
    && (s.reg.slots[u].data == Some(sid)
        || (w[u].owner.Some? && w[u].owner.value in s.procs && s.procs[w[u].owner.value] == Backout(u, sid)))
  }

  ghost function MountedSessions(g: Registry): set<Sid> { set sid | sid in g.sessions && g.sessions[sid].isMounted }

  ghost predicate Accounts(g: Registry) {
    && Distinct(g.destroyed)
    && (forall sid: Sid :: sid < g.next <==> sid in g.sessions || sid in g.destroyed)
    && (forall sid | sid in g.destroyed :: sid !in g.sessions)
    && g.mountCount == |MountedSessions(g)|
  }

  ghost predicate GlobalOk(s: State) {
    s.global.Some? ==> s.global.value in s.procs && s.procs[s.global.value] == Wait(s.procs[s.global.value].u, Open)
  }

  ghost predicate Explains(w: map<Unit, Duty>, s: State) {
    && w.Keys == s.reg.slots.Keys == s.local.Keys
    && Accounts(s.reg) && GlobalOk(s)
    && (forall t {:trigger PcOk(s, w, t)} | t in s.procs :: PcOk(s, w, t))
    && (forall u {:trigger UnitOk(s, w, u)} | u in w :: UnitOk(s, w, u))
    && (forall sid {:trigger SessionOk(s, w, sid)} | sid in s.reg.sessions :: SessionOk(s, w, sid))
  }

  ghost predicate Inv(s: State) { exists w :: Explains(w, s) }

  lemma ThreadAt(s: State, w: map<Unit, Duty>, t: Tid)
    requires Explains(w, s) && t in s.procs
    ensures PcOk(s, w, t)
  {}

  lemma UnitAt(s: State, w: map<Unit, Duty>, u: Unit)
    requires Explains(w, s) && u in w
    ensures UnitOk(s, w, u)
  {}

  lemma SessionAt(s: State, w: map<Unit, Duty>, sid: Sid)
    requires Explains(w, s) && sid in s.reg.sessions
    ensures SessionOk(s, w, sid)
  {}

  // ------------------------------------------------ framing

  // Only thread t moves, and only unit u and its sessions change; the global lock
  // goes to t or comes from t, if it changes hands.
  ghost predicate OnlyChanges(s: State, w: map<Unit, Duty>, s': State, w': map<Unit, Duty>, t: Tid, u: Unit)
    requires w.Keys == s.reg.slots.Keys == s.local.Keys
  {
    && w'.Keys == w.Keys == s'.reg.slots.Keys == s'.local.Keys && u in w
    && (forall x {:trigger x in s'.procs} {:trigger x in s.procs} | x != t ::
          (x in s'.procs <==> x in s.procs) && (x in s.procs ==> s'.procs[x] == s.procs[x]))
    && (forall v {:trigger v in w} | v in w && v != u ::
        w'[v] == w[v] && s'.reg.slots[v] == s.reg.slots[v] && s'.local[v] == s.local[v])
    && (forall sid {:trigger sid in s'.reg.sessions} {:trigger sid in s.reg.sessions} ::
          && (sid in s.reg.sessions && s.reg.sessions[sid].unit != u ==>
              sid in s'.reg.sessions && s'.reg.sessions[sid] == s.reg.sessions[sid])
          && (sid in s'.reg.sessions && s'.reg.sessions[sid].unit != u ==>
              sid in s.reg.sessions && s'.reg.sessions[sid] == s.reg.sessions[sid]))
    && (s'.global == s.global || s.global in {None, Some(t)})
    && (t in s.procs ==> s.procs[t].u == u) && (t in s'.procs ==> s'.procs[t].u == u)
  }

  lemma FrameUnit(s: State, w: map<Unit, Duty>, s': State, w': map<Unit, Duty>, t: Tid, u: Unit, v: Unit)
    requires w.Keys == s.reg.slots.Keys == s.local.Keys && OnlyChanges(s, w, s', w', t, u)
    requires v in w && v != u && UnitOk(s, w, v)
    ensures UnitOk(s', w', v)
  {
    var d := w[v];
    if d.owner.Some? { assert d.owner.value in s'.procs; }
    if d.mounter.Some? { assert d.mounter.value in s'.procs; }
    if s.local[v].Some? { assert s.local[v].value in s'.procs; }
    if s.reg.slots[v].data.Some? { assert s.reg.slots[v].data.value in s'.reg.sessions; }
  }

  lemma FramePc(s: State, w: map<Unit, Duty>, s': State, w': map<Unit, Duty>, t: Tid, u: Unit, x: Tid)
    requires w.Keys == s.reg.slots.Keys == s.local.Keys && OnlyChanges(s, w, s', w', t, u)
    requires x in s.procs && x != t && s.procs[x].u != u && PcOk(s, w, x)
    ensures PcOk(s', w', x)
  {
    assert x in s'.procs;
    var pc := s.procs[x];
    if pc.Backout? { assert pc.sid in s'.reg.sessions; }
  }

  lemma FrameSession(s: State, w: map<Unit, Duty>, s': State, w': map<Unit, Duty>, t: Tid, u: Unit, sid: Sid)
    requires w.Keys == s.reg.slots.Keys == s.local.Keys && OnlyChanges(s, w, s', w', t, u)
    requires sid in s'.reg.sessions && s'.reg.sessions[sid].unit != u
    requires sid in s.reg.sessions && SessionOk(s, w, sid)
    ensures SessionOk(s', w', sid)
  {
    var v := s.reg.sessions[sid].unit;
    var o := w[v].owner;
    if o.Some? && o.value in s.procs && s.procs[o.value] == Backout(v, sid) {
      assert o.value != t && o.value in s'.procs;
    }
  }

  // The invariant has to be shown again for unit u only.
  lemma Frame(s: State, w: map<Unit, Duty>, s': State, w': map<Unit, Duty>, t: Tid, u: Unit)
    requires Explains(w, s) && OnlyChanges(s, w, s', w', t, u) && Accounts(s'.reg) && GlobalOk(s') && UnitOk(s', w', u)
    requires forall x {:trigger PcOk(s', w', x)} | x in s'.procs && s'.procs[x].u == u :: PcOk(s', w', x)
    requires forall sid {:trigger SessionOk(s', w', sid)} | sid in s'.reg.sessions
             && s'.reg.sessions[sid].unit == u :: SessionOk(s', w', sid)
    ensures Explains(w', s')
  {
    forall x {:trigger PcOk(s', w', x)} | x in s'.procs
      ensures PcOk(s', w', x)
    {
      if s'.procs[x].u != u {
        ThreadAt(s, w, x);
        FramePc(s, w, s', w', t, u, x);
      }
    }
    forall v {:trigger UnitOk(s', w', v)} | v in w'
      ensures UnitOk(s', w', v)
    {
      if v != u {
        UnitAt(s, w, v);
        FrameUnit(s, w, s', w', t, u, v);
      }
    }
    forall sid {:trigger SessionOk(s', w', sid)} | sid in s'.reg.sessions
      ensures SessionOk(s', w', sid)
    {
      if s'.reg.sessions[sid].unit != u {
        SessionAt(s, w, sid);
        FrameSession(s, w, s', w', t, u, sid);
      }
    }
  }

  // What t leaves to the other threads on its unit.
  ghost predicate Benign(s: State, w: map<Unit, Duty>, s': State, w': map<Unit, Duty>, t: Tid, u: Unit)
    requires u in w && u in w' && u in s.local && u in s'.local && u in s.reg.slots && u in s'.reg.slots
  {
    && (w'[u].owner == w[u].owner || w[u].owner in {None, Some(t)})
    && (w'[u].mounter == w[u].mounter || w[u].mounter in {None, Some(t)})
    && (s'.local[u] == s.local[u] || s.local[u] in {None, Some(t)})
    && (s'.reg.slots[u].data == s.reg.slots[u].data
        || ((w[u].owner == Some(t) || !SlotOpen(s, w[u])) && w[u].mounter in {None, Some(t)}))
    && ((s'.reg.slots[u].data == s.reg.slots[u].data && s'.reg.sessions == s.reg.sessions)
      || s.local[u] in {None, Some(t)})
  }

  lemma OthersKept(s: State, w: map<Unit, Duty>, s': State, w': map<Unit, Duty>, t: Tid, u: Unit, x: Tid)
    requires Explains(w, s) && OnlyChanges(s, w, s', w', t, u) && Benign(s, w, s', w', t, u)
    requires x in s'.procs && x != t && s'.procs[x].u == u
    ensures PcOk(s', w', x)
  {
    ThreadAt(s, w, x);
  }

  lemma KeepStep(s: State, w: map<Unit, Duty>, s': State, w': map<Unit, Duty>, t: Tid, u: Unit)
    requires Explains(w, s) && OnlyChanges(s, w, s', w', t, u) && Benign(s, w, s', w', t, u)
    requires Accounts(s'.reg) && GlobalOk(s') && UnitOk(s', w', u)
    requires t in s'.procs ==> PcOk(s', w', t)
    requires forall sid {:trigger SessionOk(s', w', sid)} | sid in s'.reg.sessions
             && s'.reg.sessions[sid].unit == u :: SessionOk(s', w', sid)
    ensures Inv(s')
  {
    forall x {:trigger PcOk(s', w', x)} | x in s'.procs && s'.procs[x].u == u
      ensures PcOk(s', w', x)
    {
      if x != t { OthersKept(s, w, s', w', t, u, x); }
    }
    Frame(s, w, s', w', t, u);
  }

  // ------------------------------------------------ steps that leave the sessions alone

  // The thread moves and may take or drop a lock, or count itself in or out.
  ghost predicate SessionsKept(s: State, w: map<Unit, Duty>, s': State, w': map<Unit, Duty>, t: Tid, u: Unit) {
    && u in s.reg.slots && u in s'.reg.slots
    && s'.reg == SetUse(s.reg, u, s'.reg.slots[u].usecount)
    && (t in s.procs ==> !s.procs[t].Backout?)
  }

  lemma SetUseAccounts(g: Registry, u: Unit, n: int)
    requires u in g.slots && Accounts(g)
    ensures Accounts(SetUse(g, u, n))
  {
    assert MountedSessions(SetUse(g, u, n)) == MountedSessions(g);
  }

  lemma KeepMove(s: State, w: map<Unit, Duty>, s': State, w': map<Unit, Duty>, t: Tid, u: Unit)
    requires Explains(w, s) && u in w && u in s'.reg.slots
    requires SessionsKept(s, w, s', w', t, u) && OnlyChanges(s, w, s', w', t, u) && Benign(s, w, s', w', t, u)
    requires GlobalOk(s') && UnitOk(s', w', u)
    requires t in s'.procs ==> PcOk(s', w', t)
    ensures Inv(s')
  {
    SetUseAccounts(s.reg, u, s'.reg.slots[u].usecount);
    forall sid {:trigger SessionOk(s', w', sid)} | sid in s'.reg.sessions && s'.reg.sessions[sid].unit == u
      ensures SessionOk(s', w', sid)
    {
      SessionAt(s, w, sid);
      var o := w[u].owner;
      if o.Some? && o.value in s.procs && s.procs[o.value] == Backout(u, sid) {
        assert o.value != t && o.value in s'.procs;
      }
    }
    KeepStep(s, w, s', w', t, u);
  }

  lemma KeepBegin(s: State, w: map<Unit, Duty>, t: Tid, pc: Pc)
    requires Explains(w, s) && t !in s.procs && pc.u in w && (pc.OpenStart? || pc == Wait(pc.u, Mount))
    ensures Inv(Goto(s, t, pc))
  {
    UnitAt(s, w, pc.u);
    KeepMove(s, w, Goto(s, t, pc), w, t, pc.u);
  }

  lemma KeepOpenGlobal(s: State, w: map<Unit, Duty>, t: Tid)
    requires Explains(w, s) && t in s.procs && s.procs[t].OpenStart? && Known(s, s.procs[t].u) && s.global == None
    ensures Inv(DoOpenGlobal(s, t))
  {
    var u := s.procs[t].u;
    ThreadAt(s, w, t);
    UnitAt(s, w, u);
    var w' := if s.reg.slots[u].usecount != 0 then w else w[u := w[u].(owner := Some(t))];
    KeepMove(s, w, DoOpenGlobal(s, t), w', t, u);
  }

  lemma KeepLockLocal(s: State, w: map<Unit, Duty>, t: Tid)
    requires Explains(w, s) && t in s.procs && s.procs[t].Wait? && Known(s, s.procs[t].u)
             && s.local[s.procs[t].u] == None
    ensures Inv(DoLockLocal(s, t))
  {
    var u := s.procs[t].u;
    ThreadAt(s, w, t);
    UnitAt(s, w, u);
    KeepMove(s, w, DoLockLocal(s, t), w, t, u);
  }

  lemma KeepStartClose(s: State, w: map<Unit, Duty>, t: Tid)
    requires Explains(w, s) && t in s.procs && s.procs[t].IsOpen? && DataIsLive(s, s.procs[t].u)
             && s.reg.slots[s.procs[t].u].data.Some?
    ensures Inv(DoStartClose(s, t))
  {
    var u := s.procs[t].u;
    ThreadAt(s, w, t);
    UnitAt(s, w, u);
    KeepMove(s, w, DoStartClose(s, t), w, t, u);
  }

  lemma KeepCloseDone(s: State, w: map<Unit, Duty>, t: Tid)
    requires Explains(w, s) && t in s.procs && s.procs[t].CloseCount? && Known(s, s.procs[t].u) && s.global == None
    ensures Inv(DoCloseDone(s, t))
  {
    var u := s.procs[t].u;
    ThreadAt(s, w, t);
    UnitAt(s, w, u);
    KeepMove(s, w, DoCloseDone(s, t), w[u := w[u].(owner := None)], t, u);
  }

  lemma KeepMountMove(s: State, w: map<Unit, Duty>, t: Tid, pc: Pc)
    requires Explains(w, s) && t in s.procs && (s.procs[t].MountInit? || s.procs[t].IsMounted?)
    requires pc.u == s.procs[t].u && (pc.IsMounted? || pc.Wait?) && Mounts(pc) && Pointer(pc) == s.procs[t].sid
    requires pc.Wait? && pc.sec.Undo? ==> pc.sec.counted
    ensures Inv(Goto(s, t, pc))
  {
    ThreadAt(s, w, t);
    UnitAt(s, w, pc.u);
    KeepMove(s, w, Goto(s, t, pc), w, t, pc.u);
  }

  lemma KeepRefused(s: State, w: map<Unit, Duty>, t: Tid)
    requires Explains(w, s) && InSection(s, t) && s.procs[t].sec.Mount?
    ensures Inv(Exit(Unlock(s, s.procs[t].u), t))
  {
    var u := s.procs[t].u;
    ThreadAt(s, w, t);
    UnitAt(s, w, u);
    KeepMove(s, w, Exit(Unlock(s, u), t), w, t, u);
  }

  // ------------------------------------------------ steps that change a session

  lemma AllocatedAccounts(g: Registry, g': Registry, u: Unit, open: bool)
    requires Accounts(g) && g'.sessions == g.sessions[g.next := Session(u, open, false)]
    requires g'.next == g.next + 1 && g'.destroyed == g.destroyed && g'.mountCount == g.mountCount
    ensures Accounts(g') && g.next !in g.sessions
  {
    assert MountedSessions(g') == MountedSessions(g);
  }

  lemma KeepRunOpen(s: State, w: map<Unit, Duty>, t: Tid)
    requires Explains(w, s) && InSection(s, t) && s.procs[t].sec.Open?
    ensures Inv(DoRunOpen(s, t))
  {
    var s', u := DoRunOpen(s, t), s.procs[t].u;
    ThreadAt(s, w, t);
    UnitAt(s, w, u);
    AllocatedAccounts(s.reg, s'.reg, u, s.reg.slots[u].data.None?);
    forall sid {:trigger SessionOk(s', w, sid)} | sid in s'.reg.sessions && s'.reg.sessions[sid].unit == u
      ensures SessionOk(s', w, sid)
    {
      if sid != s.reg.next { SessionAt(s, w, sid); }
    }
    KeepStep(s, w, s', w, t, u);
  }

  lemma DestroyAccounts(g: Registry, sid: Sid)
    requires Accounts(g) && sid in g.sessions && !g.sessions[sid].isMounted
    ensures Accounts(Destroy(g, sid))
  {
    DistinctAppend(g.destroyed, sid);
    assert MountedSessions(Destroy(g, sid)) == MountedSessions(g);
  }

  lemma KeepOpenUndo(s: State, w: map<Unit, Duty>, t: Tid)
    requires Explains(w, s) && t in s.procs && s.procs[t].Backout? && Known(s, s.procs[t].u) && s.global == None
    ensures Inv(DoOpenUndo(s, t))
  {
    var s', u := DoOpenUndo(s, t), s.procs[t].u;
    var w' := w[u := w[u].(owner := None)];
    ThreadAt(s, w, t);
    UnitAt(s, w, u);
    SetUseAccounts(s.reg, u, 0);
    DestroyAccounts(SetUse(s.reg, u, 0), s.procs[t].sid);
    forall sid {:trigger SessionOk(s', w', sid)} | sid in s'.reg.sessions && s'.reg.sessions[sid].unit == u
      ensures SessionOk(s', w', sid)
    {
      SessionAt(s, w, sid);
    }
    KeepStep(s, w, s', w', t, u);
  }

  lemma ClosedAccounts(g: Registry, u: Unit, sid: Sid)
    requires Accounts(g) && u in g.slots && sid in g.sessions
    ensures Accounts(CloseSection(g, u, sid))
  {
    var g1 := g.(sessions := g.sessions[sid := g.sessions[sid].(isOpen := false)]);
    assert MountedSessions(g1) == MountedSessions(g);
    if !g.sessions[sid].isMounted {
      assert MountedSessions(SetData(g1, u, None)) == MountedSessions(g1);
      DestroyAccounts(SetData(g1, u, None), sid);
    }
  }

  lemma KeepRunClose(s: State, w: map<Unit, Duty>, t: Tid)
    requires Explains(w, s) && InSection(s, t) && s.procs[t].sec.Close? && s.procs[t].sec.sid in s.reg.sessions
    ensures Inv(DoRunClose(s, t))
  {
    var s', u, sid := DoRunClose(s, t), s.procs[t].u, s.procs[t].sec.sid;
    ThreadAt(s, w, t);
    UnitAt(s, w, u);
    ClosedAccounts(s.reg, u, sid);
    forall x {:trigger SessionOk(s', w, x)} | x in s'.reg.sessions && s'.reg.sessions[x].unit == u
      ensures SessionOk(s', w, x)
    {
      SessionAt(s, w, x);
    }
    KeepStep(s, w, s', w, t, u);
  }

  lemma MountedAccounts(g: Registry, u: Unit, ok: bool)
    requires Accounts(g) && u in g.slots && (g.slots[u].data.Some? ==> HasData(g, u))
    ensures Accounts(MountSection(g, u, ok).0)
  {
    var (g', out) := MountSection(g, u, ok);
    if g' != g {
      var sid := g.slots[u].data.value;
      assert MountedSessions(g') == MountedSessions(g) + {sid};
    }
  }

  // The branch for a session that is neither open nor mounted is never taken.
  lemma KeepRunMount(s: State, w: map<Unit, Duty>, t: Tid, ok: bool)
    requires Explains(w, s) && InSection(s, t) && s.procs[t].sec.Mount?
    requires !MountSection(s.reg, s.procs[t].u, ok).1.Refused?
    ensures Inv(DoRunMount(s, t, true, ok)) && MountSection(s.reg, s.procs[t].u, ok).1 != Failing(false)
  {
    var s', u := DoRunMount(s, t, true, ok), s.procs[t].u;
    var w' := w[u := w[u].(mounter := Some(t))];
    ThreadAt(s, w, t);
    UnitAt(s, w, u);
    MountedAccounts(s.reg, u, ok);
    forall x {:trigger SessionOk(s', w', x)} | x in s'.reg.sessions && s'.reg.sessions[x].unit == u
      ensures SessionOk(s', w', x)
    {
      SessionAt(s, w, x);
    }
    KeepStep(s, w, s', w', t, u);
  }

  lemma UnmountedAccounts(g: Registry, u: Unit, sid: Sid)
    requires Accounts(g) && HasData(g, u) && g.slots[u].data == Some(sid) && g.sessions[sid].isMounted
    ensures Accounts(UnmountSection(g, u, sid))
  {
    var g1 := g.(sessions := g.sessions[sid := g.sessions[sid].(isMounted := false)], mountCount := g.mountCount - 1);
    assert MountedSessions(g1) == MountedSessions(g) - {sid};
    if !g.sessions[sid].isOpen {
      DestroyAccounts(g1, sid);
      assert MountedSessions(CloseFinal(g1, u)) == MountedSessions(Destroy(g1, sid));
    }
  }

  // The end of an unmount, and of a mount that failed.
  lemma KeepUnmounted(s: State, w: map<Unit, Duty>, t: Tid, sid: Sid)
    requires Explains(w, s) && InSection(s, t) && Mounts(s.procs[t]) && s.procs[t].sec.sid == sid
    ensures HasData(s.reg, s.procs[t].u) && s.reg.slots[s.procs[t].u].data == Some(sid)
    ensures Inv(Exit(Unlock(s.(reg := UnmountSection(s.reg, s.procs[t].u, sid)), s.procs[t].u), t))
  {
    var u := s.procs[t].u;
    ThreadAt(s, w, t);
    UnitAt(s, w, u);
    var s' := Exit(Unlock(s.(reg := UnmountSection(s.reg, u, sid)), u), t);
    var w' := w[u := w[u].(mounter := None)];
    UnmountedAccounts(s.reg, u, sid);
    forall x {:trigger SessionOk(s', w', x)} | x in s'.reg.sessions && s'.reg.sessions[x].unit == u
      ensures SessionOk(s', w', x)
    {
      SessionAt(s, w, x);
    }
    KeepStep(s, w, s', w', t, u);
  }

  lemma KeepRunUndo(s: State, w: map<Unit, Duty>, t: Tid)
    requires Explains(w, s) && InSection(s, t) && s.procs[t].sec.Undo?
    ensures Inv(DoRunUndo(s, t))
  {
    ThreadAt(s, w, t);
    KeepUnmounted(s, w, t, s.procs[t].sec.sid);
  }
}
