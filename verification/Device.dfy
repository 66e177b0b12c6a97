/** The device table, the sessions its slots point to, and the sections of code
    that open, close, mount and unmount run under a device's own lock. Class
    DeviceTable is that code updating the table in place. */
module Device {
  import opened Common

  type Unit = nat  // /dev/fuseN
  type Sid = nat   // the address of a fuse_data, one for each allocation

  datatype Slot = Slot(usecount: int, data: Option<Sid>)

  datatype Session = Session(unit: Unit, isOpen: bool, isMounted: bool)

  datatype Registry = Registry(
    slots: map<Unit, Slot>,
    sessions: map<Sid, Session>,  // fuse_data in existence
    destroyed: seq<Sid>,          // given to fdata_destroy, in order
    next: Sid,
    mountCount: int)              // fuse_mount_count

  predicate HasData(g: Registry, u: Unit) {
    u in g.slots && g.slots[u].data.Some? && g.slots[u].data.value in g.sessions
  }

  function SetUse(g: Registry, u: Unit, n: int): Registry
    requires u in g.slots
  {
    g.(slots := g.slots[u := g.slots[u].(usecount := n)])
  }

  function SetData(g: Registry, u: Unit, d: Option<Sid>): Registry
    requires u in g.slots
  {
    g.(slots := g.slots[u := g.slots[u].(data := d)])
  }

  function Destroy(g: Registry, sid: Sid): Registry {
    g.(sessions := g.sessions - {sid}, destroyed := g.destroyed + [sid])
  }

  // fuse_device_close_final
  function CloseFinal(g: Registry, u: Unit): Registry
    requires HasData(g, u)
  {
    SetData(Destroy(g, g.slots[u].data.value), u, None)
  }

  // fdata_alloc, and the slot taken unless a mount still lingers there.
  function Allocated(g: Registry, u: Unit): Registry {
    g.(sessions := g.sessions[g.next := Session(u, false, false)], next := g.next + 1)
  }

  function OpenSection(g: Registry, u: Unit): (Registry, bool)
    requires u in g.slots
  {
    if g.slots[u].data.Some? then (Allocated(g, u), true)
    else
      var g1 := Allocated(g, u);
      (SetData(g1.(sessions := g1.sessions[g.next := Session(u, true, false)]), u, Some(g.next)), false)
  }

  function CloseSection(g: Registry, u: Unit, sid: Sid): Registry
    requires u in g.slots && sid in g.sessions
  {
    var g1 := g.(sessions := g.sessions[sid := g.sessions[sid].(isOpen := false)]);
    if g.sessions[sid].isMounted then g1 else Destroy(SetData(g1, u, None), sid)
  }

  datatype MountOutcome = Refused | Failing(counted: bool) | Going(sid: Sid)

  // ok: the daemon is alive and the credentials match.
  function MountSection(g: Registry, u: Unit, ok: bool): (Registry, MountOutcome)
    requires u in g.slots && (g.slots[u].data.Some? ==> HasData(g, u))
  {
    if g.slots[u].data == None then (g, Refused)
    else
      var sid := g.slots[u].data.value;
      var d := g.sessions[sid];
      if d.isMounted then (g, Refused)
      else if !d.isOpen then (g, Failing(false))
      else (g.(sessions := g.sessions[sid := d.(isMounted := true)], mountCount := g.mountCount + 1),
            if ok then Going(sid) else Failing(true))
  }

  // The error exit of a mount looks at the slot again.
  function UndoSection(g: Registry, u: Unit, counted: bool): Registry
    requires u in g.slots && (g.slots[u].data.Some? ==> HasData(g, u))
  {
    var g1 := g.(mountCount := g.mountCount - if counted then 1 else 0);
    if g.slots[u].data == None then g1
    else
      var sid := g.slots[u].data.value;
      var g2 := g1.(sessions := g.sessions[sid := g.sessions[sid].(isMounted := false)]);
      if !g.sessions[sid].isOpen then CloseFinal(g2, u) else g2
  }

  function UnmountSection(g: Registry, u: Unit, sid: Sid): Registry
    requires sid in g.sessions && HasData(g, u)
  {
    var g1 := g.(sessions := g.sessions[sid := g.sessions[sid].(isMounted := false)], mountCount := g.mountCount - 1);
    if !g.sessions[sid].isOpen then CloseFinal(g1, u) else g1
  }

  // ------------------------------------------------ the code in place

  class DeviceTable {
    var slots: map<Unit, Slot>
    var sessions: map<Sid, Session>
    var destroyed: seq<Sid>
    var next: Sid
    var mountCount: int

    ghost function View(): Registry
      reads this
    {
      Registry(slots, sessions, destroyed, next, mountCount)
    }

    method FdataDestroy(sid: Sid)
      modifies this
      ensures View() == Destroy(old(View()), sid)
    {
      sessions := sessions - {sid};
      destroyed := destroyed + [sid];
    }

    method DeviceCloseFinal(u: Unit)
      requires HasData(View(), u)
      modifies this
      ensures View() == CloseFinal(old(View()), u)
    {
      FdataDestroy(slots[u].data.value);
      slots := slots[u := slots[u].(data := None)];
    }

    method OpenLocked(u: Unit) returns (lingering: bool)
      requires u in slots
      modifies this
      ensures (View(), lingering) == OpenSection(old(View()), u)
    {
      var fdata := next;
      next := next + 1;
      sessions := sessions[fdata := Session(u, false, false)];
      lingering := slots[u].data.Some?;
      if !lingering {
        sessions := sessions[fdata := Session(u, true, false)];
        slots := slots[u := slots[u].(data := Some(fdata))];
      }
    }

    method CloseLocked(u: Unit, data: Sid)
      requires u in slots && data in sessions
      modifies this
      ensures View() == CloseSection(old(View()), u, data)
    {
      sessions := sessions[data := sessions[data].(isOpen := false)];
      if !sessions[data].isMounted {
        slots := slots[u := slots[u].(data := None)];
        FdataDestroy(data);
      }
    }

    method MountLocked(u: Unit, ok: bool) returns (out: MountOutcome)
      requires u in slots && (slots[u].data.Some? ==> HasData(View(), u))
      modifies this
      ensures (View(), out) == MountSection(old(View()), u, ok)
    {
      if slots[u].data == None {
        return Refused;
      }
      var data := slots[u].data.value;
      if sessions[data].isMounted {
        return Refused;
      }
      if !sessions[data].isOpen {
        return Failing(false);
      }
      sessions := sessions[data := sessions[data].(isMounted := true)];
      mountCount := mountCount + 1;
      out := if ok then Going(data) else Failing(true);
    }

    method UndoLocked(u: Unit, mounted: bool)
      requires u in slots && (slots[u].data.Some? ==> HasData(View(), u))
      modifies this
      ensures View() == UndoSection(old(View()), u, mounted)
    {
      if mounted {
        mountCount := mountCount - 1;
      }
      if slots[u].data.Some? {
        var data := slots[u].data.value;
        sessions := sessions[data := sessions[data].(isMounted := false)];
        if !sessions[data].isOpen {
          DeviceCloseFinal(u);
        }
      }
    }

    method UnmountLocked(u: Unit, data: Sid)
      requires data in sessions && HasData(View(), u)
      modifies this
      ensures View() == UnmountSection(old(View()), u, data)
    {
      sessions := sessions[data := sessions[data].(isMounted := false)];
      mountCount := mountCount - 1;
      if !sessions[data].isOpen {
        DeviceCloseFinal(u);
      }
    }
  }
}
