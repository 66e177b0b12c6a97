/** The data of one FUSE session that the request/reply protocol shares: the
    tickets, the four lists they travel on, and the counters.

    Every value function below is one critical section (or one unlocked step on
    a ticket that a single thread owns); class FuseData is the same code as it
    updates the fields in place, proved against those functions. */
module Session {
  import opened Common

  type Addr = nat  // a ticket's address; free again once the ticket is destroyed

  // tk_age is a uint32_t.
  const AGE_MODULUS: nat := 0x1_0000_0000

  // tk_aw_handler: none, fuse_standard_handler, fuse_internal_fsync_callback,
  // fuse_internal_forget_callback.
  datatype Handler = NoHandler | Standard | FsyncCallback | ForgetCallback

  // One use of a ticket: its tk_unique, and how often it was refreshed before.
  datatype Use = Use(unique: nat, gen: nat)

  // A reply as the daemon sends it. Only use.unique and the payload are on the
  // wire; addr and use.gen record what the daemon is answering.
  datatype Reply = Reply(addr: Addr, use: Use, error: int, body: seq<int>)

  // gen counts every refresh of the ticket since it was allocated; the source
  // keeps only its low 32 bits, see Age.
  datatype Ticket = Ticket(
    unique: nat,      // tk_unique, not renewed by a refresh
    gen: nat,
    answered: bool,   // FT_ANSW
    invalid: bool,    // FT_INVAL
    dirty: bool,      // FT_DIRTY
    killLater: bool,  // FT_KILLL
    handler: Handler,
    answer: Option<Reply>,  // tk_aw_ohead and the pulled body
    awErrno: int)

  function Age(t: Ticket): (a: nat)
    ensures a < AGE_MODULUS
  {
    t.gen % AGE_MODULUS
  }

  function UseOf(t: Ticket): Use { Use(t.unique, t.gen) }

  datatype Data = Data(
    tickets: map<Addr, Ticket>,  // allocated and not destroyed
    all: seq<Addr>,
    free: seq<Addr>,
    ms: seq<Addr>,               // messages on their way to the daemon
    aw: seq<Addr>,               // tickets awaiting an answer
    freeCount: int,
    deadCount: int,
    ticketer: nat,
    panicked: bool)             // some panic() of the ticket code was reached

  const Initial: Data := Data(map[], [], [], [], [], 0, 0, 0, false)

  function NewTicket(unique: nat): Ticket { Ticket(unique, 0, false, false, false, false, NoHandler, None, 0) }

  // fticket_refresh: everything but the handler is cleared and the age moves on.
  function Refreshed(t: Ticket): Ticket {
    Ticket(t.unique, t.gen + 1, false, false, false, false, t.handler, None, 0)
  }

  function Put(d: Data, u: Addr, t: Ticket): Data {
    d.(tickets := d.tickets[u := t])
  }

  // fticket_alloc at the address u
  function Alloc(d: Data, u: Addr): Data {
    d.(tickets := d.tickets[u := NewTicket(d.ticketer)], ticketer := d.ticketer + 1)
  }

  function PushAll(d: Data, u: Addr): Data {
    d.(all := d.all + [u])
  }

  // fuse_pop_freeticks, together with both of its panics: the list may not be
  // empty while the counter is positive, nor the other way round.
  function PopFree(d: Data): Data {
    if d.free == [] then d.(panicked := true)
    else d.(free := d.free[1..], freeCount := d.freeCount - 1,
            panicked := d.panicked || (d.free[1..] == [] && d.freeCount - 1 != 0))
  }

  function PushFree(d: Data, u: Addr): Data {
    d.(free := d.free + [u], freeCount := d.freeCount + 1)
  }

  // fuse_remove_allticks followed by fticket_destroy
  function Destroy(d: Data, u: Addr): Data {
    d.(all := Remove(d.all, u), deadCount := d.deadCount + 1, tickets := d.tickets - {u})
  }

  // The verdict of fuse_ticket_drop: is the ticket destroyed, or kept?
  predicate MustDie(d: Data, u: Addr, maxFree: int)
    requires u in d.tickets
  {
    (maxFree >= 0 && maxFree <= d.freeCount) || d.tickets[u].killLater
  }

  function Refresh(d: Data, u: Addr): Data
    requires u in d.tickets
  {
    Put(d, u, Refreshed(d.tickets[u]))
  }

  function InsertCallback(d: Data, u: Addr, h: Handler): Data
    requires u in d.tickets
  {
    Put(d, u, d.tickets[u].(handler := h)).(aw := d.aw + [u])
  }

  function Invalidate(d: Data, u: Addr): Data
    requires u in d.tickets
  {
    Put(d, u, d.tickets[u].(invalid := true))
  }

  // fuse_insert_message, with the panic on a ticket that was not refreshed
  function InsertMessage(d: Data, u: Addr): Data
    requires u in d.tickets
  {
    if d.tickets[u].dirty then d.(panicked := true)
    else Put(d, u, d.tickets[u].(dirty := true)).(ms := d.ms + [u])
  }

  function PopMessage(d: Data): Data
    requires d.ms != []
  {
    d.(ms := d.ms[1..])
  }

  // The first ticket of the queue with this tk_unique.
  function WithUnique(tickets: map<Addr, Ticket>, queue: seq<Addr>, unique: nat): Option<Addr> {
    if queue == [] then None
    else if queue[0] in tickets && tickets[queue[0]].unique == unique then Some(queue[0])
    else WithUnique(tickets, queue[1..], unique)
  }

  lemma {:induction false} WithUniqueFinds(tickets: map<Addr, Ticket>, queue: seq<Addr>, unique: nat)
    ensures var f := WithUnique(tickets, queue, unique);
            && (f.Some? ==> f.value in queue && f.value in tickets && tickets[f.value].unique == unique)
            && (f.None? ==> forall u | u in queue && u in tickets :: tickets[u].unique != unique)
  {
    if queue != [] {
      WithUniqueFinds(tickets, queue[1..], unique);
      assert queue == [queue[0]] + queue[1..];
    }
  }

  function Awaited(d: Data, unique: nat): Option<Addr> { WithUnique(d.tickets, d.aw, unique) }

  // fuse_device_write: the ticket with the reply's unique leaves the aw queue.
  function TakeAwaited(d: Data, unique: nat): Data {
    if Awaited(d, unique).Some? then d.(aw := Remove(d.aw, Awaited(d, unique).value)) else d
  }

  function SetAnswered(d: Data, u: Addr): Data
    requires u in d.tickets
  {
    Put(d, u, d.tickets[u].(answered := true))
  }

  // The header copy of fuse_device_write and fticket_pull. The body is pulled
  // only for a reply without error; a pull that fails may ask for KILL_LATER.
  // fuse_body_audit panics when a handler was installed for FORGET.
  function Pull(d: Data, u: Addr, r: Reply, killLater: bool): Data
    requires u in d.tickets
  {
    var t := d.tickets[u];
    Put(d, u, t.(answer := Some(r), killLater := t.killLater || (killLater && r.error == 0)))
      .(panicked := d.panicked || (t.invalid && r.error == 0))
  }

  // fuse_standard_handler under tk_aw_mtx, when nobody had answered before
  function Complete(d: Data, u: Addr, err: int): Data
    requires u in d.tickets
  {
    Put(d, u, d.tickets[u].(answered := true, awErrno := err))
  }

  // The age check of fdisp_wait_answ: forget the handler of the ticket at address
  // u if it awaits an answer, but only if its age is the one stamped.
  function ClearHandler(d: Data, u: Addr, age: nat): Data {
    if u in d.aw && u in d.tickets && Age(d.tickets[u]) == age
    then Put(d, u, d.tickets[u].(handler := NoHandler))
    else d
  }

  // How fuse_ticket_fetch ends.
  datatype FetchEnd = MustSleep | TooMany | Proceed

  // What fuse_device_read finds.
  datatype ReadOutcome = NoDevice | WouldBlock | Sleeps | Message(u: Addr)

  class FuseData {
    var tickets: map<Addr, Ticket>
    var all: seq<Addr>
    var free: seq<Addr>
    var ms: seq<Addr>
    var aw: seq<Addr>
    var freeCount: int
    var deadCount: int
    var ticketer: nat
    var panicked: bool
    var dead: bool    // FSESS_DEAD
    var inited: bool  // FSESS_INITED

    ghost function View(): Data
      reads this
    {
      Data(tickets, all, free, ms, aw, freeCount, deadCount, ticketer, panicked)
    }

    constructor ()
      ensures View() == Initial && !dead && !inited
    {
      tickets, all, free, ms, aw := map[], [], [], [], [];
      freeCount, deadCount, ticketer, panicked := 0, 0, 0, false;
      dead, inited := false, false;
    }

    // fuse_ticket_fetch, first critical section: a ticket off the free list, or
    // none when the counter says that one has to be allocated.
    method FetchLocked() returns (r: Option<Addr>)
      modifies this
      ensures old(freeCount) == 0 ==> r == None && View() == old(View())
      ensures old(freeCount) != 0 ==> View() == PopFree(old(View()))
      ensures old(freeCount) != 0 && old(free) != [] ==> r == Some(old(free)[0])
      ensures old(free) == [] ==> r == None
      ensures dead == old(dead) && inited == old(inited)
    {
      r := None;
      if freeCount != 0 {
        if free == [] {
          panicked := true;
        } else {
          r := Some(free[0]);
          free := free[1..];
          freeCount := freeCount - 1;
          if free == [] && freeCount != 0 { panicked := true; }
        }
      }
    }

    // fuse_ticket_fetch, the end: before the handshake only the first ticket goes
    // ahead, and beyond the limit on tickets the session is declared dead.
    method FetchEnds(maxTickets: int) returns (r: FetchEnd)
      modifies this
      ensures r == if !inited && ticketer > 1 then MustSleep
                   else if maxTickets != 0 && ticketer - deadCount > maxTickets then TooMany
                   else Proceed
      ensures View() == old(View()) && inited == old(inited) && dead == (old(dead) || r == TooMany)
    {
      r := Proceed;
      if !inited && ticketer > 1 {
        r := MustSleep;
      } else if maxTickets != 0 && ticketer - deadCount > maxTickets {
        r := TooMany;
        dead := true;
      }
    }

    // u is the address that the allocator gives out.
    method AllocTicket(u: Addr)
      requires u !in tickets
      modifies this
      ensures View() == Alloc(old(View()), u) && dead == old(dead) && inited == old(inited)
    {
      tickets := tickets[u := NewTicket(ticketer)];
      ticketer := ticketer + 1;
    }

    method PushAllTicks(u: Addr)
      modifies this`all
      ensures View() == PushAll(old(View()), u)
    {
      all := all + [u];
    }

    // fuse_ticket_drop, first critical section
    method DropLocked(u: Addr, maxFree: int) returns (die: bool)
      requires u in tickets
      modifies this`all, this`deadCount, this`tickets
      ensures die == MustDie(old(View()), u, maxFree)
      ensures View() == if die then Destroy(old(View()), u) else old(View())
    {
      die := (maxFree >= 0 && maxFree <= freeCount) || tickets[u].killLater;
      if die { Kill(u); }
    }

    // fuse_ticket_drop, unlocked refresh and second critical section
    method DropKept(u: Addr)
      requires u in tickets
      modifies this`tickets, this`free, this`freeCount
      ensures View() == PushFree(Refresh(old(View()), u), u)
    {
      tickets := tickets[u := Refreshed(tickets[u])];
      free := free + [u];
      freeCount := freeCount + 1;
    }

    // fuse_ticket_kill
    method Kill(u: Addr)
      modifies this`all, this`deadCount, this`tickets
      ensures View() == Destroy(old(View()), u)
    {
      deadCount := deadCount + 1;
      all := Remove(all, u);
      tickets := tickets - {u};
    }

    // On a dead session nothing happens.
    method InsertCallbackLocked(u: Addr, h: Handler)
      requires u in tickets
      modifies this`tickets, this`aw
      ensures View() == if dead then old(View()) else InsertCallback(old(View()), u, h)
    {
      if dead {
        return;
      }
      tickets := tickets[u := tickets[u].(handler := h)];
      aw := aw + [u];
    }

    // On a dead session the ticket is only marked.
    method InsertMessageLocked(u: Addr)
      requires u in tickets
      modifies this`tickets, this`ms, this`panicked
      ensures !dead || old(tickets)[u].dirty ==> View() == InsertMessage(old(View()), u)
      ensures dead && !old(tickets)[u].dirty ==> View() == Put(old(View()), u, old(tickets)[u].(dirty := true))
    {
      if tickets[u].dirty {
        panicked := true;
      } else {
        tickets := tickets[u := tickets[u].(dirty := true)];
        if !dead {
          ms := ms + [u];
        }
      }
    }

    // fuse_device_read: the oldest message leaves the queue; without one the
    // reader returns or sleeps.
    method DeviceReadLocked(nonblock: bool) returns (r: ReadOutcome)
      modifies this`ms
      ensures r.NoDevice? <==> dead
      ensures !dead && old(ms) == [] ==> r == (if nonblock then WouldBlock else Sleeps)
      ensures !dead && old(ms) != [] ==> r == Message(old(ms)[0]) && View() == PopMessage(old(View()))
      ensures !r.Message? ==> View() == old(View())
    {
      if dead {
        return NoDevice;
      }
      if ms == [] {
        return if nonblock then WouldBlock else Sleeps;
      }
      r := Message(ms[0]);
      ms := ms[1..];
    }

    // fuse_device_write: walk the aw queue for the reply's unique.
    method DeviceWriteLocked(unique: nat) returns (found: Option<Addr>)
      requires Distinct(aw) && forall u | u in aw :: u in tickets
      modifies this`aw
      ensures found == Awaited(old(View()), unique)
      ensures View() == TakeAwaited(old(View()), unique)
    {
      found := None;
      var i := 0;
      while i < |aw|
        invariant 0 <= i <= |aw| && View() == old(View())
        invariant Awaited(View(), unique) == WithUnique(tickets, aw[i..], unique)
      {
        if tickets[aw[i]].unique == unique {
          found := Some(aw[i]);
          RemoveAt(aw, i);
          aw := aw[..i] + aw[i+1..];
          return;
        }
        i := i + 1;
      }
    }

    // fuse_standard_handler under tk_aw_mtx
    method StandardHandlerLocked(u: Addr, err: int) returns (dropIt: bool)
      requires u in tickets
      modifies this`tickets
      ensures dropIt == old(tickets)[u].answered
      ensures View() == if dropIt then old(View()) else Complete(old(View()), u, err)
    {
      dropIt := tickets[u].answered;
      if !dropIt {
        tickets := tickets[u := tickets[u].(answered := true, awErrno := err)];
      }
    }

    // fdisp_wait_answ, interrupted: under tk_aw_mtx
    method InterruptedLocked(u: Addr) returns (already: bool, age: nat)
      requires u in tickets
      modifies this`tickets
      ensures already == old(tickets)[u].answered && age == Age(old(tickets)[u])
      ensures View() == SetAnswered(old(View()), u)
    {
      already, age := tickets[u].answered, Age(tickets[u]);
      if already {
        assert tickets == tickets[u := tickets[u].(answered := true)];
      } else {
        tickets := tickets[u := tickets[u].(answered := true)];
      }
    }

    // fdisp_wait_answ, interrupted: the walk of the aw queue under aw_mtx. To get
    // at that mutex the code follows the requester's pointer to its ticket, so the
    // ticket has to be there still.
    method PreventIoInVain(u: Addr, age: nat)
      requires u in tickets
      modifies this`tickets
      ensures View() == ClearHandler(old(View()), u, age)
    {
      var i := 0;
      while i < |aw|
        invariant 0 <= i <= |aw|
        invariant u !in aw[..i]
        invariant View() == old(View())
      {
        if aw[i] == u {
          if Age(tickets[u]) == age {
            tickets := tickets[u := tickets[u].(handler := NoHandler)];
          }
          return;
        }
        i := i + 1;
      }
    }
  }
}
