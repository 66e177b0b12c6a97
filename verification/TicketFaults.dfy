/** Where requesters go wrong that still have a pointer to a ticket which is no
    longer theirs: runs in which the ticket is gone when an interrupted requester
    looks for it, or when one that was told of an error does; in which another
    ticket has the address and the age; and in which 2^32 refreshes have passed. In
    the last two an interrupted requester clears the handler of somebody else's
    request, and so lets the daemon's writer drop a ticket that a requester is still
    waiting on. */
module TicketFaults {
  import opened Common
  import opened Session
  import opened TicketProtocol

  ghost predicate Leads(s: State, s': State) { exists steps :: Exec(s, steps) == Some(s') }

  lemma {:induction false} ExecAppend(s: State, a: seq<Step>, b: seq<Step>)
    requires Exec(s, a).Some?
    ensures Exec(s, a + b) == Exec(Exec(s, a).value, b)
    decreases |a|
  {
    if a == [] {
      assert a + b == b;
    } else {
      ExecAppend(Apply(s, a[0]), a[1..], b);
      assert (a + b)[1..] == a[1..] + b;
    }
  }

  // Equality, component by component.
  ghost predicate Is(r: State, s: State) {
    && r.procs == s.procs && r.pending == s.pending
    && r.d.tickets == s.d.tickets && r.d.all == s.d.all && r.d.free == s.d.free
    && r.d.ms == s.d.ms && r.d.aw == s.d.aw
    && r.d == s.d
  }

  lemma Then(s1: State, step: Step)
    requires Leads(Start, s1) && Enabled(s1, step)
    ensures Leads(Start, Apply(s1, step))
  {
    var steps :| Exec(Start, steps) == Some(s1);
    ExecAppend(Start, steps, [step]);
    assert Exec(s1, [step]) == Exec(Apply(s1, step), []);
    assert Exec(Start, steps + [step]) == Some(Apply(s1, step));
  }

  // The same, step by step.

  lemma ThenFetch(s1: State, t: Tid, k: Kind, s2: State)
    requires Leads(Start, s1) && t !in s1.procs
    requires Is(DoFetch(s1, t, k), s2)
    ensures Leads(Start, s2)
  {
    Then(s1, Fetch(t, k));
  }

  lemma ThenAllocTicket(s1: State, t: Tid, u: Addr, s2: State)
    requires Leads(Start, s1) && t in s1.procs && s1.procs[t].NeedAlloc? && !Live(s1, u)
    requires Is(DoAlloc(s1, t, u), s2)
    ensures Leads(Start, s2)
  {
    Then(s1, AllocTicket(t, u));
  }

  lemma ThenPushOnAll(s1: State, t: Tid, s2: State)
    requires Leads(Start, s1) && t in s1.procs && s1.procs[t].Allocated?
    requires Is(DoPushOnAll(s1, t), s2)
    ensures Leads(Start, s2)
  {
    Then(s1, PushOnAll(t));
  }

  lemma ThenSetCallback(s1: State, t: Tid, s2: State)
    requires Leads(Start, s1) && t in s1.procs && s1.procs[t].Ready? && s1.procs[t].kind != Forget
             && Live(s1, s1.procs[t].u)
    requires Is(DoSetCallback(s1, t), s2)
    ensures Leads(Start, s2)
  {
    Then(s1, SetCallback(t));
  }

  lemma ThenSendMessage(s1: State, t: Tid, s2: State)
    requires Leads(Start, s1) && t in s1.procs && s1.procs[t].Called? && Live(s1, s1.procs[t].u)
    requires Is(DoSendMessage(s1, t), s2)
    ensures Leads(Start, s2)
  {
    Then(s1, SendMessage(t));
  }

  lemma ThenSendForget(s1: State, t: Tid, s2: State)
    requires Leads(Start, s1) && t in s1.procs && s1.procs[t].Ready? && s1.procs[t].kind == Forget
             && Live(s1, s1.procs[t].u)
    requires Is(DoSendForget(s1, t), s2)
    ensures Leads(Start, s2)
  {
    Then(s1, SendForget(t));
  }

  lemma ThenCollect(s1: State, t: Tid, s2: State)
    requires Leads(Start, s1) && t in s1.procs && s1.procs[t].Waiting? && Live(s1, s1.procs[t].u)
    requires s1.d.tickets[s1.procs[t].u].answered && Is(DoCollect(s1, t), s2)
    ensures Leads(Start, s2)
  {
    Then(s1, Collect(t));
  }

  lemma ThenInterrupt(s1: State, t: Tid, s2: State)
    requires Leads(Start, s1) && t in s1.procs && s1.procs[t].Waiting?
    requires Is(DoInterrupt(s1, t), s2)
    ensures Leads(Start, s2)
  {
    Then(s1, Interrupt(t));
  }

  lemma ThenStamp(s1: State, t: Tid, s2: State)
    requires Leads(Start, s1) && t in s1.procs && s1.procs[t].Interrupted? && Live(s1, s1.procs[t].u)
    requires Is(DoStamp(s1, t), s2)
    ensures Leads(Start, s2)
  {
    Then(s1, Stamp(t));
  }

  lemma ThenScan(s1: State, t: Tid, s2: State)
    requires Leads(Start, s1) && t in s1.procs && s1.procs[t].Stamped?
    requires Is(DoScan(s1, t), s2)
    ensures Leads(Start, s2)
  {
    Then(s1, Scan(t));
  }

  lemma ThenDropDecide(s1: State, t: Tid, m: int, s2: State)
    requires Leads(Start, s1) && t in s1.procs && s1.procs[t].Dropping? && Live(s1, s1.procs[t].u)
    requires Is(DoDropDecide(s1, t, m), s2)
    ensures Leads(Start, s2)
  {
    Then(s1, DropDecide(t, m));
  }

  lemma ThenDropRefresh(s1: State, t: Tid, s2: State)
    requires Leads(Start, s1) && t in s1.procs && s1.procs[t].Refreshing? && Live(s1, s1.procs[t].u)
    requires Is(DoDropRefresh(s1, t), s2)
    ensures Leads(Start, s2)
  {
    Then(s1, DropRefresh(t));
  }

  lemma ThenDropPush(s1: State, t: Tid, s2: State)
    requires Leads(Start, s1) && t in s1.procs && s1.procs[t].Pushing?
    requires Is(DoDropPush(s1, t), s2)
    ensures Leads(Start, s2)
  {
    Then(s1, DropPush(t));
  }

  lemma ThenRead(s1: State, t: Tid, s2: State)
    requires Leads(Start, s1) && t !in s1.procs && s1.d.ms != [] && Live(s1, s1.d.ms[0])
    requires Is(DoRead(s1, t), s2)
    ensures Leads(Start, s2)
  {
    Then(s1, Read(t));
  }

  lemma ThenDeliver(s1: State, t: Tid, c: bool, s2: State)
    requires Leads(Start, s1) && t in s1.procs && s1.procs[t].Popped? && Live(s1, s1.procs[t].u)
    requires Is(DoDeliver(s1, t, c), s2)
    ensures Leads(Start, s2)
  {
    Then(s1, Deliver(t, c));
  }

  lemma ThenWrite(s1: State, t: Tid, r: Reply, s2: State)
    requires Leads(Start, s1) && t !in s1.procs && (r.addr, r.use) in s1.pending
    requires Is(DoWrite(s1, t, r), s2)
    ensures Leads(Start, s2)
  {
    Then(s1, Write(t, r));
  }

  lemma ThenHandle(s1: State, t: Tid, e: int, k: bool, s2: State)
    requires Leads(Start, s1) && t in s1.procs && s1.procs[t].Found? && Live(s1, s1.procs[t].u)
    requires Is(DoHandle(s1, t, e, k), s2)
    ensures Leads(Start, s2)
  {
    Then(s1, Handle(t, e, k));
  }

  lemma ThenAnswer(s1: State, t: Tid, s2: State)
    requires Leads(Start, s1) && t in s1.procs && s1.procs[t].Pulled? && Live(s1, s1.procs[t].u)
    requires Is(DoAnswer(s1, t), s2)
    ensures Leads(Start, s2)
  {
    Then(s1, Answer(t));
  }

  lemma Here(s: State)
    ensures Leads(s, s)
  {
    assert Exec(s, []) == Some(s);
  }

  // A session with the one ticket at address 0, after dead others.
  function One(dead: nat, tk: Ticket, free: seq<Addr>, ms: seq<Addr>, aw: seq<Addr>, procs: map<Tid, Pc>,
               pending: set<(Addr, Use)>): State
  {
    State(Data(map[0 := tk], [0], free, ms, aw, |free|, dead, dead + 1, false), procs, pending)
  }

  // A ticket in its use.
  function Tk(use: Use, answered: bool, invalid: bool, dirty: bool, h: Handler, r: Option<Reply>): Ticket {
    Ticket(use.unique, use.gen, answered, invalid, dirty, false, h, r, 0)
  }

  const First := Use(0, 0)

  const Stamp0 := Stamped(0, First)

  function With1(pc: Pc): map<Tid, Pc> { map[0 := Stamp0, 1 := pc] }

  // Thread 0 noted age 0 and has not looked at the aw queue yet; its ticket went
  // back to the pool and has been refreshed n times.
  function Asleep(n: nat): State {
    One(0, Tk(Use(0, n), false, false, false, Standard, None), [0], [], [], map[0 := Stamp0], {})
  }

  // Ticket 0 in its first use: allocated and sent.
  lemma FirstRequest()
    ensures Leads(Start, One(0, Tk(First, false, false, true, Standard, None), [], [0], [0],
            map[0 := Waiting(0, First)], {}))
  {
    var fetched := Start.(procs := map[0 := NeedAlloc(Sync)]);
    var made := State(Data(map[0 := NewTicket(0)], [], [], [], [], 0, 0, 1, false), map[0 := Allocated(0, Sync)], {});
    var ready := One(0, NewTicket(0), [], [], [], map[0 := Ready(0, Sync)], {});
    var tk := Tk(First, false, false, false, Standard, None);
    Here(Start);
    ThenFetch(Start, 0, Sync, fetched);
    ThenAllocTicket(fetched, 0, 0, made);
    ThenPushOnAll(made, 0, ready);
    ThenSetCallback(ready, 0, One(0, tk, [], [], [0], map[0 := Called(0, Sync)], {}));
    ThenSendMessage(One(0, tk, [], [], [0], map[0 := Called(0, Sync)], {}), 0,
      One(0, tk.(dirty := true), [], [0], [0], map[0 := Waiting(0, First)], {}));
  }

  // ... read by the daemon.
  lemma FirstDelivered()
    ensures Leads(Start, One(0, Tk(First, false, false, true, Standard, None), [], [], [0],
                             map[0 := Waiting(0, First)], {(0, First)}))
  {
    FirstRequest();
    var tk := Tk(First, false, false, true, Standard, None);
    var popped := One(0, tk, [], [], [0], map[0 := Waiting(0, First), 1 := Popped(0, First)], {});
    ThenRead(One(0, tk, [], [0], [0], map[0 := Waiting(0, First)], {}), 1, popped);
    assert popped.procs - {1} == map[0 := Waiting(0, First)];
    ThenDeliver(popped, 1, true, One(0, tk, [], [], [0], map[0 := Waiting(0, First)], {(0, First)}));
  }

  // ... and given up by its requester.
  lemma FirstInterrupt()
    ensures Leads(Start, One(0, Tk(First, true, false, true, Standard, None), [], [], [0], map[0 := Stamp0],
                             {(0, First)}))
  {
    FirstDelivered();
    var tk := Tk(First, false, false, true, Standard, None);
    ThenInterrupt(One(0, tk, [], [], [0], map[0 := Waiting(0, First)], {(0, First)}), 0,
      One(0, tk, [], [], [0], map[0 := Interrupted(0, First)], {(0, First)}));
    ThenStamp(One(0, tk, [], [], [0], map[0 := Interrupted(0, First)], {(0, First)}), 0,
      One(0, tk.(answered := true), [], [], [0], map[0 := Stamp0], {(0, First)}));
  }

  // The daemon's reply comes, and the writer has to drop the ticket.
  lemma FirstReply() returns (tk: Ticket)
    ensures Leads(Start, One(0, tk, [], [], [], With1(Dropping(0, None)), {}))
    ensures UseOf(tk) == First && !tk.killLater && tk.handler == Standard && tk.awErrno == 0
  {
    FirstInterrupt();
    var r := Reply(0, First, 0, []);
    tk := Tk(First, true, false, true, Standard, None);
    ThenWrite(One(0, tk, [], [], [0], map[0 := Stamp0], {(0, First)}), 1, r,
      One(0, tk, [], [], [], With1(Found(0, r)), {}));
    ThenHandle(One(0, tk, [], [], [], With1(Found(0, r)), {}), 1, 0, false,
      One(0, tk.(answer := Some(r)), [], [], [], With1(Pulled(0, 0)), {}));
    ThenAnswer(One(0, tk.(answer := Some(r)), [], [], [], With1(Pulled(0, 0)), {}), 1,
      One(0, tk.(answer := Some(r)), [], [], [], With1(Dropping(0, None)), {}));
    tk := tk.(answer := Some(r));
  }

  // ------------------------------------------------ the ticket is gone

  // No ticket left, thread 0 still on its way to the aw queue, and perhaps others.
  function Empty(procs: map<Tid, Pc>): State {
    State(Data(map[], [], [], [], [], 0, 1, 1, false), procs, {})
  }

  // With a full pool the writer destroys the ticket, and thread 0, which is about
  // to follow its pointer to it, is left with a pointer to freed memory.
  lemma StampedTicketDestroyed()
    ensures Leads(Start, Empty(map[0 := Stamp0]))
    ensures Enabled(Empty(map[0 := Stamp0]), Scan(0)) && !Live(Empty(map[0 := Stamp0]), 0)
  {
    var tk := FirstReply();
    assert map[0 := tk] - {0} == map[] && With1(Dropping(0, None)) - {1} == map[0 := Stamp0];
    ThenDropDecide(One(0, tk, [], [], [], With1(Dropping(0, None)), {}), 1, 0, Empty(map[0 := Stamp0]));
  }

  // The daemon answers a request with an error, say ENOSYS to an FSYNC. The
  // requester drops the ticket itself, with a full pool that destroys it, and its
  // caller is about to follow the pointer to it.
  lemma ReturnedTicketDestroyed()
    ensures Leads(Start, Empty(map[0 := Returned(0, First)]))
    ensures Enabled(Empty(map[0 := Returned(0, First)]), Look(0)) && !Live(Empty(map[0 := Returned(0, First)]), 0)
  {
    var tk := ErrorReply();
    var dropping := map[0 := Dropping(0, Some(First))];
    assert map[0 := tk] - {0} == map[];
    ThenDropDecide(One(0, tk, [], [], [], dropping, {}), 0, 0, Empty(map[0 := Returned(0, First)]));
  }

  const ENOSYS := 78

  lemma ErrorReply() returns (tk: Ticket)
    ensures Leads(Start, One(0, tk, [], [], [], map[0 := Dropping(0, Some(First))], {}))
    ensures UseOf(tk) == First
  {
    FirstDelivered();
    tk := Tk(First, false, false, true, Standard, None);
    var r := Reply(0, First, ENOSYS, []);
    var waiting := map[0 := Waiting(0, First)];
    var found := One(0, tk, [], [], [], waiting[1 := Found(0, r)], {});
    ThenWrite(One(0, tk, [], [], [0], waiting, {(0, First)}), 1, r, found);
    tk := tk.(answer := Some(r));
    var pulled := One(0, tk, [], [], [], waiting[1 := Pulled(0, 0)], {});
    ThenHandle(found, 1, 0, false, pulled);
    tk := tk.(answered := true);
    assert waiting[1 := Pulled(0, 0)] - {1} == waiting;
    ThenAnswer(pulled, 1, One(0, tk, [], [], [], waiting, {}));
    ThenCollect(One(0, tk, [], [], [], waiting, {}), 0, One(0, tk, [], [], [], map[0 := Dropping(0, Some(First))], {}));
  }

  // Thread 1 allocates a ticket, gets that memory, and sends a request.
  lemma AddressReused()
    ensures Leads(Start, One(1, Tk(Use(1, 0), false, false, true, Standard, None), [], [0], [0],
            With1(Waiting(0, Use(1, 0))), {}))
  {
    StampedTicketDestroyed();
    var made := State(Data(map[0 := NewTicket(1)], [], [], [], [], 0, 1, 2, false), With1(Allocated(0, Sync)), {});
    ThenFetch(Empty(map[0 := Stamp0]), 1, Sync, Empty(With1(NeedAlloc(Sync))));
    ThenAllocTicket(Empty(With1(NeedAlloc(Sync))), 1, 0, made);
    ThenPushOnAll(made, 1, One(1, NewTicket(1), [], [], [], With1(Ready(0, Sync)), {}));
    SendSync(1, Use(1, 0), NoHandler);
  }

  // Thread 1 sends a request on the ticket it has ready.
  lemma SendSync(dead: nat, use: Use, h: Handler)
    requires Leads(Start, One(dead, Tk(use, false, false, false, h, None), [], [], [], With1(Ready(0, Sync)), {}))
    ensures Leads(Start, One(dead, Tk(use, false, false, true, Standard, None), [], [0], [0],
            With1(Waiting(0, use)), {}))
  {
    var tk := Tk(use, false, false, false, Standard, None);
    ThenSetCallback(One(dead, tk.(handler := h), [], [], [], With1(Ready(0, Sync)), {}), 1,
      One(dead, tk, [], [], [0], With1(Called(0, Sync)), {}));
    ThenSendMessage(One(dead, tk, [], [], [0], With1(Called(0, Sync)), {}), 1,
      One(dead, tk.(dirty := true), [], [0], [0], With1(Waiting(0, use)), {}));
  }

  // ------------------------------------------------ the age wraps around

  // Thread 1, in fuse_ticket_drop, returns the ticket to the pool.
  lemma GiveBack(tk: Ticket)
    requires Leads(Start, One(0, tk, [], [], [], With1(Dropping(0, None)), {}))
    requires tk.unique == 0 && !tk.killLater && tk.handler == Standard && tk.awErrno == 0
    ensures Leads(Start, Asleep(tk.gen + 1))
  {
    var next := Tk(Use(0, tk.gen + 1), false, false, false, Standard, None);
    ThenDropDecide(One(0, tk, [], [], [], With1(Dropping(0, None)), {}), 1, -1,
      One(0, tk, [], [], [], With1(Refreshing(0, None)), {}));
    ThenDropRefresh(One(0, tk, [], [], [], With1(Refreshing(0, None)), {}), 1,
      One(0, next, [], [], [], With1(Pushing(0, None)), {}));
    assert With1(Pushing(0, None)) - {1} == map[0 := Stamp0];
    ThenDropPush(One(0, next, [], [], [], With1(Pushing(0, None)), {}), 1, Asleep(tk.gen + 1));
  }

  // One FORGET takes the ticket out of the pool ...
  lemma SendOneForget(n: nat)
    requires Leads(Start, Asleep(n))
    ensures Leads(Start, One(0, Tk(Use(0, n), false, true, true, Standard, None), [], [0], [], map[0 := Stamp0], {}))
  {
    var clean := Tk(Use(0, n), false, false, false, Standard, None);
    var sent := Tk(Use(0, n), false, true, true, Standard, None);
    ThenFetch(Asleep(n), 1, Forget, One(0, clean, [], [], [], With1(Ready(0, Forget)), {}));
    assert With1(Ready(0, Forget)) - {1} == map[0 := Stamp0];
    ThenSendForget(One(0, clean, [], [], [], With1(Ready(0, Forget)), {}), 1,
      One(0, sent, [], [0], [], map[0 := Stamp0], {}));
  }

  lemma ReadOneForget(n: nat)
    requires Leads(Start, Asleep(n))
    ensures Leads(Start, One(0, Tk(Use(0, n), false, true, true, Standard, None), [], [], [],
                             With1(Dropping(0, None)), {}))
  {
    SendOneForget(n);
    var sent := Tk(Use(0, n), false, true, true, Standard, None);
    var popped := One(0, sent, [], [], [], With1(Popped(0, Use(0, n))), {});
    ThenRead(One(0, sent, [], [0], [], map[0 := Stamp0], {}), 1, popped);
    ThenDeliver(popped, 1, true, One(0, sent, [], [], [], With1(Dropping(0, None)), {}));
  }

  // ... and puts it back refreshed.
  lemma OneMoreUse(n: nat)
    requires Leads(Start, Asleep(n))
    ensures Leads(Start, Asleep(n + 1))
  {
    ReadOneForget(n);
    GiveBack(Tk(Use(0, n), false, true, true, Standard, None));
  }

  lemma {:induction false} ManyUses(n: nat)
    requires n >= 1
    ensures Leads(Start, Asleep(n))
  {
    if n == 1 {
      var tk := FirstReply();
      GiveBack(tk);
    } else {
      ManyUses(n - 1);
      OneMoreUse(n - 1);
    }
  }

  // Thread 1 sends on the recycled ticket.
  lemma SecondRequest(g: nat)
    requires Leads(Start, Asleep(g))
    ensures Leads(Start, One(0, Tk(Use(0, g), false, false, true, Standard, None), [], [0], [0],
            With1(Waiting(0, Use(0, g))), {}))
  {
    var tk := Tk(Use(0, g), false, false, false, Standard, None);
    ThenFetch(Asleep(g), 1, Sync, One(0, tk, [], [], [], With1(Ready(0, Sync)), {}));
    SendSync(0, Use(0, g), Standard);
  }

  // ------------------------------------------------ the use is mistaken

  // Thread 1 waits for an answer, and thread 0 looks at the queue: the age fits.
  lemma HandlerStolen(dead: nat, use: Use)
    requires Leads(Start, One(dead, Tk(use, false, false, true, Standard, None), [], [0], [0],
             With1(Waiting(0, use)), {}))
    requires use.gen % AGE_MODULUS == 0
    ensures Leads(Start, One(dead, Tk(use, false, false, true, NoHandler, None), [], [0], [0],
            map[1 := Waiting(0, use)], {}))
  {
    assert With1(Waiting(0, use)) - {0} == map[1 := Waiting(0, use)];
    ThenScan(One(dead, Tk(use, false, false, true, Standard, None), [], [0], [0], With1(Waiting(0, use)), {}), 0,
      One(dead, Tk(use, false, false, true, NoHandler, None), [], [0], [0], map[1 := Waiting(0, use)], {}));
  }

  lemma ThenRequestRead(dead: nat, use: Use)
    requires Leads(Start, One(dead, Tk(use, false, false, true, NoHandler, None), [], [0], [0],
             map[1 := Waiting(0, use)], {}))
    ensures Leads(Start, One(dead, Tk(use, false, false, true, NoHandler, None), [], [], [0],
            map[1 := Waiting(0, use)], {(0, use)}))
  {
    var tk := Tk(use, false, false, true, NoHandler, None);
    var popped := One(dead, tk, [], [], [0], map[1 := Waiting(0, use), 2 := Popped(0, use)], {});
    ThenRead(One(dead, tk, [], [0], [0], map[1 := Waiting(0, use)], {}), 2, popped);
    assert popped.procs - {2} == map[1 := Waiting(0, use)];
    ThenDeliver(popped, 2, true, One(dead, tk, [], [], [0], map[1 := Waiting(0, use)], {(0, use)}));
  }

  // Some run ends with a ticket in this use that is being dropped while another
  // thread works on it.
  ghost predicate BreaksDrops(use: Use) {
    exists s :: Leads(Start, s) && !DropsAreExclusive(s) && 0 in s.d.tickets && UseOf(s.d.tickets[0]) == use
  }

  // The writer finds no handler and drops the ticket under the waiting thread.
  lemma DroppedUnderWaiter(dead: nat, use: Use)
    requires Leads(Start, One(dead, Tk(use, false, false, true, Standard, None), [], [0], [0],
             With1(Waiting(0, use)), {}))
    requires use.gen % AGE_MODULUS == 0
    ensures BreaksDrops(use)
  {
    HandlerStolen(dead, use);
    ThenRequestRead(dead, use);
    var tk := Tk(use, false, false, true, NoHandler, None);
    var r := Reply(0, use, 0, []);
    var found := One(dead, tk, [], [], [], map[1 := Waiting(0, use), 2 := Found(0, r)], {});
    ThenWrite(One(dead, tk, [], [], [0], map[1 := Waiting(0, use)], {(0, use)}), 2, r, found);
    var s := One(dead, tk, [], [], [], map[1 := Waiting(0, use), 2 := Dropping(0, None)], {});
    ThenHandle(found, 2, 0, false, s);
    BothOnTicket(s, 1, 2);
    assert Leads(Start, s);
  }

  lemma BothOnTicket(s: State, t: Tid, t': Tid)
    requires t != t' && t in s.procs && t' in s.procs
    requires s.procs[t].Waiting? && s.procs[t'].Dropping? && s.procs[t'].u == s.procs[t].u
    ensures !DropsAreExclusive(s)
  {}

  // The first ticket, 2^32 refreshes later.
  lemma AgeWrapBreaksDrops()
    ensures BreaksDrops(Use(0, AGE_MODULUS))
  {
    ManyUses(AGE_MODULUS);
    SecondRequest(AGE_MODULUS);
    DroppedUnderWaiter(0, Use(0, AGE_MODULUS));
  }

  // No wrap-around is needed: a second ticket at the address of the first, never
  // refreshed.
  lemma AddressReuseBreaksDrops()
    ensures BreaksDrops(Use(1, 0))
  {
    AddressReused();
    DroppedUnderWaiter(1, Use(1, 0));
  }
}
