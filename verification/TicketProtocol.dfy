/** The request/reply protocol of one live session, as interleaved steps of
    requester threads, the daemon's reader and writer threads, and signals.

    One step is one critical section of fuse_ipc.c or fuse_device.c, or one
    unlocked stretch of code on a ticket. The daemon is well behaved: it answers
    only messages it has read, each at most once, and never FORGET or INTERRUPT. */
module TicketProtocol {
  import opened Common
  import opened Session

  type Tid = nat

  // How a request is sent: fdisp_wait_answ, fuse_insert_callback with a NULL
  // handler, the fsync and forget callbacks, and FORGET/INTERRUPT, which carry
  // FT_INVAL and expect no answer. The FORGET that fuse_internal_forget_callback
  // sends and the INTERRUPT of fticket_wait_answer use tickets of their own, so
  // they are threads of their own here.
  datatype Kind = Sync | Background | Fsync | Release | Forget

  function HandlerOf(k: Kind): Handler {
    match k
    case Sync => Standard
    case Background => NoHandler
    case Fsync => FsyncCallback
    case Release => ForgetCallback
    case Forget => NoHandler
  }

  // Where a thread stands. A thread that is not in the map is doing nothing.
  datatype Pc =
    | NeedAlloc(kind: Kind)               // saw an empty pool, dropped ticket_mtx
    | Allocated(u: Addr, kind: Kind)       // not yet on the all list
    | Ready(u: Addr, kind: Kind)           // message built, nothing inserted yet
    | Called(u: Addr, kind: Kind)          // callback inserted, message not yet
    | Waiting(u: Addr, use: Use)           // inside fticket_wait_answer
    | Interrupted(u: Addr, use: Use)       // fticket_wait_answer returned an error
    | Stamped(u: Addr, use: Use)           // set FT_ANSW itself and noted the age
    | Answered(u: Addr, use: Use)          // fdisp_wait_answ returned 0
    | Dropping(u: Addr, back: Option<Use>)    // entered fuse_ticket_drop; back: see Returned
    | Refreshing(u: Addr, back: Option<Use>)  // ... decided to keep the ticket
    | Pushing(u: Addr, back: Option<Use>)     // ... has refreshed it
    | Returned(u: Addr, use: Use)             // fdisp_wait_answ dropped the ticket and returned an error
    | Popped(u: Addr, use: Use)            // reader: message taken off ms
    | Found(u: Addr, reply: Reply)         // writer: ticket taken off aw
    | Pulled(u: Addr, err: int)            // writer: fticket_pull has run

  // pending: messages the daemon has read and still has to answer
  datatype State = State(d: Data, procs: map<Tid, Pc>, pending: set<(Addr, Use)>)

  const Start: State := State(Initial, map[], {})

  datatype Step =
    | Fetch(tid: Tid, kind: Kind)
    | AllocTicket(tid: Tid, u: Addr)
    | PushOnAll(tid: Tid)
    | MarkKillLater(tid: Tid)
    | KillUnused(tid: Tid)
    | SetCallback(tid: Tid)
    | SendMessage(tid: Tid)
    | SendForget(tid: Tid)
    | Collect(tid: Tid)
    | Interrupt(tid: Tid)
    | Stamp(tid: Tid)
    | Scan(tid: Tid)
    | Reuse(tid: Tid, kind: Kind)
    | Finish(tid: Tid)
    | Lose(tid: Tid)
    | Look(tid: Tid)
    | DropDecide(tid: Tid, maxFree: int)
    | DropRefresh(tid: Tid)
    | DropPush(tid: Tid)
    | Read(tid: Tid)
    | Deliver(tid: Tid, copied: bool)
    | Write(tid: Tid, reply: Reply)
    | Handle(tid: Tid, err: int, kill: bool)
    | Answer(tid: Tid)

  predicate Live(s: State, u: Addr) { u in s.d.tickets }

  predicate Enabled(s: State, step: Step) {
    match step
    case Fetch(t, k) => t !in s.procs
    case AllocTicket(t, u) => t in s.procs && s.procs[t].NeedAlloc? && !Live(s, u)
    case PushOnAll(t) => t in s.procs && s.procs[t].Allocated?
    case MarkKillLater(t) => t in s.procs && s.procs[t].Ready? && Live(s, s.procs[t].u)
    case KillUnused(t) => t in s.procs && s.procs[t].Ready?
    case SetCallback(t) =>
      t in s.procs && s.procs[t].Ready? && s.procs[t].kind != Forget && Live(s, s.procs[t].u)
    case SendMessage(t) => t in s.procs && s.procs[t].Called? && Live(s, s.procs[t].u)
    case SendForget(t) =>
      t in s.procs && s.procs[t].Ready? && s.procs[t].kind == Forget && Live(s, s.procs[t].u)
    case Collect(t) =>
      t in s.procs && s.procs[t].Waiting? && Live(s, s.procs[t].u) && s.d.tickets[s.procs[t].u].answered
    case Interrupt(t) => t in s.procs && s.procs[t].Waiting?
    case Stamp(t) => t in s.procs && s.procs[t].Interrupted? && Live(s, s.procs[t].u)
    case Scan(t) => t in s.procs && s.procs[t].Stamped?
    case Reuse(t, k) => t in s.procs && s.procs[t].Answered? && Live(s, s.procs[t].u)
    case Finish(t) => t in s.procs && (s.procs[t].Answered? || s.procs[t].Ready?)
    case Lose(t) => t in s.procs && (s.procs[t].Answered? || s.procs[t].Ready?)
    case Look(t) => t in s.procs && s.procs[t].Returned?
    case DropDecide(t, m) => t in s.procs && s.procs[t].Dropping? && Live(s, s.procs[t].u)
    case DropRefresh(t) => t in s.procs && s.procs[t].Refreshing? && Live(s, s.procs[t].u)
    case DropPush(t) => t in s.procs && s.procs[t].Pushing?
    case Read(t) => t !in s.procs && s.d.ms != [] && Live(s, s.d.ms[0])
    case Deliver(t, c) => t in s.procs && s.procs[t].Popped? && Live(s, s.procs[t].u)
    case Write(t, r) => t !in s.procs && (r.addr, r.use) in s.pending
    case Handle(t, e, k) => t in s.procs && s.procs[t].Found? && Live(s, s.procs[t].u)
    case Answer(t) => t in s.procs && s.procs[t].Pulled? && Live(s, s.procs[t].u)
  }

  function Goto(s: State, t: Tid, pc: Pc): State { s.(procs := s.procs[t := pc]) }

  function Exit(s: State, t: Tid): State { s.(procs := s.procs - {t}) }

  // One function per step: what the critical section does to the session and
  // where it leaves the thread.

  function DoFetch(s: State, t: Tid, k: Kind): State {
    if s.d.freeCount == 0 then Goto(s, t, NeedAlloc(k))
    else if s.d.free == [] then s.(d := PopFree(s.d))
    else Goto(s, t, Ready(s.d.free[0], k)).(d := PopFree(s.d))
  }

  // The allocator gives out any address that is not in use.
  function DoAlloc(s: State, t: Tid, u: Addr): State
    requires t in s.procs && s.procs[t].NeedAlloc?
  {
    Goto(s, t, Allocated(u, s.procs[t].kind)).(d := Alloc(s.d, u))
  }

  function DoPushOnAll(s: State, t: Tid): State
    requires t in s.procs && s.procs[t].Allocated?
  {
    Goto(s, t, Ready(s.procs[t].u, s.procs[t].kind)).(d := PushAll(s.d, s.procs[t].u))
  }

  // fticket_set_killl, as fuse_vnop_getxattr does before it sends
  function DoMarkKillLater(s: State, t: Tid): State
    requires t in s.procs && s.procs[t].Ready? && Live(s, s.procs[t].u)
  {
    var u := s.procs[t].u;
    s.(d := Put(s.d, u, s.d.tickets[u].(killLater := true)))
  }

  function DoKill(s: State, t: Tid): State
    requires t in s.procs && (s.procs[t].Ready? || s.procs[t].Dropping?)
  {
    Dropped(s, t).(d := Destroy(s.d, s.procs[t].u))
  }

  // After a drop the thread is done with the ticket, but for a requester that got
  // an error: its caller still has the pointer.
  function Dropped(s: State, t: Tid): State
    requires t in s.procs
  {
    var pc := s.procs[t];
    if (pc.Dropping? || pc.Pushing?) && pc.back.Some? then Goto(s, t, Returned(pc.u, pc.back.value)) else Exit(s, t)
  }

  function DoSetCallback(s: State, t: Tid): State
    requires t in s.procs && s.procs[t].Ready? && Live(s, s.procs[t].u)
  {
    var pc := s.procs[t];
    Goto(s, t, Called(pc.u, pc.kind)).(d := InsertCallback(s.d, pc.u, HandlerOf(pc.kind)))
  }

  function DoSendMessage(s: State, t: Tid): State
    requires t in s.procs && s.procs[t].Called? && Live(s, s.procs[t].u)
  {
    var pc := s.procs[t];
    var s' := s.(d := InsertMessage(s.d, pc.u));
    if pc.kind == Sync then Goto(s', t, Waiting(pc.u, UseOf(s.d.tickets[pc.u]))) else Exit(s', t)
  }

  function DoSendForget(s: State, t: Tid): State
    requires t in s.procs && s.procs[t].Ready? && Live(s, s.procs[t].u)
  {
    var u := s.procs[t].u;
    Exit(s, t).(d := InsertMessage(Invalidate(s.d, u), u))
  }

  function DoCollect(s: State, t: Tid): State
    requires t in s.procs && s.procs[t].Waiting? && Live(s, s.procs[t].u)
  {
    var pc := s.procs[t];
    var tk := s.d.tickets[pc.u];
    if tk.awErrno != 0 || (tk.answer.Some? && tk.answer.value.error != 0)
    then Goto(s, t, Dropping(pc.u, Some(pc.use)))
    else Goto(s, t, Answered(pc.u, pc.use))
  }

  function DoInterrupt(s: State, t: Tid): State
    requires t in s.procs && s.procs[t].Waiting?
  {
    Goto(s, t, Interrupted(s.procs[t].u, s.procs[t].use))
  }

  function DoStamp(s: State, t: Tid): State
    requires t in s.procs && s.procs[t].Interrupted? && Live(s, s.procs[t].u)
  {
    var u := s.procs[t].u;
    if s.d.tickets[u].answered then Goto(s, t, Dropping(u, None))
    else Goto(s, t, Stamped(u, UseOf(s.d.tickets[u]))).(d := SetAnswered(s.d, u))
  }

  function DoScan(s: State, t: Tid): State
    requires t in s.procs && s.procs[t].Stamped?
  {
    Exit(s, t).(d := ClearHandler(s.d, s.procs[t].u, s.procs[t].use.gen % AGE_MODULUS))
  }

  // fdisp_make on a dispatcher that still has its ticket
  function DoReuse(s: State, t: Tid, k: Kind): State
    requires t in s.procs && s.procs[t].Answered? && Live(s, s.procs[t].u)
  {
    Goto(s, t, Ready(s.procs[t].u, k)).(d := Refresh(s.d, s.procs[t].u))
  }

  function DoFinish(s: State, t: Tid): State
    requires t in s.procs && (s.procs[t].Answered? || s.procs[t].Ready?)
  {
    Goto(s, t, Dropping(s.procs[t].u, None))
  }

  // fuse_internal_fsync, told that the daemon has no FSYNC, follows the pointer in
  // its dispatcher to the ticket; other callers just return.
  function DoLook(s: State, t: Tid): State { Exit(s, t) }

  function DoDropDecide(s: State, t: Tid, maxFree: int): State
    requires t in s.procs && s.procs[t].Dropping? && Live(s, s.procs[t].u)
  {
    if MustDie(s.d, s.procs[t].u, maxFree) then DoKill(s, t)
    else Goto(s, t, Refreshing(s.procs[t].u, s.procs[t].back))
  }

  function DoDropRefresh(s: State, t: Tid): State
    requires t in s.procs && s.procs[t].Refreshing? && Live(s, s.procs[t].u)
  {
    Goto(s, t, Pushing(s.procs[t].u, s.procs[t].back)).(d := Refresh(s.d, s.procs[t].u))
  }

  function DoDropPush(s: State, t: Tid): State
    requires t in s.procs && s.procs[t].Pushing?
  {
    Dropped(s, t).(d := PushFree(s.d, s.procs[t].u))
  }

  function DoRead(s: State, t: Tid): State
    requires s.d.ms != [] && Live(s, s.d.ms[0])
  {
    Goto(s, t, Popped(s.d.ms[0], UseOf(s.d.tickets[s.d.ms[0]]))).(d := PopMessage(s.d))
  }

  // The copy to the daemon. EINTR or a failed copy: the daemon never saw it.
  function DoDeliver(s: State, t: Tid, copied: bool): State
    requires t in s.procs && s.procs[t].Popped? && Live(s, s.procs[t].u)
  {
    var pc := s.procs[t];
    var tk := s.d.tickets[pc.u];
    if tk.invalid then Goto(s, t, Dropping(pc.u, None))
    else if copied && !tk.answered then Exit(s, t).(pending := s.pending + {(pc.u, pc.use)})
    else Exit(s, t)
  }

  // The ticket that answers to the reply's unique leaves the aw queue.
  function DoWrite(s: State, t: Tid, r: Reply): State {
    var s' := s.(pending := s.pending - {(r.addr, r.use)}, d := TakeAwaited(s.d, r.use.unique));
    match Awaited(s.d, r.use.unique)
    case Some(u) => Goto(s', t, Found(u, r))
    case None => s'
  }

  function DoHandle(s: State, t: Tid, err: int, kill: bool): State
    requires t in s.procs && s.procs[t].Found? && Live(s, s.procs[t].u)
  {
    var pc := s.procs[t];
    match s.d.tickets[pc.u].handler
    case NoHandler => Goto(s, t, Dropping(pc.u, None))
    case FsyncCallback => Goto(s, t, Dropping(pc.u, None))
    case ForgetCallback => Exit(s, t)
    case Standard =>
      Goto(s, t, Pulled(pc.u, if pc.reply.error != 0 then 0 else err)).(d := Pull(s.d, pc.u, pc.reply, kill))
  }

  function DoAnswer(s: State, t: Tid): State
    requires t in s.procs && s.procs[t].Pulled? && Live(s, s.procs[t].u)
  {
    var pc := s.procs[t];
    if s.d.tickets[pc.u].answered then Goto(s, t, Dropping(pc.u, None))
    else Exit(s, t).(d := Complete(s.d, pc.u, pc.err))
  }

  function Apply(s: State, step: Step): State
    requires Enabled(s, step)
  {
    match step
    case Fetch(t, k) => DoFetch(s, t, k)
    case AllocTicket(t, u) => DoAlloc(s, t, u)
    case PushOnAll(t) => DoPushOnAll(s, t)
    case MarkKillLater(t) => DoMarkKillLater(s, t)
    case KillUnused(t) => DoKill(s, t)
    case SetCallback(t) => DoSetCallback(s, t)
    case SendMessage(t) => DoSendMessage(s, t)
    case SendForget(t) => DoSendForget(s, t)
    case Collect(t) => DoCollect(s, t)
    case Interrupt(t) => DoInterrupt(s, t)
    case Stamp(t) => DoStamp(s, t)
    case Scan(t) => DoScan(s, t)
    case Reuse(t, k) => DoReuse(s, t, k)
    case Finish(t) => DoFinish(s, t)
    case Lose(t) => Exit(s, t)
    case Look(t) => DoLook(s, t)
    case DropDecide(t, maxFree) => DoDropDecide(s, t, maxFree)
    case DropRefresh(t) => DoDropRefresh(s, t)
    case DropPush(t) => DoDropPush(s, t)
    case Read(t) => DoRead(s, t)
    case Deliver(t, copied) => DoDeliver(s, t, copied)
    case Write(t, r) => DoWrite(s, t, r)
    case Handle(t, err, kill) => DoHandle(s, t, err, kill)
    case Answer(t) => DoAnswer(s, t)
  }

  function Exec(s: State, steps: seq<Step>): Option<State>
    decreases |steps|
  {
    if steps == [] then Some(s)
    else if !Enabled(s, steps[0]) then None
    else Exec(Apply(s, steps[0]), steps[1..])
  }

  // The one place where the age matters. If the address that an interrupted
  // requester stamped is on the aw queue when it looks there, then its ticket was
  // refreshed fewer than 2^32 times since; or, if by then another ticket has that
  // address, the ages differ.
  predicate ScanSafe(s: State, step: Step) {
    step.Scan? && step.tid in s.procs && s.procs[step.tid].Stamped? ==>
      var u, use := s.procs[step.tid].u, s.procs[step.tid].use;
      u in s.d.aw && Live(s, u) ==>
        if s.d.tickets[u].unique == use.unique then s.d.tickets[u].gen - use.gen < AGE_MODULUS
        else Age(s.d.tickets[u]) != use.gen % AGE_MODULUS
  }

  predicate SafeRun(s: State, steps: seq<Step>)
    decreases |steps|
  {
    steps == [] ||
    (Enabled(s, steps[0]) && ScanSafe(s, steps[0]) && SafeRun(Apply(s, steps[0]), steps[1..]))
  }

  // ---------------------------------------------------------------- safety

  predicate InDrop(pc: Pc) { pc.Dropping? || pc.Refreshing? || pc.Pushing? }

  predicate Requests(pc: Pc) { pc.Called? || pc.Waiting? || pc.Interrupted? }

  predicate Answers(pc: Pc) { pc.Found? || pc.Pulled? }

  // Threads that have given a ticket up or dropped it and still have a pointer to it.
  predicate Bystander(pc: Pc) { pc.Stamped? || pc.Returned? }

  predicate Touches(pc: Pc) { !pc.NeedAlloc? && !Bystander(pc) }

  // A ticket that is on its way back to the pool is in use nowhere else: it is
  // neither free nor awaiting an answer, no second thread is dropping it, none
  // is waiting for its answer and none is answering it.
  ghost predicate DropsAreExclusive(s: State) {
    forall t | t in s.procs && InDrop(s.procs[t]) ::
      var u := s.procs[t].u;
      && u in s.d.tickets && u in s.d.all && u !in s.d.free && u !in s.d.aw && u !in s.d.ms
      && forall t' | t' in s.procs && t' != t && Touches(s.procs[t']) ::
        s.procs[t'].u != u
  }

  // Every message the daemon still owes an answer to belongs to the current use
  // of a ticket that is on the aw queue, and no other ticket there has its unique,
  // so the reply is found and reaches that use; what a requester gets back was
  // sent in answer to its own use.
  ghost predicate RepliesMatch(s: State) {
    && (forall u, use | (u, use) in s.pending ::
          && u in s.d.tickets && UseOf(s.d.tickets[u]) == use
          && Awaited(s.d, use.unique) == Some(u))
    && (forall t | t in s.procs && s.procs[t].Found? ::
          var pc := s.procs[t];
          Live(s, pc.u) && pc.reply.addr == pc.u && pc.reply.use == UseOf(s.d.tickets[pc.u]))
    && (forall t | t in s.procs && s.procs[t].Answered? ::
          var pc := s.procs[t];
          Live(s, pc.u) && UseOf(s.d.tickets[pc.u]) == pc.use && AnswerFor(s.d.tickets[pc.u], pc.u))
  }

  predicate AnswerFor(tk: Ticket, u: Addr) {
    tk.answer.Some? && tk.answer.value.addr == u && tk.answer.value.use == UseOf(tk)
  }

  // Tickets that fticket_alloc made and fuse_push_allticks has not seen yet.
  ghost function Unpushed(d: Data): set<Addr> { set u | u in d.tickets && u !in d.all }

  // The pool's books, and no panic.
  ghost predicate PoolBalanced(s: State) {
    var d := s.d;
    && !d.panicked
    && d.freeCount == |d.free| && Distinct(d.free) && Distinct(d.all)
    && (forall u | u in d.free :: u in d.all)
    && (forall u | u in d.all :: u in d.tickets)
    && (forall u | u in d.tickets :: d.tickets[u].unique < d.ticketer)
    && (forall u, v | u in d.tickets && v in d.tickets && d.tickets[u].unique == d.tickets[v].unique :: u == v)
    && (forall u | u in d.tickets && u !in d.all ::
          exists t :: t in s.procs && s.procs[t].Allocated? && s.procs[t].u == u)
    && d.ticketer - d.deadCount == |d.all| + |Unpushed(d)|
  }

  // Whatever ticket a thread works on has not been destroyed, bystanders excepted.
  ghost predicate TicketsLive(s: State) {
    forall t | t in s.procs && Touches(s.procs[t]) :: Live(s, s.procs[t].u)
  }
}
