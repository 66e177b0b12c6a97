/** What becomes of a reply: over every live run it is handled as the request was
    sent, unless the requester gave up and had the handler cleared. */
module TicketKinds {
  import opened Common
  import opened Session
  import opened TicketProtocol
  import opened TicketInvariant
  import opened TicketSafety
  import opened TicketAnswers
  import opened TicketPool

  // ------------------------------------------------ what happened in a run

  // How each use was sent, and the uses whose handler a requester cleared.
  function Calls(s: State, steps: seq<Step>): set<(Use, Kind)>
    requires SafeRun(s, steps)
    decreases |steps|
  {
    if steps == [] then {} else CalledBy(s, steps[0]) + Calls(Apply(s, steps[0]), steps[1..])
  }

  function CalledBy(s: State, step: Step): set<(Use, Kind)>
    requires Enabled(s, step)
  {
    if step.SetCallback? then {(UseOf(s.d.tickets[s.procs[step.tid].u]), s.procs[step.tid].kind)} else {}
  }

  function Cleared(s: State, steps: seq<Step>): set<Use>
    requires SafeRun(s, steps)
    decreases |steps|
  {
    if steps == [] then {} else ClearedBy(s, steps[0]) + Cleared(Apply(s, steps[0]), steps[1..])
  }

  // A requester that gave up finds its address on the aw queue, with the age it noted.
  predicate Clears(s: State, step: Step, u: Addr)
    requires Enabled(s, step)
  {
    && step.Scan? && s.procs[step.tid].u == u && u in s.d.aw && Live(s, u)
    && Age(s.d.tickets[u]) == s.procs[step.tid].use.gen % AGE_MODULUS
  }

  function ClearedBy(s: State, step: Step): set<Use>
    requires Enabled(s, step)
  {
    if step.Scan? && Clears(s, step, s.procs[step.tid].u) then {UseOf(s.d.tickets[s.procs[step.tid].u])} else {}
  }

  // ------------------------------------------------ the invariant

  ghost predicate Unsent(use: Use, C: set<(Use, Kind)>, X: set<Use>) {
    use !in X && forall k :: (use, k) !in C
  }

  ghost predicate KindOk(tk: Ticket, C: set<(Use, Kind)>, X: set<Use>) {
    && (forall k | (UseOf(tk), k) in C :: tk.handler == if UseOf(tk) in X then NoHandler else HandlerOf(k))
    && (forall use, k | (use, k) in C && use.unique == tk.unique :: use.gen <= tk.gen)
    && (forall use | use in X && use.unique == tk.unique :: use.gen <= tk.gen)
  }

  ghost predicate WasSent(s: State, u: Addr, C: set<(Use, Kind)>) {
    Live(s, u) && exists k :: (UseOf(s.d.tickets[u]), k) in C
  }

  ghost predicate IsNew(s: State, u: Addr, C: set<(Use, Kind)>, X: set<Use>) {
    Live(s, u) && Unsent(UseOf(s.d.tickets[u]), C, X)
  }

  predicate ToSend(pc: Pc) { pc.Allocated? || pc.Ready? || pc.Pushing? }

  ghost predicate ThreadKind(s: State, t: Tid, C: set<(Use, Kind)>, X: set<Use>)
    requires t in s.procs
  {
    && (s.procs[t].Found? ==> WasSent(s, s.procs[t].u, C))
    && (ToSend(s.procs[t]) ==> IsNew(s, s.procs[t].u, C, X))
  }

  ghost predicate Known(s: State, C: set<(Use, Kind)>, X: set<Use>) {
    && (forall use, k | (use, k) in C :: use.unique < s.d.ticketer)
    && (forall use | use in X :: use.unique < s.d.ticketer)
  }

  ghost predicate Kinded(s: State, C: set<(Use, Kind)>, X: set<Use>) {
    && Known(s, C, X)
    && (forall u {:trigger KindOk(s.d.tickets[u], C, X)} | u in s.d.tickets :: KindOk(s.d.tickets[u], C, X))
    && (forall u {:trigger WasSent(s, u, C)} | u in s.d.aw :: WasSent(s, u, C))
    && (forall u {:trigger IsNew(s, u, C, X)} | u in s.d.free :: IsNew(s, u, C, X))
    && (forall t {:trigger ThreadKind(s, t, C, X)} | t in s.procs :: ThreadKind(s, t, C, X))
  }

  // ------------------------------------------------ what a step does to a handler

  predicate Installs(s: State, step: Step, u: Addr)
    requires Enabled(s, step)
  {
    step.SetCallback? && s.procs[step.tid].u == u
  }

  ghost predicate HandlerMoves(s: State, step: Step, s': State, u: Addr)
    requires Enabled(s, step)
  {
    u in s.d.tickets && u in s'.d.tickets ==>
      s'.d.tickets[u].handler ==
      if Installs(s, step, u) then HandlerOf(s.procs[step.tid].kind)
      else if Clears(s, step, u) then NoHandler
      else s.d.tickets[u].handler
  }

  lemma StepHandler(s: State, step: Step, u: Addr)
    requires Enabled(s, step)
    ensures HandlerMoves(s, step, Apply(s, step), u)
  {
    if step.Fetch? || step.AllocTicket? || step.PushOnAll? || step.MarkKillLater? || step.KillUnused?
       || step.SetCallback? || step.SendMessage? || step.SendForget? {
      RequestHandler(s, step, u);
    } else if step.Collect? || step.Interrupt? || step.Stamp? || step.Scan? || step.Reuse? || step.Finish?
              || step.Lose? || step.Look? {
      WaitHandler(s, step, u);
    } else if step.DropDecide? || step.DropRefresh? || step.DropPush? {
      DropHandler(s, step, u);
    } else {
      DeviceHandler(s, step, u);
    }
  }

  lemma RequestHandler(s: State, step: Step, u: Addr)
    requires Enabled(s, step)
    requires step.Fetch? || step.AllocTicket? || step.PushOnAll? || step.MarkKillLater? || step.KillUnused?
             || step.SetCallback? || step.SendMessage? || step.SendForget?
    ensures HandlerMoves(s, step, Apply(s, step), u)
  {
  }

  lemma WaitHandler(s: State, step: Step, u: Addr)
    requires Enabled(s, step)
    requires step.Collect? || step.Interrupt? || step.Stamp? || step.Scan? || step.Reuse? || step.Finish?
             || step.Lose? || step.Look?
    ensures HandlerMoves(s, step, Apply(s, step), u)
  {
  }

  lemma DropHandler(s: State, step: Step, u: Addr)
    requires Enabled(s, step) && (step.DropDecide? || step.DropRefresh? || step.DropPush?)
    ensures HandlerMoves(s, step, Apply(s, step), u)
  {
  }

  lemma DeviceHandler(s: State, step: Step, u: Addr)
    requires Enabled(s, step) && (step.Read? || step.Deliver? || step.Write? || step.Handle? || step.Answer?)
    ensures HandlerMoves(s, step, Apply(s, step), u)
  {
  }

  // ------------------------------------------------ every step keeps it

  // What a step adds to the history of a ticket's present use.
  lemma AddsIs(s: State, step: Step, u: Addr)
    requires PoolBalanced(s) && Enabled(s, step) && u in s.d.tickets
    ensures forall k :: (UseOf(s.d.tickets[u]), k) in CalledBy(s, step) <==>
              Installs(s, step, u) && k == s.procs[step.tid].kind
    ensures UseOf(s.d.tickets[u]) in ClearedBy(s, step) <==> Clears(s, step, u)
    ensures forall use, k | (use, k) in CalledBy(s, step) && use.unique == s.d.tickets[u].unique ::
              use == UseOf(s.d.tickets[u])
    ensures forall use | use in ClearedBy(s, step) && use.unique == s.d.tickets[u].unique ::
              use == UseOf(s.d.tickets[u])
  {
  }

  lemma StepKnown(s: State, step: Step, C: set<(Use, Kind)>, X: set<Use>)
    requires PoolBalanced(s) && Enabled(s, step) && Known(s, C, X)
    ensures Known(s, C + CalledBy(s, step), X + ClearedBy(s, step))
  {
  }

  lemma TicketKind(s: State, step: Step, u: Addr, C: set<(Use, Kind)>, X: set<Use>)
    requires Inv(s) && Enabled(s, step) && Kinded(s, C, X) && u in Apply(s, step).d.tickets
    ensures KindOk(Apply(s, step).d.tickets[u], C + CalledBy(s, step), X + ClearedBy(s, step))
  {
    InvIsSafe(s);
    if u !in s.d.tickets {
      StepTicket(s, step, u);
      StepKnown(s, step, C, X);
    } else {
      assert KindOk(s.d.tickets[u], C, X);
      if Installs(s, step, u) { assert ThreadKind(s, step.tid, C, X); }
      OldTicketKind(s, step, u, C, X);
    }
  }

  lemma OldTicketKind(s: State, step: Step, u: Addr, C: set<(Use, Kind)>, X: set<Use>)
    requires PoolBalanced(s) && Enabled(s, step) && u in s.d.tickets && u in Apply(s, step).d.tickets
    requires KindOk(s.d.tickets[u], C, X)
    requires Installs(s, step, u) ==> IsNew(s, u, C, X)
    ensures KindOk(Apply(s, step).d.tickets[u], C + CalledBy(s, step), X + ClearedBy(s, step))
  {
    StepTicket(s, step, u);
    StepHandler(s, step, u);
    AddsIs(s, step, u);
  }

  // A ticket that nobody but its holder touches stays new, unless that sends it.
  lemma StaysNew(s: State, step: Step, u: Addr, C: set<(Use, Kind)>, X: set<Use>)
    requires PoolBalanced(s) && Enabled(s, step) && IsNew(s, u, C, X) && Kinded(s, C, X)
    requires !Installs(s, step, u) && u !in s.d.aw && u in Apply(s, step).d.tickets
    ensures IsNew(Apply(s, step), u, C + CalledBy(s, step), X + ClearedBy(s, step))
  {
    StepTicket(s, step, u);
    AddsIs(s, step, u);
    assert KindOk(s.d.tickets[u], C, X);
  }

  // A refreshed ticket is new.
  lemma RenewedIsNew(s: State, step: Step, u: Addr, C: set<(Use, Kind)>, X: set<Use>)
    requires PoolBalanced(s) && Enabled(s, step) && Kinded(s, C, X) && Renews(s, step, u)
    requires u in s.d.tickets && u in Apply(s, step).d.tickets
    ensures IsNew(Apply(s, step), u, C + CalledBy(s, step), X + ClearedBy(s, step))
  {
    StepTicket(s, step, u);
    AddsIs(s, step, u);
    assert KindOk(s.d.tickets[u], C, X);
  }

  // A use that was sent stays so until the ticket is refreshed.
  lemma StaysSent(s: State, step: Step, u: Addr, C: set<(Use, Kind)>, C': set<(Use, Kind)>)
    requires Enabled(s, step) && WasSent(s, u, C) && C <= C' && !Renews(s, step, u) && u in Apply(s, step).d.tickets
    ensures WasSent(Apply(s, step), u, C')
  {
    StepTicket(s, step, u);
    var k :| (UseOf(s.d.tickets[u]), k) in C;
    assert (UseOf(Apply(s, step).d.tickets[u]), k) in C';
  }

  // Nobody refreshes a ticket that awaits an answer, or is about to get it.
  lemma AwaitedIsNotRenewed(s: State, step: Step, u: Addr)
    requires Inv(s) && Enabled(s, step)
             && (u in s.d.aw || exists t :: t in s.procs && s.procs[t].Found? && s.procs[t].u == u)
    ensures !Renews(s, step, u)
  {
    var w :| Explains(w, s);
    if Renews(s, step, u) {
      Thread(s, w, step.tid);
      TicketAt(s, w, u);
      if u !in s.d.aw {
        var t :| t in s.procs && s.procs[t].Found? && s.procs[t].u == u;
        Thread(s, w, t);
      }
      OthersOn(s, w, u, step.tid);
    }
  }

  lemma QueueKind(s: State, step: Step, u: Addr, C: set<(Use, Kind)>, X: set<Use>)
    requires Inv(s) && Enabled(s, step) && Inv(Apply(s, step)) && Kinded(s, C, X) && u in Apply(s, step).d.aw
    ensures WasSent(Apply(s, step), u, C + CalledBy(s, step))
  {
    ListedLive(Apply(s, step), u);
    if u in s.d.aw {
      assert WasSent(s, u, C);
      AwaitedIsNotRenewed(s, step, u);
      StaysSent(s, step, u, C, C + CalledBy(s, step));
    } else {
      JoinsQueue(s, step, u);
      InstalledIsSent(s, step, u, C);
    }
  }

  lemma InstalledIsSent(s: State, step: Step, u: Addr, C: set<(Use, Kind)>)
    requires Enabled(s, step) && Installs(s, step, u)
    ensures WasSent(Apply(s, step), u, C + CalledBy(s, step))
  {
    assert (UseOf(Apply(s, step).d.tickets[u]), s.procs[step.tid].kind) in CalledBy(s, step);
  }

  lemma ListedLive(s: State, u: Addr)
    requires Inv(s) && (u in s.d.aw || u in s.d.free)
    ensures Live(s, u)
  {
  }

  lemma JoinsQueue(s: State, step: Step, u: Addr)
    requires Inv(s) && Enabled(s, step) && u !in s.d.aw && u in Apply(s, step).d.aw
    ensures Installs(s, step, u) && Live(s, u) && Live(Apply(s, step), u)
  {
    if step.Write? {
      WriteTakes(s, step, u);
    } else if !step.SetCallback? {
      OnlyCallbacksAwait(s, step);
    }
  }

  lemma WriteTakes(s: State, step: Step, u: Addr)
    requires Inv(s) && Enabled(s, step) && step.Write? && u in Apply(s, step).d.aw
    ensures u in s.d.aw
  {
    var found := Awaited(s.d, step.reply.use.unique);
    if found.Some? { RemoveElements(s.d.aw, found.value); }
  }

  lemma OnlyCallbacksAwait(s: State, step: Step)
    requires Enabled(s, step) && !step.Write? && !step.SetCallback?
    ensures Apply(s, step).d.aw == s.d.aw
  {
  }

  lemma JoinsPool(s: State, step: Step, u: Addr)
    requires Enabled(s, step) && u !in s.d.free && u in Apply(s, step).d.free
    ensures step.DropPush? && s.procs[step.tid].u == u
    ensures Apply(s, step).d.tickets == s.d.tickets
  {
  }

  lemma PooledIsIdle(s: State, step: Step, u: Addr)
    requires Inv(s) && Enabled(s, step) && u in s.d.free
    ensures !Installs(s, step, u) && u !in s.d.aw
  {
    var w :| Explains(w, s);
    TicketAt(s, w, u);
    if Installs(s, step, u) { Thread(s, w, step.tid); }
  }

  lemma PoolKind(s: State, step: Step, u: Addr, C: set<(Use, Kind)>, X: set<Use>)
    requires Inv(s) && Enabled(s, step) && Inv(Apply(s, step)) && Kinded(s, C, X) && u in Apply(s, step).d.free
    ensures IsNew(Apply(s, step), u, C + CalledBy(s, step), X + ClearedBy(s, step))
  {
    ListedLive(Apply(s, step), u);
    PoolIsIdle(s, step, u);
    WasNew(s, step, u, C, X);
    InvIsSafe(s);
    StaysNew(s, step, u, C, X);
  }

  lemma PoolIsIdle(s: State, step: Step, u: Addr)
    requires Inv(s) && Enabled(s, step) && u in Apply(s, step).d.free
    ensures !Installs(s, step, u) && u !in s.d.aw
    ensures u in s.d.free || (step.DropPush? && s.procs[step.tid].u == u)
  {
    if u in s.d.free {
      PooledIsIdle(s, step, u);
    } else {
      JoinsPool(s, step, u);
      HeldIsIdle(s, step, u, step.tid);
    }
  }

  lemma WasNew(s: State, step: Step, u: Addr, C: set<(Use, Kind)>, X: set<Use>)
    requires Enabled(s, step) && Kinded(s, C, X) && (u in s.d.free || (step.DropPush? && s.procs[step.tid].u == u))
    ensures IsNew(s, u, C, X)
  {
    if u !in s.d.free { assert ThreadKind(s, step.tid, C, X); }
  }

  // A ticket in the hands of a thread that has not sent it awaits no answer, and
  // only that thread can send it.
  lemma HeldIsIdle(s: State, step: Step, u: Addr, t: Tid)
    requires Inv(s) && Enabled(s, step) && t in s.procs && ToSend(s.procs[t]) && s.procs[t].u == u
    ensures u in s.d.tickets && u !in s.d.aw && (Installs(s, step, u) ==> step.tid == t)
  {
    var w :| Explains(w, s);
    Thread(s, w, t);
    TicketAt(s, w, u);
    if Installs(s, step, u) { OthersOn(s, w, u, step.tid); }
  }

  // How a thread comes to where the invariant speaks of it.
  lemma ThreadStep(s: State, step: Step, C: set<(Use, Kind)>, X: set<Use>)
    requires Inv(s) && Enabled(s, step) && Inv(Apply(s, step)) && Kinded(s, C, X) && step.tid in Apply(s, step).procs
    requires Apply(s, step).procs[step.tid].Found? || ToSend(Apply(s, step).procs[step.tid])
    ensures ThreadKind(Apply(s, step), step.tid, C + CalledBy(s, step), X + ClearedBy(s, step))
  {
    if !Gives(step) {
      HandedOnIsNew(s, step, C, X);
    } else if step.AllocTicket? {
      MadeIsNew(s, step, C, X);
    } else if step.Write? {
      WrittenWasSent(s, step, C);
    } else if step.Fetch? {
      FetchedIsNew(s, step, C, X);
    } else {
      RefreshedIsNew(s, step, C, X);
    }
  }

  lemma RefreshedIsNew(s: State, step: Step, C: set<(Use, Kind)>, X: set<Use>)
    requires Inv(s) && Enabled(s, step) && Kinded(s, C, X) && (step.Reuse? || step.DropRefresh?)
    ensures step.tid in Apply(s, step).procs && ToSend(Apply(s, step).procs[step.tid])
    ensures IsNew(Apply(s, step), Apply(s, step).procs[step.tid].u, C + CalledBy(s, step), X + ClearedBy(s, step))
  {
    InvIsSafe(s);
    RenewedIsNew(s, step, s.procs[step.tid].u, C, X);
  }

  lemma MadeIsNew(s: State, step: Step, C: set<(Use, Kind)>, X: set<Use>)
    requires Enabled(s, step) && Kinded(s, C, X) && step.AllocTicket?
    ensures IsNew(Apply(s, step), step.u, C + CalledBy(s, step), X + ClearedBy(s, step))
  {
  }

  lemma WrittenWasSent(s: State, step: Step, C: set<(Use, Kind)>)
    requires Inv(s) && Enabled(s, step) && step.Write? && step.tid in Apply(s, step).procs
    requires forall u {:trigger WasSent(s, u, C)} | u in s.d.aw :: WasSent(s, u, C)
    ensures WasSent(Apply(s, step), Apply(s, step).procs[step.tid].u, C + CalledBy(s, step))
  {
    var u := Awaited(s.d, step.reply.use.unique).value;
    AwaitedIsThere(s, step.reply.use.unique);
    assert WasSent(s, u, C);
    StaysSent(s, step, u, C, C + CalledBy(s, step));
  }

  lemma FetchedIsNew(s: State, step: Step, C: set<(Use, Kind)>, X: set<Use>)
    requires Inv(s) && Enabled(s, step) && step.Fetch? && Kinded(s, C, X) && step.tid in Apply(s, step).procs
    requires ToSend(Apply(s, step).procs[step.tid])
    ensures IsNew(Apply(s, step), Apply(s, step).procs[step.tid].u, C + CalledBy(s, step), X + ClearedBy(s, step))
  {
    var u := s.d.free[0];
    assert IsNew(s, u, C, X);
    PooledIsIdle(s, step, u);
    InvIsSafe(s);
    StaysNew(s, step, u, C, X);
  }

  predicate Gives(step: Step) {
    step.AllocTicket? || step.Write? || step.Reuse? || step.DropRefresh? || step.Fetch?
  }

  lemma HandsOn(s: State, step: Step)
    requires Enabled(s, step) && !Gives(step) && step.tid in Apply(s, step).procs
    requires Apply(s, step).procs[step.tid].Found? || ToSend(Apply(s, step).procs[step.tid])
    ensures step.tid in s.procs && ToSend(s.procs[step.tid]) && ToSend(Apply(s, step).procs[step.tid])
    ensures Apply(s, step).procs[step.tid].u == s.procs[step.tid].u && !step.SetCallback? && !step.KillUnused?
            && !step.DropDecide?
  {
  }

  lemma HandedOnIsNew(s: State, step: Step, C: set<(Use, Kind)>, X: set<Use>)
    requires Inv(s) && Enabled(s, step) && Kinded(s, C, X) && step.tid in Apply(s, step).procs && !Gives(step)
    requires Apply(s, step).procs[step.tid].Found? || ToSend(Apply(s, step).procs[step.tid])
    ensures ToSend(Apply(s, step).procs[step.tid])
    ensures IsNew(Apply(s, step), Apply(s, step).procs[step.tid].u, C + CalledBy(s, step), X + ClearedBy(s, step))
  {
    HandsOn(s, step);
    var u := s.procs[step.tid].u;
    HeldIsIdle(s, step, u, step.tid);
    assert ThreadKind(s, step.tid, C, X);
    StepTicket(s, step, u);
    InvIsSafe(s);
    StaysNew(s, step, u, C, X);
  }

  lemma OtherThread(s: State, step: Step, t: Tid, C: set<(Use, Kind)>, X: set<Use>)
    requires Inv(s) && Enabled(s, step) && Inv(Apply(s, step)) && Kinded(s, C, X) && t in s.procs && t != step.tid
    requires s.procs[t].Found? || ToSend(s.procs[t])
    ensures Stays(s, Apply(s, step), t)
    ensures ThreadKind(Apply(s, step), t, C + CalledBy(s, step), X + ClearedBy(s, step))
  {
    var u := s.procs[t].u;
    OthersStay(s, step, t);
    assert ThreadKind(s, t, C, X);
    TouchedLives(Apply(s, step), t);
    if s.procs[t].Found? {
      AwaitedIsNotRenewed(s, step, u);
      StaysSent(s, step, u, C, C + CalledBy(s, step));
    } else {
      HeldIsIdle(s, step, u, t);
      InvIsSafe(s);
      StaysNew(s, step, u, C, X);
    }
  }

  lemma TouchedLives(s: State, t: Tid)
    requires Inv(s) && t in s.procs && Touches(s.procs[t])
    ensures Live(s, s.procs[t].u)
  {
    InvIsSafe(s);
  }

  lemma StepKinded(s: State, step: Step, C: set<(Use, Kind)>, X: set<Use>)
    requires Inv(s) && Enabled(s, step) && Inv(Apply(s, step)) && Kinded(s, C, X)
    ensures Kinded(Apply(s, step), C + CalledBy(s, step), X + ClearedBy(s, step))
  {
    var s', C', X' := Apply(s, step), C + CalledBy(s, step), X + ClearedBy(s, step);
    NextKnown(s, step, C, X);
    forall u {:trigger KindOk(s'.d.tickets[u], C', X')} | u in s'.d.tickets
      ensures KindOk(s'.d.tickets[u], C', X')
    {
      TicketKind(s, step, u, C, X);
    }
    forall u {:trigger WasSent(s', u, C')} | u in s'.d.aw
      ensures WasSent(s', u, C')
    {
      QueueKind(s, step, u, C, X);
    }
    forall u {:trigger IsNew(s', u, C', X')} | u in s'.d.free
      ensures IsNew(s', u, C', X')
    {
      PoolKind(s, step, u, C, X);
    }
    forall t {:trigger ThreadKind(s', t, C', X')} | t in s'.procs
      ensures ThreadKind(s', t, C', X')
    {
      NextThread(s, step, t, C, X);
    }
  }

  lemma NextKnown(s: State, step: Step, C: set<(Use, Kind)>, X: set<Use>)
    requires Inv(s) && Enabled(s, step) && Known(s, C, X)
    ensures Known(Apply(s, step), C + CalledBy(s, step), X + ClearedBy(s, step))
  {
    InvIsSafe(s);
    StepKnown(s, step, C, X);
    StepTicket(s, step, 0);
  }

  lemma NextThread(s: State, step: Step, t: Tid, C: set<(Use, Kind)>, X: set<Use>)
    requires Inv(s) && Enabled(s, step) && Inv(Apply(s, step)) && Kinded(s, C, X) && t in Apply(s, step).procs
    ensures ThreadKind(Apply(s, step), t, C + CalledBy(s, step), X + ClearedBy(s, step))
  {
    var pc := Apply(s, step).procs[t];
    if pc.Found? || ToSend(pc) {
      if t == step.tid {
        ThreadStep(s, step, C, X);
      } else {
        OthersStay(s, step, t);
        OtherThread(s, step, t, C, X);
      }
    }
  }

  lemma {:induction false} RunKinded(s: State, steps: seq<Step>, C: set<(Use, Kind)>, X: set<Use>)
    requires Inv(s) && SafeRun(s, steps) && Kinded(s, C, X)
    ensures Exec(s, steps).Some? && Inv(Exec(s, steps).value)
    ensures Kinded(Exec(s, steps).value, C + Calls(s, steps), X + Cleared(s, steps))
    decreases |steps|
  {
    if steps == [] {
      assert C + Calls(s, steps) == C && X + Cleared(s, steps) == X;
    } else {
      var s1 := Apply(s, steps[0]);
      StepKeepsInv(s, steps[0]);
      StepKinded(s, steps[0], C, X);
      RunKinded(s1, steps[1..], C + CalledBy(s, steps[0]), X + ClearedBy(s, steps[0]));
      Regroup(C, CalledBy(s, steps[0]), Calls(s1, steps[1..]));
      Regroup(X, ClearedBy(s, steps[0]), Cleared(s1, steps[1..]));
    }
  }

  lemma KindsOfRun(steps: seq<Step>)
    requires SafeRun(Start, steps)
    ensures Exec(Start, steps).Some? && Inv(Exec(Start, steps).value)
    ensures Kinded(Exec(Start, steps).value, Calls(Start, steps), Cleared(Start, steps))
  {
    assert Explains(Witness(map[], map[], map[]), Start);
    assert Kinded(Start, {}, {});
    RunKinded(Start, steps, {}, {});
    assert {} + Calls(Start, steps) == Calls(Start, steps) && {} + Cleared(Start, steps) == Cleared(Start, steps);
  }

  // Where the writer goes with a reply for ticket u.
  ghost predicate GoesBy(s: State, t: Tid, u: Addr, kind: Kind, cleared: bool, s': State) {
    if cleared then s' == Goto(s, t, Dropping(u, None))
    else match kind
      case Sync => t in s'.procs && s'.procs[t].Pulled? && s'.procs[t].u == u
      case Release => s' == Exit(s, t)
      case _ => s' == Goto(s, t, Dropping(u, None))
  }

  lemma HandlesByKind(s: State, t: Tid, err: int, kill: bool, k: Kind, cleared: bool)
    requires Enabled(s, Handle(t, err, kill))
    requires s.d.tickets[s.procs[t].u].handler == if cleared then NoHandler else HandlerOf(k)
    ensures GoesBy(s, t, s.procs[t].u, k, cleared, DoHandle(s, t, err, kill))
  {
  }

  lemma SentKind(s: State, t: Tid, C: set<(Use, Kind)>, X: set<Use>) returns (k: Kind)
    requires Inv(s) && Kinded(s, C, X) && t in s.procs && s.procs[t].Found?
    ensures Live(s, s.procs[t].u) && (s.procs[t].reply.use, k) in C
    ensures s.d.tickets[s.procs[t].u].handler == if s.procs[t].reply.use in X then NoHandler else HandlerOf(k)
  {
    InvIsSafe(s);
    var u := s.procs[t].u;
    assert ThreadKind(s, t, C, X);
    assert KindOk(s.d.tickets[u], C, X);
    k :| (UseOf(s.d.tickets[u]), k) in C;
  }

  // Over every live run: a reply that a writer has found is for a use that was sent,
  // and goes the way of its kind. It is pulled for a requester that waits; for a
  // RELEASE a FORGET follows, and the ticket stays behind; in all other cases, and
  // if a requester that gave up had the handler cleared, the ticket is dropped.
  lemma ReplyGoesByKind(steps: seq<Step>, t: Tid, err: int, kill: bool)
    requires SafeRun(Start, steps) && Exec(Start, steps).Some?
    requires Enabled(Exec(Start, steps).value, Handle(t, err, kill))
    ensures var s := Exec(Start, steps).value;
            var u, use, s' := s.procs[t].u, s.procs[t].reply.use, DoHandle(s, t, err, kill);
            exists k :: (use, k) in Calls(Start, steps) && GoesBy(s, t, u, k, use in Cleared(Start, steps), s')
  {
    var s := Exec(Start, steps).value;
    KindsOfRun(steps);
    var k := SentKind(s, t, Calls(Start, steps), Cleared(Start, steps));
    HandlesByKind(s, t, err, kill, k, s.procs[t].reply.use in Cleared(Start, steps));
  }

  // ------------------------------------------------ sent as it was asked for

  predicate HasKind(pc: Pc) { pc.NeedAlloc? || pc.Allocated? || pc.Ready? || pc.Called? }

  // What kind of request each thread last asked for.
  function Asked(K: map<Tid, Kind>, steps: seq<Step>): map<Tid, Kind>
    decreases |steps|
  {
    if steps == [] then K else Asked(AskedNext(K, steps[0]), steps[1..])
  }

  function AskedNext(K: map<Tid, Kind>, step: Step): map<Tid, Kind> {
    if step.Fetch? || step.Reuse? then K[step.tid := step.kind] else K
  }

  predicate AsAsked(s: State, t: Tid, K: map<Tid, Kind>)
    requires t in s.procs
  {
    HasKind(s.procs[t]) ==> t in K && s.procs[t].kind == K[t]
  }

  lemma StepAsAsked(s: State, step: Step, t: Tid, K: map<Tid, Kind>)
    requires Enabled(s, step) && t in Apply(s, step).procs && (t in s.procs ==> AsAsked(s, t, K))
    ensures AsAsked(Apply(s, step), t, AskedNext(K, step))
  {
    if t != step.tid {
      OthersStay(s, step, t);
    } else if HasKind(Apply(s, step).procs[t]) {
      OwnKind(s, step);
    }
  }

  lemma OwnKind(s: State, step: Step)
    requires Enabled(s, step) && step.tid in Apply(s, step).procs && HasKind(Apply(s, step).procs[step.tid])
    ensures step.Fetch? || step.Reuse? || (step.tid in s.procs && HasKind(s.procs[step.tid]))
    ensures Apply(s, step).procs[step.tid].kind ==
              if step.Fetch? || step.Reuse? then step.kind else s.procs[step.tid].kind
  {
  }

  // Over every live run a request is sent as the kind its thread asked for.
  lemma {:induction false} SentAsAsked(s: State, steps: seq<Step>, K: map<Tid, Kind>)
    requires SafeRun(s, steps)
    requires forall t {:trigger AsAsked(s, t, K)} | t in s.procs :: AsAsked(s, t, K)
    ensures Exec(s, steps).Some? && var s' := Exec(s, steps).value;
              forall t | t in s'.procs && HasKind(s'.procs[t]) ::
                t in Asked(K, steps) && s'.procs[t].kind == Asked(K, steps)[t]
    decreases |steps|
  {
    if steps == [] {
      forall t | t in s.procs && HasKind(s.procs[t])
        ensures t in K && s.procs[t].kind == K[t]
      {
        assert AsAsked(s, t, K);
      }
    } else {
      var s1, K1 := Apply(s, steps[0]), AskedNext(K, steps[0]);
      forall t {:trigger AsAsked(s1, t, K1)} | t in s1.procs
        ensures AsAsked(s1, t, K1)
      {
        if t in s.procs { assert AsAsked(s, t, K); }
        StepAsAsked(s, steps[0], t, K);
      }
      SentAsAsked(s1, steps[1..], K1);
    }
  }
}
