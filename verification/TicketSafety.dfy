/** Theorems about every live run of the ticket protocol. */
module TicketSafety {
  import opened Common
  import opened Session
  import opened TicketProtocol
  import opened TicketInvariant

  ghost predicate Safe(s: State) {
    DropsAreExclusive(s) && RepliesMatch(s) && PoolBalanced(s) && TicketsLive(s)
  }

  lemma StepKeepsInv(s: State, step: Step)
    requires Inv(s) && Enabled(s, step) && ScanSafe(s, step)
    ensures Inv(Apply(s, step))
  {
    var w :| Explains(w, s);
    match step
    case Fetch(t, k) => KeepFetch(s, w, t, k);
    case AllocTicket(t, u) => KeepAlloc(s, w, t, u);
    case PushOnAll(t) => KeepPushOnAll(s, w, t);
    case MarkKillLater(t) => KeepMarkKillLater(s, w, t);
    case KillUnused(t) => KeepKill(s, w, t);
    case SetCallback(t) => KeepSetCallback(s, w, t);
    case SendMessage(t) => KeepSendMessage(s, w, t);
    case SendForget(t) => KeepSendForget(s, w, t);
    case Collect(t) => KeepCollect(s, w, t);
    case Interrupt(t) => KeepInterrupt(s, w, t);
    case Stamp(t) => KeepStamp(s, w, t);
    case Scan(t) => KeepScan(s, w, t);
    case Reuse(t, k) => KeepReuse(s, w, t, k);
    case Finish(t) => KeepFinish(s, w, t);
    case Lose(t) => KeepLose(s, w, t);
    case Look(t) => KeepLook(s, w, t);
    case DropDecide(t, m) => KeepDropDecide(s, w, t, m);
    case DropRefresh(t) => KeepDropRefresh(s, w, t);
    case DropPush(t) => KeepDropPush(s, w, t);
    case Read(t) => KeepRead(s, w, t);
    case Deliver(t, c) => KeepDeliver(s, w, t, c);
    case Write(t, r) => KeepWrite(s, w, t, r);
    case Handle(t, e, k) =>
      if s.d.tickets[s.procs[t].u].handler == Standard {
        KeepHandleStandard(s, w, t, e, k);
      } else {
        KeepHandleOther(s, w, t, e, k);
      }
    case Answer(t) => KeepAnswer(s, w, t);
  }

  lemma InvIsSafe(s: State)
    requires Inv(s)
    ensures Safe(s)
  {
    var w :| Explains(w, s);
    DropsExclusive(s, w);
    Matching(s, w);
    Pool(s, w);
    forall t | t in s.procs && Touches(s.procs[t])
      ensures Live(s, s.procs[t].u)
    {
      Thread(s, w, t);
    }
  }

  lemma Matching(s: State, w: Witness)
    requires Explains(w, s)
    ensures RepliesMatch(s)
  {
    forall u, use | (u, use) in s.pending
      ensures u in s.d.tickets && UseOf(s.d.tickets[u]) == use && Awaited(s.d, use.unique) == Some(u)
    {
      ReplyFinds(s, w, u, use);
    }
    forall t | t in s.procs && (s.procs[t].Found? || s.procs[t].Answered?)
      ensures PcOk(s, w, t)
    {
      Thread(s, w, t);
    }
  }

  lemma DropsExclusive(s: State, w: Witness)
    requires Explains(w, s)
    ensures DropsAreExclusive(s)
  {
    forall t | t in s.procs && InDrop(s.procs[t])
      ensures
        var u := s.procs[t].u;
        && u in s.d.tickets && u in s.d.all && u !in s.d.free && u !in s.d.aw && u !in s.d.ms
        && forall t' | t' in s.procs && t' != t && Touches(s.procs[t']) :: s.procs[t'].u != u
    {
      var u := s.procs[t].u;
      Thread(s, w, t);
      TicketAt(s, w, u);
      forall t' | t' in s.procs && t' != t && Touches(s.procs[t'])
        ensures s.procs[t'].u != u
      {
        if s.procs[t'].u == u {
          OthersOn(s, w, u, t');
        }
      }
    }
  }

  lemma Pool(s: State, w: Witness)
    requires Explains(w, s)
    ensures PoolBalanced(s)
  {
    forall u | u in s.d.free
      ensures u in s.d.all
    {
      TicketAt(s, w, u);
    }
    forall u | u in s.d.tickets && u !in s.d.all
      ensures exists t :: t in s.procs && s.procs[t].Allocated? && s.procs[t].u == u
    {
      TicketAt(s, w, u);
      var t := w.place[u].holder;
      assert t in s.procs && s.procs[t].Allocated? && s.procs[t].u == u;
    }
    Balance(s.d);
    Uniques(s, w);
  }

  // tk_unique identifies a live ticket.
  lemma Uniques(s: State, w: Witness)
    requires Explains(w, s)
    ensures forall u | u in s.d.tickets :: s.d.tickets[u].unique < s.d.ticketer
    ensures forall u, v | u in s.d.tickets && v in s.d.tickets && s.d.tickets[u].unique == s.d.tickets[v].unique ::
              u == v
  {
    forall u | u in s.d.tickets
      ensures s.d.tickets[u].unique < s.d.ticketer && s.d.tickets[u].unique in w.at && w.at[s.d.tickets[u].unique] == u
    {
      TicketAt(s, w, u);
    }
  }

  lemma Balance(d: Data)
    requires Distinct(d.all) && forall u | u in d.all :: u in d.tickets
    ensures |d.tickets| == |d.all| + |Unpushed(d)|
  {
    DistinctSize(d.all);
    assert d.tickets.Keys == Elements(d.all) + Unpushed(d) && Elements(d.all) !! Unpushed(d);
  }

  lemma {:induction false} RunKeepsInv(s: State, steps: seq<Step>)
    requires Inv(s) && SafeRun(s, steps)
    ensures Exec(s, steps).Some? && Inv(Exec(s, steps).value)
    decreases |steps|
  {
    if steps != [] {
      StepKeepsInv(s, steps[0]);
      RunKeepsInv(Apply(s, steps[0]), steps[1..]);
    }
  }

  // Every live run whose scans are safe ends in a safe state (and so do all its
  // prefixes): drops are exclusive, replies reach exactly the use they answer, the
  // pool balances, unique numbers are unique, no panic is reached, and no thread
  // works on a destroyed ticket, bystanders excepted.
  lemma LiveRunsAreSafe(steps: seq<Step>)
    requires SafeRun(Start, steps)
    ensures Exec(Start, steps).Some? && Safe(Exec(Start, steps).value)
  {
    assert Explains(Witness(map[], map[], map[]), Start);
    RunKeepsInv(Start, steps);
    InvIsSafe(Exec(Start, steps).value);
  }

  // A state some live run can reach.
  ghost predicate Reached(s: State) { exists steps :: SafeRun(Start, steps) && Exec(Start, steps) == Some(s) }

  lemma ReachedInv(s: State)
    requires Reached(s)
    ensures Inv(s)
  {
    var steps :| SafeRun(Start, steps) && Exec(Start, steps) == Some(s);
    assert Explains(Witness(map[], map[], map[]), Start);
    RunKeepsInv(Start, steps);
  }

  // ------------------------------------------------ once per use, and the age

  // The use has been given back to the pool, or is on its way there.
  ghost predicate Spent(s: State, use: Use) {
    && use.unique < s.d.ticketer
    && forall u | u in s.d.tickets && s.d.tickets[u].unique == use.unique :: SpentAt(s, use, u)
  }

  ghost predicate SpentAt(s: State, use: Use, u: Addr)
    requires u in s.d.tickets
  {
    || s.d.tickets[u].gen > use.gen
    || (s.d.tickets[u].gen == use.gen && exists t :: Refreshes(s, t, u))
  }

  predicate Refreshes(s: State, t: Tid, u: Addr) { t in s.procs && s.procs[t].Refreshing? && s.procs[t].u == u }

  lemma StepKeepsSpent(s: State, step: Step, use: Use)
    requires Enabled(s, step) && Spent(s, use)
    ensures Spent(Apply(s, step), use)
  {
    var s' := Apply(s, step);
    StepTicket(s, step, 0);
    forall u | u in s'.d.tickets && s'.d.tickets[u].unique == use.unique
      ensures SpentAt(s', use, u)
    {
      StepTicket(s, step, u);
      assert SpentAt(s, use, u);
      if s.d.tickets[u].gen == use.gen {
        var t :| Refreshes(s, t, u);
        StepOfRefresher(s, step, t, u);
      }
    }
  }

  // Does the step refresh the ticket at address u?
  predicate Renews(s: State, step: Step, u: Addr)
    requires Enabled(s, step)
  {
    (step.Reuse? || step.DropRefresh?) && s.procs[step.tid].u == u
  }

  // What a step can do to the ticket at an address: nothing to its unique, and one
  // more refresh if it is one; or it makes the ticket, or destroys it.
  ghost predicate Continues(s: State, step: Step, s': State, u: Addr)
    requires Enabled(s, step)
  {
    && s.d.ticketer <= s'.d.ticketer
    && (u in s'.d.tickets ==>
          var tk := s'.d.tickets[u];
          if u !in s.d.tickets then UseOf(tk) == Use(s.d.ticketer, 0)
          else
            && tk.unique == s.d.tickets[u].unique
            && tk.gen == s.d.tickets[u].gen + (if Renews(s, step, u) then 1 else 0))
  }

  lemma StepTicket(s: State, step: Step, u: Addr)
    requires Enabled(s, step)
    ensures Continues(s, step, Apply(s, step), u)
    ensures u in s.d.tickets && !step.DropDecide? && !step.KillUnused? ==> u in Apply(s, step).d.tickets
  {
    if step.Fetch? || step.AllocTicket? || step.PushOnAll? || step.MarkKillLater? || step.KillUnused?
       || step.SetCallback? || step.SendMessage? || step.SendForget? {
      RequestTicket(s, step, u);
    } else if step.Collect? || step.Interrupt? || step.Stamp? || step.Scan? || step.Reuse? || step.Finish?
              || step.Lose? || step.Look? {
      WaitTicket(s, step, u);
    } else if step.DropDecide? || step.DropRefresh? || step.DropPush? {
      DropTicket(s, step, u);
    } else {
      DeviceTicket(s, step, u);
    }
  }

  lemma RequestTicket(s: State, step: Step, u: Addr)
    requires Enabled(s, step)
    requires step.Fetch? || step.AllocTicket? || step.PushOnAll? || step.MarkKillLater? || step.KillUnused?
             || step.SetCallback? || step.SendMessage? || step.SendForget?
    ensures Continues(s, step, Apply(s, step), u)
    ensures u in s.d.tickets && !step.KillUnused? ==> u in Apply(s, step).d.tickets
  {
  }

  lemma WaitTicket(s: State, step: Step, u: Addr)
    requires Enabled(s, step)
    requires step.Collect? || step.Interrupt? || step.Stamp? || step.Scan? || step.Reuse? || step.Finish? || step.Lose?
             || step.Look?
    ensures Continues(s, step, Apply(s, step), u)
    ensures u in s.d.tickets ==> u in Apply(s, step).d.tickets
  {
  }

  lemma DropTicket(s: State, step: Step, u: Addr)
    requires Enabled(s, step) && (step.DropDecide? || step.DropRefresh? || step.DropPush?)
    ensures Continues(s, step, Apply(s, step), u)
    ensures u in s.d.tickets && !step.DropDecide? ==> u in Apply(s, step).d.tickets
  {
  }

  lemma DeviceTicket(s: State, step: Step, u: Addr)
    requires Enabled(s, step) && (step.Read? || step.Deliver? || step.Write? || step.Handle? || step.Answer?)
    ensures Continues(s, step, Apply(s, step), u)
    ensures u in s.d.tickets ==> u in Apply(s, step).d.tickets
  {
  }

  lemma StepOfRefresher(s: State, step: Step, t: Tid, u: Addr)
    requires Enabled(s, step) && Refreshes(s, t, u)
    ensures step != DropRefresh(t) ==> Refreshes(Apply(s, step), t, u)
    ensures step == DropRefresh(t) ==>
              u in Apply(s, step).d.tickets && Apply(s, step).d.tickets[u].gen == s.d.tickets[u].gen + 1
  {
  }

  lemma {:induction false} RunKeepsSpent(s: State, steps: seq<Step>, use: Use)
    requires SafeRun(s, steps) && Spent(s, use)
    ensures Exec(s, steps).Some? && Spent(Exec(s, steps).value, use)
    decreases |steps|
  {
    if steps != [] {
      StepKeepsSpent(s, steps[0], use);
      RunKeepsSpent(Apply(s, steps[0]), steps[1..], use);
    }
  }

  // Once a thread has decided the fate of a use in fuse_ticket_drop, no thread
  // ever enters fuse_ticket_drop for that use again, however the run goes on.
  lemma DroppedOncePerUse(s: State, t: Tid, maxFree: int, rest: seq<Step>, t': Tid)
    requires Reached(s) && Enabled(s, DropDecide(t, maxFree))
    requires SafeRun(DoDropDecide(s, t, maxFree), rest)
    ensures Exec(DoDropDecide(s, t, maxFree), rest).Some?
    ensures var s' := Exec(DoDropDecide(s, t, maxFree), rest).value;
            t' in s'.procs && s'.procs[t'].Dropping? ==>
              && s'.procs[t'].u in s'.d.tickets
              && UseOf(s'.d.tickets[s'.procs[t'].u]) != UseOf(s.d.tickets[s.procs[t].u])
  {
    var use := UseOf(s.d.tickets[s.procs[t].u]);
    var s1 := DoDropDecide(s, t, maxFree);
    ReachedInv(s);
    StepKeepsInv(s, DropDecide(t, maxFree));
    DecidingSpends(s, t, maxFree);
    RunKeepsSpent(s1, rest, use);
    RunKeepsInv(s1, rest);
    SpentIsOver(Exec(s1, rest).value, use, t');
  }

  lemma DecidingSpends(s: State, t: Tid, maxFree: int)
    requires Inv(s) && Enabled(s, DropDecide(t, maxFree))
    ensures Spent(DoDropDecide(s, t, maxFree), UseOf(s.d.tickets[s.procs[t].u]))
  {
    var s1 := DoDropDecide(s, t, maxFree);
    var u := s.procs[t].u;
    InvIsSafe(s);
    forall v | v in s1.d.tickets && s1.d.tickets[v].unique == s.d.tickets[u].unique
      ensures SpentAt(s1, UseOf(s.d.tickets[u]), v)
    {
      assert v == u;
      assert Refreshes(s1, t, u);
    }
  }

  lemma SpentIsOver(s: State, use: Use, t: Tid)
    requires Inv(s) && Spent(s, use)
    ensures t in s.procs && s.procs[t].Dropping? ==>
              s.procs[t].u in s.d.tickets && UseOf(s.d.tickets[s.procs[t].u]) != use
  {
    var w :| Explains(w, s);
    DropsExclusive(s, w);
    if t in s.procs && s.procs[t].Dropping? && s.d.tickets[s.procs[t].u].unique == use.unique {
      assert SpentAt(s, use, s.procs[t].u);
    }
  }

  // With a safe scan, clearing the handler only ever hits the very use that the
  // requester gave up, and nobody is waiting for that use.
  lemma AgeCheckSparesLaterUses(s: State, t: Tid, t': Tid)
    requires Reached(s) && Enabled(s, Scan(t)) && ScanSafe(s, Scan(t)) && DoScan(s, t).d != s.d
    ensures Live(s, s.procs[t].u) && UseOf(s.d.tickets[s.procs[t].u]) == s.procs[t].use
    ensures t' in s.procs && Requests(s.procs[t']) ==> s.procs[t'].u != s.procs[t].u
  {
    ReachedInv(s);
    ScanSparesLaterUses(s, t, t');
  }

  lemma ScanSparesLaterUses(s: State, t: Tid, t': Tid)
    requires Inv(s) && Enabled(s, Scan(t)) && ScanSafe(s, Scan(t)) && DoScan(s, t).d != s.d
    ensures Live(s, s.procs[t].u) && UseOf(s.d.tickets[s.procs[t].u]) == s.procs[t].use
    ensures t' in s.procs && Requests(s.procs[t']) ==> s.procs[t'].u != s.procs[t].u
  {
    var w :| Explains(w, s);
    var u := s.procs[t].u;
    Thread(s, w, t);
    TicketAt(s, w, u);
    if t' in s.procs && Requests(s.procs[t']) && s.procs[t'].u == u {
      OthersOn(s, w, u, t');
      Thread(s, w, t');
    }
  }

  // Otherwise exactly these uses are mistaken for the one given up: uses of the
  // same ticket, by a multiple of 2^32 refreshes later, and uses of another ticket
  // that got its address, with the same age; if they await an answer by then.
  lemma AgeCheckExactly(s: State, t: Tid)
    requires Reached(s) && Enabled(s, Scan(t)) && Live(s, s.procs[t].u)
    ensures var u, use := s.procs[t].u, s.procs[t].use;
            var tk := s.d.tickets[u];
            (DoScan(s, t).d != s.d && UseOf(tk) != use)
            <==> (&& u in s.d.aw && tk.handler != NoHandler
                  && if tk.unique == use.unique
                     then tk.gen > use.gen && (tk.gen - use.gen) % AGE_MODULUS == 0
                     else Age(tk) == use.gen % AGE_MODULUS)
  {
    ReachedInv(s);
    var w :| Explains(w, s);
    Thread(s, w, t);
    var u, g := s.procs[t].u, s.procs[t].use.gen;
    var tk := s.d.tickets[u];
    if tk.unique == s.procs[t].use.unique { SameResidue(tk.gen, g); }
    if Age(tk) == g % AGE_MODULUS && tk.handler != NoHandler && u in s.d.aw {
      assert DoScan(s, t).d.tickets[u] != s.d.tickets[u];
    }
  }

  lemma SameResidue(a: nat, b: nat)
    requires a >= b
    ensures a % AGE_MODULUS == b % AGE_MODULUS <==> (a - b) % AGE_MODULUS == 0
  {}

  // ------------------------------------------------ the ticket given up

  // The step destroys the ticket with this unique: a drop that finds the pool full
  // or the ticket marked, or the kill of a ticket that was never sent.
  predicate Destroys(s: State, step: Step, unique: nat)
    requires Enabled(s, step)
  {
    match step
    case DropDecide(t, m) => s.d.tickets[s.procs[t].u].unique == unique && MustDie(s.d, s.procs[t].u, m)
    case KillUnused(t) => Live(s, s.procs[t].u) && s.d.tickets[s.procs[t].u].unique == unique
    case _ => false
  }

  predicate DestroyedIn(s: State, steps: seq<Step>, unique: nat)
    requires SafeRun(s, steps)
    decreases |steps|
  {
    steps != [] && (Destroys(s, steps[0], unique) || DestroyedIn(Apply(s, steps[0]), steps[1..], unique))
  }

  // The ticket with this unique is at address u.
  predicate IsAt(s: State, u: Addr, unique: nat) { u in s.d.tickets && s.d.tickets[u].unique == unique }

  ghost predicate Gone(s: State, unique: nat) {
    unique < s.d.ticketer && forall u | u in s.d.tickets :: s.d.tickets[u].unique != unique
  }

  lemma StepKeepsTicket(s: State, step: Step, u: Addr, unique: nat)
    requires Inv(s) && Enabled(s, step) && IsAt(s, u, unique)
    ensures if Destroys(s, step, unique) then Gone(Apply(s, step), unique) else IsAt(Apply(s, step), u, unique)
  {
    InvIsSafe(s);
    if step.DropDecide? || step.KillUnused? {
      KillKeeps(s, step, u, unique);
    } else {
      StepTicket(s, step, u);
    }
  }

  lemma KillKeeps(s: State, step: Step, u: Addr, unique: nat)
    requires PoolBalanced(s) && TicketsLive(s) && Enabled(s, step) && (step.DropDecide? || step.KillUnused?)
             && IsAt(s, u, unique)
    ensures if Destroys(s, step, unique) then Gone(Apply(s, step), unique) else IsAt(Apply(s, step), u, unique)
  {
    assert Live(s, s.procs[step.tid].u);
    assert s.d.tickets[s.procs[step.tid].u].unique == unique <==> s.procs[step.tid].u == u;
  }

  lemma StepKeepsGone(s: State, step: Step, unique: nat)
    requires Enabled(s, step) && Gone(s, unique)
    ensures Gone(Apply(s, step), unique)
  {
    StepTicket(s, step, 0);
    forall u | u in Apply(s, step).d.tickets
      ensures Apply(s, step).d.tickets[u].unique != unique
    {
      StepTicket(s, step, u);
    }
  }

  lemma {:induction false} RunKeepsGone(s: State, steps: seq<Step>, unique: nat)
    requires SafeRun(s, steps) && Gone(s, unique)
    ensures Exec(s, steps).Some? && Gone(Exec(s, steps).value, unique)
    decreases |steps|
  {
    if steps != [] {
      StepKeepsGone(s, steps[0], unique);
      RunKeepsGone(Apply(s, steps[0]), steps[1..], unique);
    }
  }

  lemma {:induction false} RunKeepsTicket(s: State, steps: seq<Step>, u: Addr, unique: nat)
    requires Inv(s) && SafeRun(s, steps) && IsAt(s, u, unique)
    ensures Exec(s, steps).Some?
    ensures IsAt(Exec(s, steps).value, u, unique) <==> !DestroyedIn(s, steps, unique)
    decreases |steps|
  {
    if steps != [] {
      StepKeepsTicket(s, steps[0], u, unique);
      StepKeepsInv(s, steps[0]);
      if Destroys(s, steps[0], unique) {
        RunKeepsGone(Apply(s, steps[0]), steps[1..], unique);
      } else {
        RunKeepsTicket(Apply(s, steps[0]), steps[1..], u, unique);
      }
    }
  }

  // A requester that was interrupted and marked its ticket answered goes on to
  // follow its pointer to the ticket. The ticket is still there, however long that
  // takes, exactly if nobody has destroyed it since the mark.
  lemma StampedTicketLives(s: State, t: Tid, rest: seq<Step>)
    requires Reached(s) && Enabled(s, Stamp(t)) && !s.d.tickets[s.procs[t].u].answered
    requires SafeRun(DoStamp(s, t), rest)
    ensures Exec(DoStamp(s, t), rest).Some?
    ensures var u := s.procs[t].u;
            IsAt(Exec(DoStamp(s, t), rest).value, u, s.d.tickets[u].unique)
            <==> !DestroyedIn(DoStamp(s, t), rest, s.d.tickets[u].unique)
  {
    ReachedInv(s);
    StepKeepsInv(s, Stamp(t));
    RunKeepsTicket(DoStamp(s, t), rest, s.procs[t].u, s.d.tickets[s.procs[t].u].unique);
  }

  // A requester that is told of an error has dropped its ticket by then, and its
  // caller may follow the pointer all the same. From the moment it has the answer
  // on, its own drop included, the ticket is there exactly if nobody has destroyed
  // it.
  lemma ReturnedTicketLives(s: State, t: Tid, rest: seq<Step>)
    requires Reached(s) && Enabled(s, Collect(t)) && SafeRun(DoCollect(s, t), rest)
    ensures Exec(DoCollect(s, t), rest).Some?
    ensures var u := s.procs[t].u;
            IsAt(Exec(DoCollect(s, t), rest).value, u, s.d.tickets[u].unique)
            <==> !DestroyedIn(DoCollect(s, t), rest, s.d.tickets[u].unique)
  {
    ReachedInv(s);
    StepKeepsInv(s, Collect(t));
    RunKeepsTicket(DoCollect(s, t), rest, s.procs[t].u, s.d.tickets[s.procs[t].u].unique);
  }

  // ------------------------------------------------ when scans are safe

  // How often the ticket at address u is refreshed.
  function RenewedIn(s: State, steps: seq<Step>, u: Addr): nat
    requires SafeRun(s, steps)
    decreases |steps|
  {
    if steps == [] then 0
    else (if Renews(s, steps[0], u) then 1 else 0) + RenewedIn(Apply(s, steps[0]), steps[1..], u)
  }

  lemma {:induction false} RunRenews(s: State, steps: seq<Step>, u: Addr, unique: nat)
    requires Inv(s) && SafeRun(s, steps) && IsAt(s, u, unique) && !DestroyedIn(s, steps, unique)
    ensures Exec(s, steps).Some? && IsAt(Exec(s, steps).value, u, unique)
    ensures Exec(s, steps).value.d.tickets[u].gen == s.d.tickets[u].gen + RenewedIn(s, steps, u)
    decreases |steps|
  {
    if steps != [] {
      StepKeepsTicket(s, steps[0], u, unique);
      StepTicket(s, steps[0], u);
      StepKeepsInv(s, steps[0]);
      RunRenews(Apply(s, steps[0]), steps[1..], u, unique);
    }
  }

  // A scan is safe if since the stamp the ticket was not destroyed, and refreshed
  // fewer than 2^32 times.
  lemma ScanSafeAfterStamp(s: State, t: Tid, rest: seq<Step>)
    requires Reached(s) && Enabled(s, Stamp(t)) && !s.d.tickets[s.procs[t].u].answered
    requires SafeRun(DoStamp(s, t), rest) && Exec(DoStamp(s, t), rest).Some?
    requires !DestroyedIn(DoStamp(s, t), rest, s.d.tickets[s.procs[t].u].unique)
    requires RenewedIn(DoStamp(s, t), rest, s.procs[t].u) < AGE_MODULUS
    requires var s' := Exec(DoStamp(s, t), rest).value;
             t in s'.procs && s'.procs[t] == Stamped(s.procs[t].u, UseOf(s.d.tickets[s.procs[t].u]))
    ensures ScanSafe(Exec(DoStamp(s, t), rest).value, Scan(t))
  {
    ReachedInv(s);
    StepKeepsInv(s, Stamp(t));
    RunRenews(DoStamp(s, t), rest, s.procs[t].u, s.d.tickets[s.procs[t].u].unique);
  }

  // In particular every run of at most 2^32 steps in which no ticket is destroyed
  // is safe.
  predicate Kills(s: State, step: Step)
    requires Enabled(s, step)
  {
    step.KillUnused? || (step.DropDecide? && MustDie(s.d, s.procs[step.tid].u, step.maxFree))
  }

  predicate NoneDestroyed(s: State, steps: seq<Step>)
    requires Exec(s, steps).Some?
    decreases |steps|
  {
    steps == [] || (!Kills(s, steps[0]) && NoneDestroyed(Apply(s, steps[0]), steps[1..]))
  }

  // After k steps no ticket is older than k, and stamped tickets are there.
  ghost predicate Young(s: State, k: nat) {
    && (forall u | u in s.d.tickets :: s.d.tickets[u].gen <= k)
    && (forall t {:trigger StampThere(s, t)} | t in s.procs && s.procs[t].Stamped? :: StampThere(s, t))
  }

  predicate StampThere(s: State, t: Tid)
    requires t in s.procs && s.procs[t].Stamped?
  {
    IsAt(s, s.procs[t].u, s.procs[t].use.unique)
  }

  lemma StepKeepsYoung(s: State, step: Step, k: nat)
    requires Enabled(s, step) && Young(s, k) && !Kills(s, step)
    ensures Young(Apply(s, step), k + 1)
  {
    var s' := Apply(s, step);
    forall u | u in s'.d.tickets
      ensures s'.d.tickets[u].gen <= k + 1
    {
      StepTicket(s, step, u);
    }
    forall t {:trigger StampThere(s', t)} | t in s'.procs && s'.procs[t].Stamped?
      ensures StampThere(s', t)
    {
      if !(step.Stamp? && step.tid == t) {
        StillStamped(s, step, t);
        assert StampThere(s, t);
      }
      StepTicket(s, step, s'.procs[t].u);
    }
  }

  lemma StillStamped(s: State, step: Step, t: Tid)
    requires Enabled(s, step) && t in Apply(s, step).procs && Apply(s, step).procs[t].Stamped?
    requires !(step.Stamp? && step.tid == t)
    ensures t in s.procs && s.procs[t] == Apply(s, step).procs[t]
  {
  }

  lemma {:induction false} ShortRunsAreSafe(s: State, k: nat, steps: seq<Step>)
    requires Exec(s, steps).Some? && Young(s, k) && k + |steps| <= AGE_MODULUS && NoneDestroyed(s, steps)
    ensures SafeRun(s, steps)
    decreases |steps|
  {
    if steps != [] {
      YoungScan(s, k, steps[0]);
      StepKeepsYoung(s, steps[0], k);
      ShortRunsAreSafe(Apply(s, steps[0]), k + 1, steps[1..]);
    }
  }

  lemma YoungScan(s: State, k: nat, step: Step)
    requires Enabled(s, step) && Young(s, k) && k < AGE_MODULUS
    ensures ScanSafe(s, step)
  {
    if step.Scan? { assert StampThere(s, step.tid); }
  }

  lemma ShortRunsFromStart(steps: seq<Step>)
    requires Exec(Start, steps).Some? && |steps| <= AGE_MODULUS && NoneDestroyed(Start, steps)
    ensures SafeRun(Start, steps)
  {
    ShortRunsAreSafe(Start, 0, steps);
  }
}
