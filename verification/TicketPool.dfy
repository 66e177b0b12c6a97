/** The pool and the message queue over every live run: messages reach the daemon in
    the order they were sent, tickets leave the pool in the order they came back, a
    drop destroys a ticket exactly when the pool is full or the ticket is marked, and
    no ticket is lost but in two places. */
module TicketPool {
  import opened Common
  import opened Session
  import opened TicketProtocol
  import opened TicketInvariant
  import opened TicketSafety
  import opened TicketAnswers

  // ------------------------------------------------ first in, first out

  // The messages that are sent, and those a reader takes, in the order of the run.
  function Sent(s: State, steps: seq<Step>): seq<(Addr, Use)>
    requires SafeRun(s, steps)
    decreases |steps|
  {
    if steps == [] then [] else SentBy(s, steps[0]) + Sent(Apply(s, steps[0]), steps[1..])
  }

  function SentBy(s: State, step: Step): seq<(Addr, Use)>
    requires Enabled(s, step)
  {
    if step.SendMessage? || step.SendForget?
    then [(s.procs[step.tid].u, UseOf(s.d.tickets[s.procs[step.tid].u]))]
    else []
  }

  function Taken(s: State, steps: seq<Step>): seq<(Addr, Use)>
    requires SafeRun(s, steps)
    decreases |steps|
  {
    if steps == [] then [] else TakenBy(s, steps[0]) + Taken(Apply(s, steps[0]), steps[1..])
  }

  // What the reader goes on to copy out.
  function TakenBy(s: State, step: Step): seq<(Addr, Use)>
    requires Enabled(s, step)
  {
    if step.Read? then var pc := Apply(s, step).procs[step.tid]; [(pc.u, pc.use)] else []
  }

  function Queue(d: Data, ms: seq<Addr>): seq<(Addr, Use)>
    requires forall u | u in ms :: u in d.tickets
  {
    seq(|ms|, i requires 0 <= i < |ms| => (ms[i], UseOf(d.tickets[ms[i]])))
  }

  lemma QueueAppend(d: Data, ms: seq<Addr>, u: Addr)
    requires (forall v | v in ms :: v in d.tickets) && u in d.tickets
    ensures Queue(d, ms + [u]) == Queue(d, ms) + [(u, UseOf(d.tickets[u]))]
  {
  }

  lemma QueueHead(d: Data, ms: seq<Addr>)
    requires ms != [] && forall v | v in ms :: v in d.tickets
    ensures Queue(d, ms) == [(ms[0], UseOf(d.tickets[ms[0]]))] + Queue(d, ms[1..])
  {
  }

  // A message under way is of the use it was sent for.
  lemma QueuedKeepsUse(s: State, step: Step, u: Addr)
    requires Inv(s) && Enabled(s, step) && u in s.d.ms
    ensures u in s.d.tickets
            && (u in Apply(s, step).d.tickets ==> UseOf(Apply(s, step).d.tickets[u]) == UseOf(s.d.tickets[u]))
  {
    var w :| Explains(w, s);
    TicketAt(s, w, u);
    StepTicket(s, step, u);
    if Renews(s, step, u) { OthersOn(s, w, u, step.tid); }
  }

  lemma QueueSame(s: State, step: Step, ms: seq<Addr>)
    requires Inv(s) && Enabled(s, step) && forall u | u in ms :: u in s.d.ms && u in Apply(s, step).d.tickets
    ensures (forall u | u in ms :: u in s.d.tickets) && Queue(Apply(s, step).d, ms) == Queue(s.d, ms)
  {
    forall i | 0 <= i < |ms|
      ensures ms[i] in s.d.tickets && UseOf(Apply(s, step).d.tickets[ms[i]]) == UseOf(s.d.tickets[ms[i]])
    {
      QueuedKeepsUse(s, step, ms[i]);
    }
  }

  lemma QueueMoves(s: State, step: Step)
    requires Enabled(s, step) && Inv(s)
    ensures var d' := Apply(s, step).d;
            if step.SendMessage? || step.SendForget? then d'.ms == s.d.ms + [s.procs[step.tid].u]
            else if step.Read? then s.d.ms != [] && d'.ms == s.d.ms[1..]
            else d'.ms == s.d.ms
  {
    if step.SendMessage? || step.SendForget? {
      SenderIsClean(s, step.tid);
    } else if !step.Read? {
      OnlySendersQueue(s, step);
    }
  }

  lemma SenderIsClean(s: State, t: Tid)
    requires Inv(s) && t in s.procs && (s.procs[t].Called? || s.procs[t].Ready?)
    ensures s.procs[t].u in s.d.tickets && !s.d.tickets[s.procs[t].u].dirty
  {
    var w :| Explains(w, s);
    Thread(s, w, t);
  }

  lemma OnlySendersQueue(s: State, step: Step)
    requires Enabled(s, step) && !step.SendMessage? && !step.SendForget? && !step.Read?
    ensures Apply(s, step).d.ms == s.d.ms
  {
  }

  lemma QueuedLive(s: State)
    requires Inv(s)
    ensures forall u | u in s.d.ms :: u in s.d.tickets
  {
  }

  lemma StepInOrder(s: State, step: Step)
    requires Inv(s) && Enabled(s, step) && Inv(Apply(s, step))
    ensures (forall u | u in s.d.ms :: u in s.d.tickets)
            && (forall u | u in Apply(s, step).d.ms :: u in Apply(s, step).d.tickets)
    ensures Queue(s.d, s.d.ms) + SentBy(s, step) == TakenBy(s, step) + Queue(Apply(s, step).d, Apply(s, step).d.ms)
  {
    var s' := Apply(s, step);
    QueuedLive(s);
    QueuedLive(s');
    QueueMoves(s, step);
    if step.SendMessage? || step.SendForget? {
      var u := s.procs[step.tid].u;
      StepTicket(s, step, u);
      QueueAppend(s'.d, s.d.ms, u);
      QueueSame(s, step, s.d.ms);
    } else if step.Read? {
      QueueHead(s.d, s.d.ms);
      QueueSame(s, step, s'.d.ms);
    } else {
      QueueSame(s, step, s'.d.ms);
    }
  }

  lemma Chain<T>(sent: seq<T>, q: seq<T>, taken: seq<T>, q1: seq<T>, sent1: seq<T>, taken1: seq<T>, q2: seq<T>)
    requires q + sent == taken + q1 && q1 + sent1 == taken1 + q2
    ensures q + (sent + sent1) == taken + taken1 + q2
  {
    assert q + (sent + sent1) == (q + sent) + sent1;
    assert (taken + q1) + sent1 == taken + (q1 + sent1);
  }

  lemma {:induction false} RunInOrder(s: State, steps: seq<Step>)
    requires Inv(s) && SafeRun(s, steps)
    ensures Exec(s, steps).Some? && var s' := Exec(s, steps).value;
              && (forall u | u in s.d.ms :: u in s.d.tickets) && (forall u | u in s'.d.ms :: u in s'.d.tickets)
              && Queue(s.d, s.d.ms) + Sent(s, steps) == Taken(s, steps) + Queue(s'.d, s'.d.ms)
    decreases |steps|
  {
    QueuedLive(s);
    if steps == [] {
      assert Sent(s, steps) == [] && Taken(s, steps) == [];
    } else {
      var s1 := Apply(s, steps[0]);
      StepKeepsInv(s, steps[0]);
      StepInOrder(s, steps[0]);
      RunInOrder(s1, steps[1..]);
      var s' := Exec(s1, steps[1..]).value;
      Chain(SentBy(s, steps[0]), Queue(s.d, s.d.ms), TakenBy(s, steps[0]), Queue(s1.d, s1.d.ms),
            Sent(s1, steps[1..]), Taken(s1, steps[1..]), Queue(s'.d, s'.d.ms));
    }
  }

  // Over every live run: what was sent is what the readers have taken, in that
  // order, followed by what is still queued; every message once, under its own use.
  lemma MessagesInOrder(steps: seq<Step>)
    requires SafeRun(Start, steps)
    ensures Exec(Start, steps).Some? && var s := Exec(Start, steps).value;
              && (forall u | u in s.d.ms :: u in s.d.tickets)
              && Sent(Start, steps) == Taken(Start, steps) + Queue(s.d, s.d.ms)
  {
    assert Explains(Witness(map[], map[], map[]), Start);
    RunInOrder(Start, steps);
    assert Queue(Start.d, Start.d.ms) + Sent(Start, steps) == Sent(Start, steps);
  }

  // The tickets that drops put back, and those that fetches find.
  function PutBack(s: State, steps: seq<Step>): seq<Addr>
    requires SafeRun(s, steps)
    decreases |steps|
  {
    if steps == [] then [] else PutBackBy(s, steps[0]) + PutBack(Apply(s, steps[0]), steps[1..])
  }

  function PutBackBy(s: State, step: Step): seq<Addr>
    requires Enabled(s, step)
  {
    if step.DropPush? then [s.procs[step.tid].u] else []
  }

  function Fetched(s: State, steps: seq<Step>): seq<Addr>
    requires SafeRun(s, steps)
    decreases |steps|
  {
    if steps == [] then [] else FetchedBy(s, steps[0]) + Fetched(Apply(s, steps[0]), steps[1..])
  }

  function FetchedBy(s: State, step: Step): seq<Addr>
    requires Enabled(s, step)
  {
    var procs := Apply(s, step).procs;
    if step.Fetch? && step.tid in procs && procs[step.tid].Ready? then [procs[step.tid].u] else []
  }

  lemma StepPool(s: State, step: Step)
    requires Enabled(s, step)
    ensures s.d.free + PutBackBy(s, step) == FetchedBy(s, step) + Apply(s, step).d.free
  {
  }

  lemma {:induction false} RunPool(s: State, steps: seq<Step>)
    requires SafeRun(s, steps)
    ensures Exec(s, steps).Some?
    ensures s.d.free + PutBack(s, steps) == Fetched(s, steps) + Exec(s, steps).value.d.free
    decreases |steps|
  {
    if steps == [] {
      assert PutBack(s, steps) == [] && Fetched(s, steps) == [];
    } else {
      var s1 := Apply(s, steps[0]);
      StepPool(s, steps[0]);
      RunPool(s1, steps[1..]);
      Chain(PutBackBy(s, steps[0]), s.d.free, FetchedBy(s, steps[0]), s1.d.free,
            PutBack(s1, steps[1..]), Fetched(s1, steps[1..]), Exec(s1, steps[1..]).value.d.free);
    }
  }

  // Over every live run: the tickets put back are the ones fetched from the pool,
  // in that order, followed by the free list; and a fetch allocates exactly if the
  // free list is empty.
  lemma PoolInOrder(steps: seq<Step>, t: Tid, k: Kind)
    requires SafeRun(Start, steps)
    ensures Exec(Start, steps).Some? && var s := Exec(Start, steps).value;
              && PutBack(Start, steps) == Fetched(Start, steps) + s.d.free
              && (t !in s.procs ==> DoFetch(s, t, k).procs ==
                                    s.procs[t := if s.d.free == [] then NeedAlloc(k) else Ready(s.d.free[0], k)])
  {
    RunPool(Start, steps);
    LiveRunsAreSafe(steps);
    assert Start.d.free + PutBack(Start, steps) == PutBack(Start, steps);
  }

  // ------------------------------------------------ when a drop destroys

  // The uses that were marked FT_KILLL: by the requester, or by a reply whose body
  // could not be kept.
  function Marks(s: State, steps: seq<Step>): set<Use>
    requires SafeRun(s, steps)
    decreases |steps|
  {
    if steps == [] then {} else MarkedBy(s, steps[0]) + Marks(Apply(s, steps[0]), steps[1..])
  }

  predicate Marking(s: State, step: Step, u: Addr)
    requires Enabled(s, step)
  {
    && By(s, step, u)
    && (step.MarkKillLater?
        || (step.Handle? && step.kill && s.procs[step.tid].reply.error == 0 && s.d.tickets[u].handler == Standard))
  }

  function MarkedBy(s: State, step: Step): set<Use>
    requires Enabled(s, step)
  {
    if (step.MarkKillLater? || step.Handle?) && Marking(s, step, s.procs[step.tid].u)
    then {UseOf(s.d.tickets[s.procs[step.tid].u])} else {}
  }

  predicate MarkOk(tk: Ticket, M: set<Use>) {
    (tk.killLater <==> UseOf(tk) in M) && forall use | use in M && use.unique == tk.unique :: use.gen <= tk.gen
  }

  ghost predicate Marked(s: State, M: set<Use>) {
    && (forall u {:trigger MarkOk(s.d.tickets[u], M)} | u in s.d.tickets :: MarkOk(s.d.tickets[u], M))
    && (forall use | use in M :: use.unique < s.d.ticketer)
  }

  ghost predicate MarkMoves(s: State, step: Step, s': State, u: Addr)
    requires Enabled(s, step)
  {
    u in s'.d.tickets ==>
      s'.d.tickets[u].killLater ==
      (u in s.d.tickets && !Renews(s, step, u) && (s.d.tickets[u].killLater || Marking(s, step, u)))
  }

  lemma StepMark(s: State, step: Step, u: Addr)
    requires Enabled(s, step)
    ensures MarkMoves(s, step, Apply(s, step), u)
  {
    if step.Fetch? || step.AllocTicket? || step.PushOnAll? || step.MarkKillLater? || step.KillUnused?
       || step.SetCallback? || step.SendMessage? || step.SendForget? {
      RequestMark(s, step, u);
    } else if step.Collect? || step.Interrupt? || step.Stamp? || step.Scan? || step.Reuse? || step.Finish?
              || step.Lose? || step.Look? {
      WaitMark(s, step, u);
    } else if step.DropDecide? || step.DropRefresh? || step.DropPush? {
      DropMark(s, step, u);
    } else {
      DeviceMark(s, step, u);
    }
  }

  lemma RequestMark(s: State, step: Step, u: Addr)
    requires Enabled(s, step)
    requires step.Fetch? || step.AllocTicket? || step.PushOnAll? || step.MarkKillLater? || step.KillUnused?
             || step.SetCallback? || step.SendMessage? || step.SendForget?
    ensures MarkMoves(s, step, Apply(s, step), u)
  {
  }

  lemma WaitMark(s: State, step: Step, u: Addr)
    requires Enabled(s, step)
    requires step.Collect? || step.Interrupt? || step.Stamp? || step.Scan? || step.Reuse? || step.Finish?
             || step.Lose? || step.Look?
    ensures MarkMoves(s, step, Apply(s, step), u)
  {
  }

  lemma DropMark(s: State, step: Step, u: Addr)
    requires Enabled(s, step) && (step.DropDecide? || step.DropRefresh? || step.DropPush?)
    ensures MarkMoves(s, step, Apply(s, step), u)
  {
  }

  lemma DeviceMark(s: State, step: Step, u: Addr)
    requires Enabled(s, step) && (step.Read? || step.Deliver? || step.Write? || step.Handle? || step.Answer?)
    ensures MarkMoves(s, step, Apply(s, step), u)
  {
  }

  lemma MarkedByIs(s: State, step: Step, u: Addr)
    requires PoolBalanced(s) && Enabled(s, step) && u in s.d.tickets
    ensures UseOf(s.d.tickets[u]) in MarkedBy(s, step) <==> Marking(s, step, u)
    ensures forall use | use in MarkedBy(s, step) && use.unique == s.d.tickets[u].unique :: use == UseOf(s.d.tickets[u])
  {
  }

  lemma MarkedIsKnown(s: State, step: Step, use: Use)
    requires PoolBalanced(s) && Enabled(s, step) && use in MarkedBy(s, step)
    ensures use.unique < s.d.ticketer
  {
  }

  lemma TicketMarked(s: State, step: Step, u: Addr, M: set<Use>)
    requires PoolBalanced(s) && Enabled(s, step) && Marked(s, M) && u in Apply(s, step).d.tickets
    ensures MarkOk(Apply(s, step).d.tickets[u], M + MarkedBy(s, step))
  {
    StepMark(s, step, u);
    StepTicket(s, step, u);
    if u in s.d.tickets {
      assert MarkOk(s.d.tickets[u], M);
      MarkedByIs(s, step, u);
    } else {
      forall use | use in MarkedBy(s, step)
        ensures use.unique < s.d.ticketer
      {
        MarkedIsKnown(s, step, use);
      }
    }
  }

  lemma StepMarked(s: State, step: Step, M: set<Use>)
    requires PoolBalanced(s) && Enabled(s, step) && Marked(s, M)
    ensures Marked(Apply(s, step), M + MarkedBy(s, step))
  {
    var s', M' := Apply(s, step), M + MarkedBy(s, step);
    forall u {:trigger MarkOk(s'.d.tickets[u], M')} | u in s'.d.tickets
      ensures MarkOk(s'.d.tickets[u], M')
    {
      TicketMarked(s, step, u, M);
    }
    StepTicket(s, step, 0);
    forall use | use in M'
      ensures use.unique < s'.d.ticketer
    {
      if use in MarkedBy(s, step) { MarkedIsKnown(s, step, use); }
    }
  }

  lemma {:induction false} RunMarked(s: State, steps: seq<Step>, M: set<Use>)
    requires Inv(s) && SafeRun(s, steps) && Marked(s, M)
    ensures Exec(s, steps).Some? && Inv(Exec(s, steps).value) && Marked(Exec(s, steps).value, M + Marks(s, steps))
    decreases |steps|
  {
    if steps == [] {
      assert M + Marks(s, steps) == M;
    } else {
      InvIsSafe(s);
      StepKeepsInv(s, steps[0]);
      StepMarked(s, steps[0], M);
      RunMarked(Apply(s, steps[0]), steps[1..], M + MarkedBy(s, steps[0]));
      Regroup(M, MarkedBy(s, steps[0]), Marks(Apply(s, steps[0]), steps[1..]));
    }
  }

  ghost predicate Decides(s: State, t: Tid, s': State, dies: bool)
    requires t in s.procs && s.procs[t].Dropping?
  {
    var u := s.procs[t].u;
    && (u !in s'.d.tickets <==> dies) && (u !in s'.d.all <==> dies)
    && (!dies ==> s'.d == s.d && s'.procs == s.procs[t := Refreshing(u, s.procs[t].back)])
    && (t in s'.procs && s'.procs[t].Returned? <==> dies && s.procs[t].back.Some?)
  }

  lemma DropDecides(s: State, t: Tid, maxFree: int)
    requires Enabled(s, DropDecide(t, maxFree)) && s.procs[t].u in s.d.all && Distinct(s.d.all)
    requires s.d.freeCount == |s.d.free|
    ensures Decides(s, t, DoDropDecide(s, t, maxFree),
                    0 <= maxFree <= |s.d.free| || s.d.tickets[s.procs[t].u].killLater)
  {
    RemoveElements(s.d.all, s.procs[t].u);
  }

  lemma MarksOfRun(steps: seq<Step>)
    requires SafeRun(Start, steps)
    ensures Exec(Start, steps).Some? && Marked(Exec(Start, steps).value, Marks(Start, steps))
  {
    assert Explains(Witness(map[], map[], map[]), Start);
    assert Marked(Start, {});
    RunMarked(Start, steps, {});
    assert {} + Marks(Start, steps) == Marks(Start, steps);
  }

  // After every live run fuse_ticket_drop destroys the ticket, and takes it off the
  // all list, exactly if the limit is not negative and the free list has reached
  // it, or this use was marked in the run; otherwise it keeps the ticket.
  lemma DropDestroysExactly(steps: seq<Step>, t: Tid, maxFree: int)
    requires SafeRun(Start, steps) && Exec(Start, steps).Some?
    requires Enabled(Exec(Start, steps).value, DropDecide(t, maxFree))
    ensures var s := Exec(Start, steps).value;
            Decides(s, t, DoDropDecide(s, t, maxFree),
                    0 <= maxFree <= |s.d.free| || UseOf(s.d.tickets[s.procs[t].u]) in Marks(Start, steps))
  {
    var s := Exec(Start, steps).value;
    MarksOfRun(steps);
    LiveRunsAreSafe(steps);
    assert MarkOk(s.d.tickets[s.procs[t].u], Marks(Start, steps));
    DropDecides(s, t, maxFree);
  }

  // A drop that keeps the ticket ends with the ticket, refreshed, at the tail of the
  // free list; and with the pointer still in the hands of a caller that got an error,
  // as a drop that destroys it does.
  lemma DropKeepsAtTail(s: State, t: Tid)
    requires Reached(s) && Enabled(s, DropPush(t))
    ensures var u, back, s' := s.procs[t].u, s.procs[t].back, DoDropPush(s, t);
            && s'.d == s.d.(free := s.d.free + [u], freeCount := |s.d.free| + 1)
            && u in s.d.tickets && !s.d.tickets[u].answered && !s.d.tickets[u].dirty && !s.d.tickets[u].invalid
            && s'.procs == if back.Some? then s.procs[t := Returned(u, back.value)] else s.procs - {t}
  {
    ReachedInv(s);
    PushedIsClean(s, t);
  }

  lemma PushedIsClean(s: State, t: Tid)
    requires Inv(s) && t in s.procs && s.procs[t].Pushing?
    ensures s.d.freeCount == |s.d.free| && s.procs[t].u in s.d.tickets && Clean(s.d.tickets[s.procs[t].u])
  {
    var w :| Explains(w, s);
    Thread(s, w, t);
  }

  // ------------------------------------------------ what is lost

  predicate Listed(d: Data, u: Addr) { u in d.free || u in d.aw || u in d.ms }

  predicate Cares(s: State, t: Tid, u: Addr) { t in s.procs && Touches(s.procs[t]) && s.procs[t].u == u }

  // A ticket that takes up memory and that nobody will ever use again.
  ghost predicate Stray(s: State, u: Addr) {
    u in s.d.tickets && !Listed(s.d, u) && forall t :: !Cares(s, t, u)
  }

  // A caller that returns without dropping its ticket, and the callback that sends
  // the FORGET after a RELEASE, which leaves the ticket of the RELEASE where it is.
  predicate Leaks(s: State, step: Step, u: Addr)
    requires Enabled(s, step)
  {
    By(s, step, u) && (step.Lose? || (step.Handle? && s.d.tickets[u].handler == ForgetCallback))
  }

  // How the lists change, as seen from one ticket.
  ghost predicate ListMoves(s: State, step: Step, s': State, u: Addr) {
    && (Listed(s'.d, u) && !Listed(s.d, u) ==> Cares(s, step.tid, u))
    && (Listed(s.d, u) && !Listed(s'.d, u) ==> Cares(s', step.tid, u))
  }

  lemma StepLists(s: State, step: Step, u: Addr)
    requires Distinct(s.d.aw) && Enabled(s, step)
    ensures ListMoves(s, step, Apply(s, step), u)
  {
    if step.Write? {
      WriteLists(s, step, u);
    } else if step.Fetch? || step.Read? {
      PopLists(s, step, u);
    } else if step.SetCallback? || step.SendMessage? || step.SendForget? || step.DropPush? {
      RequestLists(s, step, u);
    } else {
      OtherLists(s, step);
    }
  }

  lemma WriteLists(s: State, step: Step, u: Addr)
    requires Distinct(s.d.aw) && Enabled(s, step) && step.Write?
    ensures ListMoves(s, step, Apply(s, step), u)
  {
    var f := Awaited(s.d, step.reply.use.unique);
    if f.Some? { RemoveElements(s.d.aw, f.value); }
  }

  lemma PopLists(s: State, step: Step, u: Addr)
    requires Enabled(s, step) && (step.Fetch? || step.Read?)
    ensures ListMoves(s, step, Apply(s, step), u)
  {
    if s.d.free != [] { assert s.d.free == [s.d.free[0]] + s.d.free[1..]; }
    if s.d.ms != [] { assert s.d.ms == [s.d.ms[0]] + s.d.ms[1..]; }
  }

  lemma RequestLists(s: State, step: Step, u: Addr)
    requires Enabled(s, step) && (step.SetCallback? || step.SendMessage? || step.SendForget? || step.DropPush?)
    ensures ListMoves(s, step, Apply(s, step), u)
  {
  }

  lemma OtherLists(s: State, step: Step)
    requires Enabled(s, step) && !step.Fetch? && !step.Read? && !step.Write?
             && !step.SetCallback? && !step.SendMessage? && !step.SendForget? && !step.DropPush?
    ensures var d' := Apply(s, step).d; d'.free == s.d.free && d'.aw == s.d.aw && d'.ms == s.d.ms
  {
  }

  ghost predicate Stays(s: State, s': State, t: Tid) {
    (t in s'.procs <==> t in s.procs) && (t in s.procs ==> s'.procs[t] == s.procs[t])
  }

  lemma OthersStay(s: State, step: Step, t: Tid)
    requires Enabled(s, step) && t != step.tid
    ensures Stays(s, Apply(s, step), t)
  {
    if step.Fetch? || step.AllocTicket? || step.PushOnAll? || step.MarkKillLater? || step.KillUnused?
       || step.SetCallback? || step.SendMessage? || step.SendForget? || step.Collect? || step.Interrupt? {
      OthersStayEarly(s, step, t);
    } else {
      OthersStayLate(s, step, t);
    }
  }

  lemma OthersStayEarly(s: State, step: Step, t: Tid)
    requires Enabled(s, step) && t != step.tid
    requires step.Fetch? || step.AllocTicket? || step.PushOnAll? || step.MarkKillLater? || step.KillUnused?
             || step.SetCallback? || step.SendMessage? || step.SendForget? || step.Collect? || step.Interrupt?
    ensures Stays(s, Apply(s, step), t)
  {
  }

  lemma OthersStayLate(s: State, step: Step, t: Tid)
    requires Enabled(s, step) && t != step.tid
    requires !step.Fetch? && !step.AllocTicket? && !step.PushOnAll? && !step.MarkKillLater? && !step.KillUnused?
             && !step.SetCallback? && !step.SendMessage? && !step.SendForget? && !step.Collect? && !step.Interrupt?
    ensures Stays(s, Apply(s, step), t)
  {
  }

  lemma AwaitedIsThere(s: State, unique: nat)
    ensures Awaited(s.d, unique).Some? ==> Awaited(s.d, unique).value in s.d.aw
  {
    WithUniqueFinds(s.d.tickets, s.d.aw, unique);
  }

  // A thread comes to care for a ticket only by taking it off a list or making it.
  lemma ComesToCare(s: State, step: Step, u: Addr)
    requires Enabled(s, step) && u in s.d.tickets && Cares(Apply(s, step), step.tid, u)
    ensures Cares(s, step.tid, u) || Listed(s.d, u)
  {
    if step.Write? { AwaitedIsThere(s, step.reply.use.unique); }
  }

  lemma StrayStays(s: State, step: Step, u: Addr)
    requires Inv(s) && Enabled(s, step) && Stray(s, u) && u in Apply(s, step).d.tickets
    ensures Stray(Apply(s, step), u)
  {
    var s' := Apply(s, step);
    StepLists(s, step, u);
    assert !Cares(s, step.tid, u);
    forall t
      ensures !Cares(s', t, u)
    {
      assert !Cares(s, t, u);
      if t != step.tid {
        OthersStay(s, step, t);
      } else if Cares(s', t, u) {
        ComesToCare(s, step, u);
      }
    }
  }

  // Nobody else cares for a ticket that a step leaks.
  lemma LeakerIsAlone(s: State, step: Step, u: Addr, t: Tid)
    requires Inv(s) && Enabled(s, step) && Leaks(s, step, u) && u in s.d.tickets
    ensures !Listed(s.d, u) && (Cares(s, t, u) ==> t == step.tid)
  {
    var w :| Explains(w, s);
    Thread(s, w, step.tid);
    TicketAt(s, w, u);
    if step.Handle? { NobodyWaits(s, w, step.tid); }
    if Cares(s, t, u) { OthersOn(s, w, u, t); }
  }

  lemma LeakStrays(s: State, step: Step, u: Addr)
    requires Inv(s) && Enabled(s, step) && Leaks(s, step, u) && u in s.d.tickets
    ensures Stray(Apply(s, step), u)
  {
    var s' := Apply(s, step);
    forall t
      ensures !Cares(s', t, u)
    {
      LeakerIsAlone(s, step, u, t);
      if t != step.tid { OthersStay(s, step, t); }
    }
    LeakerIsAlone(s, step, u, step.tid);
  }

  // Who is left with the ticket when a thread stops caring for it.
  lemma LeftWith(s: State, step: Step, u: Addr) returns (t: Tid)
    requires Inv(s) && Enabled(s, step) && (step.Stamp? || step.Deliver? || step.Answer?)
    requires Cares(s, step.tid, u) && u in Apply(s, step).d.tickets
    ensures Listed(Apply(s, step).d, u) || Cares(Apply(s, step), t, u)
  {
    t := step.tid;
    var w :| Explains(w, s);
    Thread(s, w, t);
    TicketAt(s, w, u);
    if step.Stamp? && w.place[u].Replying? { t := w.place[u].writer; }
    if step.Answer? && !s.d.tickets[u].answered { t := w.place[u].repliedTo.value; }
    if t != step.tid { OthersStay(s, step, t); }
  }

  lemma OthersHandOver(s: State, step: Step, u: Addr)
    requires Enabled(s, step) && !step.Stamp? && !step.Deliver? && !step.Answer? && !Leaks(s, step, u)
    requires !step.SendMessage? && !step.SendForget?
    requires Cares(s, step.tid, u) && u in Apply(s, step).d.tickets
    ensures Listed(Apply(s, step).d, u) || Cares(Apply(s, step), step.tid, u)
  {
  }

  lemma CaredStays(s: State, step: Step, u: Addr)
    requires Inv(s) && Enabled(s, step) && u in s.d.tickets && !Stray(s, u) && !Leaks(s, step, u)
    ensures !Stray(Apply(s, step), u)
  {
    var s' := Apply(s, step);
    if u !in s'.d.tickets {
    } else if Cares(s, step.tid, u) {
      if step.Stamp? || step.Deliver? || step.Answer? {
        var t := LeftWith(s, step, u);
      } else if step.SendMessage? || step.SendForget? {
        QueueMoves(s, step);
      } else {
        OthersHandOver(s, step, u);
      }
    } else if Listed(s.d, u) {
      StepLists(s, step, u);
    } else {
      var t :| Cares(s, t, u);
      OthersStay(s, step, t);
      assert Cares(s', t, u);
    }
  }

  // Over every live run a ticket is lost exactly by a leak, and is so for good; a
  // ticket just made is not.
  lemma LeaksExactly(s: State, step: Step, u: Addr)
    requires Reached(s) && Enabled(s, step) && u in Apply(s, step).d.tickets
    ensures Stray(Apply(s, step), u) <==> u in s.d.tickets && (Stray(s, u) || Leaks(s, step, u))
  {
    ReachedInv(s);
    if u !in s.d.tickets {
      StepTicket(s, step, u);
      MadeIsCared(s, step, u);
    } else if Stray(s, u) {
      StrayStays(s, step, u);
    } else if Leaks(s, step, u) {
      LeakStrays(s, step, u);
    } else {
      CaredStays(s, step, u);
    }
  }

  lemma MadeIsCared(s: State, step: Step, u: Addr)
    requires Enabled(s, step) && u !in s.d.tickets && u in Apply(s, step).d.tickets
    ensures Cares(Apply(s, step), step.tid, u)
  {
  }

  // ------------------------------------------------ no I/O in vain

  lemma {:induction false} RunStays(s: State, steps: seq<Step>, t: Tid)
    requires SafeRun(s, steps) && forall i | 0 <= i < |steps| :: steps[i].tid != t
    ensures Exec(s, steps).Some? && Stays(s, Exec(s, steps).value, t)
    decreases |steps|
  {
    if steps != [] {
      OthersStay(s, steps[0], t);
      RunStays(Apply(s, steps[0]), steps[1..], t);
    }
  }

  // A requester that gives up keeps the writer from handling the reply in vain: if
  // its use still awaits the answer when it comes to look, the handler is cleared.
  lemma ScanClearsItsUse(s: State, t: Tid, rest: seq<Step>)
    requires Reached(s) && Enabled(s, Stamp(t)) && !s.d.tickets[s.procs[t].u].answered
    requires SafeRun(DoStamp(s, t), rest) && forall i | 0 <= i < |rest| :: rest[i].tid != t
    ensures Exec(DoStamp(s, t), rest).Some? && Enabled(Exec(DoStamp(s, t), rest).value, Scan(t))
    ensures var u, s' := s.procs[t].u, Exec(DoStamp(s, t), rest).value;
            u in s'.d.aw && Live(s', u) && UseOf(s'.d.tickets[u]) == UseOf(s.d.tickets[u]) ==>
              && DoScan(s', t).d == Put(s'.d, u, s'.d.tickets[u].(handler := NoHandler))
              && t !in DoScan(s', t).procs
  {
    RunStays(DoStamp(s, t), rest, t);
  }
}
