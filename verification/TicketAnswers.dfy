/** What a requester gets back: over every live run the reply it is given, payload
    and all, is one that the daemon wrote for this very use of the ticket, and it is
    given it exactly if neither the reply nor the copying of it was in error. */
module TicketAnswers {
  import opened Common
  import opened Session
  import opened TicketProtocol
  import opened TicketInvariant
  import opened TicketSafety

  // ------------------------------------------------ what happened in a run

  // The replies that were written.
  function Writes(steps: seq<Step>): set<Reply>
    decreases |steps|
  {
    if steps == [] then {} else Wrote(steps[0]) + Writes(steps[1..])
  }

  function Wrote(step: Step): set<Reply> { if step.Write? then {step.reply} else {} }

  // The replies that were handled, each with the error its copying ended in.
  function Pulls(s: State, steps: seq<Step>): set<(Reply, int)>
    requires SafeRun(s, steps)
    decreases |steps|
  {
    if steps == [] then {} else PulledBy(s, steps[0]) + Pulls(Apply(s, steps[0]), steps[1..])
  }

  function PulledBy(s: State, step: Step): set<(Reply, int)>
    requires Enabled(s, step)
  {
    if step.Handle? then {(s.procs[step.tid].reply, step.err)} else {}
  }

  // ------------------------------------------------ the invariant

  // The ticket holds a reply whose copying ended in errno. A reply that is an error
  // has no body to copy.
  ghost predicate Holds(tk: Ticket, errno: int, P: set<(Reply, int)>) {
    && tk.answer.Some?
    && exists err :: (tk.answer.value, err) in P && errno == if tk.answer.value.error != 0 then 0 else err
  }

  predicate Waits(pc: Pc) { pc.Waiting? || pc.Interrupted? }

  ghost predicate ThreadOk(s: State, t: Tid, W: set<Reply>, P: set<(Reply, int)>)
    requires t in s.procs
  {
    var pc := s.procs[t];
    && (pc.Found? ==> pc.reply in W)
    && (pc.Pulled? ==> Live(s, pc.u) && Holds(s.d.tickets[pc.u], pc.err, P))
    && (Waits(pc) && Live(s, pc.u) && s.d.tickets[pc.u].answered ==>
          Holds(s.d.tickets[pc.u], s.d.tickets[pc.u].awErrno, P))
  }

  predicate FromRun(s: State, u: Addr, W: set<Reply>)
    requires u in s.d.tickets
  {
    s.d.tickets[u].answer.Some? ==> s.d.tickets[u].answer.value in W
  }

  // Every reply about was written in the run, and every answer collected from now
  // on was copied in it.
  ghost predicate Told(s: State, W: set<Reply>, P: set<(Reply, int)>) {
    && (forall u {:trigger FromRun(s, u, W)} | u in s.d.tickets :: FromRun(s, u, W))
    && (forall t {:trigger ThreadOk(s, t, W, P)} | t in s.procs :: ThreadOk(s, t, W, P))
  }

  // ------------------------------------------------ what a step does to an answer

  // The thread that takes the step works on the ticket at u.
  predicate By(s: State, step: Step, u: Addr) { step.tid in s.procs && On(s.procs[step.tid], u) }

  predicate Fills(s: State, step: Step, u: Addr)
    requires u in s.d.tickets
  {
    step.Handle? && By(s, step, u) && s.d.tickets[u].handler == Standard
  }

  predicate Completes(s: State, step: Step, u: Addr)
    requires u in s.d.tickets
  {
    step.Answer? && By(s, step, u) && !s.d.tickets[u].answered
  }

  ghost predicate AnswerMoves(s: State, step: Step, s': State, u: Addr)
    requires Enabled(s, step)
  {
    u in s'.d.tickets ==>
      var tk' := s'.d.tickets[u];
      if u !in s.d.tickets || Renews(s, step, u) then tk'.answer.None? && !tk'.answered && tk'.awErrno == 0
      else
        var tk := s.d.tickets[u];
        && tk'.answer == (if Fills(s, step, u) then Some(s.procs[step.tid].reply) else tk.answer)
        && tk'.awErrno == (if Completes(s, step, u) then s.procs[step.tid].err else tk.awErrno)
        && tk'.answered == (tk.answered || Completes(s, step, u) || (step.Stamp? && By(s, step, u)))
  }

  lemma StepAnswer(s: State, step: Step, u: Addr)
    requires Enabled(s, step)
    ensures AnswerMoves(s, step, Apply(s, step), u)
  {
    if step.Fetch? || step.AllocTicket? || step.PushOnAll? || step.MarkKillLater? || step.KillUnused?
       || step.SetCallback? || step.SendMessage? || step.SendForget? {
      RequestAnswer(s, step, u);
    } else if step.Collect? || step.Interrupt? || step.Stamp? || step.Scan? || step.Reuse? || step.Finish?
              || step.Lose? || step.Look? {
      WaitAnswer(s, step, u);
    } else if step.DropDecide? || step.DropRefresh? || step.DropPush? {
      DropAnswer(s, step, u);
    } else if step.Handle? || step.Answer? {
      HandlerAnswer(s, step, u);
    } else {
      DeviceAnswer(s, step, u);
    }
  }

  lemma RequestAnswer(s: State, step: Step, u: Addr)
    requires Enabled(s, step)
    requires step.Fetch? || step.AllocTicket? || step.PushOnAll? || step.MarkKillLater? || step.KillUnused?
             || step.SetCallback? || step.SendMessage? || step.SendForget?
    ensures AnswerMoves(s, step, Apply(s, step), u)
  {
  }

  lemma WaitAnswer(s: State, step: Step, u: Addr)
    requires Enabled(s, step)
    requires step.Collect? || step.Interrupt? || step.Stamp? || step.Scan? || step.Reuse? || step.Finish?
             || step.Lose? || step.Look?
    ensures AnswerMoves(s, step, Apply(s, step), u)
  {
  }

  lemma DropAnswer(s: State, step: Step, u: Addr)
    requires Enabled(s, step) && (step.DropDecide? || step.DropRefresh? || step.DropPush?)
    ensures AnswerMoves(s, step, Apply(s, step), u)
  {
  }

  lemma DeviceAnswer(s: State, step: Step, u: Addr)
    requires Enabled(s, step) && (step.Read? || step.Deliver? || step.Write?)
    ensures AnswerMoves(s, step, Apply(s, step), u)
  {
  }

  lemma HandlerAnswer(s: State, step: Step, u: Addr)
    requires Enabled(s, step) && (step.Handle? || step.Answer?)
    ensures AnswerMoves(s, step, Apply(s, step), u)
  {
  }

  // How a thread comes to where the invariant speaks of it.
  ghost predicate ThreadMoves(s: State, step: Step, s': State, t: Tid)
    requires Enabled(s, step) && t in s'.procs
  {
    var pc' := s'.procs[t];
    && (t != step.tid ==> t in s.procs && pc' == s.procs[t])
    && (t == step.tid && pc'.Found? ==> step.Write? && pc'.reply == step.reply)
    && (t == step.tid && pc'.Pulled? ==>
          && step.Handle? && s.procs[t].u == pc'.u && pc'.u in s.d.tickets && Fills(s, step, pc'.u)
          && pc'.err == if s.procs[t].reply.error != 0 then 0 else step.err)
    && (t == step.tid && Waits(pc') ==>
          && t in s.procs && On(s.procs[t], pc'.u) && (s.procs[t].Called? || s.procs[t].Waiting?)
          && !step.Stamp? && !step.Answer?)
  }

  lemma StepThread(s: State, step: Step, t: Tid)
    requires Enabled(s, step) && t in Apply(s, step).procs
    ensures ThreadMoves(s, step, Apply(s, step), t)
  {
  }

  // ------------------------------------------------ every step keeps it

  lemma HoldsMore(tk: Ticket, tk': Ticket, errno: int, P: set<(Reply, int)>, P': set<(Reply, int)>)
    requires Holds(tk, errno, P) && tk'.answer == tk.answer && P <= P'
    ensures Holds(tk', errno, P')
  {
  }

  // Who else can have to do with the ticket of a requester that waits.
  lemma MatesOfWaiter(s: State, t: Tid, t': Tid)
    requires Inv(s) && t in s.procs && Waits(s.procs[t]) && t' in s.procs && t' != t && On(s.procs[t'], s.procs[t].u)
    ensures var pc := s.procs[t'];
            || Bystander(pc) || pc.Popped?
            || (Answers(pc) && Live(s, pc.u) && !s.d.tickets[pc.u].answered)
  {
    var w :| Explains(w, s);
    Thread(s, w, t);
    TicketAt(s, w, s.procs[t].u);
    OthersOn(s, w, s.procs[t].u, t');
  }

  lemma WaiterLives(s: State, t: Tid)
    requires Inv(s) && t in s.procs && Waits(s.procs[t])
    ensures Live(s, s.procs[t].u)
  {
    var w :| Explains(w, s);
    Thread(s, w, t);
  }

  // While a requester waits, nobody else refreshes or stamps its ticket; once it is
  // answered nobody touches the answer.
  lemma OnlyWriterAnswers(s: State, step: Step, t: Tid)
    requires Inv(s) && Enabled(s, step) && t in s.procs && t != step.tid && Waits(s.procs[t])
    ensures var u := s.procs[t].u;
            && u in s.d.tickets && !Renews(s, step, u) && !(step.Stamp? && By(s, step, u))
            && (s.d.tickets[u].answered ==> !Fills(s, step, u) && !Completes(s, step, u))
  {
    WaiterLives(s, t);
    if By(s, step, s.procs[t].u) {
      MatesOfWaiter(s, t, step.tid);
      MatesDo(s, step, s.procs[t].u);
    }
  }

  lemma MatesDo(s: State, step: Step, u: Addr)
    requires Enabled(s, step) && By(s, step, u) && u in s.d.tickets
    requires var pc := s.procs[step.tid];
             Bystander(pc) || pc.Popped? || (Answers(pc) && !s.d.tickets[u].answered)
    ensures !Renews(s, step, u) && !step.Stamp?
    ensures s.d.tickets[u].answered ==> !Fills(s, step, u) && !Completes(s, step, u)
  {
  }

  // While a writer runs the handler, nobody else touches the answer.
  lemma OnlyWriterFills(s: State, step: Step, t: Tid)
    requires Inv(s) && Enabled(s, step) && t in s.procs && t != step.tid && s.procs[t].Pulled?
    ensures var u := s.procs[t].u; u in s.d.tickets && !Renews(s, step, u) && !Fills(s, step, u)
  {
    var w :| Explains(w, s);
    Thread(s, w, t);
    if By(s, step, s.procs[t].u) { OthersOn(s, w, s.procs[t].u, step.tid); }
  }

  lemma CalledIsClean(s: State, t: Tid)
    requires Inv(s) && t in s.procs && s.procs[t].Called?
    ensures s.procs[t].u in s.d.tickets && !s.d.tickets[s.procs[t].u].answered
  {
    var w :| Explains(w, s);
    Thread(s, w, t);
  }

  lemma WaiterTold(s: State, step: Step, t: Tid, W: set<Reply>, P: set<(Reply, int)>, P': set<(Reply, int)>)
    requires Inv(s) && Enabled(s, step) && Told(s, W, P) && P <= P' && t in s.procs && Waits(s.procs[t])
    requires t in Apply(s, step).procs && Waits(Apply(s, step).procs[t]) && Apply(s, step).procs[t].u == s.procs[t].u
    requires var u := s.procs[t].u; u in Apply(s, step).d.tickets && Apply(s, step).d.tickets[u].answered
    ensures var tk := Apply(s, step).d.tickets[s.procs[t].u]; Holds(tk, tk.awErrno, P')
  {
    var u, s' := s.procs[t].u, Apply(s, step);
    var tk' := s'.d.tickets[u];
    StepAnswer(s, step, u);
    StepThread(s, step, t);
    assert ThreadOk(s, t, W, P);
    if t != step.tid { OnlyWriterAnswers(s, step, t); }
    var tk := s.d.tickets[u];
    if Completes(s, step, u) {
      assert ThreadOk(s, step.tid, W, P);
      HoldsMore(tk, tk', tk'.awErrno, P, P');
    } else {
      HoldsMore(tk, tk', tk.awErrno, P, P');
    }
  }

  lemma ThreadTold(s: State, step: Step, t: Tid, W: set<Reply>, P: set<(Reply, int)>)
    requires Inv(s) && Enabled(s, step) && Inv(Apply(s, step)) && Told(s, W, P) && t in Apply(s, step).procs
    ensures ThreadOk(Apply(s, step), t, W + Wrote(step), P + PulledBy(s, step))
  {
    var s', P' := Apply(s, step), P + PulledBy(s, step);
    var pc := s'.procs[t];
    StepThread(s, step, t);
    if t in s.procs { assert ThreadOk(s, t, W, P); }
    if pc.Pulled? {
      StepAnswer(s, step, pc.u);
      PulledLives(s', t);
      if t == step.tid {
        assert (s.procs[t].reply, step.err) in P';
      } else {
        OnlyWriterFills(s, step, t);
        HoldsMore(s.d.tickets[pc.u], s'.d.tickets[pc.u], pc.err, P, P');
      }
    } else if Waits(pc) && Live(s', pc.u) && s'.d.tickets[pc.u].answered {
      if s.procs[t].Called? {
        StepAnswer(s, step, pc.u);
        CalledIsClean(s, t);
      } else {
        WaiterTold(s, step, t, W, P, P');
      }
    }
  }

  lemma PulledLives(s: State, t: Tid)
    requires Inv(s) && t in s.procs && s.procs[t].Pulled?
    ensures Live(s, s.procs[t].u)
  {
    var w :| Explains(w, s);
    Thread(s, w, t);
  }

  lemma TicketTold(s: State, step: Step, u: Addr, W: set<Reply>, P: set<(Reply, int)>)
    requires Enabled(s, step) && Told(s, W, P) && u in Apply(s, step).d.tickets
    ensures FromRun(Apply(s, step), u, W)
  {
    StepAnswer(s, step, u);
    if u in s.d.tickets {
      assert FromRun(s, u, W);
      if Fills(s, step, u) { assert ThreadOk(s, step.tid, W, P); }
    }
  }

  lemma StepTold(s: State, step: Step, W: set<Reply>, P: set<(Reply, int)>)
    requires Inv(s) && Enabled(s, step) && Inv(Apply(s, step)) && Told(s, W, P)
    ensures Told(Apply(s, step), W + Wrote(step), P + PulledBy(s, step))
  {
    var s', W', P' := Apply(s, step), W + Wrote(step), P + PulledBy(s, step);
    forall u {:trigger FromRun(s', u, W')} | u in s'.d.tickets
      ensures FromRun(s', u, W')
    {
      TicketTold(s, step, u, W, P);
    }
    forall t {:trigger ThreadOk(s', t, W', P')} | t in s'.procs
      ensures ThreadOk(s', t, W', P')
    {
      ThreadTold(s, step, t, W, P);
    }
  }

  lemma {:induction false} RunTold(s: State, steps: seq<Step>, W: set<Reply>, P: set<(Reply, int)>)
    requires Inv(s) && SafeRun(s, steps) && Told(s, W, P)
    ensures Exec(s, steps).Some? && Inv(Exec(s, steps).value)
    ensures Told(Exec(s, steps).value, W + Writes(steps), P + Pulls(s, steps))
    decreases |steps|
  {
    if steps == [] {
      assert W + Writes(steps) == W && P + Pulls(s, steps) == P;
    } else {
      var s1 := Apply(s, steps[0]);
      var W1, P1 := W + Wrote(steps[0]), P + PulledBy(s, steps[0]);
      StepKeepsInv(s, steps[0]);
      StepTold(s, steps[0], W, P);
      RunTold(s1, steps[1..], W1, P1);
      Regroup(W, Wrote(steps[0]), Writes(steps[1..]));
      Regroup(P, PulledBy(s, steps[0]), Pulls(s1, steps[1..]));
    }
  }

  lemma Regroup<T>(a: set<T>, b: set<T>, c: set<T>)
    ensures a + (b + c) == a + b + c
  {
  }

  lemma {:induction false} WritesAre(steps: seq<Step>, r: Reply)
    ensures r in Writes(steps) <==> exists i :: 0 <= i < |steps| && steps[i].Write? && steps[i].reply == r
    decreases |steps|
  {
    if steps != [] {
      WritesAre(steps[1..], r);
      if r in Writes(steps[1..]) {
        var i :| 0 <= i < |steps[1..]| && steps[1..][i].Write? && steps[1..][i].reply == r;
        assert steps[i + 1].Write? && steps[i + 1].reply == r;
      }
      if i :| 0 <= i < |steps| && steps[i].Write? && steps[i].reply == r {
        if i > 0 { assert steps[1..][i - 1] == steps[i]; }
      }
    }
  }

  // ------------------------------------------------ over every run

  // Every requester that is given an answer is given one the daemon wrote in this
  // run, error code and body included, and wrote for the very use it waited for.
  lemma AnswerWasWritten(steps: seq<Step>, t: Tid)
    requires SafeRun(Start, steps) && Exec(Start, steps).Some?
    requires t in Exec(Start, steps).value.procs && Exec(Start, steps).value.procs[t].Answered?
    ensures var s := Exec(Start, steps).value;
            var u, use := s.procs[t].u, s.procs[t].use;
            exists i :: 0 <= i < |steps| && steps[i].Write?
                        && steps[i].reply.addr == u && steps[i].reply.use == use
                        && Live(s, u) && s.d.tickets[u].answer == Some(steps[i].reply)
  {
    var s := Exec(Start, steps).value;
    LiveRunsAreSafe(steps);
    var u := s.procs[t].u;
    RunFromStart(steps);
    assert FromRun(s, u, Writes(steps));
    WritesAre(steps, s.d.tickets[u].answer.value);
  }

  // A requester that collects its answer finds a reply that a writer has handled,
  // and gets it exactly if neither the reply nor the copying of it was in error.
  lemma CollectExactly(steps: seq<Step>, t: Tid)
    requires SafeRun(Start, steps) && Exec(Start, steps).Some? && Enabled(Exec(Start, steps).value, Collect(t))
    ensures var s := Exec(Start, steps).value;
            var u, use, s' := s.procs[t].u, s.procs[t].use, DoCollect(s, t);
            exists r, err :: (r, err) in Pulls(Start, steps) && r in Writes(steps)
                             && r.addr == u && r.use == use && s'.d.tickets == s.d.tickets
                             && s.d.tickets[u].answer == Some(r)
                             && s'.procs[t] == if r.error == 0 && err == 0 then Answered(u, use)
                                               else Dropping(u, Some(use))
  {
    var s := Exec(Start, steps).value;
    RunFromStart(steps);
    var u := s.procs[t].u;
    assert ThreadOk(s, t, Writes(steps), Pulls(Start, steps));
    assert FromRun(s, u, Writes(steps));
    var w :| Explains(w, s);
    Thread(s, w, t);
    var r := s.d.tickets[u].answer.value;
    var err :| (r, err) in Pulls(Start, steps) && s.d.tickets[u].awErrno == if r.error != 0 then 0 else err;
  }

  lemma RunFromStart(steps: seq<Step>)
    requires SafeRun(Start, steps)
    ensures Exec(Start, steps).Some? && Inv(Exec(Start, steps).value)
    ensures Told(Exec(Start, steps).value, Writes(steps), Pulls(Start, steps))
  {
    assert Explains(Witness(map[], map[], map[]), Start);
    assert Told(Start, {}, {});
    RunTold(Start, steps, {}, {});
    assert {} + Writes(steps) == Writes(steps) && {} + Pulls(Start, steps) == Pulls(Start, steps);
  }
}
