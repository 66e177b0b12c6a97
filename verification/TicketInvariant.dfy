/** Why the ticket protocol is safe: an assignment of responsibilities that every
    step maintains, and the safety of every live run. */
module TicketInvariant {
  import opened Common
  import opened Session
  import opened TicketProtocol

  // Who is responsible for a ticket. Reading the protocol off the states, every
  // ticket has exactly one such place and at most one message under way; the
  // invariant is that some assignment of places explains the state.
  datatype Place =
    | Pooled
    | Held(holder: Tid)
    | Awaiting(owner: Option<Tid>)                    // on aw; owner: requester still there
    | Replying(writer: Tid, repliedTo: Option<Tid>)   // off aw, handler running
    | Sent                                            // FORGET on ms
    | Lost
  datatype Message = NoMessage | Queued | ReadBy(reader: Tid) | Delivered

  // at: the address of the ticket that got a unique number.
  datatype Witness = Witness(place: map<Addr, Place>, msg: map<Addr, Message>, at: map<nat, Addr>)

  predicate Clean(tk: Ticket) { !tk.answered && !tk.invalid && !tk.dirty }

  ghost predicate PcOk(s: State, w: Witness, t: Tid)
    requires t in s.procs && w.place.Keys == w.msg.Keys == s.d.tickets.Keys
  {
    var pc := s.procs[t];
    (Touches(pc) ==> Live(s, pc.u)) &&
    match pc
    case NeedAlloc(_) => true
    case Allocated(u, _) => w.place[u] == Held(t) && Clean(s.d.tickets[u]) && u !in s.d.all
    case Ready(u, _) => w.place[u] == Held(t) && Clean(s.d.tickets[u])
    case Called(u, k) =>
      && w.place[u] == Awaiting(Some(t)) && Clean(s.d.tickets[u])
      && s.d.tickets[u].handler == HandlerOf(k) && k != Forget
    case Waiting(u, g) => RequestOk(s, w, t, u, g)
    case Interrupted(u, g) => RequestOk(s, w, t, u, g)
    case Stamped(u, g) =>
      && g.unique < s.d.ticketer
      && (Live(s, u) && s.d.tickets[u].unique == g.unique ==>
            s.d.tickets[u].gen >= g.gen && (s.d.tickets[u].gen == g.gen ==> s.d.tickets[u].answered))
    case Answered(u, g) =>
      && w.place[u] == Held(t) && UseOf(s.d.tickets[u]) == g && AnswerFor(s.d.tickets[u], u)
    case Dropping(u, _) => w.place[u] == Held(t)
    case Refreshing(u, _) => w.place[u] == Held(t)
    case Pushing(u, _) => w.place[u] == Held(t) && Clean(s.d.tickets[u])
    case Returned(u, g) => true
    case Popped(u, g) => w.msg[u] == ReadBy(t) && UseOf(s.d.tickets[u]) == g
    case Found(u, r) =>
      && w.place[u].Replying? && w.place[u].writer == t
      && r.addr == u && r.use == UseOf(s.d.tickets[u])
    case Pulled(u, _) =>
      && w.place[u].Replying? && w.place[u].writer == t
      && s.d.tickets[u].handler == Standard && AnswerFor(s.d.tickets[u], u)
  }

  // A requester that has not been told to give up owns its use of the ticket:
  // either the answer is still to come, or it has come and is for this use.
  ghost predicate RequestOk(s: State, w: Witness, t: Tid, u: Addr, g: Use)
    requires u in s.d.tickets && w.place.Keys == s.d.tickets.Keys
  {
    var tk := s.d.tickets[u];
    && UseOf(tk) == g
    && (tk.answered ==> w.place[u] == Held(t) && AnswerFor(tk, u))
    && (!tk.answered ==>
          && tk.handler == Standard
          && (w.place[u] == Awaiting(Some(t)) || (w.place[u].Replying? && w.place[u].repliedTo == Some(t))))
  }

  ghost predicate TicketOk(s: State, w: Witness, u: Addr)
    requires u in s.d.tickets && w.place.Keys == w.msg.Keys == s.d.tickets.Keys
  {
    var tk, p, m := s.d.tickets[u], w.place[u], w.msg[u];
    && (u in s.d.free <==> p.Pooled?)
    && (u in s.d.aw <==> p.Awaiting?)
    && (u in s.d.ms <==> m.Queued?)
    && (u in s.d.all || (p.Held? && p.holder in s.procs && s.procs[p.holder].Allocated?))
    && (p.Pooled? ==> Clean(tk))
    && (p.Held? ==> p.holder in s.procs && Touches(s.procs[p.holder]) && s.procs[p.holder].u == u)
    && (p.Awaiting? || p.Replying? ==> !tk.invalid)
    && ((p.Awaiting? || p.Replying?) && OwnerOf(p).None? && tk.handler == Standard ==> tk.answered)
    && (p.Awaiting? && p.owner.Some? ==>
          p.owner.value in s.procs && Requests(s.procs[p.owner.value]) && s.procs[p.owner.value].u == u)
    && (p.Replying? ==>
          p.writer in s.procs && Answers(s.procs[p.writer]) && s.procs[p.writer].u == u)
    && (p.Replying? && p.repliedTo.Some? ==>
          && p.repliedTo.value in s.procs
          && (s.procs[p.repliedTo.value].Waiting? || s.procs[p.repliedTo.value].Interrupted?)
          && s.procs[p.repliedTo.value].u == u)
    && (p.Sent? ==> tk.invalid && m.Queued?)
    && (!m.NoMessage? ==> tk.dirty)
    && (m.Queued? ==> p.Sent? || p.Awaiting?)
    && (m.ReadBy? ==> m.reader in s.procs && s.procs[m.reader].Popped? && s.procs[m.reader].u == u)
    && (m.ReadBy? ==> if tk.invalid then p == Held(m.reader) else p.Awaiting?)
    && (m.Delivered? ==> p.Awaiting?)
    && (forall g | (u, g) in s.pending :: m.Delivered? && g == UseOf(tk))
    && tk.unique < s.d.ticketer && tk.unique in w.at && w.at[tk.unique] == u
  }

  ghost predicate ListsOk(s: State) {
    var d := s.d;
    && !d.panicked
    && Distinct(d.free) && Distinct(d.all) && Distinct(d.ms) && Distinct(d.aw)
    && d.freeCount == |d.free|
    && d.ticketer - d.deadCount == |d.tickets|
    && (forall u | u in d.free || u in d.all || u in d.ms || u in d.aw :: u in d.tickets)
    && (forall u, g | (u, g) in s.pending :: u in d.tickets)
  }

  ghost predicate Explains(w: Witness, s: State) {
    && w.place.Keys == w.msg.Keys == s.d.tickets.Keys
    && ListsOk(s)
    && (forall t {:trigger PcOk(s, w, t)} | t in s.procs :: PcOk(s, w, t))
    && (forall u {:trigger TicketOk(s, w, u)} | u in s.d.tickets :: TicketOk(s, w, u))
  }

  ghost predicate Inv(s: State) { exists w :: Explains(w, s) }

  // ------------------------------------------------------------ framing

  predicate On(pc: Pc, u: Addr) { !pc.NeedAlloc? && pc.u == u }

  // From (s, w) to (s', w') only thread t and ticket u change.
  ghost predicate OnlyChanges(s: State, w: Witness, s': State, w': Witness, t: Tid, u: Addr)
    requires w.place.Keys == w.msg.Keys == s.d.tickets.Keys
  {
    && w'.place.Keys == w'.msg.Keys == s'.d.tickets.Keys
    && s.d.ticketer <= s'.d.ticketer
    && (forall n {:trigger n in w.at} | n in w.at && n < s.d.ticketer :: n in w'.at && w'.at[n] == w.at[n])
    && (t in s.procs && Touches(s.procs[t]) ==> s.procs[t].u == u)
    && (forall t' {:trigger t' in s'.procs} {:trigger t' in s.procs} | t' != t ::
          (t' in s'.procs <==> t' in s.procs) && (t' in s.procs ==> s'.procs[t'] == s.procs[t']))
    && (forall v {:trigger v in s'.d.tickets} {:trigger v in s.d.tickets} | v != u ::
          (v in s'.d.tickets <==> v in s.d.tickets)
          && (v in s.d.tickets ==>
                && s'.d.tickets[v] == s.d.tickets[v]
                && w'.place[v] == w.place[v] && w'.msg[v] == w.msg[v]
                && (v in s'.d.free <==> v in s.d.free) && (v in s'.d.aw <==> v in s.d.aw)
                && (v in s'.d.ms <==> v in s.d.ms) && (v in s'.d.all <==> v in s.d.all)))
    && (forall v, g | v != u :: (v, g) in s'.pending <==> (v, g) in s.pending)
  }

  lemma FramePc(s: State, w: Witness, s': State, w': Witness, t: Tid, u: Addr, t': Tid)
    requires w.place.Keys == w.msg.Keys == s.d.tickets.Keys
    requires OnlyChanges(s, w, s', w', t, u)
    requires t' in s.procs && t' != t && !On(s.procs[t'], u) && PcOk(s, w, t')
    ensures PcOk(s', w', t')
  {
    var pc := s.procs[t'];
    assert s'.procs[t'] == pc;
    if !pc.NeedAlloc? {
      var v := pc.u;
      assert v in s.d.tickets ==> s'.d.tickets[v] == s.d.tickets[v];
    }
  }

  lemma FrameTicket(s: State, w: Witness, s': State, w': Witness, t: Tid, u: Addr, v: Addr)
    requires w.place.Keys == w.msg.Keys == s.d.tickets.Keys
    requires OnlyChanges(s, w, s', w', t, u)
    requires v in s.d.tickets && v != u && TicketOk(s, w, v)
    ensures v in s'.d.tickets && TicketOk(s', w', v)
  {
    assert v in s'.d.tickets;
    var p, m := w.place[v], w.msg[v];
    assert p.Held? ==> p.holder != t;
    assert p.Awaiting? && p.owner.Some? ==> p.owner.value != t;
    assert p.Replying? ==> p.writer != t;
    assert p.Replying? && p.repliedTo.Some? ==> p.repliedTo.value != t;
    assert m.ReadBy? ==> m.reader != t;
  }

  // Then the invariant has to be re-established for t and u only.
  lemma Frame(s: State, w: Witness, s': State, w': Witness, t: Tid, u: Addr)
    requires Explains(w, s) && OnlyChanges(s, w, s', w', t, u) && ListsOk(s')
    requires t in s'.procs ==> PcOk(s', w', t)
    requires u in s'.d.tickets ==> TicketOk(s', w', u)
    requires forall t' {:trigger PcOk(s', w', t')} | t' in s'.procs && t' != t && On(s'.procs[t'], u) ::
               PcOk(s', w', t')
    ensures Explains(w', s')
  {
    forall t' {:trigger PcOk(s', w', t')} | t' in s'.procs
      ensures PcOk(s', w', t')
    {
      if t' != t && !On(s'.procs[t'], u) {
        assert PcOk(s, w, t');
        FramePc(s, w, s', w', t, u, t');
      }
    }
    forall v {:trigger TicketOk(s', w', v)} | v in s'.d.tickets
      ensures TicketOk(s', w', v)
    {
      if v != u {
        assert TicketOk(s, w, v);
        FrameTicket(s, w, s', w', t, u, v);
      }
    }
  }

  lemma Thread(s: State, w: Witness, t: Tid)
    requires Explains(w, s) && t in s.procs
    ensures PcOk(s, w, t)
  {}

  lemma TicketAt(s: State, w: Witness, u: Addr)
    requires Explains(w, s) && u in s.d.tickets
    ensures TicketOk(s, w, u)
  {}

  // What else can be going on with a ticket, given its place.
  lemma OthersOn(s: State, w: Witness, u: Addr, t: Tid)
    requires Explains(w, s) && u in s.d.tickets && t in s.procs && On(s.procs[t], u)
    ensures w.place[u].Pooled? || w.place[u].Sent? || w.place[u].Lost? ==> Bystander(s.procs[t])
    ensures w.place[u].Held? ==> w.place[u].holder == t || Bystander(s.procs[t])
    ensures w.place[u].Awaiting? ==>
              || Bystander(s.procs[t]) || (s.procs[t].Popped? && w.msg[u] == ReadBy(t))
              || (Requests(s.procs[t]) && w.place[u].owner == Some(t))
    ensures w.place[u].Replying? ==>
              || Bystander(s.procs[t]) || w.place[u].writer == t
              || (Requests(s.procs[t]) && w.place[u].repliedTo == Some(t))
  {
    Thread(s, w, t);
    TicketAt(s, w, u);
  }

  // The requester that still owns the use of a ticket in flight.
  function OwnerOf(p: Place): Option<Tid> {
    if p.Awaiting? then p.owner else if p.Replying? then p.repliedTo else None
  }

  // Ticket u never moves back: its use stays and FT_ANSW is not taken back, or a
  // later use begins.
  predicate MovesOn(tk: Ticket, tk': Ticket) {
    tk'.unique == tk.unique && (tk'.gen > tk.gen || (tk'.gen == tk.gen && (tk.answered ==> tk'.answered)))
  }

  // Of a ticket that awaits or receives its answer, t leaves to the others what is
  // theirs: the owner, the writer and the reader find it as they left it, or the
  // owner finds its answer.
  ghost predicate SparesOthers(s: State, w: Witness, s': State, w': Witness, t: Tid, u: Addr)
    requires u in s.d.tickets && u in s'.d.tickets && u in w.place && u in w'.place && u in w.msg && u in w'.msg
  {
    var tk, tk', p, p' := s.d.tickets[u], s'.d.tickets[u], w.place[u], w'.place[u];
    && tk'.gen == tk.gen && MovesOn(tk, tk')
    && (OwnerOf(p).Some? && OwnerOf(p).value != t && OwnerOf(p).value in s.procs ==>
          var o := OwnerOf(p).value;
          && tk'.handler == tk.handler
          && if p' == Held(o) then tk'.answered && AnswerFor(tk', u) && !s.procs[o].Called?
             else OwnerOf(p') == Some(o) && tk'.answered == tk.answered
                  && (s.procs[o].Called? ==> p'.Awaiting? && tk'.invalid == tk.invalid && tk'.dirty == tk.dirty))
    && (p.Held? || p.Lost? ==> p' == p && tk' == tk && (u in s'.d.all <==> u in s.d.all))
    && (p.Replying? && p.writer != t ==>
          p'.Replying? && p'.writer == p.writer && tk'.handler == tk.handler && tk'.answer == tk.answer)
    && (w.msg[u].ReadBy? && w.msg[u].reader != t ==> w'.msg[u] == w.msg[u])
  }

  lemma OtherInFlight(s: State, w: Witness, s': State, w': Witness, t: Tid, u: Addr, t': Tid)
    requires Explains(w, s) && u in s.d.tickets && u in s'.d.tickets && OnlyChanges(s, w, s', w', t, u)
    requires SparesOthers(s, w, s', w', t, u) && t' in s'.procs && t' != t && On(s'.procs[t'], u)
    ensures PcOk(s', w', t')
  {
    OthersOn(s, w, u, t');
    Thread(s, w, t');
  }

  lemma FrameInFlight(s: State, w: Witness, s': State, w': Witness, t: Tid, u: Addr)
    requires Explains(w, s) && u in s.d.tickets && u in s'.d.tickets && OnlyChanges(s, w, s', w', t, u)
    requires SparesOthers(s, w, s', w', t, u)
    requires ListsOk(s') && TicketOk(s', w', u) && (t in s'.procs ==> PcOk(s', w', t))
    ensures Inv(s')
  {
    forall t' {:trigger PcOk(s', w', t')} | t' in s'.procs && t' != t && On(s'.procs[t'], u)
      ensures PcOk(s', w', t')
    {
      OtherInFlight(s, w, s', w', t, u, t');
    }
    Frame(s, w, s', w', t, u);
  }

  // If t holds u, nobody else but stamped requesters can meet it.
  lemma KeepOthersOnHeld(s: State, w: Witness, s': State, w': Witness, t: Tid, u: Addr)
    requires Explains(w, s) && u in s.d.tickets && OnlyChanges(s, w, s', w', t, u)
    requires w.place[u] == Held(t) || w.place[u].Pooled?
    requires u in s'.d.tickets ==> MovesOn(s.d.tickets[u], s'.d.tickets[u])
    ensures forall t' {:trigger PcOk(s', w', t')} | t' in s'.procs && t' != t && On(s'.procs[t'], u) :: PcOk(s', w', t')
  {
    forall t' {:trigger PcOk(s', w', t')} | t' in s'.procs && t' != t && On(s'.procs[t'], u)
      ensures PcOk(s', w', t')
    {
      OthersOn(s, w, u, t');
      Thread(s, w, t');
    }
  }

  lemma FrameHeld(s: State, w: Witness, s': State, w': Witness, t: Tid, u: Addr)
    requires Explains(w, s) && u in s.d.tickets && OnlyChanges(s, w, s', w', t, u) && ListsOk(s')
    requires t in s'.procs ==> PcOk(s', w', t)
    requires u in s'.d.tickets ==> TicketOk(s', w', u)
    requires w.place[u] == Held(t) || w.place[u].Pooled?
    requires u in s'.d.tickets ==> MovesOn(s.d.tickets[u], s'.d.tickets[u])
    ensures Inv(s')
  {
    KeepOthersOnHeld(s, w, s', w', t, u);
    Frame(s, w, s', w', t, u);
  }

  // An address that nobody has to do with.
  lemma Unused(s: State, w: Witness) returns (u: Addr)
    requires Explains(w, s)
    ensures u !in s.d.tickets && forall t | t in s.procs :: !On(s.procs[t], u)
  {
    var used := set t | t in s.procs && !s.procs[t].NeedAlloc? :: s.procs[t].u;
    u := Bounded(s.d.tickets.Keys + used);
    forall t | t in s.procs
      ensures !On(s.procs[t], u)
    {
      if !s.procs[t].NeedAlloc? { assert s.procs[t].u in used; }
    }
  }

  lemma KeepFetch(s: State, w: Witness, t: Tid, k: Kind)
    requires Explains(w, s) && t !in s.procs
    ensures Inv(DoFetch(s, t, k))
  {
    var s' := DoFetch(s, t, k);
    if s.d.freeCount == 0 {
      var none := Unused(s, w);
      Frame(s, w, s', w, t, none);
    } else {
      var u := s.d.free[0];
      var w' := w.(place := w.place[u := Held(t)]);
      assert s.d.free == [u] + s.d.free[1..];
      TicketAt(s, w, u);
      FrameHeld(s, w, s', w', t, u);
    }
  }

  lemma AllocChanges(s: State, w: Witness, t: Tid, u: Addr, s': State, w': Witness)
    requires w.place.Keys == w.msg.Keys == s.d.tickets.Keys
    requires t in s.procs && s.procs[t].NeedAlloc? && !Live(s, u) && s' == DoAlloc(s, t, u)
    requires w' == Witness(w.place[u := Held(t)], w.msg[u := NoMessage], w.at[s.d.ticketer := u])
    ensures OnlyChanges(s, w, s', w', t, u)
  {
  }

  lemma AllocatedTicket(s: State, w: Witness, t: Tid, u: Addr, s': State, w': Witness)
    requires w.place.Keys == w.msg.Keys == s.d.tickets.Keys && ListsOk(s)
    requires t in s.procs && s.procs[t].NeedAlloc? && !Live(s, u) && s' == DoAlloc(s, t, u)
    requires w' == Witness(w.place[u := Held(t)], w.msg[u := NoMessage], w.at[s.d.ticketer := u])
    ensures w'.place.Keys == w'.msg.Keys == s'.d.tickets.Keys && ListsOk(s') && TicketOk(s', w', u) && PcOk(s', w', t)
  {
    assert s'.d.tickets.Keys == s.d.tickets.Keys + {u};
  }

  lemma KeepAlloc(s: State, w: Witness, t: Tid, u: Addr)
    requires Explains(w, s) && t in s.procs && s.procs[t].NeedAlloc? && !Live(s, u)
    ensures Inv(DoAlloc(s, t, u))
  {
    var s' := DoAlloc(s, t, u);
    var w' := Witness(w.place[u := Held(t)], w.msg[u := NoMessage], w.at[s.d.ticketer := u]);
    AllocChanges(s, w, t, u, s', w');
    AllocatedTicket(s, w, t, u, s', w');
    forall t' {:trigger PcOk(s', w', t')} | t' in s'.procs && t' != t && On(s'.procs[t'], u)
      ensures PcOk(s', w', t')
    {
      Thread(s, w, t');
    }
    Frame(s, w, s', w', t, u);
  }

  lemma KeepKill(s: State, w: Witness, t: Tid)
    requires Explains(w, s) && t in s.procs && (s.procs[t].Ready? || s.procs[t].Dropping?)
    ensures Inv(DoKill(s, t))
  {
    var s' := DoKill(s, t);
    var u := s.procs[t].u;
    Thread(s, w, t);
    TicketAt(s, w, u);
    RemoveElements(s.d.all, u);
    var w' := w.(place := w.place - {u}, msg := w.msg - {u});
    assert s'.d.tickets.Keys == s.d.tickets.Keys - {u};
    FrameHeld(s, w, s', w', t, u);
  }

  lemma KeepPushOnAll(s: State, w: Witness, t: Tid)
    requires Explains(w, s) && t in s.procs && s.procs[t].Allocated?
    ensures Inv(DoPushOnAll(s, t))
  {
    var s' := DoPushOnAll(s, t);
    var u := s.procs[t].u;
    Thread(s, w, t);
    TicketAt(s, w, u);
    DistinctAppend(s.d.all, u);
    var w' := w;
    FrameHeld(s, w, s', w', t, u);
  }

  lemma KeepMarkKillLater(s: State, w: Witness, t: Tid)
    requires Explains(w, s) && t in s.procs && s.procs[t].Ready? && Live(s, s.procs[t].u)
    ensures Inv(DoMarkKillLater(s, t))
  {
    var s' := DoMarkKillLater(s, t);
    var u := s.procs[t].u;
    Thread(s, w, t);
    TicketAt(s, w, u);
    var w' := w;
    FrameHeld(s, w, s', w', t, u);
  }

  lemma KeepSetCallback(s: State, w: Witness, t: Tid)
    requires Explains(w, s) && t in s.procs && s.procs[t].Ready? && s.procs[t].kind != Forget && Live(s, s.procs[t].u)
    ensures Inv(DoSetCallback(s, t))
  {
    var s' := DoSetCallback(s, t);
    var u := s.procs[t].u;
    Thread(s, w, t);
    TicketAt(s, w, u);
    DistinctAppend(s.d.aw, u);
    var w' := w.(place := w.place[u := Awaiting(Some(t))]);
    FrameHeld(s, w, s', w', t, u);
  }

  lemma KeepSendMessage(s: State, w: Witness, t: Tid)
    requires Explains(w, s) && t in s.procs && s.procs[t].Called? && Live(s, s.procs[t].u)
    ensures Inv(DoSendMessage(s, t))
  {
    var s' := DoSendMessage(s, t);
    var u := s.procs[t].u;
    Thread(s, w, t);
    TicketAt(s, w, u);
    DistinctAppend(s.d.ms, u);
    var owner := if s.procs[t].kind == Sync then Some(t) else None;
    var w' := w.(place := w.place[u := Awaiting(owner)], msg := w.msg[u := Queued]);
    FrameInFlight(s, w, s', w', t, u);
  }

  lemma KeepSendForget(s: State, w: Witness, t: Tid)
    requires Explains(w, s) && t in s.procs && s.procs[t].Ready? && Live(s, s.procs[t].u)
    ensures Inv(DoSendForget(s, t))
  {
    var s' := DoSendForget(s, t);
    var u := s.procs[t].u;
    Thread(s, w, t);
    TicketAt(s, w, u);
    DistinctAppend(s.d.ms, u);
    var w' := w.(place := w.place[u := Sent], msg := w.msg[u := Queued]);
    FrameHeld(s, w, s', w', t, u);
  }

  lemma KeepCollect(s: State, w: Witness, t: Tid)
    requires Explains(w, s) && t in s.procs && s.procs[t].Waiting? && Live(s, s.procs[t].u)
             && s.d.tickets[s.procs[t].u].answered
    ensures Inv(DoCollect(s, t))
  {
    var s' := DoCollect(s, t);
    var u := s.procs[t].u;
    Thread(s, w, t);
    TicketAt(s, w, u);
    var w' := w;
    FrameHeld(s, w, s', w', t, u);
  }

  lemma KeepInterrupt(s: State, w: Witness, t: Tid)
    requires Explains(w, s) && t in s.procs && s.procs[t].Waiting?
    ensures Inv(DoInterrupt(s, t))
  {
    var s' := DoInterrupt(s, t);
    var u := s.procs[t].u;
    Thread(s, w, t);
    TicketAt(s, w, u);
    var w' := w;
    FrameInFlight(s, w, s', w', t, u);
  }

  lemma KeepStamp(s: State, w: Witness, t: Tid)
    requires Explains(w, s) && t in s.procs && s.procs[t].Interrupted? && Live(s, s.procs[t].u)
    ensures Inv(DoStamp(s, t))
  {
    var s' := DoStamp(s, t);
    var u := s.procs[t].u;
    Thread(s, w, t);
    TicketAt(s, w, u);
    var p := w.place[u];
    if s.d.tickets[u].answered {
      FrameHeld(s, w, s', w, t, u);
    } else {
      var p' := if p.Awaiting? then Awaiting(None) else Replying(p.writer, None);
      FrameInFlight(s, w, s', w.(place := w.place[u := p']), t, u);
    }
  }

  lemma KeepReuse(s: State, w: Witness, t: Tid, k: Kind)
    requires Explains(w, s) && t in s.procs && s.procs[t].Answered? && Live(s, s.procs[t].u)
    ensures Inv(DoReuse(s, t, k))
  {
    var s' := DoReuse(s, t, k);
    var u := s.procs[t].u;
    Thread(s, w, t);
    TicketAt(s, w, u);
    var w' := w;
    FrameHeld(s, w, s', w', t, u);
  }

  lemma KeepFinish(s: State, w: Witness, t: Tid)
    requires Explains(w, s) && t in s.procs && (s.procs[t].Answered? || s.procs[t].Ready?)
    ensures Inv(DoFinish(s, t))
  {
    var s' := DoFinish(s, t);
    var u := s.procs[t].u;
    Thread(s, w, t);
    TicketAt(s, w, u);
    var w' := w;
    FrameHeld(s, w, s', w', t, u);
  }

  lemma KeepLose(s: State, w: Witness, t: Tid)
    requires Explains(w, s) && t in s.procs && (s.procs[t].Answered? || s.procs[t].Ready?)
    ensures Inv(Exit(s, t))
  {
    var s' := Exit(s, t);
    var u := s.procs[t].u;
    Thread(s, w, t);
    TicketAt(s, w, u);
    var w' := w.(place := w.place[u := Lost]);
    FrameHeld(s, w, s', w', t, u);
  }

  lemma KeepDropDecide(s: State, w: Witness, t: Tid, maxFree: int)
    requires Explains(w, s) && t in s.procs && s.procs[t].Dropping? && Live(s, s.procs[t].u)
    ensures Inv(DoDropDecide(s, t, maxFree))
  {
    var s' := DoDropDecide(s, t, maxFree);
    var u := s.procs[t].u;
    if MustDie(s.d, u, maxFree) {
      KeepKill(s, w, t);
    } else {
      Thread(s, w, t);
      TicketAt(s, w, u);
      FrameHeld(s, w, s', w, t, u);
    }
  }

  lemma KeepDropRefresh(s: State, w: Witness, t: Tid)
    requires Explains(w, s) && t in s.procs && s.procs[t].Refreshing? && Live(s, s.procs[t].u)
    ensures Inv(DoDropRefresh(s, t))
  {
    var s' := DoDropRefresh(s, t);
    var u := s.procs[t].u;
    Thread(s, w, t);
    TicketAt(s, w, u);
    var w' := w;
    FrameHeld(s, w, s', w', t, u);
  }

  lemma KeepDropPush(s: State, w: Witness, t: Tid)
    requires Explains(w, s) && t in s.procs && s.procs[t].Pushing?
    ensures Inv(DoDropPush(s, t))
  {
    var s' := DoDropPush(s, t);
    var u := s.procs[t].u;
    Thread(s, w, t);
    TicketAt(s, w, u);
    DistinctAppend(s.d.free, u);
    var w' := w.(place := w.place[u := Pooled]);
    FrameHeld(s, w, s', w', t, u);
  }

  lemma KeepRead(s: State, w: Witness, t: Tid)
    requires Explains(w, s) && t !in s.procs && s.d.ms != [] && Live(s, s.d.ms[0])
    ensures Inv(DoRead(s, t))
  {
    var s' := DoRead(s, t);
    var u := s.d.ms[0];
    TicketAt(s, w, u);
    assert s.d.ms == [u] + s.d.ms[1..];
    var w' := w.(place := if s.d.tickets[u].invalid then w.place[u := Held(t)] else w.place,
                 msg := w.msg[u := ReadBy(t)]);
    FrameInFlight(s, w, s', w', t, u);
  }

  lemma KeepDeliver(s: State, w: Witness, t: Tid, copied: bool)
    requires Explains(w, s) && t in s.procs && s.procs[t].Popped? && Live(s, s.procs[t].u)
    ensures Inv(DoDeliver(s, t, copied))
  {
    var s' := DoDeliver(s, t, copied);
    var u := s.procs[t].u;
    Thread(s, w, t);
    TicketAt(s, w, u);
    var tk := s.d.tickets[u];
    var m := if !tk.invalid && copied && !tk.answered then Delivered else NoMessage;
    var w' := w.(msg := w.msg[u := m]);
    FrameInFlight(s, w, s', w', t, u);
  }

  // The reply's unique leads to the ticket it was sent for.
  lemma ReplyFinds(s: State, w: Witness, u: Addr, use: Use)
    requires Explains(w, s) && (u, use) in s.pending
    ensures u in s.d.tickets && w.place[u].Awaiting? && UseOf(s.d.tickets[u]) == use
            && Awaited(s.d, use.unique) == Some(u)
  {
    TicketAt(s, w, u);
    WithUniqueFinds(s.d.tickets, s.d.aw, use.unique);
    TicketAt(s, w, Awaited(s.d, use.unique).value);
  }

  // The state after a reply for use has taken ticket u off the queue.
  ghost predicate Written(s: State, t: Tid, r: Reply, s': State) {
    && s' == Goto(s, t, Found(r.addr, r)).(pending := s.pending - {(r.addr, r.use)}, d := s.d.(aw := s'.d.aw))
    && (forall v :: v in s'.d.aw <==> v in s.d.aw && v != r.addr)
  }

  lemma WriteIs(s: State, w: Witness, t: Tid, r: Reply, s': State)
    requires Explains(w, s) && (r.addr, r.use) in s.pending && s' == DoWrite(s, t, r)
    ensures Written(s, t, r, s') && ListsOk(s')
  {
    ReplyFinds(s, w, r.addr, r.use);
    RemoveElements(s.d.aw, r.addr);
  }

  lemma WrittenTicket(s: State, w: Witness, t: Tid, r: Reply, s': State, w': Witness)
    requires w.place.Keys == w.msg.Keys == s.d.tickets.Keys && r.addr in s.d.tickets && t !in s.procs
    requires TicketOk(s, w, r.addr) && (r.addr, r.use) in s.pending && Written(s, t, r, s')
    requires w.place[r.addr].Awaiting? && w.place[r.addr].owner.Some? ==> PcOk(s, w, w.place[r.addr].owner.value)
    requires w' == w.(place := w.place[r.addr := Replying(t, w.place[r.addr].owner)], msg := w.msg[r.addr := NoMessage])
    ensures w'.place.Keys == w'.msg.Keys == s'.d.tickets.Keys && OnlyChanges(s, w, s', w', t, r.addr)
    ensures TicketOk(s', w', r.addr) && PcOk(s', w', t) && SparesOthers(s, w, s', w', t, r.addr)
  {
  }

  lemma KeepWrite(s: State, w: Witness, t: Tid, r: Reply)
    requires Explains(w, s) && t !in s.procs && (r.addr, r.use) in s.pending
    ensures Inv(DoWrite(s, t, r))
  {
    var s' := DoWrite(s, t, r);
    var u := r.addr;
    ReplyFinds(s, w, u, r.use);
    TicketAt(s, w, u);
    WriteIs(s, w, t, r, s');
    if w.place[u].owner.Some? { Thread(s, w, w.place[u].owner.value); }
    var w' := w.(place := w.place[u := Replying(t, w.place[u].owner)], msg := w.msg[u := NoMessage]);
    WrittenTicket(s, w, t, r, s', w');
    FrameInFlight(s, w, s', w', t, u);
  }

  lemma KeepHandleStandard(s: State, w: Witness, t: Tid, err: int, kill: bool)
    requires Explains(w, s) && t in s.procs && s.procs[t].Found? && Live(s, s.procs[t].u)
    requires s.d.tickets[s.procs[t].u].handler == Standard
    ensures Inv(DoHandle(s, t, err, kill))
  {
    var s' := DoHandle(s, t, err, kill);
    var u := s.procs[t].u;
    Thread(s, w, t);
    TicketAt(s, w, u);
    if w.place[u].repliedTo.Some? { Thread(s, w, w.place[u].repliedTo.value); }
    FrameInFlight(s, w, s', w, t, u);
  }

  // A ticket whose reply is not waited for has no requester.
  lemma NobodyWaits(s: State, w: Witness, t: Tid)
    requires Explains(w, s) && t in s.procs && s.procs[t].Found? && Live(s, s.procs[t].u)
    requires s.d.tickets[s.procs[t].u].handler != Standard
    ensures w.place[s.procs[t].u] == Replying(t, None)
  {
    var u := s.procs[t].u;
    Thread(s, w, t);
    TicketAt(s, w, u);
    if w.place[u].repliedTo.Some? { Thread(s, w, w.place[u].repliedTo.value); }
  }

  lemma KeepHandleOther(s: State, w: Witness, t: Tid, err: int, kill: bool)
    requires Explains(w, s) && t in s.procs && s.procs[t].Found? && Live(s, s.procs[t].u)
    requires s.d.tickets[s.procs[t].u].handler != Standard
    ensures Inv(DoHandle(s, t, err, kill))
  {
    var s' := DoHandle(s, t, err, kill);
    var u := s.procs[t].u;
    NobodyWaits(s, w, t);
    TicketAt(s, w, u);
    if s.d.tickets[u].handler == ForgetCallback {
      assert s' == Exit(s, t);
      FrameInFlight(s, w, s', w.(place := w.place[u := Lost]), t, u);
    } else {
      assert s' == Goto(s, t, Dropping(u, None));
      FrameInFlight(s, w, s', w.(place := w.place[u := Held(t)]), t, u);
    }
  }

  lemma KeepAnswer(s: State, w: Witness, t: Tid)
    requires Explains(w, s) && t in s.procs && s.procs[t].Pulled? && Live(s, s.procs[t].u)
    ensures Inv(DoAnswer(s, t))
  {
    if s.d.tickets[s.procs[t].u].answered {
      KeepAnswerInVain(s, w, t);
    } else {
      KeepAnswerInTime(s, w, t);
    }
  }

  lemma KeepAnswerInVain(s: State, w: Witness, t: Tid)
    requires Explains(w, s) && t in s.procs && s.procs[t].Pulled? && Live(s, s.procs[t].u)
    requires s.d.tickets[s.procs[t].u].answered
    ensures Inv(DoAnswer(s, t))
  {
    var u := s.procs[t].u;
    Thread(s, w, t);
    TicketAt(s, w, u);
    if w.place[u].repliedTo.Some? { Thread(s, w, w.place[u].repliedTo.value); }
    assert w.place[u].repliedTo == None;
    FrameInFlight(s, w, DoAnswer(s, t), w.(place := w.place[u := Held(t)]), t, u);
  }

  lemma KeepAnswerInTime(s: State, w: Witness, t: Tid)
    requires Explains(w, s) && t in s.procs && s.procs[t].Pulled? && Live(s, s.procs[t].u)
    requires !s.d.tickets[s.procs[t].u].answered
    ensures Inv(DoAnswer(s, t))
  {
    var u := s.procs[t].u;
    Thread(s, w, t);
    TicketAt(s, w, u);
    var o := w.place[u].repliedTo;
    if o.Some? { Thread(s, w, o.value); }
    assert o.Some?;
    FrameInFlight(s, w, DoAnswer(s, t), w.(place := w.place[u := Held(o.value)]), t, u);
  }

  lemma KeepLook(s: State, w: Witness, t: Tid)
    requires Explains(w, s) && t in s.procs && s.procs[t].Returned?
    ensures Inv(DoLook(s, t))
  {
    var none := Unused(s, w);
    Frame(s, w, DoLook(s, t), w, t, none);
  }

  // The age check. An equal age means the same use, and that use was given up.
  lemma KeepScan(s: State, w: Witness, t: Tid)
    requires Explains(w, s) && t in s.procs && s.procs[t].Stamped? && ScanSafe(s, Scan(t))
    ensures Inv(DoScan(s, t))
  {
    var s' := DoScan(s, t);
    var u := s.procs[t].u;
    Thread(s, w, t);
    if u in s.d.aw && u in s.d.tickets && Age(s.d.tickets[u]) == s.procs[t].use.gen % AGE_MODULUS {
      TicketAt(s, w, u);
      assert UseOf(s.d.tickets[u]) == s.procs[t].use;
      if OwnerOf(w.place[u]).Some? { Thread(s, w, OwnerOf(w.place[u]).value); }
      FrameInFlight(s, w, s', w, t, u);
    } else {
      var none := Unused(s, w);
      Frame(s, w, s', w, t, none);
    }
  }
}
