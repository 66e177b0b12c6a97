/** What a lookup comes to, told from the map alone: it sleeps while an attach to the
    file is under way, offers the vnode that is mapped, or is granted the attach; and
    whatever happens meanwhile, it ends with an answer to its own query. */
module NodeLookup {
  import opened Common
  import opened NodeTable
  import opened NodeProtocol
  import opened NodeInvariant
  import opened NodeSafety
  import opened NodeRefinement

  // The node in the table that stands for the file.
  ghost predicate Stands(s: State, dev: nat, ino: nat, r: Ref) {
    |s.tab.buckets| > 0 && InTable(s.tab, r) && HasKey(s.tab.nodes[r], dev, ino)
  }

  // An attach to some fork of the file is outstanding.
  ghost predicate Busy(s: State, dev: nat, ino: nat)
    requires |s.tab.buckets| > 0
  {
    exists f :: Meaning(s, Key(dev, ino, f)) == Attaching
  }

  predicate HasRoom(s: State, r: Ref, fork: nat) { r in s.tab.nodes && fork < |s.tab.nodes[r].forks| }

  lemma StandsIsFound(s: State, dev: nat, ino: nat, r: Ref)
    requires Inv(s)
    ensures |s.tab.buckets| > 0
    ensures Stands(s, dev, ino, r) <==> Find(s.tab, dev, ino) == Some(r)
    ensures Find(s.tab, dev, ino).Some? ==> Stands(s, dev, ino, Find(s.tab, dev, ino).value)
  {
    InvIsWellFormed(s);
    FindFinds(s.tab, dev, ino);
  }

  // The reservation mark of the node says that some fork is being attached to.
  lemma BusyIsMarked(s: State, dev: nat, ino: nat)
    requires Inv(s)
    ensures |s.tab.buckets| > 0
    ensures Busy(s, dev, ino) <==> exists r :: Stands(s, dev, ino, r) && s.tab.nodes[r].attaching
  {
    InvIsWellFormed(s);
    FindFinds(s.tab, dev, ino);
    var found := Find(s.tab, dev, ino);
    if Busy(s, dev, ino) {
      var f :| Meaning(s, Key(dev, ino, f)) == Attaching;
      var t :| t in s.procs && s.procs[t] == Granted(found.value, f);
      GrantFacts(s, t);
      assert Stands(s, dev, ino, found.value);
    }
    if r :| Stands(s, dev, ino, r) && s.tab.nodes[r].attaching {
      var f := AttacherOf(s, r);
      assert Meaning(s, Key(dev, ino, f)) == Attaching;
    }
  }

  lemma AttacherOf(s: State, r: Ref) returns (f: nat)
    requires Inv(s) && |s.tab.buckets| > 0 && InTable(s.tab, r) && s.tab.nodes[r].attaching
    ensures GrantedTo(s, r, f)
  {
    var pl: map<Ref, Place> :| Explains(pl, s);
    NodeAt(s, pl, r);
    f := s.procs[pl[r].attacher.value].fork;
    assert s.procs[pl[r].attacher.value] == Granted(r, f);
  }

  // What a turn of the loop must come to: a matter of the map, of whether there is
  // a node with room for the fork, and of what the thread has allocated.
  ghost predicate TurnsTo(s: State, q: Query, s': State, pc: Pc)
    requires |s.tab.buckets| > 0
  {
    var entry := Meaning(s, Key(q.dev, q.ino, q.fork));
    if Busy(s, q.dev, q.ino) then
      pc.Sleeping? && pc.q == q && Stands(s, q.dev, q.ino, pc.r) && Stands(s', q.dev, q.ino, pc.r)
    else if entry.Mapped? then
      pc.Checking? && pc.q == q && pc.vn == entry.vn && Stands(s, q.dev, q.ino, pc.r)
    else if forall r :: !Stands(s, q.dev, q.ino, r) then
      if q.newNode == None then pc == AllocNode(q) else pc == Granted(q.newNode.value, q.fork)
    else
      exists r :: Stands(s, q.dev, q.ino, r) &&
                  if HasRoom(s, r, q.fork) then pc == Granted(r, q.fork)
                  else if q.haveBuffer then pc == Looking(q.(haveBuffer := false)) && HasRoom(s', r, q.fork)
                  else pc == AllocBuffer(q)
  }

  // The same on the node that was found.
  lemma FoundTurn(s: State, t: Tid, r: Ref)
    requires |s.tab.buckets| > 0 && t in s.procs && s.procs[t].Looking? && r in s.tab.nodes
    requires Find(s.tab, s.procs[t].q.dev, s.procs[t].q.ino) == Some(r)
    ensures var q, n, s' := s.procs[t].q, s.tab.nodes[r], DoTurn(s, t);
            t in s'.procs && s'.procs[t] ==
                             if n.attaching then Sleeping(q, r)
                             else if q.fork >= |n.forks| then
                               if q.haveBuffer then Looking(q.(haveBuffer := false)) else AllocBuffer(q)
                             else if n.forks[q.fork] == None then Granted(r, q.fork)
                             else Checking(q, r, n.forks[q.fork].value)
    ensures var q, n, s' := s.procs[t].q, s.tab.nodes[r], DoTurn(s, t);
            && (n.attaching ==>
                  r in s'.tab.nodes && s'.tab.nodes[r] == n.(waiting := true) && s'.tab.buckets == s.tab.buckets)
            && (!n.attaching && q.fork >= |n.forks| && q.haveBuffer ==> HasRoom(s', r, q.fork))
  {
  }

  lemma FreeNodeMeaning(s: State, k: Key, r: Ref)
    requires Inv(s) && Stands(s, k.dev, k.ino, r) && !s.tab.nodes[r].attaching
    ensures Meaning(s, k) == if HasRoom(s, r, k.fork) && s.tab.nodes[r].forks[k.fork].Some?
                             then Mapped(s.tab.nodes[r].forks[k.fork].value) else Absent
  {
    StandsIsFound(s, k.dev, k.ino, r);
    NoGrant(s, r, k.fork);
  }

  // In every reachable state.
  lemma TurnOutcome(s: State, t: Tid)
    requires Reachable(s) && Enabled(s, Turn(t))
    ensures t in DoTurn(s, t).procs && TurnsTo(s, s.procs[t].q, DoTurn(s, t), DoTurn(s, t).procs[t])
  {
    ReachableInv(s);
    var q := s.procs[t].q;
    var found := Find(s.tab, q.dev, q.ino);
    BusyIsMarked(s, q.dev, q.ino);
    if found == None {
      forall r
        ensures !Stands(s, q.dev, q.ino, r)
      {
        StandsIsFound(s, q.dev, q.ino, r);
      }
      if q.newNode.Some? { InsertsOwn(s, t); }
    } else {
      var r := found.value;
      StandsIsFound(s, q.dev, q.ino, r);
      FoundTurn(s, t, r);
      if s.tab.nodes[r].attaching {
        assert Stands(DoTurn(s, t), q.dev, q.ino, r);
      } else {
        OnlyStands(s, q.dev, q.ino, r);
        FreeNodeMeaning(s, Key(q.dev, q.ino, q.fork), r);
      }
    }
  }

  lemma OnlyStands(s: State, dev: nat, ino: nat, r: Ref)
    requires Inv(s) && Stands(s, dev, ino, r)
    ensures forall r' :: Stands(s, dev, ino, r') ==> r' == r
  {
    StandsIsFound(s, dev, ino, r);
    forall r' | Stands(s, dev, ino, r')
      ensures r' == r
    {
      StandsIsFound(s, dev, ino, r');
    }
  }

  // The quick lookup offers a vnode exactly if it is mapped and no attach to the
  // file is outstanding, and then that one; otherwise it does nothing.
  lemma QuickOutcome(s: State, t: Tid, dev: nat, ino: nat, fork: nat)
    requires Reachable(s) && Enabled(s, QuickLookup(t, dev, ino, fork))
    ensures var s', entry := DoQuickLookup(s, t, dev, ino, fork), Meaning(s, Key(dev, ino, fork));
            if Busy(s, dev, ino) || !entry.Mapped? then s' == s
            else exists r :: Stands(s, dev, ino, r)
                             && s' == Goto(s, t, QuickChecking(Query(dev, ino, fork, None, false), r, entry.vn))
  {
    ReachableInv(s);
    var found := Find(s.tab, dev, ino);
    BusyIsMarked(s, dev, ino);
    if found.Some? {
      StandsIsFound(s, dev, ino, found.value);
      OnlyStands(s, dev, ino, found.value);
      if !s.tab.nodes[found.value].attaching { FreeNodeMeaning(s, Key(dev, ino, fork), found.value); }
    }
  }

  // ------------------------------------------------ each lookup its own query

  predicate Asks(pc: Pc, k: Key) {
    (HasQuery(pc) || pc.QuickChecking?) && pc.q.dev == k.dev && pc.q.ino == k.ino && pc.q.fork == k.fork
  }

  // The ways a lookup can end: with the right to attach to the fork it asked for,
  // with the vnode mapped there, or out of memory, or for the quick lookup with a
  // vnode that is going away.
  ghost predicate EndsWith(s': State, step: Step, t: Tid, k: Key)
    requires |s'.tab.buckets| > 0
  {
    if t in s'.procs then
      || (s'.procs[t].Granted? && step == Turn(t) && s'.procs[t].fork == k.fork
          && Stands(s', k.dev, k.ino, s'.procs[t].r) && Meaning(s', k) == Attaching)
      || (s'.procs[t].Holding? && (step == Check(t, true) || step == QuickCheck(t, true))
          && Meaning(s', k) == Mapped(s'.procs[t].vn))
    else step == NodeAllocated(t, false) || step == BufferAllocated(t, false) || step == QuickCheck(t, false)
  }

  lemma OthersKeepAsking(s: State, step: Step, t: Tid, k: Key)
    requires Enabled(s, step) && t in s.procs && t != step.tid && Asks(s.procs[t], k)
    ensures t in Apply(s, step).procs && Asks(Apply(s, step).procs[t], k)
  {
    if step.AttachOk? || step.AttachFail? {
      WokenKeepsAsking(s, step, t, k);
    } else {
      OthersStay(s, step, t);
    }
  }

  lemma WokenKeepsAsking(s: State, step: Step, t: Tid, k: Key)
    requires Enabled(s, step) && t in s.procs && t != step.tid && Asks(s.procs[t], k)
    requires step.AttachOk? || step.AttachFail?
    ensures t in Apply(s, step).procs && Asks(Apply(s, step).procs[t], k)
  {
  }

  lemma OthersStay(s: State, step: Step, t: Tid)
    requires Enabled(s, step) && t in s.procs && t != step.tid && !step.AttachOk? && !step.AttachFail?
    ensures t in Apply(s, step).procs && Apply(s, step).procs[t] == s.procs[t]
  {
  }

  lemma OwnStep(s: State, step: Step, t: Tid, k: Key)
    requires Enabled(s, step) && t in s.procs && t == step.tid && Asks(s.procs[t], k)
    ensures var s' := Apply(s, step);
            || (t in s'.procs && Asks(s'.procs[t], k))
            || (t in s'.procs && s'.procs[t].Granted? && step == Turn(t) && s'.procs[t].fork == k.fork)
            || (t in s'.procs && (step == Check(t, true) || step == QuickCheck(t, true))
                && s'.procs[t].Holding? && s'.procs[t].vn == s.procs[t].vn)
            || (t !in s'.procs
                && (step == NodeAllocated(t, false) || step == BufferAllocated(t, false)
                  || step == QuickCheck(t, false)))
  {
  }

  // Whatever the other threads do meanwhile, a lookup goes on asking for the fork
  // it was called for until it ends, and it ends as it should.
  lemma LookupAnswersItsQuery(s: State, step: Step, t: Tid, k: Key)
    requires Reachable(s) && Enabled(s, step) && t in s.procs && Asks(s.procs[t], k)
    ensures var s' := Apply(s, step);
            |s'.tab.buckets| > 0 && ((t in s'.procs && Asks(s'.procs[t], k)) || EndsWith(s', step, t, k))
  {
    var s' := Apply(s, step);
    StepRefines(s, step);
    if t != step.tid {
      OthersKeepAsking(s, step, t, k);
    } else {
      OwnStep(s, step, t, k);
      if step == Check(t, true) || step == QuickCheck(t, true) {
        LookupsReturnTheMapped(s, t);
      } else if step == Turn(t) && s'.procs[t].Granted? {
        ReachableInv(s);
        StepKeepsInv(s, step);
        GrantIsForQuery(s, t);
      }
    }
  }

  lemma GrantIsForQuery(s: State, t: Tid)
    requires Reachable(s) && Inv(s) && Enabled(s, Turn(t)) && t in DoTurn(s, t).procs && DoTurn(s, t).procs[t].Granted?
    requires Inv(DoTurn(s, t))
    ensures Stands(DoTurn(s, t), s.procs[t].q.dev, s.procs[t].q.ino, DoTurn(s, t).procs[t].r)
  {
    var q, s' := s.procs[t].q, DoTurn(s, t);
    GrantFacts(s', t);
    if Find(s.tab, q.dev, q.ino).Some? {
      var r := Find(s.tab, q.dev, q.ino).value;
      StandsIsFound(s, q.dev, q.ino, r);
      FoundTurn(s, t, r);
      assert s'.procs[t].r == r;
      assert HasKey(s'.tab.nodes[r], q.dev, q.ino);
    } else {
      InsertsOwn(s, t);
    }
  }

  // ------------------------------------------------ a lookup left alone ends

  lemma {:induction false} RunsThen(s: State, steps: seq<Step>, s': State, step: Step)
    requires Runs(s, steps, s') && Enabled(s', step)
    ensures Runs(s, steps + [step], Apply(s', step))
    decreases |steps|
  {
    if steps == [] {
      assert Runs(Apply(s', step), [], Apply(s', step));
      assert (steps + [step])[1..] == [];
    } else {
      RunsThen(Apply(s, steps[0]), steps[1..], s', step);
      assert (steps + [step])[0] == steps[0] && (steps + [step])[1..] == steps[1..] + [step];
    }
  }

  lemma ReachableStep(s: State, step: Step)
    requires Reachable(s) && Enabled(s, step)
    ensures Reachable(Apply(s, step))
  {
    var size: nat, steps :| size > 0 && Runs(Start(size), steps, s);
    RunsThen(Start(size), steps, s, step);
  }

  ghost predicate OwnRun(s: State, t: Tid, steps: seq<Step>, s': State) {
    Runs(s, steps, s') && forall i | 0 <= i < |steps| :: steps[i].tid == t
  }

  // A lookup is served: it holds the vnode that was mapped when it began, or has the
  // right to attach if none was.
  ghost predicate Served(s: State, t: Tid, k: Key, s': State)
    requires |s.tab.buckets| > 0
  {
    && t in s'.procs
    && if Meaning(s, k).Mapped? then s'.procs[t].Holding? && s'.procs[t].vn == Meaning(s, k).vn
       else s'.procs[t].Granted? && s'.procs[t].fork == k.fork
  }

  function KeyOf(q: Query): Key { Key(q.dev, q.ino, q.fork) }

  // Nothing stands in the way of the lookup: no attach is outstanding, and a vnode
  // that is mapped can be had.
  ghost predicate Clear(s: State, k: Key)
    requires |s.tab.buckets| > 0
  {
    !Busy(s, k.dev, k.ino) && (Meaning(s, k).Mapped? ==> Gettable(s, Meaning(s, k).vn))
  }

  // A step of its own that does not end it leaves the map as it was.
  lemma StillClear(s: State, step: Step, k: Key)
    requires Reachable(s) && Enabled(s, step) && Effect(s, step) == None && Apply(s, step).vnodes == s.vnodes
    requires |s.tab.buckets| > 0 && Clear(s, k)
    ensures Reachable(Apply(s, step)) && |Apply(s, step).tab.buckets| > 0 && Clear(Apply(s, step), k)
    ensures Meaning(Apply(s, step), k) == Meaning(s, k)
  {
    ReachableStep(s, step);
    StepRefines(s, step);
    var s' := Apply(s, step);
    forall f
      ensures Meaning(s', Key(k.dev, k.ino, f)) != Attaching
    {
      assert Meaning(s, Key(k.dev, k.ino, f)) != Attaching;
    }
  }

  lemma OneMore(s: State, t: Tid, step: Step, steps: seq<Step>, s': State)
    requires Enabled(s, step) && step.tid == t && OwnRun(Apply(s, step), t, steps, s')
    ensures OwnRun(s, t, [step] + steps, s')
  {
    assert ([step] + steps)[1..] == steps;
  }

  // With the vnode mapped it takes a turn and a check.
  lemma MappedIsServed(s: State, t: Tid) returns (steps: seq<Step>, s': State)
    requires Reachable(s) && Enabled(s, Turn(t)) && |s.tab.buckets| > 0 && Clear(s, KeyOf(s.procs[t].q))
    requires Meaning(s, KeyOf(s.procs[t].q)).Mapped?
    ensures |steps| <= 2 && OwnRun(s, t, steps, s') && Served(s, t, KeyOf(s.procs[t].q), s')
  {
    TurnOutcome(s, t);
    var s1 := DoTurn(s, t);
    s' := Apply(s1, Check(t, true));
    assert OwnRun(s', t, [], s');
    OneMore(s1, t, Check(t, true), [], s');
    OneMore(s, t, Turn(t), [Check(t, true)], s');
    steps := [Turn(t), Check(t, true)];
    assert steps == [Turn(t)] + [Check(t, true)];
  }

  ghost predicate Ready(s: State, q: Query) {
    if forall r :: !Stands(s, q.dev, q.ino, r) then q.newNode.Some?
    else exists r :: Stands(s, q.dev, q.ino, r) && HasRoom(s, r, q.fork)
  }

  lemma ReadyIsServed(s: State, t: Tid) returns (steps: seq<Step>, s': State)
    requires Reachable(s) && Enabled(s, Turn(t)) && |s.tab.buckets| > 0 && Clear(s, KeyOf(s.procs[t].q))
    requires !Meaning(s, KeyOf(s.procs[t].q)).Mapped? && Ready(s, s.procs[t].q)
    ensures |steps| <= 1 && OwnRun(s, t, steps, s') && Served(s, t, KeyOf(s.procs[t].q), s')
  {
    var q := s.procs[t].q;
    ReachableInv(s);
    if r :| Stands(s, q.dev, q.ino, r) && HasRoom(s, r, q.fork) { OnlyStands(s, q.dev, q.ino, r); }
    TurnOutcome(s, t);
    s' := DoTurn(s, t);
    assert OwnRun(s', t, [], s');
    OneMore(s, t, Turn(t), [], s');
    steps := [Turn(t)];
    assert steps == [Turn(t)] + [];
  }

  lemma AllocTurn(s: State, t: Tid)
    requires Enabled(s, Turn(t)) && t in DoTurn(s, t).procs
    requires Find(s.tab, s.procs[t].q.dev, s.procs[t].q.ino).None? ==> s.procs[t].q.newNode.None?
    ensures DoTurn(s, t).procs[t].AllocNode? || DoTurn(s, t).procs[t].AllocBuffer? ==>
              DoTurn(s, t) == Goto(s, t, DoTurn(s, t).procs[t])
    ensures !DoTurn(s, t).procs[t].Granted? ==> DoTurn(s, t).vnodes == s.vnodes
  {
  }

  lemma ExpandTurn(s: State, t: Tid, r: Ref)
    requires Inv(s) && Enabled(s, Turn(t)) && t in DoTurn(s, t).procs && DoTurn(s, t).procs[t].Looking?
    requires Stands(s, s.procs[t].q.dev, s.procs[t].q.ino, r)
    ensures Stands(DoTurn(s, t), s.procs[t].q.dev, s.procs[t].q.ino, r)
  {
    StandsIsFound(s, s.procs[t].q.dev, s.procs[t].q.ino, r);
    FoundTurn(s, t, r);
    assert DoTurn(s, t).tab.buckets == s.tab.buckets;
  }

  // With an array at hand a node without room is expanded.
  lemma BufferIsServed(s: State, t: Tid, r: Ref) returns (steps: seq<Step>, s': State)
    requires Reachable(s) && Enabled(s, Turn(t)) && |s.tab.buckets| > 0 && Clear(s, KeyOf(s.procs[t].q))
    requires !Meaning(s, KeyOf(s.procs[t].q)).Mapped? && s.procs[t].q.haveBuffer
    requires Stands(s, s.procs[t].q.dev, s.procs[t].q.ino, r) && !HasRoom(s, r, s.procs[t].q.fork)
    ensures |steps| <= 2 && OwnRun(s, t, steps, s') && Served(s, t, KeyOf(s.procs[t].q), s')
  {
    var q, s1 := s.procs[t].q, DoTurn(s, t);
    ReachableInv(s);
    OnlyStands(s, q.dev, q.ino, r);
    StandsIsFound(s, q.dev, q.ino, r);
    TurnOutcome(s, t);
    AllocTurn(s, t);
    ExpandTurn(s, t, r);
    StillClear(s, Turn(t), KeyOf(q));
    steps, s' := ReadyIsServed(s1, t);
    OneMore(s, t, Turn(t), steps, s');
    steps := [Turn(t)] + steps;
  }

  lemma NoRoomIsServed(s: State, t: Tid, r: Ref) returns (steps: seq<Step>, s': State)
    requires Reachable(s) && Enabled(s, Turn(t)) && |s.tab.buckets| > 0 && Clear(s, KeyOf(s.procs[t].q))
    requires !Meaning(s, KeyOf(s.procs[t].q)).Mapped? && !s.procs[t].q.haveBuffer
    requires Stands(s, s.procs[t].q.dev, s.procs[t].q.ino, r) && !HasRoom(s, r, s.procs[t].q.fork)
    ensures |steps| <= 4 && OwnRun(s, t, steps, s') && Served(s, t, KeyOf(s.procs[t].q), s')
  {
    var q, s1 := s.procs[t].q, DoTurn(s, t);
    var got := BufferAllocated(t, true);
    ReachableInv(s);
    OnlyStands(s, q.dev, q.ino, r);
    StandsIsFound(s, q.dev, q.ino, r);
    TurnOutcome(s, t);
    AllocTurn(s, t);
    StillClear(s, Turn(t), KeyOf(q));
    StillClear(s1, got, KeyOf(q));
    steps, s' := BufferIsServed(Apply(s1, got), t, r);
    OneMore(s1, t, got, steps, s');
    OneMore(s, t, Turn(t), [got] + steps, s');
    steps := [Turn(t)] + ([got] + steps);
  }

  lemma NoNodeIsServed(s: State, t: Tid) returns (steps: seq<Step>, s': State)
    requires Reachable(s) && Enabled(s, Turn(t)) && |s.tab.buckets| > 0 && Clear(s, KeyOf(s.procs[t].q))
    requires !Meaning(s, KeyOf(s.procs[t].q)).Mapped? && s.procs[t].q.newNode == None
    requires forall r :: !Stands(s, s.procs[t].q.dev, s.procs[t].q.ino, r)
    ensures |steps| <= 3 && OwnRun(s, t, steps, s') && Served(s, t, KeyOf(s.procs[t].q), s')
  {
    var q, s1 := s.procs[t].q, DoTurn(s, t);
    var got := NodeAllocated(t, true);
    TurnOutcome(s, t);
    AllocTurn(s, t);
    StillClear(s, Turn(t), KeyOf(q));
    StillClear(s1, got, KeyOf(q));
    NewNodeUnlisted(s, s1, got, q);
    steps, s' := ReadyIsServed(Apply(s1, got), t);
    OneMore(s1, t, got, steps, s');
    OneMore(s, t, Turn(t), [got] + steps, s');
    steps := [Turn(t)] + ([got] + steps);
  }

  lemma NewNodeUnlisted(s: State, s1: State, got: Step, q: Query)
    requires Reachable(s) && Reachable(s1) && s1.tab == s.tab && Enabled(s1, got) && got.NodeAllocated? && got.ok
    requires forall r :: !Stands(s, q.dev, q.ino, r)
    ensures forall r :: !Stands(Apply(s1, got), q.dev, q.ino, r)
  {
    ReachableInv(s1);
    ReachableStep(s1, got);
    ReachableInv(Apply(s1, got));
    var pl: map<Ref, Place> :| Explains(pl, s1);
    forall r
      ensures !Stands(Apply(s1, got), q.dev, q.ino, r)
    {
      assert !Stands(s, q.dev, q.ino, r);
    }
  }

  // From every reachable state: a lookup that nothing stands in the way of is
  // served within four of its own steps, if it is given the memory it asks for.
  lemma LookupIsServed(s: State, t: Tid) returns (steps: seq<Step>, s': State)
    requires Reachable(s) && Enabled(s, Turn(t)) && Clear(s, KeyOf(s.procs[t].q))
    ensures |steps| <= 4 && OwnRun(s, t, steps, s') && Served(s, t, KeyOf(s.procs[t].q), s')
  {
    var q := s.procs[t].q;
    if Meaning(s, KeyOf(q)).Mapped? {
      steps, s' := MappedIsServed(s, t);
    } else if r :| Stands(s, q.dev, q.ino, r) {
      if HasRoom(s, r, q.fork) {
        steps, s' := ReadyIsServed(s, t);
      } else if q.haveBuffer {
        steps, s' := BufferIsServed(s, t, r);
      } else {
        steps, s' := NoRoomIsServed(s, t, r);
      }
    } else if q.newNode == None {
      steps, s' := NoNodeIsServed(s, t);
    } else {
      steps, s' := ReadyIsServed(s, t);
    }
  }
}
