/** What a slot's open count means: over every run it is the number of uses taken of
    the slot less the uses given up, told from the operations alone; so a close sends
    a RELEASE exactly if it gives up the last use, and an open asks the daemon for a
    handle exactly if there is no use to share. */
module OpenCounts {
  import opened Common
  import opened Handles
  import opened VnodeRuns

  // The uses of a vnode's three slots, and whose open, the creator's, is to come.
  datatype Tally = Tally(uses: seq<nat>, stash: Option<Tid>)

  const NoUses: seq<nat> := [0, 0, 0]

  predicate Whole(y: Tally) { |y.uses| == MAXTYPE }

  // The slot of which an operation takes a use, given the uses there are: one that
  // is in use is shared, otherwise the daemon has to give a handle. A mapping that
  // is denied write access takes a read-only use instead; I/O takes a use only if
  // it finds none of its own kind or of read-write.
  function Takes(n: seq<nat>, step: Step): Option<nat>
    requires |n| == MAXTYPE && Slotted(step)
  {
    match step
    case Open(_, _, k, reply) => if n[k] > 0 || reply.Some? then Some(k) else None
    case Mmap(_, k, first, second) =>
      if n[k] > 0 || first.Handle? then Some(k)
      else if first.Eacces? && k != RDONLY && (n[RDONLY] > 0 || second.Handle?) then Some(RDONLY)
      else None
    case Strategy(_, read, reply) =>
      if n[RDWR] > 0 || n[if read then RDONLY else WRONLY] > 0 || reply.None? then None
      else Some(if read then RDONLY else RDWR)
    case _ => None
  }

  // Inactive and reclaim end all uses; the creator's open turns the stash, a use of
  // read-write, into its own; a close gives up a use if there is one.
  function After(y: Tally, step: Step): (r: Tally)
    requires Whole(y) && Slotted(step)
    ensures Whole(r)
  {
    if step.Inactive? || step.Reclaim? then y.(uses := NoUses)
    else if step.Open? && y.stash.Some? then Tally(y.uses[RDWR := 0][step.k := 1], None)
    else if step.Close? then
      if y.uses[step.k] > 0 then y.(uses := y.uses[step.k := y.uses[step.k] - 1]) else y
    else
      match Takes(y.uses, step)
      case Some(k) => y.(uses := y.uses[k := y.uses[k] + 1])
      case None => y
  }

  // The node that a step gets a vnode for.
  function Obtains(step: Step): Option<NodeId> {
    match step
    case Lookup(n, attrOk, got) => if attrOk && got && n != NULL_ID && n != ROOT_ID then Some(n) else None
    case NewEntry(n, typeOk, got) => if typeOk && got && n != NULL_ID && n != ROOT_ID then Some(n) else None
    case Create(n, typeOk, got, _, _) => if typeOk && got && n != NULL_ID && n != ROOT_ID then Some(n) else None
    case Root => Some(ROOT_ID)
    case _ => None
  }

  predicate Stashes(step: Step) { step.Create? && step.fh.Some? }

  predicate AllWhole(T: seq<Tally>) { forall v | 0 <= v < |T| :: Whole(T[v]) }

  // The tallies after a step: of the vnode it is on, or of the one it gets.
  function Tallied(s: State, T: seq<Tally>, step: Step): (r: seq<Tally>)
    requires Enabled(s, step) && AllWhole(T) && |T| == |s.vnodes|
    ensures AllWhole(r)
  {
    if OnVnode(step) then T[step.v := After(T[step.v], step)]
    else if Obtains(step) == None then T
    else
      FindFinds(s.vnodes, Obtains(step).value);
      match Find(s.vnodes, Obtains(step).value)
      case None => T + [if Stashes(step) then Tally([0, 0, 1], Some(step.tid)) else Tally(NoUses, None)]
      case Some(v) => if Stashes(step) then T[v := T[v].(uses := T[v].uses[RDWR := 1])] else T
  }

  predicate Matches(x: Vnode, y: Tally) {
    && |x.fufh| == MAXTYPE && Whole(y)
    && x.creating == y.stash.Some? && (x.creating ==> y.stash == Some(x.creator))
    && x.fufh[0].openCount == y.uses[0] && x.fufh[1].openCount == y.uses[1] && x.fufh[2].openCount == y.uses[2]
  }

  ghost predicate Agree(s: State, T: seq<Tally>) {
    |T| == |s.vnodes| && forall v {:trigger Matches(s.vnodes[v], T[v])} | 0 <= v < |T| :: Matches(s.vnodes[v], T[v])
  }

  // ------------------------------------------------ every step keeps them in line

  lemma {:induction false} ReleasedCounts(a: Account, k: nat, dead: bool)
    requires Sized(a) && k <= MAXTYPE
    requires forall j | 0 <= j < MAXTYPE :: a.fufh[j].openCount >= 0
    ensures Sized(ReleaseFrom(a, k, dead))
    ensures forall j | 0 <= j < MAXTYPE ::
              ReleaseFrom(a, k, dead).fufh[j].openCount == if j < k then a.fufh[j].openCount else 0
    decreases MAXTYPE - k
  {
    if k < MAXTYPE { ReleasedCounts(ReleaseOne(a, k, dead), k + 1, dead); }
  }

  lemma AccountMatches(s: State, step: Step, y: Tally)
    requires Enabled(s, step) && OnVnode(step) && Matches(s.vnodes[step.v], y)
    ensures var f := AccountAfter(s, step).fufh;
            |f| == MAXTYPE && forall j | 0 <= j < MAXTYPE :: f[j].openCount == After(y, step).uses[j]
  {
    if step.Inactive? || step.Reclaim? {
      ReleasedCounts(AccountOf(s, step.v), 0, DeadFor(s, step.v));
    } else if step.Open? || step.Mmap? {
      TakenMatches(s, step, y);
    }
  }

  lemma TakenMatches(s: State, step: Step, y: Tally)
    requires Enabled(s, step) && (step.Open? || step.Mmap?) && Matches(s.vnodes[step.v], y)
    ensures var f := AccountAfter(s, step).fufh;
            |f| == MAXTYPE && forall j | 0 <= j < MAXTYPE :: f[j].openCount == After(y, step).uses[j]
  {
  }

  lemma OnVnodeMatches(s: State, step: Step, y: Tally)
    requires Enabled(s, step) && OnVnode(step) && Matches(s.vnodes[step.v], y)
    ensures Matches(DoOnVnode(s, step).vnodes[step.v], After(y, step))
  {
    var s' := DoOnVnode(s, step);
    OnVnodeIs(s, step, s');
    AccountMatches(s, step, y);
    assert s'.vnodes[step.v].creating == (s.vnodes[step.v].creating && !step.Open?);
    assert s'.vnodes[step.v].creator == s.vnodes[step.v].creator;
  }

  // The vnodes after a step that gets one.
  lemma ObtainedIs(s: State, step: Step)
    requires Enabled(s, step) && Obtains(step).Some? && !Stashes(step)
    ensures var n, vs := Obtains(step).value, Apply(s, step).vnodes;
            match Find(s.vnodes, n)
            case None => |vs| == |s.vnodes| + 1 && vs[..|s.vnodes|] == s.vnodes
                         && vs[|s.vnodes|].fufh == NoHandles && !vs[|s.vnodes|].creating
            case Some(v) => v < |s.vnodes| == |vs| && vs == s.vnodes[v := vs[v]]
                            && vs[v].fufh == s.vnodes[v].fufh && vs[v].creating == s.vnodes[v].creating
                            && vs[v].creator == s.vnodes[v].creator
  {
    FindFinds(s.vnodes, Obtains(step).value);
  }

  lemma StashedIs(s: State, step: Step)
    requires Enabled(s, step) && Obtains(step).Some? && Stashes(step)
    requires forall v | 0 <= v < |s.vnodes| :: |s.vnodes[v].fufh| == MAXTYPE
    ensures var n, vs, stash := Obtains(step).value, Apply(s, step).vnodes, Slot(1, step.fh.value);
            match Find(s.vnodes, n)
            case None => |vs| == |s.vnodes| + 1 && vs[..|s.vnodes|] == s.vnodes
                         && vs[|s.vnodes|].fufh == [Slot(0, 0), Slot(0, 0), stash] && vs[|s.vnodes|].creating
                         && vs[|s.vnodes|].creator == step.tid
            case Some(v) => v < |s.vnodes| == |vs| && vs == s.vnodes[v := vs[v]]
                            && vs[v].fufh == s.vnodes[v].fufh[RDWR := stash] && vs[v].creating == s.vnodes[v].creating
                            && vs[v].creator == s.vnodes[v].creator
  {
    FindFinds(s.vnodes, Obtains(step).value);
    assert NoHandles[RDWR := Slot(1, step.fh.value)] == [Slot(0, 0), Slot(0, 0), Slot(1, step.fh.value)];
  }

  lemma OtherVnodes(s: State, step: Step)
    requires Enabled(s, step) && !OnVnode(step) && Obtains(step) == None
    ensures Apply(s, step).vnodes == s.vnodes
  {
  }

  lemma StepAgrees(s: State, T: seq<Tally>, step: Step)
    requires Enabled(s, step) && Agree(s, T) && AllWhole(T)
    ensures Agree(Apply(s, step), Tallied(s, T, step))
  {
    if OnVnode(step) {
      VnodeAgrees(s, T, step);
    } else if Obtains(step) == None {
      OtherVnodes(s, step);
    } else {
      ObtainAgrees(s, T, step);
    }
  }

  lemma VnodeAgrees(s: State, T: seq<Tally>, step: Step)
    requires Enabled(s, step) && Agree(s, T) && AllWhole(T) && OnVnode(step)
    ensures Agree(Apply(s, step), Tallied(s, T, step))
  {
    var s', T' := Apply(s, step), Tallied(s, T, step);
    OnVnodeIs(s, step, s');
    assert Matches(s.vnodes[step.v], T[step.v]);
    OnVnodeMatches(s, step, T[step.v]);
    forall v {:trigger Matches(s'.vnodes[v], T'[v])} | 0 <= v < |T'|
      ensures Matches(s'.vnodes[v], T'[v])
    {
      if v != step.v { assert Matches(s.vnodes[v], T[v]); }
    }
  }

  lemma ObtainAgrees(s: State, T: seq<Tally>, step: Step)
    requires Enabled(s, step) && Agree(s, T) && AllWhole(T) && Obtains(step).Some?
    ensures Agree(Apply(s, step), Tallied(s, T, step))
  {
    var s', T' := Apply(s, step), Tallied(s, T, step);
    forall v | 0 <= v < |T|
      ensures Matches(s.vnodes[v], T[v])
    {}
    if Stashes(step) { StashedIs(s, step); } else { ObtainedIs(s, step); }
    forall v {:trigger Matches(s'.vnodes[v], T'[v])} | 0 <= v < |T'|
      ensures Matches(s'.vnodes[v], T'[v])
    {
      if v < |T| { assert Matches(s.vnodes[v], T[v]); }
    }
  }

  // ------------------------------------------------ over every run

  ghost function Tallies(s: State, T: seq<Tally>, steps: seq<Step>, s': State): (r: seq<Tally>)
    requires Runs(s, steps, s') && Agree(s, T)
    ensures Agree(s', r)
    decreases |steps|
  {
    if steps == [] then T
    else
      assert AllWhole(T) by { AgreeWhole(s, T); }
      StepAgrees(s, T, steps[0]);
      Tallies(Apply(s, steps[0]), Tallied(s, T, steps[0]), steps[1..], s')
  }

  lemma AgreeWhole(s: State, T: seq<Tally>)
    requires Agree(s, T)
    ensures AllWhole(T)
  {
    forall v | 0 <= v < |T|
      ensures Whole(T[v])
    {
      assert Matches(s.vnodes[v], T[v]);
    }
  }

  // The uses of slot k of vnode v after a run, counted from its operations.
  ghost function UsesOf(steps: seq<Step>, s: State, v: nat, k: nat): nat
    requires Runs(Start, steps, s) && v < |s.vnodes| && k < MAXTYPE
  {
    var T := Tallies(Start, [], steps, s);
    AgreeWhole(s, T);
    T[v].uses[k]
  }

  // As long as the stash is there, only the thread that created the file can open it.
  lemma CreatorOpensFirst(steps: seq<Step>, s: State, v: nat, t: Tid, k: nat, reply: Option<Fh>)
    requires Runs(Start, steps, s) && Enabled(s, VnodeRuns.Open(v, t, k, reply))
    ensures var y := Tallies(Start, [], steps, s)[v]; y.stash.Some? ==> y.stash == Some(t)
  {
    assert Matches(s.vnodes[v], Tallies(Start, [], steps, s)[v]);
  }

  // Over every run the open count is the number of uses; so none is negative.
  lemma OpenCountIsUses(steps: seq<Step>, s: State, v: nat, k: nat)
    requires Runs(Start, steps, s) && v < |s.vnodes| && k < MAXTYPE
    ensures |s.vnodes[v].fufh| == MAXTYPE && s.vnodes[v].fufh[k].openCount == UsesOf(steps, s, v, k)
  {
    assert Matches(s.vnodes[v], Tallies(Start, [], steps, s)[v]);
  }

  // A close sends a RELEASE of the slot's handle exactly if it gives up the last
  // use of the slot; otherwise it sends nothing.
  lemma LastCloseReleases(steps: seq<Step>, s: State, v: nat, k: nat)
    requires Runs(Start, steps, s) && Enabled(s, VnodeRuns.Close(v, k))
    ensures var s' := Apply(s, VnodeRuns.Close(v, k));
            if UsesOf(steps, s, v, k) == 1
            then s'.books == s.books.(current := s.books.current - 1,
                                      released := s.books.released + multiset{s.vnodes[v].fufh[k].fhId})
            else s'.books == s.books
  {
    OpenCountIsUses(steps, s, v, k);
  }

  // Except for the creator's first, an open takes a new handle exactly if the slot
  // has no use and the daemon gives one.
  lemma FirstOpenGets(steps: seq<Step>, s: State, v: nat, t: Tid, k: nat, reply: Option<Fh>)
    requires Runs(Start, steps, s) && Enabled(s, VnodeRuns.Open(v, t, k, reply)) && !s.vnodes[v].creating
    ensures var s' := Apply(s, VnodeRuns.Open(v, t, k, reply));
            if UsesOf(steps, s, v, k) == 0 && reply.Some?
            then && s'.books == s.books.(current := s.books.current + 1,
                                         granted := s.books.granted + multiset{reply.value})
                 && s'.vnodes[v].fufh == s.vnodes[v].fufh[k := Slot(1, reply.value)]
            else s'.books == s.books && s'.vnodes[v].fufh[k].fhId == s.vnodes[v].fufh[k].fhId
  {
    OpenCountIsUses(steps, s, v, k);
  }

  // ------------------------------------------------ the end of a vnode

  function HandleIn(s: Slot): multiset<Fh> { if s.openCount > 0 then multiset{s.fhId} else multiset{} }

  // The handles in the slots from k on.
  function HandlesFrom(f: seq<Slot>, k: nat): multiset<Fh>
    requires |f| == MAXTYPE && k <= MAXTYPE
    decreases MAXTYPE - k
  {
    if k == MAXTYPE then multiset{} else HandleIn(f[k]) + HandlesFrom(f, k + 1)
  }

  lemma {:induction false} SameFrom(f: seq<Slot>, g: seq<Slot>, k: nat)
    requires |f| == |g| == MAXTYPE && k <= MAXTYPE && f[k..] == g[k..]
    ensures HandlesFrom(f, k) == HandlesFrom(g, k)
    decreases MAXTYPE - k
  {
    if k < MAXTYPE {
      assert f[k] == f[k..][0] && g[k] == g[k..][0];
      assert f[k + 1..] == f[k..][1..] && g[k + 1..] == g[k..][1..];
      SameFrom(f, g, k + 1);
    }
  }

  // The books after the handles H are put: a RELEASE is sent for each, or all are
  // abandoned.
  function Ended(b: Books, H: multiset<Fh>, dead: bool): Books {
    if dead then b.(current := b.current - |H|, abandoned := b.abandoned + H)
    else b.(current := b.current - |H|, released := b.released + H)
  }

  lemma EndedTwice(b: Books, H: multiset<Fh>, K: multiset<Fh>, dead: bool)
    ensures Ended(Ended(b, H, dead), K, dead) == Ended(b, H + K, dead)
  {
    assert b.released + H + K == b.released + (H + K) && b.abandoned + H + K == b.abandoned + (H + K);
  }

  lemma ReleaseOneBooks(a: Account, k: nat, dead: bool)
    requires Sized(a) && k < MAXTYPE
    ensures ReleaseOne(a, k, dead).books == Ended(a.books, HandleIn(a.fufh[k]), dead)
    ensures Sized(ReleaseOne(a, k, dead)) && ReleaseOne(a, k, dead).fufh[k + 1..] == a.fufh[k + 1..]
  {
    assert a.books.released + multiset{} == a.books.released && a.books.abandoned + multiset{} == a.books.abandoned;
  }

  lemma {:induction false} ReleasedBooks(a: Account, k: nat, dead: bool)
    requires Sized(a) && k <= MAXTYPE
    ensures ReleaseFrom(a, k, dead).books == Ended(a.books, HandlesFrom(a.fufh, k), dead)
    decreases MAXTYPE - k
  {
    if k < MAXTYPE {
      ReleaseOneBooks(a, k, dead);
      var a1 := ReleaseOne(a, k, dead);
      ReleasedBooks(a1, k + 1, dead);
      SameFrom(a1.fufh, a.fufh, k + 1);
      EndedTwice(a.books, HandleIn(a.fufh[k]), HandlesFrom(a.fufh, k + 1), dead);
    } else {
      assert a.books.released + multiset{} == a.books.released && a.books.abandoned + multiset{} == a.books.abandoned;
    }
  }

  // When a vnode goes inactive or is reclaimed, a RELEASE is sent for each handle in
  // use, unless the file system is dead or the vnode revoked: then nothing is sent.
  lemma EndReleases(s: State, step: Step)
    requires Enabled(s, step) && (step.Inactive? || step.Reclaim?)
    ensures var x := s.vnodes[step.v];
            Apply(s, step).books == Ended(s.books, HandlesFrom(x.fufh, 0), s.dead || x.revoked)
  {
    OnVnodeIs(s, step, Apply(s, step));
    ReleasedBooks(AccountOf(s, step.v), 0, DeadFor(s, step.v));
  }

  // A vnode that is reclaimed has all its lookups forgotten in one FORGET, with the
  // same exception; no other operation on a vnode sends one.
  lemma ReclaimForgets(s: State, step: Step)
    requires Enabled(s, step) && OnVnode(step)
    ensures var x, s' := s.vnodes[step.v], Apply(s, step);
            && s'.forgets == s.forgets + (if step.Reclaim? && !s.dead && !x.revoked && x.nlookup > 0
                                          then [Forget(x.nodeid, x.nlookup)] else [])
            && s'.vnodes[step.v].alive == !step.Reclaim?
  {
    OnVnodeIs(s, step, Apply(s, step));
    assert s.forgets + [] == s.forgets;
  }

  predicate IsRevoked(s: State, v: nat) { v < |s.vnodes| && s.vnodes[v].revoked }

  lemma StepDeath(s: State, step: Step, v: nat)
    requires Enabled(s, step)
    ensures Apply(s, step).dead == (s.dead || step == Die)
    ensures IsRevoked(Apply(s, step), v) == (IsRevoked(s, v) || step == Revoke(v))
  {
    if OnVnode(step) {
      VnodeDeath(s, step, v);
    } else if Obtains(step).Some? {
      ObtainDeath(s, step, v);
    }
  }

  lemma VnodeDeath(s: State, step: Step, v: nat)
    requires Enabled(s, step) && OnVnode(step)
    ensures DoOnVnode(s, step).dead == s.dead
    ensures IsRevoked(DoOnVnode(s, step), v) == (IsRevoked(s, v) || step == Revoke(v))
  {
    var s' := DoOnVnode(s, step);
    OnVnodeIs(s, step, s');
    assert s'.vnodes[step.v].revoked == (s.vnodes[step.v].revoked || step.Revoke?);
  }

  lemma ObtainDeath(s: State, step: Step, v: nat)
    requires Enabled(s, step) && Obtains(step).Some?
    ensures Apply(s, step).dead == s.dead && IsRevoked(Apply(s, step), v) == IsRevoked(s, v)
  {
    FindFinds(s.vnodes, Obtains(step).value);
  }

  lemma {:induction false} RunDeath(s: State, steps: seq<Step>, s': State, v: nat)
    requires Runs(s, steps, s')
    ensures s'.dead == (s.dead || Die in steps)
    ensures IsRevoked(s', v) == (IsRevoked(s, v) || Revoke(v) in steps)
    decreases |steps|
  {
    if steps != [] {
      assert steps == [steps[0]] + steps[1..];
      StepDeath(s, steps[0], v);
      RunDeath(Apply(s, steps[0]), steps[1..], s', v);
    }
  }

  // ------------------------------------------------ one vnode for each node

  ghost predicate OneEach(vs: seq<Vnode>) {
    forall v, x {:trigger vs[v], vs[x]} | 0 <= v < x < |vs| && vs[v].alive && vs[x].alive ::
        vs[v].nodeid != vs[x].nodeid
  }

  lemma OnVnodeOneEach(s: State, step: Step)
    requires Enabled(s, step) && OnVnode(step) && OneEach(s.vnodes)
    ensures OneEach(DoOnVnode(s, step).vnodes)
  {
    OnVnodeIs(s, step, DoOnVnode(s, step));
    ReclaimForgets(s, step);
  }

  lemma ObtainOneEach(s: State, step: Step)
    requires Enabled(s, step) && Obtains(step).Some? && OneEach(s.vnodes)
    ensures OneEach(Apply(s, step).vnodes)
  {
    FindFinds(s.vnodes, Obtains(step).value);
  }

  // Over every run no two living vnodes are for the same node.
  lemma {:induction false} OneVnodePerNode(s: State, steps: seq<Step>, s': State)
    requires Runs(s, steps, s') && OneEach(s.vnodes)
    ensures OneEach(s'.vnodes)
    decreases |steps|
  {
    if steps != [] {
      if OnVnode(steps[0]) {
        OnVnodeOneEach(s, steps[0]);
      } else if Obtains(steps[0]).Some? {
        ObtainOneEach(s, steps[0]);
      } else {
        OtherVnodes(s, steps[0]);
      }
      OneVnodePerNode(Apply(s, steps[0]), steps[1..], s');
    }
  }
}
