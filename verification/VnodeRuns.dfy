/** Runs of vnode operations over all vnodes of a mount: what becomes of every
    handle and of every lookup the daemon granted. Each operation is one step. */
module VnodeRuns {
  import opened Common
  import opened Handles

  type NodeId = nat

  const NULL_ID := 0
  const ROOT_ID := 1

  datatype Vnode = Vnode(
    nodeid: NodeId,
    alive: bool,
    revoked: bool,   // FN_REVOKED
    fufh: seq<Slot>,
    creating: bool,
    creator: Tid,
    nlookup: nat)

  function NewVnode(n: NodeId, creating: bool, t: Tid): Vnode { Vnode(n, true, false, NoHandles, creating, t, 0) }

  datatype Forget = Forget(nodeid: NodeId, nlookup: nat)

  datatype State = State(
    vnodes: seq<Vnode>,          // every vnode there ever was
    books: Books,
    stranded: multiset<Fh>,      // handles in CREATE replies that were rejected
    lost: multiset<Fh>,          // handles in replies that nobody was waiting for any more
    dead: bool,
    grants: multiset<NodeId>,    // entry replies naming a node
    forgets: seq<Forget>,        // FORGET messages, in order
    pending: multiset<NodeId>)   // RELEASE messages whose reply sends a FORGET

  const NoBooks := Books(0, multiset{}, multiset{}, multiset{})

  const Start := State([], NoBooks, multiset{}, multiset{}, false, multiset{}, [], multiset{})

  const NoHandles := [Slot(0, 0), Slot(0, 0), Slot(0, 0)]

  datatype Step =
    | Open(v: nat, tid: Tid, k: nat, reply: Option<Fh>)
    | Close(v: nat, k: nat)
    | Mmap(v: nat, k: nat, first: Reply, second: Reply)
    | Readdir(v: nat, reply: Option<Fh>)
    | Strategy(v: nat, read: bool, reply: Option<Fh>)
    | Inactive(v: nat)
    | Reclaim(v: nat)
    | Link(v: nat, typeOk: bool)
    | Lookup(n: NodeId, attrOk: bool, got: bool)        // got: a vnode could be had
    | NewEntry(n: NodeId, typeOk: bool, got: bool)
    | Create(n: NodeId, typeOk: bool, got: bool, fh: Option<Fh>, tid: Tid)  // no handle: MKNOD was sent
    | ReleaseAnswered(n: NodeId)                        // the daemon answers a pending RELEASE
    | ThrownAway(n: NodeId, fh: Option<Fh>)             // a reply to a request that was given up
    | Revoke(v: nat)
    | Root                                              // fuse_vfsop_root: a vnode no reply granted
    | Die

  predicate OnVnode(step: Step) {
    step.Open? || step.Close? || step.Mmap? || step.Readdir? || step.Strategy? || step.Inactive? || step.Reclaim?
      || step.Link? || step.Revoke?
  }

  predicate Slotted(step: Step) { (step.Open? || step.Close? || step.Mmap?) ==> step.k < MAXTYPE }

  predicate Enabled(s: State, step: Step) {
    && Slotted(step)
    && (OnVnode(step) ==> step.v < |s.vnodes| && s.vnodes[step.v].alive && |s.vnodes[step.v].fufh| == MAXTYPE)
    && (step.Open? && s.vnodes[step.v].creating ==> s.vnodes[step.v].creator == step.tid)
    && (step.ReleaseAnswered? ==> step.n in s.pending)
    && (s.dead ==> step.Inactive? || step.Reclaim? || step.ThrownAway? || step.Revoke? || step.Die?)
    && (step.Open? || step.Close? || step.Readdir? || step.Strategy? ==> !s.vnodes[step.v].revoked)
  }

  // fuse_isdeadfs
  predicate DeadFor(s: State, v: nat)
    requires v < |s.vnodes|
  {
    s.dead || s.vnodes[v].revoked
  }

  // The vnode of a node, if it has one.
  function Find(vs: seq<Vnode>, n: NodeId): Option<nat> {
    if vs == [] then None
    else if vs[|vs| - 1].alive && vs[|vs| - 1].nodeid == n then Some(|vs| - 1)
    else Find(vs[..|vs| - 1], n)
  }

  lemma {:induction false} FindFinds(vs: seq<Vnode>, n: NodeId)
    ensures Find(vs, n).Some? ==>
              Find(vs, n).value < |vs| && vs[Find(vs, n).value].alive && vs[Find(vs, n).value].nodeid == n
    ensures Find(vs, n).None? ==> forall v | 0 <= v < |vs| && vs[v].alive :: vs[v].nodeid != n
  {
    if vs != [] { FindFinds(vs[..|vs| - 1], n); }
  }

  function Granted(s: State, n: NodeId): State {
    if n == NULL_ID then s else s.(grants := s.grants + multiset{n})
  }

  function SendForget(s: State, n: NodeId, k: nat): State { s.(forgets := s.forgets + [Forget(n, k)]) }

  // FSNodeGetOrCreateFileVNodeByID
  function Obtain(s: State, n: NodeId, creating: bool, t: Tid): (State, nat) {
    if Find(s.vnodes, n).Some? then (s, Find(s.vnodes, n).value)
    else (s.(vnodes := s.vnodes + [NewVnode(n, creating, t)]), |s.vnodes|)
  }

  // fuse_vget_i
  function Counted(s: State, n: NodeId): State {
    var (s', v) := Obtain(s, n, false, 0);
    if v < |s'.vnodes| then s'.(vnodes := s'.vnodes[v := s'.vnodes[v].(nlookup := s'.vnodes[v].nlookup + 1)]) else s'
  }

  function AccountOf(s: State, v: nat): Account
    requires v < |s.vnodes|
  {
    Account(s.vnodes[v].fufh, s.books)
  }

  function WithAccount(s: State, v: nat, a: Account): State
    requires v < |s.vnodes|
  {
    s.(vnodes := s.vnodes[v := s.vnodes[v].(fufh := a.fufh)], books := a.books)
  }

  // What a step does to the handles of the vnode it is on.
  function AccountAfter(s: State, step: Step): Account
    requires Enabled(s, step) && OnVnode(step)
  {
    var a := AccountOf(s, step.v);
    match step
    case Open(v, t, k, reply) => if s.vnodes[v].creating then HandOff(a, k) else UseOrGet(a, k, reply)
    case Close(v, k) => Handles.Close(a, k)
    case Mmap(v, k, first, second) => Handles.Mmap(a, k, first, second)
    case Readdir(v, reply) => Handles.Readdir(a, reply)
    case Strategy(v, read, reply) => Handles.Strategy(a, read, reply)
    case Inactive(v) => ReleaseFrom(a, 0, DeadFor(s, v))
    case Reclaim(v) => ReleaseFrom(a, 0, DeadFor(s, v))
    case _ => a
  }

  function DoOnVnode(s: State, step: Step): State
    requires Enabled(s, step) && OnVnode(step)
  {
    var x := s.vnodes[step.v];
    var s' := WithAccount(s, step.v, AccountAfter(s, step));
    var x' := s'.vnodes[step.v];
    if step.Open? then s'.(vnodes := s'.vnodes[step.v := x'.(creating := false)])
    else if step.Revoke? then s'.(vnodes := s'.vnodes[step.v := x'.(revoked := true)])
    else if step.Reclaim? then
      var s'' := s'.(vnodes := s'.vnodes[step.v := x'.(alive := false, nlookup := 0)]);
      if !DeadFor(s, step.v) && x.nlookup > 0 then SendForget(s'', x.nodeid, x.nlookup) else s''
    else if step.Link? then
      var s'' := Granted(s', x.nodeid);
      if Rejected(x.nodeid, step.typeOk) then s''
      else s''.(vnodes := s''.vnodes[step.v := x'.(nlookup := x'.nlookup + 1)])
    else s'
  }

  // fuse_internal_checkentry
  predicate Rejected(n: NodeId, typeOk: bool) { !typeOk || n == NULL_ID || n == ROOT_ID }

  function DoLookup(s: State, n: NodeId, attrOk: bool, got: bool): State {
    if n == NULL_ID || n == ROOT_ID then Granted(s, n)
    else if !attrOk || !got then SendForget(Granted(s, n), n, 1)
    else Counted(Granted(s, n), n)
  }

  function DoNewEntry(s: State, n: NodeId, typeOk: bool, got: bool): State {
    if Rejected(n, typeOk) then Granted(s, n)
    else if !got then SendForget(Granted(s, n), n, 1)
    else Counted(Granted(s, n), n)
  }

  function TakeIn(b: Books, fh: Fh): Books { b.(granted := b.granted + multiset{fh}) }

  function DoCreate(s: State, n: NodeId, typeOk: bool, got: bool, fh: Option<Fh>, t: Tid): State {
    var s1 := Granted(s, n);
    if Rejected(n, typeOk) then
      if fh == None then s1 else s1.(books := TakeIn(s.books, fh.value), stranded := s.stranded + multiset{fh.value})
    else if !got then
      if fh == None then SendForget(s1, n, 1)
      else s1.(books := TakeIn(s.books, fh.value).(released := s.books.released + multiset{fh.value}),
        pending := s.pending + multiset{n})
    else
      var (s2, v) := Obtain(s1, n, fh.Some?, t);
      if fh == None || v >= |s2.vnodes| || |s2.vnodes[v].fufh| != MAXTYPE then s2
      else WithAccount(s2, v, Stash(AccountOf(s2, v), fh.value))
  }

  // The requester was interrupted; the writer drops the ticket with the reply.
  function DoThrowAway(s: State, n: NodeId, fh: Option<Fh>): State {
    var s1 := Granted(s, n);
    if fh == None then s1 else s1.(books := TakeIn(s.books, fh.value), lost := s.lost + multiset{fh.value})
  }

  function Apply(s: State, step: Step): State
    requires Enabled(s, step)
  {
    if OnVnode(step) then DoOnVnode(s, step)
    else match step
      case Lookup(n, attrOk, got) => DoLookup(s, n, attrOk, got)
      case NewEntry(n, typeOk, got) => DoNewEntry(s, n, typeOk, got)
      case Create(n, typeOk, got, fh, t) => DoCreate(s, n, typeOk, got, fh, t)
      case ReleaseAnswered(n) => SendForget(s.(pending := s.pending - multiset{n}), n, 1)
      case ThrownAway(n, fh) => DoThrowAway(s, n, fh)
      case Root => Obtain(s, ROOT_ID, false, 0).0
      case Die => s.(dead := true)
      case _ => s
  }

  ghost predicate Runs(s: State, steps: seq<Step>, s': State)
    decreases |steps|
  {
    if steps == [] then s == s'
    else Enabled(s, steps[0]) && Runs(Apply(s, steps[0]), steps[1..], s')
  }

  // ------------------------------------------------ lookups

  function Live(vs: seq<Vnode>, n: NodeId): nat {
    if vs == [] then 0 else Live(vs[..|vs| - 1], n) + if vs[|vs| - 1].nodeid == n then vs[|vs| - 1].nlookup else 0
  }

  function Forgotten(fs: seq<Forget>, n: NodeId): nat {
    if fs == [] then 0 else Forgotten(fs[..|fs| - 1], n) + if fs[|fs| - 1].nodeid == n then fs[|fs| - 1].nlookup else 0
  }

  // Grants of node n that a step takes in without counting them, or drops.
  function Leak(s: State, step: Step, n: NodeId): nat
    requires Enabled(s, step)
  {
    match step
    case Lookup(m, _, _) => if m == n == ROOT_ID then 1 else 0
    case NewEntry(m, typeOk, _) => if m == n != NULL_ID && Rejected(m, typeOk) then 1 else 0
    case Create(m, typeOk, got, _, _) => if m == n != NULL_ID && (got || Rejected(m, typeOk)) then 1 else 0
    case Link(v, typeOk) => if s.vnodes[v].nodeid == n != NULL_ID && Rejected(n, typeOk) then 1 else 0
    case ThrownAway(m, _) => if m == n != NULL_ID then 1 else 0
    case Reclaim(v) => if DeadFor(s, v) && s.vnodes[v].nodeid == n then s.vnodes[v].nlookup else 0
    case _ => 0
  }

  ghost function Leaked(s: State, steps: seq<Step>, s': State, n: NodeId): nat
    requires Runs(s, steps, s')
    decreases |steps|
  {
    if steps == [] then 0 else Leak(s, steps[0], n) + Leaked(Apply(s, steps[0]), steps[1..], s', n)
  }

  // Grants not accounted for.
  function Owed(s: State, n: NodeId): int { s.grants[n] - Forgotten(s.forgets, n) - Live(s.vnodes, n) - s.pending[n] }

  lemma ForgottenSend(fs: seq<Forget>, f: Forget, n: NodeId)
    ensures Forgotten(fs + [f], n) == Forgotten(fs, n) + if f.nodeid == n then f.nlookup else 0
  {
    assert (fs + [f])[..|fs|] == fs;
  }

  lemma {:induction false} LiveUpdate(vs: seq<Vnode>, v: nat, x: Vnode, n: NodeId)
    requires v < |vs| && x.nodeid == vs[v].nodeid
    ensures Live(vs[v := x], n) == Live(vs, n) + if x.nodeid == n then x.nlookup - vs[v].nlookup else 0
  {
    if v < |vs| - 1 {
      LiveUpdate(vs[..|vs| - 1], v, x, n);
      assert vs[v := x][..|vs| - 1] == vs[..|vs| - 1][v := x];
    } else {
      assert vs[v := x][..|vs| - 1] == vs[..|vs| - 1];
    }
  }

  lemma LiveAppend(vs: seq<Vnode>, x: Vnode, n: NodeId)
    ensures Live(vs + [x], n) == Live(vs, n) + if x.nodeid == n then x.nlookup else 0
  {
    assert (vs + [x])[..|vs|] == vs;
  }

  lemma CountedOwes(s: State, n: NodeId, m: NodeId)
    ensures Owed(Counted(s, n), m) == Owed(s, m) - if m == n then 1 else 0
  {
    FindFinds(s.vnodes, n);
    var (s', v) := Obtain(s, n, false, 0);
    LiveAppend(s.vnodes, NewVnode(n, false, 0), m);
    LiveUpdate(s'.vnodes, v, s'.vnodes[v].(nlookup := s'.vnodes[v].nlookup + 1), m);
  }

  // A step on a vnode changes that vnode, the books and what its kind says.
  lemma OnVnodeIs(s: State, step: Step, s': State)
    requires Enabled(s, step) && OnVnode(step) && s' == DoOnVnode(s, step)
    ensures |s'.vnodes| == |s.vnodes| && s'.vnodes == s.vnodes[step.v := s'.vnodes[step.v]]
    ensures s'.vnodes[step.v].nodeid == s.vnodes[step.v].nodeid
    ensures s'.vnodes[step.v].fufh == AccountAfter(s, step).fufh && s'.books == AccountAfter(s, step).books
    ensures s'.stranded == s.stranded && s'.lost == s.lost
    ensures s'.pending == s.pending
    ensures !step.Link? ==> s'.grants == s.grants
  {
  }

  lemma OnVnodeOwes(s: State, step: Step, n: NodeId)
    requires Enabled(s, step) && OnVnode(step)
    ensures Owed(DoOnVnode(s, step), n) == Owed(s, n) + Leak(s, step, n)
  {
    if step.Link? {
      LinkOwes(s, step, n);
    } else if step.Reclaim? {
      ReclaimOwes(s, step, n);
    } else {
      var s' := DoOnVnode(s, step);
      OnVnodeIs(s, step, s');
      LiveUpdate(s.vnodes, step.v, s'.vnodes[step.v], n);
    }
  }

  lemma LinkOwes(s: State, step: Step, n: NodeId)
    requires Enabled(s, step) && step.Link?
    ensures Owed(DoOnVnode(s, step), n) == Owed(s, n) + Leak(s, step, n)
  {
    var s' := DoOnVnode(s, step);
    OnVnodeIs(s, step, s');
    LiveUpdate(s.vnodes, step.v, s'.vnodes[step.v], n);
  }

  lemma ReclaimOwes(s: State, step: Step, n: NodeId)
    requires Enabled(s, step) && step.Reclaim?
    ensures Owed(DoOnVnode(s, step), n) == Owed(s, n) + Leak(s, step, n)
  {
    var x, s' := s.vnodes[step.v], DoOnVnode(s, step);
    OnVnodeIs(s, step, s');
    LiveUpdate(s.vnodes, step.v, s'.vnodes[step.v], n);
    ForgottenSend(s.forgets, Forget(x.nodeid, x.nlookup), n);
  }

  lemma ObtainLive(s: State, n: NodeId, creating: bool, t: Tid, m: NodeId)
    ensures var (s', v) := Obtain(s, n, creating, t);
            v < |s'.vnodes| && Owed(s', m) == Owed(s, m)
  {
    FindFinds(s.vnodes, n);
    LiveAppend(s.vnodes, NewVnode(n, creating, t), m);
  }

  lemma AccountLive(s: State, v: nat, a: Account, m: NodeId)
    requires v < |s.vnodes|
    ensures Owed(WithAccount(s, v, a), m) == Owed(s, m)
  {
    LiveUpdate(s.vnodes, v, s.vnodes[v].(fufh := a.fufh), m);
  }

  lemma CreateOwes(s: State, step: Step, n: NodeId)
    requires Enabled(s, step) && step.Create?
    ensures Owed(Apply(s, step), n) == Owed(s, n) + Leak(s, step, n)
  {
    ForgottenSend(s.forgets, Forget(step.n, 1), n);
    if !Rejected(step.n, step.typeOk) && step.got { CreatedOwes(s, step, n); }
  }

  lemma CreatedOwes(s: State, step: Step, n: NodeId)
    requires Enabled(s, step) && step.Create? && step.got && !Rejected(step.n, step.typeOk)
    ensures Owed(Apply(s, step), n) == Owed(s, n) + if step.n == n then 1 else 0
  {
    var s1 := Granted(s, step.n);
    var (s2, v) := Obtain(s1, step.n, step.fh.Some?, step.tid);
    ObtainLive(s1, step.n, step.fh.Some?, step.tid, n);
    if step.fh.Some? && |s2.vnodes[v].fufh| == MAXTYPE {
      AccountLive(s2, v, Stash(AccountOf(s2, v), step.fh.value), n);
    }
  }

  lemma EntryOwes(s: State, step: Step, n: NodeId)
    requires Enabled(s, step) && (step.Lookup? || step.NewEntry?)
    ensures Owed(Apply(s, step), n) == Owed(s, n) + Leak(s, step, n)
  {
    var s1 := Granted(s, step.n);
    assert step.n != NULL_ID ==> Owed(s1, n) == Owed(s, n) + if step.n == n then 1 else 0;
    ForgottenSend(s.forgets, Forget(step.n, 1), n);
    CountedOwes(s1, step.n, n);
  }

  // Every step leaves owed what it was, but for what it leaks.
  lemma StepOwes(s: State, step: Step, n: NodeId)
    requires Enabled(s, step)
    ensures Owed(Apply(s, step), n) == Owed(s, n) + Leak(s, step, n)
  {
    if OnVnode(step) {
      OnVnodeOwes(s, step, n);
    } else if step.Create? {
      CreateOwes(s, step, n);
    } else if step.Lookup? || step.NewEntry? {
      EntryOwes(s, step, n);
    } else if step.Root? {
      ObtainLive(s, ROOT_ID, false, 0, n);
    } else if step.ReleaseAnswered? {
      ForgottenSend(s.forgets, Forget(step.n, 1), n);
    }
  }

  lemma {:induction false} RunOwes(s: State, steps: seq<Step>, s': State, n: NodeId)
    requires Runs(s, steps, s')
    ensures Owed(s', n) == Owed(s, n) + Leaked(s, steps, s', n)
    decreases |steps|
  {
    if steps != [] {
      StepOwes(s, steps[0], n);
      RunOwes(Apply(s, steps[0]), steps[1..], s', n);
    }
  }

  // Over every run and for every node: the lookups the daemon granted are the ones
  // forgotten, the ones still counted, those a pending RELEASE will forget, and
  // exactly those leaked. So a node is never forgotten more often than granted.
  lemma LookupsConserved(steps: seq<Step>, s: State, n: NodeId)
    requires Runs(Start, steps, s)
    ensures s.grants[n] == Forgotten(s.forgets, n) + Live(s.vnodes, n) + s.pending[n] + Leaked(Start, steps, s, n)
    ensures Forgotten(s.forgets, n) + Live(s.vnodes, n) <= s.grants[n]
  {
    RunOwes(Start, steps, s, n);
  }

  // ------------------------------------------------ handles

  function Valid(vs: seq<Vnode>): nat {
    if vs == [] then 0
    else Valid(vs[..|vs| - 1]) + if |vs[|vs| - 1].fufh| == MAXTYPE then ValidSlots(vs[|vs| - 1].fufh) else 0
  }

  function HeldBy(vs: seq<Vnode>, h: Fh): nat {
    if vs == [] then 0
    else HeldBy(vs[..|vs| - 1], h) + if |vs[|vs| - 1].fufh| == MAXTYPE then Held(vs[|vs| - 1].fufh, h) else 0
  }

  lemma {:induction false} SlotsUpdate(vs: seq<Vnode>, v: nat, x: Vnode, h: Fh)
    requires v < |vs| && |x.fufh| == |vs[v].fufh| == MAXTYPE
    ensures Valid(vs[v := x]) == Valid(vs) - ValidSlots(vs[v].fufh) + ValidSlots(x.fufh)
    ensures HeldBy(vs[v := x], h) == HeldBy(vs, h) - Held(vs[v].fufh, h) + Held(x.fufh, h)
  {
    if v < |vs| - 1 {
      SlotsUpdate(vs[..|vs| - 1], v, x, h);
      assert vs[v := x][..|vs| - 1] == vs[..|vs| - 1][v := x];
    } else {
      assert vs[v := x][..|vs| - 1] == vs[..|vs| - 1];
    }
  }

  lemma SlotsAppend(vs: seq<Vnode>, x: Vnode, h: Fh)
    requires x.fufh == NoHandles
    ensures Valid(vs + [x]) == Valid(vs) && HeldBy(vs + [x], h) == HeldBy(vs, h)
  {
    assert (vs + [x])[..|vs|] == vs;
  }

  // How far fuse_fh_current is from the number of valid slots.
  function Excess(s: State): int { s.books.current - Valid(s.vnodes) }

  // Handles not accounted for.
  function Missing(s: State, h: Fh): int {
    s.books.granted[h] - Gone(s.books, h) - s.stranded[h] - s.lost[h] - HeldBy(s.vnodes, h)
  }

  // Does the step find the slots as the code expects them? Create must find the
  // read-write slot free, and the creator's open must find one handle to move.
  predicate Fair(s: State, step: Step)
    requires Enabled(s, step)
  {
    match step
    case Open(v, _, k, _) =>
      s.vnodes[v].creating ==>
        var f := s.vnodes[v].fufh;
        if k == RDWR then IsValid(f[RDWR]) else IsValid(f[RDWR]) != IsValid(f[k])
    case Create(n, typeOk, got, fh, _) =>
      !Rejected(n, typeOk) && got && fh.Some? ==>
        var v := Find(s.vnodes, n);
        v.Some? && v.value < |s.vnodes| && |s.vnodes[v.value].fufh| == MAXTYPE ==>
            !IsValid(s.vnodes[v.value].fufh[RDWR])
    case _ => true
  }

  lemma AccountKept(s: State, step: Step)
    requires Enabled(s, step) && OnVnode(step)
    ensures Sized(AccountAfter(s, step))
    ensures CountKept(AccountOf(s, step.v), AccountAfter(s, step)) <==> Fair(s, step)
    ensures !(step.Open? && s.vnodes[step.v].creating) ==> HandlesKept(AccountOf(s, step.v), AccountAfter(s, step))
  {
    var a := AccountOf(s, step.v);
    match step
    case Open(v, t, k, reply) => HandOffKeeps(a, k); UseOrGetKeeps(a, k, reply);
    case Close(v, k) => CloseKeeps(a, k);
    case Mmap(v, k, first, second) => MmapKeeps(a, k, first, second);
    case Readdir(v, reply) => ReaddirKeeps(a, reply);
    case Strategy(v, read, reply) => StrategyKeeps(a, read, reply);
    case Inactive(v) => ReleaseKeeps(a, 0, DeadFor(s, v));
    case Reclaim(v) => ReleaseKeeps(a, 0, DeadFor(s, v));
    case Link(v, typeOk) => assert AccountAfter(s, step) == a;
    case Revoke(v) => assert AccountAfter(s, step) == a;
  }

  lemma OnVnodeExcess(s: State, step: Step)
    requires Enabled(s, step) && OnVnode(step)
    ensures Excess(DoOnVnode(s, step)) == Excess(s) <==> Fair(s, step)
  {
    var s' := DoOnVnode(s, step);
    OnVnodeIs(s, step, s');
    AccountKept(s, step);
    SlotsUpdate(s.vnodes, step.v, s'.vnodes[step.v], 0);
  }

  lemma ObtainSlots(s: State, n: NodeId, creating: bool, t: Tid, h: Fh)
    requires AllSized(s)
    ensures var (s', v) := Obtain(s, n, creating, t);
            && v < |s'.vnodes| && AllSized(s')
            && Valid(s'.vnodes) == Valid(s.vnodes) && HeldBy(s'.vnodes, h) == HeldBy(s.vnodes, h)
  {
    FindFinds(s.vnodes, n);
    SlotsAppend(s.vnodes, NewVnode(n, creating, t), h);
  }

  lemma CountedSlots(s: State, n: NodeId, h: Fh)
    requires AllSized(s)
    ensures Valid(Counted(s, n).vnodes) == Valid(s.vnodes) && HeldBy(Counted(s, n).vnodes, h) == HeldBy(s.vnodes, h)
    ensures AllSized(Counted(s, n))
    ensures Counted(s, n).books == s.books && Counted(s, n).stranded == s.stranded && Counted(s, n).lost == s.lost
  {
    ObtainSlots(s, n, false, 0, h);
    var (s', v) := Obtain(s, n, false, 0);
    SlotsUpdate(s'.vnodes, v, s'.vnodes[v].(nlookup := s'.vnodes[v].nlookup + 1), h);
  }

  ghost predicate AllSized(s: State) { forall v | 0 <= v < |s.vnodes| :: |s.vnodes[v].fufh| == MAXTYPE }

  lemma AccountExcess(s: State, v: nat, a: Account)
    requires v < |s.vnodes| && |s.vnodes[v].fufh| == MAXTYPE && Sized(a)
    ensures Excess(WithAccount(s, v, a)) == Excess(s) <==> CountKept(AccountOf(s, v), a)
  {
    SlotsUpdate(s.vnodes, v, s.vnodes[v].(fufh := a.fufh), 0);
  }

  lemma CreateExcess(s: State, step: Step)
    requires AllSized(s) && Enabled(s, step) && step.Create?
    ensures Excess(Apply(s, step)) == Excess(s) <==> Fair(s, step)
  {
    if !Rejected(step.n, step.typeOk) && step.got { CreatedExcess(s, step); }
  }

  lemma CreatedExcess(s: State, step: Step)
    requires AllSized(s) && Enabled(s, step) && step.Create? && step.got && !Rejected(step.n, step.typeOk)
    ensures Excess(Apply(s, step)) == Excess(s) <==> Fair(s, step)
  {
    var s1 := Granted(s, step.n);
    ObtainSlots(s1, step.n, step.fh.Some?, step.tid, 0);
    FindFinds(s.vnodes, step.n);
    if step.fh.Some? {
      var (s2, v) := Obtain(s1, step.n, true, step.tid);
      StashKeeps(AccountOf(s2, v), step.fh.value);
      AccountExcess(s2, v, Stash(AccountOf(s2, v), step.fh.value));
    }
  }

  // A step keeps fuse_fh_current in line with the valid slots exactly if it is fair.
  lemma StepCounts(s: State, step: Step)
    requires AllSized(s) && Enabled(s, step)
    ensures Excess(Apply(s, step)) == Excess(s) <==> Fair(s, step)
  {
    if OnVnode(step) {
      OnVnodeExcess(s, step);
    } else if step.Create? {
      CreateExcess(s, step);
    } else if step.Lookup? || step.NewEntry? {
      CountedSlots(Granted(s, step.n), step.n, 0);
    } else if step.Root? {
      ObtainSlots(s, ROOT_ID, false, 0, 0);
    }
  }

  // ------------------------------------------------ runs as the VFS layer drives them

  // Create makes a new vnode, and of the operations on its handles the creator's
  // open comes first, unless the file system dies or the vnode is revoked before.
  predicate Orderly(s: State, step: Step)
    requires Enabled(s, step)
  {
    && (OnVnode(step) && s.vnodes[step.v].creating && !DeadFor(s, step.v) ==> step.Open? || step.Link? || step.Revoke?)
    && (step.Create? && step.fh.Some? && step.got && !Rejected(step.n, step.typeOk) ==> Find(s.vnodes, step.n) == None)
  }

  ghost predicate OrderlyRun(s: State, steps: seq<Step>, s': State)
    decreases |steps|
  {
    if steps == [] then s == s'
    else Enabled(s, steps[0]) && Orderly(s, steps[0]) && OrderlyRun(Apply(s, steps[0]), steps[1..], s')
  }

  // A vnode under creation has the stash and nothing else.
  predicate VnodeOk(x: Vnode, dead: bool) {
    && |x.fufh| == MAXTYPE
    && (x.creating && !x.revoked && !dead ==>
        x.fufh[RDWR].openCount == 1 && !IsValid(x.fufh[RDONLY]) && !IsValid(x.fufh[WRONLY]))
  }

  ghost predicate InOrder(s: State) {
    && (forall v | 0 <= v < |s.vnodes| :: VnodeOk(s.vnodes[v], s.dead))
    && Excess(s) == 0
    && forall h {:trigger Missing(s, h)} :: Missing(s, h) == 0
  }

  lemma OrderlyOnVnode(s: State, step: Step)
    requires InOrder(s) && Enabled(s, step) && OnVnode(step) && Orderly(s, step)
    ensures InOrder(DoOnVnode(s, step))
  {
    var s' := DoOnVnode(s, step);
    OnVnodeIs(s, step, s');
    AccountKept(s, step);
    OnVnodeExcess(s, step);
    assert VnodeOk(s.vnodes[step.v], s.dead);
    if step.Open? { HandOffKeeps(AccountOf(s, step.v), step.k); }
    forall h {:trigger Missing(s', h)}
      ensures Missing(s', h) == 0
    {
      assert Missing(s, h) == 0;
      assert Unaccounted(AccountAfter(s, step), h) == Unaccounted(AccountOf(s, step.v), h);
      SlotsUpdate(s.vnodes, step.v, s'.vnodes[step.v], h);
    }
  }

  lemma OrderlyEntry(s: State, step: Step)
    requires InOrder(s) && Enabled(s, step) && (step.Lookup? || step.NewEntry?)
    ensures InOrder(Apply(s, step))
  {
    var s' := Apply(s, step);
    StepCounts(s, step);
    CountedOk(Granted(s, step.n), step.n);
    forall h {:trigger Missing(s', h)}
      ensures Missing(s', h) == 0
    {
      assert Missing(s, h) == 0;
      EntryMissing(s, step, h);
    }
  }

  lemma CountedOk(s: State, n: NodeId)
    requires forall v | 0 <= v < |s.vnodes| :: VnodeOk(s.vnodes[v], s.dead)
    ensures forall v | 0 <= v < |Counted(s, n).vnodes| :: VnodeOk(Counted(s, n).vnodes[v], s.dead)
  {
    FindFinds(s.vnodes, n);
  }

  lemma EntryMissing(s: State, step: Step, h: Fh)
    requires AllSized(s) && Enabled(s, step) && (step.Lookup? || step.NewEntry?)
    ensures Missing(Apply(s, step), h) == Missing(s, h)
  {
    CountedSlots(Granted(s, step.n), step.n, h);
  }

  lemma OrderlyCreate(s: State, step: Step)
    requires InOrder(s) && Enabled(s, step) && step.Create? && Orderly(s, step)
    ensures InOrder(Apply(s, step))
  {
    var s' := Apply(s, step);
    StepCounts(s, step);
    forall h {:trigger Missing(s', h)}
      ensures Missing(s', h) == 0
    {
      assert Missing(s, h) == 0;
      CreateMissing(s, step, h);
    }
  }

  lemma CreateMissing(s: State, step: Step, h: Fh)
    requires AllSized(s) && Enabled(s, step) && step.Create? && Orderly(s, step)
    ensures Missing(Apply(s, step), h) == Missing(s, h)
  {
    if !Rejected(step.n, step.typeOk) && step.got {
      var s1 := Granted(s, step.n);
      ObtainSlots(s1, step.n, step.fh.Some?, step.tid, h);
      if step.fh.Some? {
        var (s2, v) := Obtain(s1, step.n, true, step.tid);
        StashMissing(s2, v, step.fh.value, h);
      }
    }
  }

  lemma StashMissing(s: State, v: nat, fh: Fh, h: Fh)
    requires v < |s.vnodes| && s.vnodes[v].fufh == NoHandles
    ensures Missing(WithAccount(s, v, Stash(AccountOf(s, v), fh)), h) == Missing(s, h)
  {
    var f := Stash(AccountOf(s, v), fh).fufh;
    assert f == [Slot(0, 0), Slot(0, 0), Slot(1, fh)];
    SlotsUpdate(s.vnodes, v, s.vnodes[v].(fufh := f), h);
  }

  lemma OrderlyRoot(s: State)
    requires InOrder(s)
    ensures InOrder(Obtain(s, ROOT_ID, false, 0).0)
  {
    var s' := Obtain(s, ROOT_ID, false, 0).0;
    ObtainSlots(s, ROOT_ID, false, 0, 0);
    forall h {:trigger Missing(s', h)}
      ensures Missing(s', h) == 0
    {
      assert Missing(s, h) == 0;
      ObtainSlots(s, ROOT_ID, false, 0, h);
    }
  }

  lemma StepInOrder(s: State, step: Step)
    requires InOrder(s) && Enabled(s, step) && Orderly(s, step)
    ensures InOrder(Apply(s, step))
  {
    if OnVnode(step) {
      OrderlyOnVnode(s, step);
    } else if step.Create? {
      OrderlyCreate(s, step);
    } else if step.Lookup? || step.NewEntry? {
      OrderlyEntry(s, step);
    } else if step.Root? {
      OrderlyRoot(s);
    } else {
      var s' := Apply(s, step);
      assert forall h :: Missing(s', h) == Missing(s, h);
    }
  }

  lemma {:induction false} RunInOrder(s: State, steps: seq<Step>, s': State)
    requires InOrder(s) && OrderlyRun(s, steps, s')
    ensures InOrder(s')
    decreases |steps|
  {
    if steps != [] {
      StepInOrder(s, steps[0]);
      RunInOrder(Apply(s, steps[0]), steps[1..], s');
    }
  }

  // Over every orderly run fuse_fh_current is the number of valid slots over all
  // vnodes; and every handle the daemon gave out is held in one slot for each time
  // it was given out, had a RELEASE sent for it, was abandoned on a dead file
  // system, stranded by a rejected CREATE reply, or lost in a reply thrown away.
  lemma HandlesConserved(steps: seq<Step>, s: State)
    requires OrderlyRun(Start, steps, s)
    ensures s.books.current == Valid(s.vnodes)
    ensures forall h :: s.books.granted[h] ==
              HeldBy(s.vnodes, h) + s.books.released[h] + s.books.abandoned[h] + s.stranded[h] + s.lost[h]
  {
    RunInOrder(Start, steps, s);
    forall h
      ensures s.books.granted[h] ==
                HeldBy(s.vnodes, h) + s.books.released[h] + s.books.abandoned[h] + s.stranded[h] + s.lost[h]
    {
      assert Missing(s, h) == 0;
    }
  }

  // While the file system is alive and no vnode was revoked, none is abandoned.
  lemma {:induction false} LiveRunsAbandonNothing(s: State, steps: seq<Step>, s': State)
    requires Runs(s, steps, s') && s.books.abandoned == multiset{} && !s.dead
    requires (forall v | 0 <= v < |s.vnodes| :: !s.vnodes[v].revoked)
    requires forall i | 0 <= i < |steps| :: !steps[i].Die? && !steps[i].Revoke?
    ensures s'.books.abandoned == multiset{}
    decreases |steps|
  {
    if steps != [] {
      StepAbandonsNothing(s, steps[0]);
      LiveRunsAbandonNothing(Apply(s, steps[0]), steps[1..], s');
    }
  }

  lemma StepAbandonsNothing(s: State, step: Step)
    requires Enabled(s, step) && s.books.abandoned == multiset{} && !s.dead && !step.Die? && !step.Revoke?
    requires forall v | 0 <= v < |s.vnodes| :: !s.vnodes[v].revoked
    ensures Apply(s, step).books.abandoned == multiset{} && !Apply(s, step).dead
    ensures forall v | 0 <= v < |Apply(s, step).vnodes| :: !Apply(s, step).vnodes[v].revoked
  {
    if OnVnode(step) {
      OnVnodeAbandonsNothing(s, step);
    } else if step.Create? || step.Lookup? || step.NewEntry? {
      EntryAbandonsNothing(s, step);
    }
  }

  lemma EntryAbandonsNothing(s: State, step: Step)
    requires Enabled(s, step) && (step.Create? || step.Lookup? || step.NewEntry?)
    requires s.books.abandoned == multiset{} && forall v | 0 <= v < |s.vnodes| :: !s.vnodes[v].revoked
    ensures Apply(s, step).books.abandoned == multiset{} && Apply(s, step).dead == s.dead
    ensures forall v | 0 <= v < |Apply(s, step).vnodes| :: !Apply(s, step).vnodes[v].revoked
  {
    FindFinds(s.vnodes, step.n);
    if step.Create? { CreateAbandonsNothing(s, step.n, step.typeOk, step.got, step.fh, step.tid); }
  }

  lemma CreateAbandonsNothing(s: State, n: NodeId, typeOk: bool, got: bool, fh: Option<Fh>, t: Tid)
    requires s.books.abandoned == multiset{} && forall v | 0 <= v < |s.vnodes| :: !s.vnodes[v].revoked
    ensures DoCreate(s, n, typeOk, got, fh, t).books.abandoned == multiset{}
    ensures DoCreate(s, n, typeOk, got, fh, t).dead == s.dead
    ensures forall v | 0 <= v < |DoCreate(s, n, typeOk, got, fh, t).vnodes| ::
              !DoCreate(s, n, typeOk, got, fh, t).vnodes[v].revoked
  {
    FindFinds(s.vnodes, n);
  }

  lemma OnVnodeAbandonsNothing(s: State, step: Step)
    requires Enabled(s, step) && OnVnode(step) && s.books.abandoned == multiset{} && !s.dead && !step.Revoke?
    requires forall v | 0 <= v < |s.vnodes| :: !s.vnodes[v].revoked
    ensures DoOnVnode(s, step).books.abandoned == multiset{} && !DoOnVnode(s, step).dead
    ensures forall v | 0 <= v < |DoOnVnode(s, step).vnodes| :: !DoOnVnode(s, step).vnodes[v].revoked
  {
    var s' := DoOnVnode(s, step);
    OnVnodeIs(s, step, s');
    AccountAbandonsNothing(s, step);
    assert !s'.vnodes[step.v].revoked;
  }

  lemma AccountAbandonsNothing(s: State, step: Step)
    requires Enabled(s, step) && OnVnode(step) && !DeadFor(s, step.v)
    ensures AccountAfter(s, step).books.abandoned == s.books.abandoned
  {
    if step.Inactive? || step.Reclaim? { ReleaseFrees(AccountOf(s, step.v), 0, false); }
  }

  // Out of order the count goes wrong: if the vnode goes inactive before the
  // creator's open, the stash is released and picked up all the same.
  lemma InactiveBeforeOpen() returns (steps: seq<Step>, s: State)
    ensures Runs(Start, steps, s)
    ensures s.books.current == 0 && Valid(s.vnodes) == 1
    ensures |s.vnodes| == 1 && s.vnodes[0].fufh == [Slot(1, 42), Slot(0, 0), Slot(0, 42)] && 42 in s.books.released
  {
    var create, inactive, open := Create(7, true, true, Some(42), 0), Inactive(0), Open(0, 0, RDONLY, None);
    var s1 := Apply(Start, create);
    Created();
    var a := AccountOf(s1, 0);
    ReleasedStash(a);
    var s2 := Apply(s1, inactive);
    assert s2.vnodes[0].fufh == [Slot(0, 0), Slot(0, 0), Slot(0, 42)] && s2.vnodes[0].creating;
    s := Apply(s2, open);
    assert s.vnodes[0].fufh == [Slot(1, 42), Slot(0, 0), Slot(0, 42)];
    assert s.vnodes[..0] == [];
    steps := [create, inactive, open];
    ThreeSteps(Start, create, s1, inactive, s2, open, s);
  }

  lemma Created()
    ensures var s := Apply(Start, Create(7, true, true, Some(42), 0));
            && s.vnodes == [Vnode(7, true, false, [Slot(0, 0), Slot(0, 0), Slot(1, 42)], true, 0, 0)]
            && s.books == Books(1, multiset{42}, multiset{}, multiset{}) && !s.dead
  {
    assert NoHandles[RDWR := Slot(1, 42)] == [Slot(0, 0), Slot(0, 0), Slot(1, 42)];
  }

  lemma ThreeSteps(s0: State, a: Step, s1: State, b: Step, s2: State, c: Step, s3: State)
    requires Enabled(s0, a) && s1 == Apply(s0, a) && Enabled(s1, b) && s2 == Apply(s1, b) && Enabled(s2, c)
             && s3 == Apply(s2, c)
    ensures Runs(s0, [a, b, c], s3)
  {
    assert [a, b, c][1..] == [b, c] && [b, c][1..] == [c] && [c][1..] == [];
    assert Runs(s3, [], s3);
    assert Runs(s2, [c], s3);
    assert Runs(s1, [b, c], s3);
  }

  lemma ReleasedStash(a: Account)
    requires a.fufh == [Slot(0, 0), Slot(0, 0), Slot(1, 42)]
    ensures ReleaseFrom(a, 0, false) == Account([Slot(0, 0), Slot(0, 0), Slot(0, 42)],
                                         a.books.(current := a.books.current - 1,
                                           released := a.books.released + multiset{42}))
  {
    assert ReleaseOne(a, 0, false) == a && ReleaseOne(a, 1, false) == a;
    var b := ReleaseOne(a, 2, false);
    assert b.fufh == [Slot(0, 0), Slot(0, 0), Slot(0, 42)];
    assert ReleaseFrom(b, 3, false) == b;
    assert ReleaseFrom(a, 2, false) == b;
    assert ReleaseFrom(a, 1, false) == b;
  }
}
