/** The HNode table under concurrency: threads that look nodes up, attach and
    detach vnodes, sleep and are woken, and free nodes, interleaved at the points
    where the code drops gHashMutex. */
module NodeProtocol {
  import opened Common
  import opened NodeTable

  type Tid = nat

  // The arguments of a lookup and what the thread has allocated so far.
  datatype Query = Query(dev: nat, ino: nat, fork: nat, newNode: Option<Ref>, haveBuffer: bool)

  datatype Pc =
    | Looking(q: Query)                        // about to run a turn of the loop
    | AllocNode(q: Query)                      // mutex dropped to allocate a node
    | AllocBuffer(q: Query)                    // ... or a fork array
    | Sleeping(q: Query, r: Ref)               // in msleep on the node
    | Checking(q: Query, r: Ref, vn: Vnode)    // about to call vnode_getwithvid
    | QuickChecking(q: Query, r: Ref, vn: Vnode)  // the same, in the quick lookup
    | Granted(r: Ref, fork: nat)               // has the right to attach a vnode
    | Holding(r: Ref, vn: Vnode)               // was given a referenced vnode
    | Reclaiming(vn: Vnode)                    // VFS reclaims the vnode
    | Scrubbing(r: Ref)                        // has to free the node

  // A vnode's life: the fork it belongs to, and whether VFS has reclaimed it, in
  // which case vnode_getwithvid with an older vid fails.
  datatype VnodeState = VnodeState(r: Ref, fork: nat, reclaimed: bool)

  datatype State = State(
    tab: Table,
    vnodes: map<Vnode, VnodeState>,
    procs: map<Tid, Pc>,
    nextRef: Ref,
    nextVnode: Vnode,
    freed: seq<Ref>)  // nodes given to FUSE_OSFree, in order

  function Start(size: nat): State
    requires size > 0
  {
    State(Table(map[], seq(size, _ => []), 0), map[], map[], 0, 0, [])
  }

  function Goto(s: State, t: Tid, pc: Pc): State { s.(procs := s.procs[t := pc]) }

  function Exit(s: State, t: Tid): State { s.(procs := s.procs - {t}) }

  function Free(s: State, r: Ref): State {
    s.(tab := s.tab.(nodes := s.tab.nodes - {r}), freed := s.freed + [r])
  }

  // On return, a node that was allocated but not used is freed.
  function FreeUnused(s: State, q: Query): State {
    if q.newNode.Some? then Free(s, q.newNode.value) else s
  }

  // fuse_wakeup(hnode)
  function Wake(procs: map<Tid, Pc>, r: Ref): map<Tid, Pc> {
    map t | t in procs :: if procs[t].Sleeping? && procs[t].r == r then Looking(procs[t].q) else procs[t]
  }

  datatype Step =
    | Lookup(tid: Tid, dev: nat, ino: nat, fork: nat)
    | Turn(tid: Tid)
    | NodeAllocated(tid: Tid, ok: bool)
    | BufferAllocated(tid: Tid, ok: bool)
    | WakeUp(tid: Tid)                // msleep may return early
    | Check(tid: Tid, ok: bool)
    | QuickLookup(tid: Tid, dev: nat, ino: nat, fork: nat)
    | QuickCheck(tid: Tid, ok: bool)
    | AttachOk(tid: Tid)
    | AttachFail(tid: Tid)
    | Release(tid: Tid)
    | Reclaim(tid: Tid, vn: Vnode)
    | DetachIt(tid: Tid)
    | ScrubDone(tid: Tid)

  // vnode_getwithvid succeeds only on a vnode that was not reclaimed since.
  predicate Gettable(s: State, vn: Vnode) { vn in s.vnodes && !s.vnodes[vn].reclaimed }

  // VFS reclaims a vnode only while nobody has a reference, and only once.
  ghost predicate Reclaimable(s: State, vn: Vnode) {
    Gettable(s, vn) && forall t | t in s.procs && s.procs[t].Holding? :: s.procs[t].vn != vn
  }

  ghost predicate Enabled(s: State, step: Step) {
    match step
    case Lookup(t, _, _, _) => t !in s.procs
    case Turn(t) => t in s.procs && s.procs[t].Looking? && |s.tab.buckets| > 0
    case NodeAllocated(t, _) => t in s.procs && s.procs[t].AllocNode?
    case BufferAllocated(t, _) => t in s.procs && s.procs[t].AllocBuffer?
    case WakeUp(t) => t in s.procs && s.procs[t].Sleeping?
    case Check(t, ok) => t in s.procs && s.procs[t].Checking? && (ok ==> Gettable(s, s.procs[t].vn))
    case QuickLookup(t, _, _, _) => t !in s.procs && |s.tab.buckets| > 0
    case QuickCheck(t, ok) => t in s.procs && s.procs[t].QuickChecking? && (ok ==> Gettable(s, s.procs[t].vn))
    case AttachOk(t) => AttachEnabled(s, t)
    case AttachFail(t) => AttachEnabled(s, t)
    case Release(t) => t in s.procs && s.procs[t].Holding?
    case Reclaim(t, vn) => t !in s.procs && Reclaimable(s, vn)
    case DetachIt(t) => DetachEnabled(s, t)
    case ScrubDone(t) => t in s.procs && s.procs[t].Scrubbing?
  }

  predicate AttachEnabled(s: State, t: Tid) {
    && t in s.procs && s.procs[t].Granted? && |s.tab.buckets| > 0
    && s.procs[t].r in s.tab.nodes && s.procs[t].fork < |s.tab.nodes[s.procs[t].r].forks|
  }

  predicate DetachEnabled(s: State, t: Tid) {
    && t in s.procs && s.procs[t].Reclaiming? && s.procs[t].vn in s.vnodes && |s.tab.buckets| > 0
    && var v := s.vnodes[s.procs[t].vn];
       v.r in s.tab.nodes && v.fork < |s.tab.nodes[v.r].forks|
  }

  function DoTurn(s: State, t: Tid): State
    requires t in s.procs && s.procs[t].Looking? && |s.tab.buckets| > 0
  {
    var q := s.procs[t].q;
    var (tab', out) := NodeTable.Turn(s.tab, q.dev, q.ino, q.fork, q.newNode, q.haveBuffer);
    var s' := s.(tab := tab');
    var q' := if Find(s.tab, q.dev, q.ino).None? then q.(newNode := None) else q;
    match out
    case NeedNode => Goto(s', t, AllocNode(q'))
    case MustSleep(r) => Goto(s', t, Sleeping(q', r))
    case NeedBuffer(r) => Goto(s', t, AllocBuffer(q'))
    case DidExpand(r) => Goto(s', t, Looking(q'.(haveBuffer := false)))
    case Grant(r) => Goto(FreeUnused(s', q'), t, Granted(r, q.fork))
    case Candidate(r, vn) => Goto(s', t, Checking(q', r, vn))
  }

  function DoNodeAllocated(s: State, t: Tid, ok: bool): State
    requires t in s.procs && s.procs[t].AllocNode?
  {
    var q := s.procs[t].q;
    if ok
    then Goto(s, t, Looking(q.(newNode := Some(s.nextRef))))
           .(tab := Put(s.tab, s.nextRef, NewNode(q.dev, q.ino, q.fork)), nextRef := s.nextRef + 1)
    else Exit(s, t)
  }

  function DoBufferAllocated(s: State, t: Tid, ok: bool): State
    requires t in s.procs && s.procs[t].AllocBuffer?
  {
    var q := s.procs[t].q;
    if ok then Goto(s, t, Looking(q.(haveBuffer := true))) else Exit(FreeUnused(s, q), t)
  }

  function DoCheck(s: State, t: Tid, ok: bool): State
    requires t in s.procs && s.procs[t].Checking?
  {
    var pc := s.procs[t];
    if ok then Goto(FreeUnused(s, pc.q), t, Holding(pc.r, pc.vn)) else Goto(s, t, Looking(pc.q))
  }

  // HNodeLookupRealQuickIfExists: ENOENT and EAGAIN leave nothing behind.
  function DoQuickLookup(s: State, t: Tid, dev: nat, ino: nat, fork: nat): State
    requires |s.tab.buckets| > 0
  {
    match Find(s.tab, dev, ino)
    case None => s
    case Some(r) =>
      if r !in s.tab.nodes || s.tab.nodes[r].attaching || fork >= |s.tab.nodes[r].forks|
         || s.tab.nodes[r].forks[fork] == None
      then s
      else Goto(s, t, QuickChecking(Query(dev, ino, fork, None, false), r, s.tab.nodes[r].forks[fork].value))
  }

  function DoQuickCheck(s: State, t: Tid, ok: bool): State
    requires t in s.procs && s.procs[t].QuickChecking?
  {
    if ok then Goto(s, t, Holding(s.procs[t].r, s.procs[t].vn)) else Exit(s, t)
  }

  function DoAttachOk(s: State, t: Tid): State
    requires AttachEnabled(s, t)
  {
    var r, f, vn := s.procs[t].r, s.procs[t].fork, s.nextVnode;
    s.(tab := AttachSucceeded(s.tab, r, f, vn), vnodes := s.vnodes[vn := VnodeState(r, f, false)],
       nextVnode := vn + 1, procs := Wake(s.procs, r)[t := Holding(r, vn)])
  }

  function DoAttachFail(s: State, t: Tid): State
    requires AttachEnabled(s, t)
  {
    var r := s.procs[t].r;
    var (tab', scrubIt) := AttachFailed(s.tab, r);
    var s' := s.(tab := tab', procs := Wake(s.procs, r));
    if scrubIt then Goto(s', t, Scrubbing(r)) else Exit(s', t)
  }

  function DoReclaim(s: State, t: Tid, vn: Vnode): State
    requires vn in s.vnodes
  {
    Goto(s, t, Reclaiming(vn)).(vnodes := s.vnodes[vn := s.vnodes[vn].(reclaimed := true)])
  }

  function DoDetach(s: State, t: Tid): State
    requires DetachEnabled(s, t)
  {
    var vn := s.procs[t].vn;
    var v := s.vnodes[vn];
    var (tab', scrubIt) := Detach(s.tab, v.r, v.fork);
    var s' := s.(tab := tab', vnodes := s.vnodes - {vn});
    if scrubIt then Goto(s', t, Scrubbing(v.r)) else Exit(s', t)
  }

  function DoScrubDone(s: State, t: Tid): State
    requires t in s.procs && s.procs[t].Scrubbing?
  {
    Exit(Free(s, s.procs[t].r), t)
  }

  ghost function Apply(s: State, step: Step): State
    requires Enabled(s, step)
  {
    match step
    case Lookup(t, dev, ino, fork) => Goto(s, t, Looking(Query(dev, ino, fork, None, false)))
    case Turn(t) => DoTurn(s, t)
    case NodeAllocated(t, ok) => DoNodeAllocated(s, t, ok)
    case BufferAllocated(t, ok) => DoBufferAllocated(s, t, ok)
    case WakeUp(t) => Goto(s, t, Looking(s.procs[t].q))
    case Check(t, ok) => DoCheck(s, t, ok)
    case QuickLookup(t, dev, ino, fork) => DoQuickLookup(s, t, dev, ino, fork)
    case QuickCheck(t, ok) => DoQuickCheck(s, t, ok)
    case AttachOk(t) => DoAttachOk(s, t)
    case AttachFail(t) => DoAttachFail(s, t)
    case Release(t) => Exit(s, t)
    case Reclaim(t, vn) => DoReclaim(s, t, vn)
    case DetachIt(t) => DoDetach(s, t)
    case ScrubDone(t) => DoScrubDone(s, t)
  }

  ghost predicate Runs(s: State, steps: seq<Step>, s': State)
    decreases |steps|
  {
    if steps == [] then s == s'
    else Enabled(s, steps[0]) && Runs(Apply(s, steps[0]), steps[1..], s')
  }

  // ----------------------------------------------------------- the abstract map

  datatype Entry = Absent | Attaching | Mapped(vn: Vnode)

  ghost predicate GrantedTo(s: State, r: Ref, fork: nat) {
    exists t :: t in s.procs && s.procs[t] == Granted(r, fork)
  }

  // What a node says about one of its forks.
  ghost function At(s: State, r: Ref, fork: nat): Entry {
    if GrantedTo(s, r, fork) then Attaching
    else if r in s.tab.nodes && fork < |s.tab.nodes[r].forks| && s.tab.nodes[r].forks[fork].Some?
    then Mapped(s.tab.nodes[r].forks[fork].value)
    else Absent
  }

  datatype Key = Key(dev: nat, ino: nat, fork: nat)

  // What the table says about a fork of a file.
  ghost function Meaning(s: State, k: Key): Entry
    requires |s.tab.buckets| > 0
  {
    match Find(s.tab, k.dev, k.ino)
    case None => Absent
    case Some(r) => At(s, r, k.fork)
  }

  // The operation on the map that a step stands for: the fork it concerns, and
  // the entry before and after.
  datatype Change = Change(k: Key, before: Entry, after: Entry)

  ghost function Effect(s: State, step: Step): Option<Change>
    requires Enabled(s, step)
  {
    match step
    case Turn(t) =>
      var q := s.procs[t].q;
      if t in DoTurn(s, t).procs && DoTurn(s, t).procs[t].Granted?
      then Some(Change(Key(q.dev, q.ino, q.fork), Absent, Attaching)) else None
    case AttachOk(t) =>
      var n := s.tab.nodes[s.procs[t].r];
      Some(Change(Key(n.dev, n.ino, s.procs[t].fork), Attaching, Mapped(s.nextVnode)))
    case AttachFail(t) =>
      var n := s.tab.nodes[s.procs[t].r];
      Some(Change(Key(n.dev, n.ino, s.procs[t].fork), Attaching, Absent))
    case DetachIt(t) =>
      var v := s.vnodes[s.procs[t].vn];
      var n := s.tab.nodes[v.r];
      Some(Change(Key(n.dev, n.ino, v.fork), Mapped(s.procs[t].vn), Absent))
    case _ => None
  }

  // The map changes at that fork, and nowhere else.
  ghost predicate Refines(s: State, s': State, c: Option<Change>)
    requires |s.tab.buckets| > 0 && |s'.tab.buckets| > 0
  {
    && (c.Some? ==> Meaning(s, c.value.k) == c.value.before)
    && forall k :: Meaning(s', k) == if c.Some? && c.value.k == k then c.value.after else Meaning(s, k)
  }
}
