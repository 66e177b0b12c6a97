/** What the HNode table guarantees over whole runs: it is a map from forks of
    files to vnodes, with attach rights that are exclusive and nodes that are
    freed once. */
module NodeSafety {
  import opened Common
  import opened NodeTable
  import opened NodeProtocol
  import opened NodeInvariant
  import opened NodeSteps
  import opened NodeRelease

  lemma StartInv(size: nat)
    requires size > 0
    ensures Inv(Start(size))
  {
    var s := Start(size);
    NoNodes(s.tab.buckets);
    assert Explains(map[], s);
  }

  lemma {:induction false} NoNodes(b: seq<seq<Ref>>)
    requires forall h | 0 <= h < |b| :: b[h] == []
    ensures Total(b) == 0
  {
    if b != [] { NoNodes(b[1..]); }
  }

  lemma StepKeepsInv(s: State, step: Step)
    requires Inv(s) && Enabled(s, step)
    ensures Inv(Apply(s, step))
  {
    var pl: map<Ref, Place> :| Explains(pl, s);
    match step
    case Lookup(t, dev, ino, fork) => KeepLookup(s, pl, t, Query(dev, ino, fork, None, false));
    case Turn(t) => KeepTurn(s, pl, t);
    case NodeAllocated(t, ok) => if ok { KeepNodeAllocated(s, pl, t); } else { KeepNoNode(s, pl, t); }
    case BufferAllocated(t, ok) => KeepBufferAllocated(s, pl, t, ok);
    case WakeUp(t) => KeepWakeUp(s, pl, t);
    case Check(t, ok) => KeepCheck(s, pl, t, ok);
    case QuickLookup(t, dev, ino, fork) => KeepQuickLookup(s, pl, t, dev, ino, fork);
    case QuickCheck(t, ok) => KeepQuickCheck(s, pl, t, ok);
    case AttachOk(t) => KeepAttachOk(s, pl, t, s.procs[t].r);
    case AttachFail(t) => KeepAttachFail(s, pl, t, s.procs[t].r);
    case Release(t) => KeepRelease(s, pl, t);
    case Reclaim(t, vn) => KeepReclaim(s, pl, t, vn);
    case DetachIt(t) => KeepDetach(s, pl, t, s.procs[t].vn);
    case ScrubDone(t) => KeepScrubDone(s, pl, t);
  }

  lemma {:induction false} RunKeepsInv(s: State, steps: seq<Step>, s': State)
    requires Inv(s) && Runs(s, steps, s')
    ensures Inv(s')
    decreases |steps|
  {
    if steps != [] {
      StepKeepsInv(s, steps[0]);
      RunKeepsInv(Apply(s, steps[0]), steps[1..], s');
    }
  }

  // ------------------------------------------------ every reachable state

  ghost predicate Reachable(s: State) {
    exists size: nat, steps :: size > 0 && Runs(Start(size), steps, s)
  }

  lemma ReachableInv(s: State)
    requires Reachable(s)
    ensures Inv(s)
  {
    var size: nat, steps :| size > 0 && Runs(Start(size), steps, s);
    StartInv(size);
    RunKeepsInv(Start(size), steps, s);
  }

  // Whenever the mutex is free: the table is well formed, every node in it counts
  // its vnodes and its outstanding attach, and there is at least one of these.
  lemma TableCounts(s: State)
    requires Reachable(s)
    ensures WellFormed(s.tab)
    ensures forall r | InTable(s.tab, r) ::
              && s.tab.nodes[r].count == References(s.tab.nodes[r]) >= 1
              && (s.tab.nodes[r].waiting ==> s.tab.nodes[r].attaching)
  {
    ReachableInv(s);
    var pl: map<Ref, Place> :| Explains(pl, s);
    forall r | InTable(s.tab, r)
      ensures s.tab.nodes[r].count == References(s.tab.nodes[r]) >= 1
      ensures s.tab.nodes[r].waiting ==> s.tab.nodes[r].attaching
    {
      NodeAt(s, pl, r);
    }
  }

  // A node is freed when nothing refers to it any more and no thread waits for
  // it: in particular the assert on waiting holds.
  lemma ScrubbedNodeIsUnused(s: State, t: Tid)
    requires Reachable(s) && t in s.procs && s.procs[t].Scrubbing?
    ensures var r := s.procs[t].r;
            && r in s.tab.nodes && |s.tab.buckets| > 0 && !InTable(s.tab, r)
            && !s.tab.nodes[r].waiting && !s.tab.nodes[r].attaching
            && (forall f | 0 <= f < |s.tab.nodes[r].forks| :: s.tab.nodes[r].forks[f] == None)
            && (forall u | u in s.procs && u != t
              && (s.procs[u].Sleeping? || s.procs[u].Granted? || s.procs[u].Scrubbing? || s.procs[u].Holding?) ::
                  s.procs[u].r != r)
  {
    ReachableInv(s);
    var pl: map<Ref, Place> :| Explains(pl, s);
    ThreadAt(s, pl, t);
    var r := s.procs[t].r;
    NodeAt(s, pl, r);
    NoVnodes(s.tab.nodes[r].forks);
    forall u | u in s.procs && u != t
      && (s.procs[u].Sleeping? || s.procs[u].Granted? || s.procs[u].Scrubbing? || s.procs[u].Holding?)
      ensures s.procs[u].r != r
    {
      ThreadAt(s, pl, u);
      HomesAreListed(s, pl);
    }
  }

  // The pointers the code follows without a check are good.
  lemma OwnersAreSafe(s: State, t: Tid)
    requires Reachable(s) && t in s.procs
    ensures s.procs[t].Granted? ==> AttachEnabled(s, t)
    ensures s.procs[t].Reclaiming? ==>
              DetachEnabled(s, t) && Some(s.procs[t].vn) in s.tab.nodes[s.vnodes[s.procs[t].vn].r].forks
  {
    ReachableInv(s);
    var pl: map<Ref, Place> :| Explains(pl, s);
    ThreadAt(s, pl, t);
    if s.procs[t].Reclaiming? { VnodeAt(s, pl, s.procs[t].vn); }
  }

  // Of all threads at most one has the right to attach a vnode to a file.
  lemma AttachIsExclusive(s: State, t: Tid, u: Tid)
    requires Reachable(s) && t in s.procs && u in s.procs && s.procs[t].Granted? && s.procs[u].Granted?
    ensures s.procs[t].r in s.tab.nodes && s.procs[u].r in s.tab.nodes
    ensures SameKey(s.tab, s.procs[t].r, s.procs[u].r) ==> t == u
  {
    ReachableInv(s);
    var pl: map<Ref, Place> :| Explains(pl, s);
    ThreadAt(s, pl, t);
    ThreadAt(s, pl, u);
    NodeAt(s, pl, s.procs[t].r);
    NodeAt(s, pl, s.procs[u].r);
  }

  // No wake-up is lost: while a thread sleeps, some thread has yet to finish the
  // attach it waits for, and knows that somebody waits.
  lemma SleepersAreAwaited(s: State, t: Tid)
    requires Reachable(s) && t in s.procs && s.procs[t].Sleeping?
    ensures var r := s.procs[t].r;
            && r in s.tab.nodes && s.tab.nodes[r].attaching && s.tab.nodes[r].waiting
            && exists u :: u in s.procs && s.procs[u].Granted? && s.procs[u].r == r
  {
    ReachableInv(s);
    var pl: map<Ref, Place> :| Explains(pl, s);
    ThreadAt(s, pl, t);
    NodeAt(s, pl, s.procs[t].r);
    var u := pl[s.procs[t].r].attacher.value;
    assert u in s.procs && s.procs[u].Granted? && s.procs[u].r == s.procs[t].r;
  }

  // A node that goes into the table is reserved before the mutex is dropped.
  lemma FreshNodeIsReserved(s: State, t: Tid, r: Ref)
    requires Reachable(s) && |s.tab.buckets| > 0 && t in s.procs && s.procs[t].Looking?
             && s.procs[t].q.newNode == Some(r)
    requires Find(s.tab, s.procs[t].q.dev, s.procs[t].q.ino) == None
    ensures var s' := DoTurn(s, t);
            && r in s'.tab.nodes && InTable(s'.tab, r) && !InTable(s.tab, r)
            && s'.tab.nodes[r].attaching && s'.tab.nodes[r].count == 1
            && s'.procs[t] == Granted(r, s.procs[t].q.fork)
  {
    ReachableInv(s);
    var pl: map<Ref, Place> :| Explains(pl, s);
    var q := s.procs[t].q;
    ThreadAt(s, pl, t);
    NodeAt(s, pl, r);
    InsertGlobal(s, t, r, q.fork, Inserted(s, t, r, q.fork));
    InsertedNode(s, pl, t, r, q, Inserted(s, t, r, q.fork), pl[r := Listed(Some(t))]);
    InsertTurn(s, t, r);
  }
}
