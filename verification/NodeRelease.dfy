/** The invariant of the HNode table is kept by attaching, detaching and freeing. */
module NodeRelease {
  import opened Common
  import opened NodeTable
  import opened NodeProtocol
  import opened NodeInvariant
  import opened NodeSteps

  // ------------------------------------------------ moves that change no listed node

  lemma KeepLookup(s: State, pl: map<Ref, Place>, t: Tid, q: Query)
    requires Explains(pl, s) && t !in s.procs && q.newNode == None
    ensures Inv(Goto(s, t, Looking(q)))
  {
    KeepMove(s, pl, t, Goto(s, t, Looking(q)));
  }

  lemma KeepNoNode(s: State, pl: map<Ref, Place>, t: Tid)
    requires Explains(pl, s) && t in s.procs && s.procs[t].AllocNode?
    ensures Inv(Exit(s, t))
  {
    ThreadAt(s, pl, t);
    KeepMove(s, pl, t, Exit(s, t));
  }

  lemma KeepWakeUp(s: State, pl: map<Ref, Place>, t: Tid)
    requires Explains(pl, s) && t in s.procs && s.procs[t].Sleeping?
    ensures Inv(Goto(s, t, Looking(s.procs[t].q)))
  {
    ThreadAt(s, pl, t);
    KeepMove(s, pl, t, Goto(s, t, Looking(s.procs[t].q)));
  }

  lemma KeepRelease(s: State, pl: map<Ref, Place>, t: Tid)
    requires Explains(pl, s) && t in s.procs && s.procs[t].Holding?
    ensures Inv(Exit(s, t))
  {
    KeepMove(s, pl, t, Exit(s, t));
  }

  lemma KeepBufferAllocated(s: State, pl: map<Ref, Place>, t: Tid, ok: bool)
    requires Explains(pl, s) && t in s.procs && s.procs[t].AllocBuffer?
    ensures Inv(DoBufferAllocated(s, t, ok))
  {
    var s' := DoBufferAllocated(s, t, ok);
    ThreadAt(s, pl, t);
    if ok || s.procs[t].q.newNode == None {
      KeepMove(s, pl, t, s');
    } else {
      KeepFree(s, pl, t, s.procs[t].q.newNode.value, s');
    }
  }

  lemma KeepCheck(s: State, pl: map<Ref, Place>, t: Tid, ok: bool)
    requires Explains(pl, s) && t in s.procs && s.procs[t].Checking? && (ok ==> Gettable(s, s.procs[t].vn))
    ensures Inv(DoCheck(s, t, ok))
  {
    var s' := DoCheck(s, t, ok);
    ThreadAt(s, pl, t);
    if !ok || s.procs[t].q.newNode == None {
      KeepMove(s, pl, t, s');
    } else {
      KeepFree(s, pl, t, s.procs[t].q.newNode.value, s');
    }
  }

  lemma KeepQuickLookup(s: State, pl: map<Ref, Place>, t: Tid, dev: nat, ino: nat, fork: nat)
    requires Explains(pl, s) && t !in s.procs
    ensures Inv(DoQuickLookup(s, t, dev, ino, fork))
  {
    var s' := DoQuickLookup(s, t, dev, ino, fork);
    Found(s, pl, dev, ino);
    if s' != s {
      KeepMove(s, pl, t, s');
    }
  }

  lemma KeepQuickCheck(s: State, pl: map<Ref, Place>, t: Tid, ok: bool)
    requires Explains(pl, s) && t in s.procs && s.procs[t].QuickChecking? && (ok ==> Gettable(s, s.procs[t].vn))
    ensures Inv(DoQuickCheck(s, t, ok))
  {
    ThreadAt(s, pl, t);
    KeepMove(s, pl, t, DoQuickCheck(s, t, ok));
  }

  lemma KeepScrubDone(s: State, pl: map<Ref, Place>, t: Tid)
    requires Explains(pl, s) && t in s.procs && s.procs[t].Scrubbing?
    ensures Inv(DoScrubDone(s, t))
  {
    ThreadAt(s, pl, t);
    KeepFree(s, pl, t, s.procs[t].r, DoScrubDone(s, t));
  }

  // ------------------------------------------------ an attach succeeds

  lemma AttachedNode(s: State, pl: map<Ref, Place>, t: Tid, s': State, pl': map<Ref, Place>)
    requires pl.Keys == s.tab.nodes.Keys && AttachEnabled(s, t) && s.procs[t].r in pl
    requires NodeOk(s, pl, s.procs[t].r) && PcOk(s, pl, t) && s.nextVnode !in s.vnodes
    requires s' == DoAttachOk(s, t) && pl' == pl[s.procs[t].r := Listed(None)]
    ensures pl'.Keys == s'.tab.nodes.Keys && NodeOk(s', pl', s.procs[t].r) && PcOk(s', pl', t)
  {
    var r, f := s.procs[t].r, s.procs[t].fork;
    VnodesUpdate(s.tab.nodes[r].forks, f, Some(s.nextVnode));
  }

  lemma AttachedChanges(s: State, pl: map<Ref, Place>, t: Tid, r: Ref, s': State, pl': map<Ref, Place>)
    requires pl.Keys == s.tab.nodes.Keys && AttachEnabled(s, t) && s.procs[t].r == r && r in pl
             && pl[r] == Listed(Some(t))
    requires s' == DoAttachOk(s, t) && pl' == pl[r := Listed(None)]
    requires s.nextVnode !in s.vnodes
    requires forall q | q in pl && q != r :: !Names(pl[q], t)
    ensures OnlyChanges(s, pl, s', pl', t, {r}) && Benign(s, pl, s', pl', t, r)
            && (OneReclaimer(s) ==> OneReclaimer(s'))
  {
  }

  lemma AttachedGlobal(s: State, t: Tid, s': State)
    requires Global(s) && AttachEnabled(s, t) && s' == DoAttachOk(s, t)
    ensures Global(s')
  {
    var r, f := s.procs[t].r, s.procs[t].fork;
    PutKeeps(s.tab, r, s'.tab.nodes[r]);
  }

  lemma KeepAttachOk(s: State, pl: map<Ref, Place>, t: Tid, r: Ref)
    requires Explains(pl, s) && AttachEnabled(s, t) && s.procs[t].r == r
    ensures Inv(DoAttachOk(s, t))
  {
    var s' := DoAttachOk(s, t);
    var pl' := pl[r := Listed(None)];
    ThreadAt(s, pl, t);
    NodeAt(s, pl, r);
    NamesOwn(s, pl, t);
    AttachedGlobal(s, t, s');
    AttachedNode(s, pl, t, s', pl');
    AttachedChanges(s, pl, t, r, s', pl');
    forall vn {:trigger VnodeOk(s', pl', vn)} | vn in s'.vnodes && s'.vnodes[vn].r == r
      ensures VnodeOk(s', pl', vn)
    {
      if vn != s.nextVnode {
        VnodeAt(s, pl, vn);
        VnodeStill(s, pl, s', pl', t, vn);
      }
    }
    FrameOne(s, pl, s', pl', t, r);
  }

  // ------------------------------------------------ a reference is given up

  // r becomes n, and leaves the table if that was its last reference.
  function Dropped(tab: Table, r: Ref, n: HNode): Table
    requires |tab.buckets| > 0
  {
    if n.count == 0 then Unlink(Put(tab, r, n), r) else Put(tab, r, n)
  }

  lemma DecrementDrops(tab: Table, r: Ref, n: HNode)
    requires |tab.buckets| > 0
    ensures Decrement(Put(tab, r, n), r) == (Dropped(tab, r, n.(count := n.count - 1)), n.count == 1)
  {
    var n' := n.(count := n.count - 1);
    assert tab.nodes[r := n][r := n'] == tab.nodes[r := n'];
  }

  lemma DroppedGlobal(s: State, r: Ref, n: HNode, s': State)
    requires Global(s) && InTable(s.tab, r) && HasKey(n, s.tab.nodes[r].dev, s.tab.nodes[r].ino)
    requires s' == s.(tab := Dropped(s.tab, r, n), vnodes := s'.vnodes, procs := s'.procs)
             && s'.vnodes.Keys <= s.vnodes.Keys
    ensures Global(s') && (InTable(s'.tab, r) <==> n.count != 0)
    ensures forall q | q in s.tab.nodes && q != r :: InTable(s'.tab, q) <==> InTable(s.tab, q)
  {
    PutKeeps(s.tab, r, n);
    if n.count == 0 { UnlinkKeeps(Put(s.tab, r, n), r); }
  }

  function Released(s: State, t: Tid, r: Ref): HNode
    requires r in s.tab.nodes
  {
    AttachComplete(s.tab.nodes[r]).(count := s.tab.nodes[r].count - 1)
  }

  function AfterFail(s: State, pl: map<Ref, Place>, t: Tid, r: Ref): map<Ref, Place>
    requires r in s.tab.nodes
  {
    pl[r := if Released(s, t, r).count == 0 then Doomed(t) else Listed(None)]
  }

  function FailState(s: State, t: Tid, r: Ref): State
    requires r in s.tab.nodes && |s.tab.buckets| > 0
  {
    var n := Released(s, t, r);
    var s' := s.(tab := Dropped(s.tab, r, n), procs := Wake(s.procs, r));
    if n.count == 0 then Goto(s', t, Scrubbing(r)) else Exit(s', t)
  }

  lemma FailIs(s: State, t: Tid)
    requires AttachEnabled(s, t)
    ensures DoAttachFail(s, t) == FailState(s, t, s.procs[t].r)
  {
    DecrementDrops(s.tab, s.procs[t].r, AttachComplete(s.tab.nodes[s.procs[t].r]));
  }

  lemma FailedNode(s: State, pl: map<Ref, Place>, t: Tid, r: Ref, s': State, pl': map<Ref, Place>)
    requires pl.Keys == s.tab.nodes.Keys && |s.tab.buckets| > 0 && r in pl && pl[r] == Listed(Some(t))
             && NodeOk(s, pl, r)
    requires s' == FailState(s, t, r) && pl' == AfterFail(s, pl, t, r)
    requires InTable(s'.tab, r) <==> Released(s, t, r).count != 0
    ensures pl'.Keys == s'.tab.nodes.Keys && NodeOk(s', pl', r) && (t in s'.procs ==> PcOk(s', pl', t))
  {
  }

  lemma FailedChanges(s: State, pl: map<Ref, Place>, t: Tid, r: Ref, s': State, pl': map<Ref, Place>)
    requires pl.Keys == s.tab.nodes.Keys && |s.tab.buckets| > 0 && r in pl && pl[r] == Listed(Some(t))
    requires s' == FailState(s, t, r) && pl' == AfterFail(s, pl, t, r)
    requires forall q | q in s.tab.nodes && q != r :: InTable(s'.tab, q) <==> InTable(s.tab, q)
    requires forall q | q in pl && q != r :: !Names(pl[q], t)
    ensures OnlyChanges(s, pl, s', pl', t, {r}) && Benign(s, pl, s', pl', t, r)
            && (OneReclaimer(s) ==> OneReclaimer(s'))
  {
  }

  lemma FailedVnode(s: State, pl: map<Ref, Place>, t: Tid, r: Ref, s': State, pl': map<Ref, Place>, vn: Vnode)
    requires pl.Keys == s.tab.nodes.Keys && |s.tab.buckets| > 0 && r in pl && pl[r] == Listed(Some(t))
             && NodeOk(s, pl, r)
    requires t in s.procs && s.procs[t].Granted?
    requires s' == FailState(s, t, r) && pl' == AfterFail(s, pl, t, r)
    requires vn in s.vnodes && s.vnodes[vn].r == r && VnodeOk(s, pl, vn)
    ensures VnodeOk(s', pl', vn)
  {
    NoVnodes(s.tab.nodes[r].forks);
    VnodeStill(s, pl, s', pl', t, vn);
  }

  lemma KeepAttachFail(s: State, pl: map<Ref, Place>, t: Tid, r: Ref)
    requires Explains(pl, s) && AttachEnabled(s, t) && s.procs[t].r == r
    ensures Inv(DoAttachFail(s, t))
  {
    FailIs(s, t);
    var s' := FailState(s, t, r);
    var pl' := AfterFail(s, pl, t, r);
    ThreadAt(s, pl, t);
    NodeAt(s, pl, r);
    NamesOwn(s, pl, t);
    DroppedGlobal(s, r, Released(s, t, r), s');
    FailedNode(s, pl, t, r, s', pl');
    FailedChanges(s, pl, t, r, s', pl');
    forall vn {:trigger VnodeOk(s', pl', vn)} | vn in s'.vnodes && s'.vnodes[vn].r == r
      ensures VnodeOk(s', pl', vn)
    {
      VnodeAt(s, pl, vn);
      FailedVnode(s, pl, t, r, s', pl', vn);
    }
    FrameOne(s, pl, s', pl', t, r);
  }

  // ------------------------------------------------ reclaim and detach

  lemma ReclaimedChanges(s: State, pl: map<Ref, Place>, t: Tid, vn: Vnode, r: Ref, s': State)
    requires pl.Keys == s.tab.nodes.Keys && |s.tab.buckets| > 0 && OneReclaimer(s)
    requires t !in s.procs && Reclaimable(s, vn) && s.vnodes[vn].r == r && s' == DoReclaim(s, t, vn)
    requires r in pl && pl[r].Listed? && forall q | q in pl :: !Names(pl[q], t)
    requires forall t' | t' in s.procs && s.procs[t'].Reclaiming? :: s.procs[t'].vn != vn
    requires forall t' | t' in s.procs && s.procs[t'].Sleeping? && s.procs[t'].r == r ::
               s.tab.nodes[r].attaching && s.tab.nodes[r].waiting
    requires forall o | pl[r] == Listed(Some(o)) :: s.tab.nodes[r].attaching
    ensures OnlyChanges(s, pl, s', pl, t, {r}) && Benign(s, pl, s', pl, t, r) && OneReclaimer(s')
  {
  }

  lemma KeepReclaim(s: State, pl: map<Ref, Place>, t: Tid, vn: Vnode)
    requires Explains(pl, s) && t !in s.procs && Reclaimable(s, vn)
    ensures Inv(DoReclaim(s, t, vn))
  {
    var s' := DoReclaim(s, t, vn);
    var r := s.vnodes[vn].r;
    VnodeAt(s, pl, vn);
    NodeAt(s, pl, r);
    NamesOwn(s, pl, t);
    forall t' | t' in s.procs
      ensures PcOk(s, pl, t')
    {
      ThreadAt(s, pl, t');
    }
    ReclaimedChanges(s, pl, t, vn, r, s');
    forall u {:trigger VnodeOk(s', pl, u)} | u in s'.vnodes && s'.vnodes[u].r == r
      ensures VnodeOk(s', pl, u)
    {
      VnodeAt(s, pl, u);
      if u == vn {
        assert t in s'.procs && s'.procs[t] == Reclaiming(vn);
      } else {
        VnodeStill(s, pl, s', pl, t, u);
      }
    }
    FrameOne(s, pl, s', pl, t, r);
  }

  function Emptied(s: State, v: VnodeState): HNode
    requires v.r in s.tab.nodes && v.fork < |s.tab.nodes[v.r].forks|
  {
    var n := s.tab.nodes[v.r];
    n.(forks := n.forks[v.fork := None], count := n.count - 1)
  }

  function AfterDetach(s: State, pl: map<Ref, Place>, t: Tid, v: VnodeState): map<Ref, Place>
    requires v.r in s.tab.nodes && v.fork < |s.tab.nodes[v.r].forks|
  {
    if Emptied(s, v).count == 0 then pl[v.r := Doomed(t)] else pl
  }

  function DetachState(s: State, t: Tid, vn: Vnode): State
    requires |s.tab.buckets| > 0 && vn in s.vnodes
    requires s.vnodes[vn].r in s.tab.nodes && s.vnodes[vn].fork < |s.tab.nodes[s.vnodes[vn].r].forks|
  {
    var n := Emptied(s, s.vnodes[vn]);
    var s' := s.(tab := Dropped(s.tab, s.vnodes[vn].r, n), vnodes := s.vnodes - {vn});
    if n.count == 0 then Goto(s', t, Scrubbing(s.vnodes[vn].r)) else Exit(s', t)
  }

  lemma DetachIs(s: State, t: Tid)
    requires DetachEnabled(s, t)
    ensures DoDetach(s, t) == DetachState(s, t, s.procs[t].vn)
  {
    var v := s.vnodes[s.procs[t].vn];
    DecrementDrops(s.tab, v.r, s.tab.nodes[v.r].(forks := s.tab.nodes[v.r].forks[v.fork := None]));
  }

  lemma DetachedNode(s: State, pl: map<Ref, Place>, t: Tid, vn: Vnode, s': State, pl': map<Ref, Place>)
    requires pl.Keys == s.tab.nodes.Keys && DetachEnabled(s, t) && s.procs[t].vn == vn && s.vnodes[vn].r in pl
    requires NodeOk(s, pl, s.vnodes[vn].r) && VnodeOk(s, pl, vn)
    requires s' == DetachState(s, t, vn) && pl' == AfterDetach(s, pl, t, s.vnodes[vn])
    requires InTable(s'.tab, s.vnodes[vn].r) <==> Emptied(s, s.vnodes[vn]).count != 0
    ensures pl'.Keys == s'.tab.nodes.Keys && NodeOk(s', pl', s.vnodes[vn].r) && (t in s'.procs ==> PcOk(s', pl', t))
  {
    var v := s.vnodes[vn];
    VnodesUpdate(s.tab.nodes[v.r].forks, v.fork, None);
  }

  lemma DetachedChanges(s: State, pl: map<Ref, Place>, t: Tid, vn: Vnode, s': State, pl': map<Ref, Place>)
    requires pl.Keys == s.tab.nodes.Keys && DetachEnabled(s, t) && s.procs[t].vn == vn && OneReclaimer(s)
    requires s' == DetachState(s, t, vn) && pl' == AfterDetach(s, pl, t, s.vnodes[vn]) && pl'.Keys == s'.tab.nodes.Keys
    requires forall q | q in s.tab.nodes && q != s.vnodes[vn].r :: InTable(s'.tab, q) <==> InTable(s.tab, q)
    requires forall q | q in pl :: !Names(pl[q], t)
    ensures OnlyChanges(s, pl, s', pl', t, {s.vnodes[vn].r}) && OneReclaimer(s')
  {
  }

  lemma DetachedBenign(s: State, pl: map<Ref, Place>, t: Tid, vn: Vnode, s': State, pl': map<Ref, Place>)
    requires Explains(pl, s) && DetachEnabled(s, t) && s.procs[t].vn == vn && s.vnodes[vn].reclaimed
    requires s' == DetachState(s, t, vn) && pl' == AfterDetach(s, pl, t, s.vnodes[vn]) && pl'.Keys == s'.tab.nodes.Keys
    requires NodeOk(s', pl', s.vnodes[vn].r)
    ensures Benign(s, pl, s', pl', t, s.vnodes[vn].r)
  {
    NodeAt(s, pl, s.vnodes[vn].r);
    VnodeAt(s, pl, vn);
    forall t' | t' in s.procs
      ensures PcOk(s, pl, t')
    {
      ThreadAt(s, pl, t');
    }
  }

  lemma DetachedVnode(s: State, pl: map<Ref, Place>, t: Tid, vn: Vnode, s': State, pl': map<Ref, Place>, u: Vnode)
    requires pl.Keys == s.tab.nodes.Keys && DetachEnabled(s, t) && s.procs[t].vn == vn && s.vnodes[vn].r in pl
    requires s' == DetachState(s, t, vn) && pl' == AfterDetach(s, pl, t, s.vnodes[vn])
    requires pl'.Keys == s'.tab.nodes.Keys && NodeOk(s', pl', s.vnodes[vn].r)
    requires u in s'.vnodes && s.vnodes[u].r == s.vnodes[vn].r && VnodeOk(s, pl, u) && VnodeOk(s, pl, vn)
    ensures VnodeOk(s', pl', u)
  {
    var n := Emptied(s, s.vnodes[vn]);
    NoVnodes(n.forks);
    assert s'.tab.nodes[s.vnodes[vn].r] == n;
    assert n.forks[s.vnodes[u].fork] == Some(u);
    VnodeStill(s, pl, s', pl', t, u);
  }

  lemma KeepDetach(s: State, pl: map<Ref, Place>, t: Tid, vn: Vnode)
    requires Explains(pl, s) && DetachEnabled(s, t) && s.procs[t].vn == vn
    ensures Inv(DoDetach(s, t))
  {
    DetachIs(s, t);
    var s' := DetachState(s, t, vn);
    var v := s.vnodes[vn];
    var pl' := AfterDetach(s, pl, t, v);
    ThreadAt(s, pl, t);
    VnodeAt(s, pl, vn);
    NodeAt(s, pl, v.r);
    DroppedGlobal(s, v.r, Emptied(s, v), s');
    DetachedNode(s, pl, t, vn, s', pl');
    NamesOwn(s, pl, t);
    DetachedChanges(s, pl, t, vn, s', pl');
    DetachedBenign(s, pl, t, vn, s', pl');
    forall u {:trigger VnodeOk(s', pl', u)} | u in s'.vnodes && s'.vnodes[u].r == v.r
      ensures VnodeOk(s', pl', u)
    {
      VnodeAt(s, pl, u);
      DetachedVnode(s, pl, t, vn, s', pl', u);
    }
    FrameOne(s, pl, s', pl', t, v.r);
  }
}
