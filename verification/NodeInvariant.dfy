/** Why the HNode table is safe: every allocated node is in the table, or with one
    thread that has not inserted it yet, or with one thread that must free it; and
    every step keeps it so. */
module NodeInvariant {
  import opened Common
  import opened NodeTable
  import opened NodeProtocol

  // Where an allocated node is: in the table, in a thread's hands before it was
  // inserted, or in a thread's hands to be freed.
  datatype Place = Listed(attacher: Option<Tid>) | Private(holder: Tid) | Doomed(scrubber: Tid)

  predicate HasQuery(pc: Pc) {
    pc.Looking? || pc.AllocNode? || pc.AllocBuffer? || pc.Sleeping? || pc.Checking?
  }

  ghost predicate PcOk(s: State, pl: map<Ref, Place>, t: Tid)
    requires t in s.procs && pl.Keys == s.tab.nodes.Keys
  {
    var pc := s.procs[t];
    && (HasQuery(pc) && pc.q.newNode.Some? ==>
          var r := pc.q.newNode.value;
          && r in pl && pl[r] == Private(t)
          && s.tab.nodes[r] == NewNode(pc.q.dev, pc.q.ino, pc.q.fork))
    && match pc
       case Looking(q) => true
       case AllocNode(q) => q.newNode == None
       case AllocBuffer(q) => true
       case Sleeping(q, r) => r in pl && pl[r].Listed? && s.tab.nodes[r].attaching && s.tab.nodes[r].waiting
       case Checking(q, r, vn) => VnodeHome(s, r, vn) && (vn in s.vnodes ==> IsFork(s, vn, q.dev, q.ino, q.fork))
       case QuickChecking(q, r, vn) => VnodeHome(s, r, vn) && (vn in s.vnodes ==> IsFork(s, vn, q.dev, q.ino, q.fork))
       case Granted(r, f) =>
         && r in pl && pl[r] == Listed(Some(t))
         && f < |s.tab.nodes[r].forks| && s.tab.nodes[r].forks[f] == None
       case Holding(r, vn) => Gettable(s, vn) && s.vnodes[vn].r == r
       case Reclaiming(vn) => vn in s.vnodes && s.vnodes[vn].reclaimed
       case Scrubbing(r) => r in pl && pl[r] == Doomed(t)
  }

  // A vnode sampled from a node's fork array: it has that home for life.
  ghost predicate VnodeHome(s: State, r: Ref, vn: Vnode) {
    vn < s.nextVnode && (vn in s.vnodes ==> s.vnodes[vn].r == r)
  }

  ghost predicate IsFork(s: State, vn: Vnode, dev: nat, ino: nat, fork: nat)
    requires vn in s.vnodes
  {
    s.vnodes[vn].fork == fork && s.vnodes[vn].r in s.tab.nodes && HasKey(s.tab.nodes[s.vnodes[vn].r], dev, ino)
  }

  ghost predicate NodeOk(s: State, pl: map<Ref, Place>, r: Ref)
    requires r in s.tab.nodes && pl.Keys == s.tab.nodes.Keys && |s.tab.buckets| > 0
  {
    var n := s.tab.nodes[r];
    && (InTable(s.tab, r) <==> pl[r].Listed?)
    && match pl[r]
       case Listed(o) =>
         && n.count == References(n) && n.count >= 1
         && (n.waiting ==> n.attaching)
         && (n.attaching <==> o.Some?)
         && (o.Some? ==> o.value in s.procs && s.procs[o.value].Granted? && s.procs[o.value].r == r)
         && (forall f | 0 <= f < |n.forks| && n.forks[f].Some? ::
               n.forks[f].value in s.vnodes && s.vnodes[n.forks[f].value].r == r
                 && s.vnodes[n.forks[f].value].fork == f)
       case Private(t) =>
         t in s.procs && HasQuery(s.procs[t]) && s.procs[t].q.newNode == Some(r)
       case Doomed(t) =>
         && t in s.procs && s.procs[t] == Scrubbing(r)
         && !n.attaching && !n.waiting && n.count == 0 && Vnodes(n.forks) == 0
  }

  ghost predicate VnodeOk(s: State, pl: map<Ref, Place>, vn: Vnode)
    requires vn in s.vnodes
  {
    var v := s.vnodes[vn];
    && v.r in pl && v.r in s.tab.nodes && pl[v.r].Listed?
    && v.fork < |s.tab.nodes[v.r].forks| && s.tab.nodes[v.r].forks[v.fork] == Some(vn)
    && (v.reclaimed ==> exists t :: t in s.procs && s.procs[t] == Reclaiming(vn))
  }

  ghost predicate Global(s: State) {
    && WellFormed(s.tab)
    && Distinct(s.freed)
    && (forall r | r in s.freed :: r < s.nextRef && r !in s.tab.nodes)
    && (forall r | r in s.tab.nodes :: r < s.nextRef)
    && (forall vn | vn in s.vnodes :: vn < s.nextVnode)
  }

  // Only one thread at a time reclaims a vnode.
  ghost predicate OneReclaimer(s: State) {
    forall t, t' | t in s.procs && t' in s.procs && s.procs[t].Reclaiming? && s.procs[t'] == s.procs[t] :: t == t'
  }

  ghost predicate Explains(pl: map<Ref, Place>, s: State) {
    && pl.Keys == s.tab.nodes.Keys
    && Global(s) && OneReclaimer(s)
    && (forall t {:trigger PcOk(s, pl, t)} | t in s.procs :: PcOk(s, pl, t))
    && (forall r {:trigger NodeOk(s, pl, r)} | r in s.tab.nodes :: NodeOk(s, pl, r))
    && (forall vn {:trigger VnodeOk(s, pl, vn)} | vn in s.vnodes :: VnodeOk(s, pl, vn))
  }

  ghost predicate Inv(s: State) { exists pl :: Explains(pl, s) }

  // ------------------------------------------------------------ framing

  predicate Names(p: Place, t: Tid) {
    match p
    case Listed(o) => o == Some(t)
    case Private(h) => h == t
    case Doomed(h) => h == t
  }

  // From (s, pl) to (s', pl') only thread t, the nodes in R and the vnodes at
  // home there change; threads asleep on such a node may be woken.
  ghost predicate OnlyChanges(s: State, pl: map<Ref, Place>, s': State, pl': map<Ref, Place>, t: Tid, R: set<Ref>)
    requires pl.Keys == s.tab.nodes.Keys && |s.tab.buckets| > 0
  {
    && pl'.Keys == s'.tab.nodes.Keys && |s'.tab.buckets| > 0
    && s.nextRef <= s'.nextRef && s.nextVnode <= s'.nextVnode
    && (forall t' {:trigger t' in s'.procs} {:trigger t' in s.procs} | t' != t ::
          && (t' in s'.procs <==> t' in s.procs)
          && (t' in s.procs ==>
                || s'.procs[t'] == s.procs[t']
                || (s.procs[t'].Sleeping? && s.procs[t'].r in R && s'.procs[t'] == Looking(s.procs[t'].q))))
    && (forall r {:trigger r in s'.tab.nodes} {:trigger r in s.tab.nodes} | r !in R ::
          && (r in s'.tab.nodes <==> r in s.tab.nodes)
          && (r in s.tab.nodes ==>
                && s'.tab.nodes[r] == s.tab.nodes[r] && pl'[r] == pl[r] && !Names(pl[r], t)
                && (InTable(s'.tab, r) <==> InTable(s.tab, r))))
    && (forall vn {:trigger vn in s'.vnodes} {:trigger vn in s.vnodes} ::
          && (vn in s.vnodes && s.vnodes[vn].r !in R ==> vn in s'.vnodes && s'.vnodes[vn] == s.vnodes[vn])
          && (vn in s'.vnodes && vn !in s.vnodes ==> vn >= s.nextVnode && s'.vnodes[vn].r in R)
          && (vn in s'.vnodes && vn in s.vnodes ==>
                s'.vnodes[vn].r == s.vnodes[vn].r && s'.vnodes[vn].fork == s.vnodes[vn].fork))
  }

  lemma ThreadAt(s: State, pl: map<Ref, Place>, t: Tid)
    requires Explains(pl, s) && t in s.procs
    ensures PcOk(s, pl, t)
  {}

  lemma NodeAt(s: State, pl: map<Ref, Place>, r: Ref)
    requires Explains(pl, s) && r in s.tab.nodes
    ensures NodeOk(s, pl, r)
  {}

  lemma VnodeAt(s: State, pl: map<Ref, Place>, vn: Vnode)
    requires Explains(pl, s) && vn in s.vnodes
    ensures VnodeOk(s, pl, vn)
  {}

  // Is the thread's position tied to a node of R?
  predicate Tied(s: State, pc: Pc, R: set<Ref>) {
    || (HasQuery(pc) && pc.q.newNode.Some? && pc.q.newNode.value in R)
    || ((pc.Sleeping? || pc.Checking? || pc.QuickChecking? || pc.Granted? || pc.Holding? || pc.Scrubbing?) && pc.r in R)
    || (pc.Reclaiming? && pc.vn in s.vnodes && s.vnodes[pc.vn].r in R)
  }

  lemma FramePc(s: State, pl: map<Ref, Place>, s': State, pl': map<Ref, Place>, t: Tid, R: set<Ref>, t': Tid)
    requires pl.Keys == s.tab.nodes.Keys && |s.tab.buckets| > 0
    requires OnlyChanges(s, pl, s', pl', t, R)
    requires t' in s.procs && t' != t && !Tied(s, s.procs[t'], R) && PcOk(s, pl, t')
    requires forall vn | vn in s.vnodes :: s.vnodes[vn].r in s.tab.nodes
    ensures PcOk(s', pl', t')
  {
    var pc := s.procs[t'];
    assert s'.procs[t'] == pc;
    if HasQuery(pc) && pc.q.newNode.Some? { assert pc.q.newNode.value in s.tab.nodes; }
    if pc.Checking? || pc.QuickChecking? || pc.Holding? || pc.Reclaiming? {
      var vn := pc.vn;
      assert vn in s'.vnodes ==> vn in s.vnodes;
      if vn in s.vnodes { assert s.vnodes[vn].r in s.tab.nodes; }
    }
    if pc.Sleeping? || pc.Granted? || pc.Scrubbing? { assert pc.r in s.tab.nodes; }
  }

  lemma FrameNode(s: State, pl: map<Ref, Place>, s': State, pl': map<Ref, Place>, t: Tid, R: set<Ref>, r: Ref)
    requires pl.Keys == s.tab.nodes.Keys && |s.tab.buckets| > 0
    requires OnlyChanges(s, pl, s', pl', t, R)
    requires r in s.tab.nodes && r !in R && NodeOk(s, pl, r)
    requires forall t' | t' in s.procs && s.procs[t'].Sleeping? && s.procs[t'].r in R ::
               s.procs[t'].r in pl && pl[s.procs[t'].r].Listed?
    ensures r in s'.tab.nodes && NodeOk(s', pl', r)
  {
    assert r in s'.tab.nodes;
    var n := s.tab.nodes[r];
    match pl[r]
    case Listed(o) =>
      if o.Some? { assert o.value in s'.procs; }
      forall f | 0 <= f < |n.forks| && n.forks[f].Some?
        ensures n.forks[f].value in s'.vnodes && s'.vnodes[n.forks[f].value].r == r
                && s'.vnodes[n.forks[f].value].fork == f
      {
        assert n.forks[f].value in s.vnodes;
      }
    case Private(h) => assert h in s'.procs;
    case Doomed(h) => assert h in s'.procs;
  }

  lemma FrameVnode(s: State, pl: map<Ref, Place>, s': State, pl': map<Ref, Place>, t: Tid, R: set<Ref>, vn: Vnode)
    requires pl.Keys == s.tab.nodes.Keys && |s.tab.buckets| > 0
    requires OnlyChanges(s, pl, s', pl', t, R)
    requires vn in s.vnodes && s.vnodes[vn].r !in R && VnodeOk(s, pl, vn)
    requires t in s.procs && s.procs[t].Reclaiming? ==> s.procs[t].vn != vn
    ensures vn in s'.vnodes && VnodeOk(s', pl', vn)
  {
    assert vn in s'.vnodes;
    assert s.vnodes[vn].r in s'.tab.nodes;
    if s.vnodes[vn].reclaimed {
      var t' :| t' in s.procs && s.procs[t'] == Reclaiming(vn);
      assert t' in s'.procs && s'.procs[t'] == Reclaiming(vn);
    }
  }

  // So the invariant has to be shown again for t, R and what is tied to R only.
  lemma Frame(s: State, pl: map<Ref, Place>, s': State, pl': map<Ref, Place>, t: Tid, R: set<Ref>)
    requires Explains(pl, s) && OnlyChanges(s, pl, s', pl', t, R) && Global(s') && OneReclaimer(s')
    requires t in s'.procs ==> PcOk(s', pl', t)
    requires t in s.procs && s.procs[t].Reclaiming? && s.procs[t].vn in s.vnodes ==> s.vnodes[s.procs[t].vn].r in R
    requires forall r {:trigger NodeOk(s', pl', r)} | r in R && r in s'.tab.nodes :: NodeOk(s', pl', r)
    requires forall vn {:trigger VnodeOk(s', pl', vn)} | vn in s'.vnodes && s'.vnodes[vn].r in R :: VnodeOk(s', pl', vn)
    requires forall t' {:trigger PcOk(s', pl', t')} | t' in s'.procs && t' != t && Tied(s, s.procs[t'], R) ::
               PcOk(s', pl', t')
    ensures Explains(pl', s')
  {
    forall vn | vn in s.vnodes
      ensures s.vnodes[vn].r in s.tab.nodes
    {
      VnodeAt(s, pl, vn);
    }
    forall t' | t' in s.procs && s.procs[t'].Sleeping? && s.procs[t'].r in R
      ensures s.procs[t'].r in pl && pl[s.procs[t'].r].Listed?
    {
      ThreadAt(s, pl, t');
    }
    forall t' {:trigger PcOk(s', pl', t')} | t' in s'.procs
      ensures PcOk(s', pl', t')
    {
      if t' != t && !Tied(s, s.procs[t'], R) {
        ThreadAt(s, pl, t');
        FramePc(s, pl, s', pl', t, R, t');
      }
    }
    forall r {:trigger NodeOk(s', pl', r)} | r in s'.tab.nodes
      ensures NodeOk(s', pl', r)
    {
      if r !in R {
        NodeAt(s, pl, r);
        FrameNode(s, pl, s', pl', t, R, r);
      }
    }
    forall vn {:trigger VnodeOk(s', pl', vn)} | vn in s'.vnodes
      ensures VnodeOk(s', pl', vn)
    {
      if s'.vnodes[vn].r !in R {
        VnodeAt(s, pl, vn);
        FrameVnode(s, pl, s', pl', t, R, vn);
      }
    }
  }

  // The nodes a position entitles its thread to.
  function Own(pc: Pc): set<Ref> {
    if HasQuery(pc) && pc.q.newNode.Some? then {pc.q.newNode.value}
    else if pc.Granted? || pc.Scrubbing? then {pc.r}
    else {}
  }

  lemma NamesOwn(s: State, pl: map<Ref, Place>, t: Tid)
    requires Explains(pl, s)
    ensures forall r | r in pl && Names(pl[r], t) :: t in s.procs && r in Own(s.procs[t])
  {
    forall r | r in pl && Names(pl[r], t)
      ensures t in s.procs && r in Own(s.procs[t])
    {
      NodeAt(s, pl, r);
    }
  }

  lemma HomesAreListed(s: State, pl: map<Ref, Place>)
    requires Explains(pl, s)
    ensures forall vn | vn in s.vnodes :: s.vnodes[vn].r in pl && pl[s.vnodes[vn].r].Listed?
  {
    forall vn | vn in s.vnodes
      ensures s.vnodes[vn].r in pl && pl[s.vnodes[vn].r].Listed?
    {
      VnodeAt(s, pl, vn);
    }
  }

  // A thread moves on and takes along the node it allocated, if any.
  lemma KeepMove(s: State, pl: map<Ref, Place>, t: Tid, s': State)
    requires Explains(pl, s)
    requires s' == s.(procs := s'.procs) && s'.procs - {t} == s.procs - {t}
    requires t in s'.procs ==> PcOk(s', pl, t) && !s'.procs[t].Reclaiming?
    requires t in s.procs ==> HasQuery(s.procs[t]) || s.procs[t].Holding? || s.procs[t].QuickChecking?
    requires t in s.procs && Own(s.procs[t]) != {} ==>
               t in s'.procs && HasQuery(s'.procs[t]) && s'.procs[t].q.newNode == s.procs[t].q.newNode
    ensures Inv(s')
  {
    var R := if t in s.procs then Own(s.procs[t]) else {};
    NamesOwn(s, pl, t);
    assert forall t' | t' != t ::
        (t' in s'.procs <==> t' in s'.procs - {t}) && (t' in s.procs <==> t' in s.procs - {t});
    forall t' {:trigger PcOk(s', pl, t')} | t' in s'.procs && t' != t && Tied(s, s.procs[t'], R)
      ensures PcOk(s', pl, t')
    {
      ThreadAt(s, pl, t');
    }
    forall r {:trigger NodeOk(s', pl, r)} | r in R && r in s'.tab.nodes
      ensures NodeOk(s', pl, r)
    {
      NodeAt(s, pl, r);
      ThreadAt(s, pl, t);
    }
    HomesAreListed(s, pl);
    if t in s.procs { ThreadAt(s, pl, t); }
    Frame(s, pl, s', pl, t, R);
  }

  // What a change of node r by thread t must leave to the other threads.
  ghost predicate Benign(s: State, pl: map<Ref, Place>, s': State, pl': map<Ref, Place>, t: Tid, r: Ref)
    requires pl.Keys == s.tab.nodes.Keys && pl'.Keys == s'.tab.nodes.Keys
  {
    && (r in pl && r in pl' ==> HasKey(s'.tab.nodes[r], s.tab.nodes[r].dev, s.tab.nodes[r].ino))
    && (r in pl ==> pl[r].Listed? || Names(pl[r], t))
    && (r in pl && pl[r].Listed? && pl[r].attacher.Some? && pl[r].attacher != Some(t) ==>
          && r in pl' && pl'[r] == pl[r]
          && s'.tab.nodes[r].attaching && |s'.tab.nodes[r].forks| == |s.tab.nodes[r].forks|
          && (forall f | 0 <= f < |s.tab.nodes[r].forks| && s.tab.nodes[r].forks[f] == None ::
              s'.tab.nodes[r].forks[f] == None))
    && (forall t' {:trigger t' in s'.procs} | t' in s.procs && t' != t && s.procs[t'].Sleeping? && s.procs[t'].r == r ::
          t' in s'.procs && s'.procs[t'].Sleeping? ==>
            r in pl' && pl'[r].Listed? && s'.tab.nodes[r].attaching && s'.tab.nodes[r].waiting)
    && (forall vn {:trigger vn in s'.vnodes} | vn in s'.vnodes && s'.vnodes[vn].r == r :: r in pl')
    && (forall t' {:trigger t' in s'.procs} | t' in s.procs && t' != t
      && (s.procs[t'].Holding? || s.procs[t'].Reclaiming?) ::
          var vn := s.procs[t'].vn;
          vn in s.vnodes && s.vnodes[vn].r == r ==> vn in s'.vnodes && s'.vnodes[vn] == s.vnodes[vn])
  }

  lemma TiedKept(s: State, pl: map<Ref, Place>, s': State, pl': map<Ref, Place>, t: Tid, r: Ref, t': Tid)
    requires Explains(pl, s) && OnlyChanges(s, pl, s', pl', t, {r}) && Benign(s, pl, s', pl', t, r)
    requires t' in s'.procs && t' != t && Tied(s, s.procs[t'], {r})
    ensures PcOk(s', pl', t')
  {
    ThreadAt(s, pl, t');
    HomesAreListed(s, pl);
    var pc := s.procs[t'];
    if HasQuery(pc) && pc.q.newNode.Some? {
      assert pc.q.newNode.value in s.tab.nodes;
    }
    if pc.Checking? || pc.QuickChecking? || pc.Holding? || pc.Reclaiming? {
      assert pc.vn in s'.vnodes ==> pc.vn in s.vnodes;
    }
  }

  // One thread changes one node.
  lemma FrameOne(s: State, pl: map<Ref, Place>, s': State, pl': map<Ref, Place>, t: Tid, r: Ref)
    requires Explains(pl, s) && OnlyChanges(s, pl, s', pl', t, {r}) && Benign(s, pl, s', pl', t, r)
    requires Global(s') && OneReclaimer(s')
    requires t in s'.procs ==> PcOk(s', pl', t)
    requires t in s.procs && s.procs[t].Reclaiming? && s.procs[t].vn in s.vnodes ==> s.vnodes[s.procs[t].vn].r == r
    requires r in s'.tab.nodes ==> NodeOk(s', pl', r)
    requires forall vn {:trigger VnodeOk(s', pl', vn)} | vn in s'.vnodes && s'.vnodes[vn].r == r :: VnodeOk(s', pl', vn)
    ensures Explains(pl', s')
  {
    forall t' {:trigger PcOk(s', pl', t')} | t' in s'.procs && t' != t && Tied(s, s.procs[t'], {r})
      ensures PcOk(s', pl', t')
    {
      TiedKept(s, pl, s', pl', t, r, t');
    }
    Frame(s, pl, s', pl', t, {r});
  }

  lemma UnlinkedNodeGone(tab: Table, r: Ref)
    requires WellFormed(tab) && r in tab.nodes && !InTable(tab, r)
    ensures var tab' := tab.(nodes := tab.nodes - {r});
            && WellFormed(tab')
            && forall q | q in tab'.nodes :: InTable(tab', q) <==> InTable(tab, q)
  {
    var tab' := tab.(nodes := tab.nodes - {r});
    forall q | q in tab'.nodes
      ensures InTable(tab', q) <==> InTable(tab, q)
    {
    }
    forall p, q {:trigger SameKey(tab', p, q)} | InTable(tab', p) && InTable(tab', q) && SameKey(tab', p, q)
      ensures p == q
    {
      assert SameKey(tab, p, q);
    }
  }

  // A thread frees a node that is its own and not in the table: one it allocated
  // in vain, or one it has to scrub.
  lemma KeepFree(s: State, pl: map<Ref, Place>, t: Tid, r: Ref, s': State)
    requires Explains(pl, s) && t in s.procs && Own(s.procs[t]) == {r} && !s.procs[t].Granted?
    requires s' == Free(s, r).(procs := s'.procs) && s'.procs - {t} == s.procs - {t}
    requires t in s'.procs ==> PcOk(s', pl - {r}, t) && !s'.procs[t].Reclaiming?
    ensures Explains(pl - {r}, s')
  {
    ThreadAt(s, pl, t);
    NodeAt(s, pl, r);
    NamesOwn(s, pl, t);
    HomesAreListed(s, pl);
    UnlinkedNodeGone(s.tab, r);
    var pl' := pl - {r};
    assert pl'.Keys == s'.tab.nodes.Keys;
    assert forall t' | t' != t ::
        (t' in s'.procs <==> t' in s'.procs - {t}) && (t' in s.procs <==> t' in s.procs - {t});
    DistinctAppend(s.freed, r);
    forall t' | t' in s.procs && t' != t && s.procs[t'].Sleeping?
      ensures s.procs[t'].r != r
    {
      ThreadAt(s, pl, t');
    }
    FrameOne(s, pl, s', pl', t, r);
  }

  lemma AllocatedGlobal(s: State, t: Tid)
    requires Global(s) && t in s.procs && s.procs[t].AllocNode?
    ensures var s' := DoNodeAllocated(s, t, true);
            && Global(s') && s.nextRef !in s.tab.nodes && !InTable(s'.tab, s.nextRef)
            && forall q | q in s.tab.nodes :: InTable(s'.tab, q) <==> InTable(s.tab, q)
  {
    var q := s.procs[t].q;
    PutKeeps(s.tab, s.nextRef, NewNode(q.dev, q.ino, q.fork));
  }

  lemma KeepNodeAllocated(s: State, pl: map<Ref, Place>, t: Tid)
    requires Explains(pl, s) && t in s.procs && s.procs[t].AllocNode?
    ensures Inv(DoNodeAllocated(s, t, true))
  {
    var s' := DoNodeAllocated(s, t, true);
    var r := s.nextRef;
    var pl' := pl[r := Private(t)];
    ThreadAt(s, pl, t);
    NamesOwn(s, pl, t);
    HomesAreListed(s, pl);
    AllocatedGlobal(s, t);
    assert OneReclaimer(s');
    forall t' | t' in s.procs && t' != t && s.procs[t'].Sleeping?
      ensures s.procs[t'].r != r
    {
      ThreadAt(s, pl, t');
    }
    FrameOne(s, pl, s', pl', t, r);
  }

  // ------------------------------------------------ lookups that find a node

  // A listed node is marked as waited for, or gets a longer fork array.
  ghost predicate Grows(n: HNode, n': HNode) {
    && HasKey(n', n.dev, n.ino) && n'.count == n.count && n'.attaching == n.attaching
    && (n.waiting ==> n'.waiting) && (n'.waiting ==> n'.attaching)
    && |n.forks| <= |n'.forks| && n'.forks[..|n.forks|] == n.forks
    && (forall f | |n.forks| <= f < |n'.forks| :: n'.forks[f] == None)
    && (n.attaching ==> n'.forks == n.forks)
    && Vnodes(n'.forks) == Vnodes(n.forks)
  }

  lemma GrownNode(s: State, pl: map<Ref, Place>, r: Ref, n': HNode, s': State)
    requires pl.Keys == s.tab.nodes.Keys && |s.tab.buckets| > 0 && r in pl && pl[r].Listed?
    requires NodeOk(s, pl, r) && Grows(s.tab.nodes[r], n')
    requires s' == s.(tab := Put(s.tab, r, n'))
    ensures pl.Keys == s'.tab.nodes.Keys && NodeOk(s', pl, r)
  {
    var n := s.tab.nodes[r];
    assert forall f | 0 <= f < |n.forks| :: n.forks[f] == n'.forks[..|n.forks|][f];
    assert s'.tab.nodes[r] == n';
  }

  lemma KeepGrow(s: State, pl: map<Ref, Place>, r: Ref, n': HNode, s': State)
    requires Explains(pl, s) && r in pl && pl[r].Listed? && Grows(s.tab.nodes[r], n')
    requires s' == s.(tab := Put(s.tab, r, n'))
    ensures Explains(pl, s')
  {
    var t := Bounded(s.procs.Keys);
    NodeAt(s, pl, r);
    NamesOwn(s, pl, t);
    HomesAreListed(s, pl);
    PutKeeps(s.tab, r, n');
    GrownNode(s, pl, r, n', s');
    var n := s.tab.nodes[r];
    forall vn {:trigger VnodeOk(s', pl, vn)} | vn in s'.vnodes && s'.vnodes[vn].r == r
      ensures VnodeOk(s', pl, vn)
    {
      VnodeAt(s, pl, vn);
      assert forall f | 0 <= f < |n.forks| :: n.forks[f] == n'.forks[..|n.forks|][f];
    }
    forall t' | t' in s.procs && s.procs[t'].Sleeping? && s.procs[t'].r == r
      ensures n'.attaching && n'.waiting
    {
      ThreadAt(s, pl, t');
    }
    FrameOne(s, pl, s', pl, t, r);
  }
}
