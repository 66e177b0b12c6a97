/** The invariant of the HNode table is kept by the steps that change a node. */
module NodeSteps {
  import opened Common
  import opened NodeTable
  import opened NodeProtocol
  import opened NodeInvariant

  // ------------------------------------------------ a turn of the lookup loop

  lemma SleepGrows(n: HNode)
    requires n.attaching
    ensures Grows(n, n.(waiting := true))
  {
    assert n.forks[..|n.forks|] == n.forks;
  }

  lemma ExpandGrows(n: HNode, fork: nat)
    requires |n.forks| <= fork && !n.attaching && !n.waiting
    ensures Grows(n, Expanded(n, fork))
  {
    VnodesAppendNones(n.forks, fork + 1 - |n.forks|);
  }

  lemma Found(s: State, pl: map<Ref, Place>, dev: nat, ino: nat)
    requires Explains(pl, s)
    ensures Find(s.tab, dev, ino).Some? ==>
              var r := Find(s.tab, dev, ino).value;
              r in pl && pl[r].Listed? && NodeOk(s, pl, r) && HasKey(s.tab.nodes[r], dev, ino)
  {
    FindFinds(s.tab, dev, ino);
    if Find(s.tab, dev, ino).Some? { NodeAt(s, pl, Find(s.tab, dev, ino).value); }
  }

  ghost predicate AtFound(s: State, t: Tid, r: Ref)
    requires |s.tab.buckets| > 0
  {
    t in s.procs && s.procs[t].Looking? && Find(s.tab, s.procs[t].q.dev, s.procs[t].q.ino) == Some(r)
      && r in s.tab.nodes
  }

  lemma KeepSleep(s: State, pl: map<Ref, Place>, t: Tid, r: Ref)
    requires Explains(pl, s) && AtFound(s, t, r) && s.tab.nodes[r].attaching
    ensures Inv(DoTurn(s, t))
  {
    Found(s, pl, s.procs[t].q.dev, s.procs[t].q.ino);
    ThreadAt(s, pl, t);
    var n' := s.tab.nodes[r].(waiting := true);
    SleepGrows(s.tab.nodes[r]);
    var s1 := s.(tab := Put(s.tab, r, n'));
    KeepGrow(s, pl, r, n', s1);
    KeepMove(s1, pl, t, DoTurn(s, t));
  }

  lemma KeepExpand(s: State, pl: map<Ref, Place>, t: Tid, r: Ref)
    requires Explains(pl, s) && AtFound(s, t, r) && !s.tab.nodes[r].attaching
    requires s.procs[t].q.fork >= |s.tab.nodes[r].forks|
    ensures Inv(DoTurn(s, t))
  {
    var q := s.procs[t].q;
    Found(s, pl, q.dev, q.ino);
    ThreadAt(s, pl, t);
    if !q.haveBuffer {
      KeepMove(s, pl, t, DoTurn(s, t));
    } else {
      var n' := Expanded(s.tab.nodes[r], q.fork);
      ExpandGrows(s.tab.nodes[r], q.fork);
      var s1 := s.(tab := Put(s.tab, r, n'));
      KeepGrow(s, pl, r, n', s1);
      KeepMove(s1, pl, t, DoTurn(s, t));
    }
  }

  lemma KeepCandidate(s: State, pl: map<Ref, Place>, t: Tid, r: Ref)
    requires Explains(pl, s) && AtFound(s, t, r) && !s.tab.nodes[r].attaching
    requires s.procs[t].q.fork < |s.tab.nodes[r].forks| && s.tab.nodes[r].forks[s.procs[t].q.fork].Some?
    ensures Inv(DoTurn(s, t))
  {
    var q := s.procs[t].q;
    Found(s, pl, q.dev, q.ino);
    ThreadAt(s, pl, t);
    KeepMove(s, pl, t, DoTurn(s, t));
  }

  lemma PutGlobal(s: State, r: Ref, n': HNode, s': State)
    requires Global(s) && r in s.tab.nodes && HasKey(n', s.tab.nodes[r].dev, s.tab.nodes[r].ino)
    requires s' == s.(tab := Put(s.tab, r, n'), procs := s'.procs)
    ensures Global(s')
  {
    PutKeeps(s.tab, r, n');
  }

  // The thread reserves a fork of a node it found.
  function Reserved(n: HNode): HNode { n.(attaching := true, count := n.count + 1) }

  lemma ReservedNode(s: State, pl: map<Ref, Place>, t: Tid, r: Ref, fork: nat, s': State, pl': map<Ref, Place>)
    requires pl.Keys == s.tab.nodes.Keys && |s.tab.buckets| > 0 && r in pl && pl[r].Listed?
    requires NodeOk(s, pl, r) && !s.tab.nodes[r].attaching
    requires fork < |s.tab.nodes[r].forks| && s.tab.nodes[r].forks[fork] == None
    requires s' == Goto(s.(tab := Put(s.tab, r, Reserved(s.tab.nodes[r]))), t, Granted(r, fork))
    requires pl' == pl[r := Listed(Some(t))]
    ensures pl'.Keys == s'.tab.nodes.Keys && NodeOk(s', pl', r) && PcOk(s', pl', t)
  {
  }

  lemma KeepGrant(s: State, pl: map<Ref, Place>, t: Tid, r: Ref, fork: nat, s': State)
    requires Explains(pl, s) && r in pl && pl[r].Listed? && !s.tab.nodes[r].attaching
    requires t in s.procs && s.procs[t].Looking? && s.procs[t].q.newNode == None
    requires fork < |s.tab.nodes[r].forks| && s.tab.nodes[r].forks[fork] == None
    requires s' == Goto(s.(tab := Put(s.tab, r, Reserved(s.tab.nodes[r]))), t, Granted(r, fork))
    ensures Inv(s')
  {
    var pl' := pl[r := Listed(Some(t))];
    NodeAt(s, pl, r);
    NamesOwn(s, pl, t);
    HomesAreListed(s, pl);
    PutGlobal(s, r, Reserved(s.tab.nodes[r]), s');
    ReservedNode(s, pl, t, r, fork, s', pl');
    forall vn {:trigger VnodeOk(s', pl', vn)} | vn in s'.vnodes && s'.vnodes[vn].r == r
      ensures VnodeOk(s', pl', vn)
    {
      VnodeAt(s, pl, vn);
      VnodeStill(s, pl, s', pl', t, vn);
    }
    forall t' | t' in s.procs && s.procs[t'].Sleeping?
      ensures s.procs[t'].r != r
    {
      ThreadAt(s, pl, t');
    }
    GrantChanges(s, pl, t, r, fork, s', pl');
    FrameOne(s, pl, s', pl', t, r);
  }

  lemma GrantChanges(s: State, pl: map<Ref, Place>, t: Tid, r: Ref, fork: nat, s': State, pl': map<Ref, Place>)
    requires pl.Keys == s.tab.nodes.Keys && |s.tab.buckets| > 0 && r in pl && pl[r] == Listed(None)
    requires s' == Goto(s.(tab := Put(s.tab, r, Reserved(s.tab.nodes[r]))), t, Granted(r, fork))
    requires pl' == pl[r := Listed(Some(t))]
    requires forall q | q in pl && q != r :: !Names(pl[q], t)
    requires forall t' | t' in s.procs && s.procs[t'].Sleeping? :: s.procs[t'].r != r
    ensures OnlyChanges(s, pl, s', pl', t, {r}) && Benign(s, pl, s', pl', t, r)
  {
  }

  // A vnode stays where it is when the threads that reclaim vnodes go on doing so.
  lemma VnodeStill(s: State, pl: map<Ref, Place>, s': State, pl': map<Ref, Place>, t: Tid, vn: Vnode)
    requires vn in s.vnodes && vn in s'.vnodes && s'.vnodes[vn] == s.vnodes[vn] && VnodeOk(s, pl, vn)
    requires var r := s.vnodes[vn].r; var f := s.vnodes[vn].fork;
             && r in pl' && pl'[r].Listed? && r in s'.tab.nodes
             && f < |s'.tab.nodes[r].forks| && s'.tab.nodes[r].forks[f] == s.tab.nodes[r].forks[f]
    requires forall t' | t' in s.procs && t' != t && s.procs[t'].Reclaiming? ::
               t' in s'.procs && s'.procs[t'] == s.procs[t']
    requires t in s.procs && s.procs[t].Reclaiming? ==> s.procs[t].vn != vn
    ensures VnodeOk(s', pl', vn)
  {
    if s.vnodes[vn].reclaimed {
      var t' :| t' in s.procs && s.procs[t'] == Reclaiming(vn);
      assert t' in s'.procs && s'.procs[t'] == Reclaiming(vn);
    }
  }

  // The thread inserts the node it allocated and reserves it in the same breath:
  // the table never holds a node nobody refers to.
  function Inserted(s: State, t: Tid, r: Ref, fork: nat): State
    requires |s.tab.buckets| > 0 && r in s.tab.nodes
  {
    Goto(s.(tab := Put(Insert(s.tab, r), r, Reserved(s.tab.nodes[r]))), t, Granted(r, fork))
  }

  lemma InsertTurn(s: State, t: Tid, r: Ref)
    requires |s.tab.buckets| > 0 && t in s.procs && s.procs[t].Looking? && s.procs[t].q.newNode == Some(r)
    requires Find(s.tab, s.procs[t].q.dev, s.procs[t].q.ino) == None
    requires r in s.tab.nodes && s.tab.nodes[r] == NewNode(s.procs[t].q.dev, s.procs[t].q.ino, s.procs[t].q.fork)
    ensures DoTurn(s, t) == Inserted(s, t, r, s.procs[t].q.fork)
  {
  }

  lemma InsertGlobal(s: State, t: Tid, r: Ref, fork: nat, s': State)
    requires Global(s) && r in s.tab.nodes && !InTable(s.tab, r)
    requires Find(s.tab, s.tab.nodes[r].dev, s.tab.nodes[r].ino) == None
    requires s' == Inserted(s, t, r, fork)
    ensures Global(s') && InTable(s'.tab, r)
    ensures forall q | q in s.tab.nodes && q != r :: InTable(s'.tab, q) <==> InTable(s.tab, q)
  {
    InsertKeeps(s.tab, r);
    PutKeeps(Insert(s.tab, r), r, Reserved(s.tab.nodes[r]));
  }

  lemma InsertedNode(s: State, pl: map<Ref, Place>, t: Tid, r: Ref, q: Query, s': State, pl': map<Ref, Place>)
    requires pl.Keys == s.tab.nodes.Keys && |s.tab.buckets| > 0 && r in pl
    requires s.tab.nodes[r] == NewNode(q.dev, q.ino, q.fork)
    requires s' == Inserted(s, t, r, q.fork) && InTable(s'.tab, r)
    requires pl' == pl[r := Listed(Some(t))]
    ensures pl'.Keys == s'.tab.nodes.Keys && NodeOk(s', pl', r) && PcOk(s', pl', t)
    ensures s'.tab.nodes[r].attaching && s'.tab.nodes[r].count == 1
  {
    NoVnodes(s.tab.nodes[r].forks);
  }

  lemma InsertChanges(s: State, pl: map<Ref, Place>, t: Tid, r: Ref, fork: nat, s': State, pl': map<Ref, Place>)
    requires pl.Keys == s.tab.nodes.Keys && |s.tab.buckets| > 0 && r in pl && pl[r] == Private(t)
    requires s' == Inserted(s, t, r, fork)
    requires forall q | q in s.tab.nodes && q != r :: InTable(s'.tab, q) <==> InTable(s.tab, q)
    requires pl' == pl[r := Listed(Some(t))]
    requires forall q | q in pl && q != r :: !Names(pl[q], t)
    requires forall t' | t' in s.procs && s.procs[t'].Sleeping? :: s.procs[t'].r != r
    requires forall vn | vn in s.vnodes :: s.vnodes[vn].r != r
    ensures OnlyChanges(s, pl, s', pl', t, {r}) && Benign(s, pl, s', pl', t, r)
  {
  }

  lemma KeepInsert(s: State, pl: map<Ref, Place>, t: Tid, r: Ref)
    requires Explains(pl, s) && t in s.procs && s.procs[t].Looking? && s.procs[t].q.newNode == Some(r) && r in pl
    requires Find(s.tab, s.procs[t].q.dev, s.procs[t].q.ino) == None
    ensures Inv(Inserted(s, t, r, s.procs[t].q.fork))
  {
    var q := s.procs[t].q;
    var s' := Inserted(s, t, r, q.fork);
    var pl' := pl[r := Listed(Some(t))];
    ThreadAt(s, pl, t);
    NodeAt(s, pl, r);
    NamesOwn(s, pl, t);
    HomesAreListed(s, pl);
    InsertGlobal(s, t, r, q.fork, s');
    InsertedNode(s, pl, t, r, q, s', pl');
    forall t' | t' in s.procs && s.procs[t'].Sleeping?
      ensures s.procs[t'].r != r
    {
      ThreadAt(s, pl, t');
    }
    InsertChanges(s, pl, t, r, q.fork, s', pl');
    FrameOne(s, pl, s', pl', t, r);
  }

  // ------------------------------------------------ a whole turn

  // A node allocated in vain is given up before the one found is reserved.
  lemma KeepGrantFreeing(s: State, pl: map<Ref, Place>, t: Tid, r: Ref)
    requires Explains(pl, s) && AtFound(s, t, r) && !s.tab.nodes[r].attaching
    requires s.procs[t].q.fork < |s.tab.nodes[r].forks| && s.tab.nodes[r].forks[s.procs[t].q.fork] == None
    ensures Inv(DoTurn(s, t))
  {
    var q := s.procs[t].q;
    var s' := DoTurn(s, t);
    Found(s, pl, q.dev, q.ino);
    ThreadAt(s, pl, t);
    if q.newNode == None {
      KeepGrant(s, pl, t, r, q.fork, s');
    } else {
      var r0 := q.newNode.value;
      var s1 := Goto(Free(s, r0), t, Looking(q.(newNode := None)));
      assert s1.procs - {t} == s.procs - {t};
      KeepFree(s, pl, t, r0, s1);
      assert s'.tab.nodes == Put(s1.tab, r, Reserved(s1.tab.nodes[r])).nodes;
      assert s'.procs == s1.procs[t := Granted(r, q.fork)];
      KeepGrant(s1, pl - {r0}, t, r, q.fork, s');
    }
  }

  lemma KeepTurn(s: State, pl: map<Ref, Place>, t: Tid)
    requires Explains(pl, s) && t in s.procs && s.procs[t].Looking?
    ensures Inv(DoTurn(s, t))
  {
    var q := s.procs[t].q;
    ThreadAt(s, pl, t);
    match Find(s.tab, q.dev, q.ino)
    case None =>
      if q.newNode == None {
        KeepMove(s, pl, t, DoTurn(s, t));
      } else {
        KeepInsert(s, pl, t, q.newNode.value);
        InsertTurn(s, t, q.newNode.value);
      }
    case Some(r) =>
      Found(s, pl, q.dev, q.ino);
      var n := s.tab.nodes[r];
      if n.attaching {
        KeepSleep(s, pl, t, r);
      } else if q.fork >= |n.forks| {
        KeepExpand(s, pl, t, r);
      } else if n.forks[q.fork] == None {
        KeepGrantFreeing(s, pl, t, r);
      } else {
        KeepCandidate(s, pl, t, r);
      }
  }
}
