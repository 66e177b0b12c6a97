/** The HNode table refines a map from forks of files to entries: every step of
    every thread is one operation on that map or none. */
module NodeRefinement {
  import opened Common
  import opened NodeTable
  import opened NodeProtocol
  import opened NodeInvariant
  import opened NodeSteps
  import opened NodeRelease
  import opened NodeSafety

  // Node q says the same in both states.
  ghost predicate SameAt(s: State, s': State, q: Ref)
    requires |s.tab.buckets| > 0 && |s'.tab.buckets| > 0
  {
    && (InTable(s.tab, q) <==> InTable(s'.tab, q))
    && (InTable(s.tab, q) ==>
          && HasKey(s'.tab.nodes[q], s.tab.nodes[q].dev, s.tab.nodes[q].ino)
          && forall f :: At(s', q, f) == At(s, q, f))
  }

  lemma AllSame(s: State, s': State)
    requires WellFormed(s.tab) && WellFormed(s'.tab)
    requires forall q {:trigger SameAt(s, s', q)} :: SameAt(s, s', q)
    ensures Refines(s, s', None)
  {
    forall k: Key
      ensures Meaning(s', k) == Meaning(s, k)
    {
      SameMeaning(s, s', k);
    }
  }

  lemma SameMeaning(s: State, s': State, k: Key)
    requires WellFormed(s.tab) && WellFormed(s'.tab)
    requires forall q {:trigger SameAt(s, s', q)} | InTable(s.tab, q) && HasKey(s.tab.nodes[q], k.dev, k.ino) ::
               SameAt(s, s', q)
    requires forall q {:trigger SameAt(s, s', q)} | InTable(s'.tab, q) && HasKey(s'.tab.nodes[q], k.dev, k.ino) ::
               SameAt(s, s', q)
    ensures Meaning(s', k) == Meaning(s, k)
  {
    FindFinds(s.tab, k.dev, k.ino);
    FindFinds(s'.tab, k.dev, k.ino);
    var f, f' := Find(s.tab, k.dev, k.ino), Find(s'.tab, k.dev, k.ino);
    if f.Some? { assert SameAt(s, s', f.value); }
    if f'.Some? { assert SameAt(s, s', f'.value); }
  }

  // Only node r changes, and of its forks only c's.
  lemma OneChanges(s: State, s': State, r: Ref, c: Change)
    requires WellFormed(s.tab) && WellFormed(s'.tab)
    requires forall q {:trigger SameAt(s, s', q)} | q != r :: SameAt(s, s', q)
    requires r in s'.tab.nodes && HasKey(s'.tab.nodes[r], c.k.dev, c.k.ino)
    requires InTable(s.tab, r) ==> HasKey(s.tab.nodes[r], c.k.dev, c.k.ino) && At(s, r, c.k.fork) == c.before
    requires InTable(s'.tab, r) ==> At(s', r, c.k.fork) == c.after
    requires !InTable(s.tab, r) ==> c.before == Absent && Find(s.tab, c.k.dev, c.k.ino) == None
    requires !InTable(s'.tab, r) ==> c.after == Absent
    requires forall f | f != c.k.fork ::
               (if InTable(s.tab, r) then At(s, r, f) else Absent) ==
                   (if InTable(s'.tab, r) then At(s', r, f) else Absent)
    ensures Refines(s, s', Some(c))
  {
    FindFinds(s.tab, c.k.dev, c.k.ino);
    FindFinds(s'.tab, c.k.dev, c.k.ino);
    forall k: Key
      ensures Meaning(s', k) == if k == c.k then c.after else Meaning(s, k)
    {
      if k.dev == c.k.dev && k.ino == c.k.ino {
        NobodyElse(s, s', r, c);
      } else {
        SameMeaning(s, s', k);
      }
    }
  }

  // Once r has left the table its key is free.
  lemma NobodyElse(s: State, s': State, r: Ref, c: Change)
    requires WellFormed(s.tab) && WellFormed(s'.tab)
    requires forall q {:trigger SameAt(s, s', q)} | q != r :: SameAt(s, s', q)
    requires InTable(s.tab, r) ==> HasKey(s.tab.nodes[r], c.k.dev, c.k.ino)
    requires !InTable(s.tab, r) ==> Find(s.tab, c.k.dev, c.k.ino) == None
    ensures !InTable(s'.tab, r) ==> Find(s'.tab, c.k.dev, c.k.ino) == None
  {
    FindFinds(s.tab, c.k.dev, c.k.ino);
    FindFinds(s'.tab, c.k.dev, c.k.ino);
    var f' := Find(s'.tab, c.k.dev, c.k.ino);
    if f'.Some? && f'.value != r { assert SameAt(s, s', f'.value); }
  }

  // Attach rights on node q are the same when all threads but t keep theirs.
  ghost predicate GrantsKept(s: State, s': State, t: Tid) {
    forall u {:trigger u in s.procs} {:trigger u in s'.procs} | u != t ::
      && (u in s.procs && s.procs[u].Granted? ==> u in s'.procs && s'.procs[u] == s.procs[u])
      && (u in s'.procs && s'.procs[u].Granted? ==> u in s.procs && s'.procs[u] == s.procs[u])
  }

  predicate Has(s: State, t: Tid, r: Ref, f: nat) { t in s.procs && s.procs[t] == Granted(r, f) }

  lemma GrantsSame(s: State, s': State, t: Tid, q: Ref, f: nat)
    requires GrantsKept(s, s', t) && (Has(s, t, q, f) <==> Has(s', t, q, f))
    ensures GrantedTo(s, q, f) <==> GrantedTo(s', q, f)
  {
    if GrantedTo(s, q, f) {
      var u :| u in s.procs && s.procs[u] == Granted(q, f);
      assert Has(s', u, q, f);
    }
    if GrantedTo(s', q, f) {
      var u :| u in s'.procs && s'.procs[u] == Granted(q, f);
      assert Has(s, u, q, f);
    }
  }

  // ------------------------------------------------ steps that do not touch the map

  // n' has n's key and vnodes, perhaps in a longer array.
  ghost predicate Alike(n: HNode, n': HNode) {
    && HasKey(n', n.dev, n.ino) && |n.forks| <= |n'.forks|
    && (forall f | 0 <= f < |n.forks| :: n'.forks[f] == n.forks[f])
    && (forall f | |n.forks| <= f < |n'.forks| :: n'.forks[f] == None)
  }

  predicate NotGranted(s: State, t: Tid) { t in s.procs ==> !s.procs[t].Granted? }

  lemma AlikeAt(s: State, s': State, t: Tid, q: Ref, f: nat)
    requires GrantsKept(s, s', t) && (Has(s, t, q, f) <==> Has(s', t, q, f))
    requires q in s.tab.nodes && q in s'.tab.nodes && Alike(s.tab.nodes[q], s'.tab.nodes[q])
    ensures At(s', q, f) == At(s, q, f)
  {
    GrantsSame(s, s', t, q, f);
  }

  lemma Quiet(s: State, s': State, t: Tid)
    requires WellFormed(s.tab) && WellFormed(s'.tab) && s'.tab.buckets == s.tab.buckets
    requires forall q | InTable(s.tab, q) :: q in s'.tab.nodes && Alike(s.tab.nodes[q], s'.tab.nodes[q])
    requires GrantsKept(s, s', t) && NotGranted(s, t) && NotGranted(s', t)
    ensures Refines(s, s', None)
  {
    forall q {:trigger SameAt(s, s', q)}
      ensures SameAt(s, s', q)
    {
      if InTable(s.tab, q) {
        forall f
          ensures At(s', q, f) == At(s, q, f)
        {
          AlikeAt(s, s', t, q, f);
        }
      }
    }
    AllSame(s, s');
  }

  lemma InvIsWellFormed(s: State)
    requires Inv(s)
    ensures WellFormed(s.tab)
  {
    var pl: map<Ref, Place> :| Explains(pl, s);
  }

  // A node that a thread has for itself is not in the table.
  lemma OwnIsUnlisted(s: State, t: Tid, r: Ref)
    requires Inv(s) && t in s.procs && r in Own(s.procs[t]) && !s.procs[t].Granted?
    ensures |s.tab.buckets| > 0 && !InTable(s.tab, r)
  {
    var pl: map<Ref, Place> :| Explains(pl, s);
    ThreadAt(s, pl, t);
    NodeAt(s, pl, r);
  }

  // Moves, and freeing a node of one's own.
  lemma QuietMove(s: State, s': State, t: Tid)
    requires Inv(s) && Inv(s') && s'.tab == s.tab && s'.procs - {t} == s.procs - {t}
    requires NotGranted(s, t) && NotGranted(s', t)
    ensures WellFormed(s.tab) && Refines(s, s', None)
  {
    InvIsWellFormed(s);
    assert forall u | u != t :: (u in s'.procs <==> u in s'.procs - {t}) && (u in s.procs <==> u in s.procs - {t});
    Quiet(s, s', t);
  }

  lemma QuietFree(s: State, s': State, t: Tid, r: Ref)
    requires Inv(s) && Inv(s') && t in s.procs && r in Own(s.procs[t])
    requires s' == Free(s, r).(procs := s'.procs) && s'.procs - {t} == s.procs - {t}
    requires NotGranted(s, t) && NotGranted(s', t)
    ensures WellFormed(s.tab) && WellFormed(s'.tab) && Refines(s, s', None)
  {
    InvIsWellFormed(s);
    InvIsWellFormed(s');
    OwnIsUnlisted(s, t, r);
    assert forall u | u != t :: (u in s'.procs <==> u in s'.procs - {t}) && (u in s.procs <==> u in s.procs - {t});
    Quiet(s, s', t);
  }

  lemma QuietNodeAllocated(s: State, t: Tid, ok: bool)
    requires Inv(s) && t in s.procs && s.procs[t].AllocNode? && Inv(DoNodeAllocated(s, t, ok))
    ensures WellFormed(s.tab) && WellFormed(DoNodeAllocated(s, t, ok).tab)
            && Refines(s, DoNodeAllocated(s, t, ok), None)
  {
    var s' := DoNodeAllocated(s, t, ok);
    InvIsWellFormed(s);
    InvIsWellFormed(s');
    Quiet(s, s', t);
  }

  // A thread that brings a node along and finds none is granted the attach.
  lemma InsertsOwn(s: State, t: Tid)
    requires Inv(s) && |s.tab.buckets| > 0 && t in s.procs && s.procs[t].Looking?
    requires Find(s.tab, s.procs[t].q.dev, s.procs[t].q.ino) == None && s.procs[t].q.newNode.Some?
    ensures var r := s.procs[t].q.newNode.value;
            && r in s.tab.nodes && !InTable(s.tab, r)
            && s.tab.nodes[r] == NewNode(s.procs[t].q.dev, s.procs[t].q.ino, s.procs[t].q.fork)
            && DoTurn(s, t) == Inserted(s, t, r, s.procs[t].q.fork)
  {
    var pl: map<Ref, Place> :| Explains(pl, s);
    ThreadAt(s, pl, t);
    NodeAt(s, pl, s.procs[t].q.newNode.value);
    InsertTurn(s, t, s.procs[t].q.newNode.value);
  }

  lemma FoundIsListed(s: State, dev: nat, ino: nat)
    requires Inv(s) && |s.tab.buckets| > 0
    ensures Find(s.tab, dev, ino).Some? ==> InTable(s.tab, Find(s.tab, dev, ino).value)
  {
    InvIsWellFormed(s);
    FindFinds(s.tab, dev, ino);
  }

  lemma QuietTable(s: State, t: Tid, s': State)
    requires |s.tab.buckets| > 0 && t in s.procs && s.procs[t].Looking? && s' == DoTurn(s, t) && NotGranted(s', t)
    requires Find(s.tab, s.procs[t].q.dev, s.procs[t].q.ino).None? ==> s.procs[t].q.newNode.None?
    requires Find(s.tab, s.procs[t].q.dev, s.procs[t].q.ino).Some? ==>
               Find(s.tab, s.procs[t].q.dev, s.procs[t].q.ino).value in s.tab.nodes
    ensures s'.tab.buckets == s.tab.buckets
    ensures forall q | q in s.tab.nodes :: q in s'.tab.nodes && Alike(s.tab.nodes[q], s'.tab.nodes[q])
    ensures GrantsKept(s, s', t)
  {
  }

  lemma QuietTurn(s: State, t: Tid, s': State)
    requires Inv(s) && |s.tab.buckets| > 0 && t in s.procs && s.procs[t].Looking? && s' == DoTurn(s, t) && Inv(s')
    requires NotGranted(s', t)
    ensures WellFormed(s.tab) && WellFormed(s'.tab) && Refines(s, s', None)
  {
    InvIsWellFormed(s);
    InvIsWellFormed(s');
    var q := s.procs[t].q;
    FoundIsListed(s, q.dev, q.ino);
    if Find(s.tab, q.dev, q.ino).None? && q.newNode.Some? { InsertsOwn(s, t); }
    QuietTable(s, t, s');
    Quiet(s, s', t);
  }

  // ------------------------------------------------ steps that change the map

  // A right to attach is to a listed node, on a fork that has no vnode, and there
  // is no other on that node.
  lemma GrantFacts(s: State, t: Tid)
    requires Inv(s) && t in s.procs && s.procs[t].Granted?
    ensures var r := s.procs[t].r;
            && |s.tab.buckets| > 0 && InTable(s.tab, r) && s.tab.nodes[r].attaching
            && s.tab.nodes[r].count == Vnodes(s.tab.nodes[r].forks) + 1
            && s.procs[t].fork < |s.tab.nodes[r].forks| && s.tab.nodes[r].forks[s.procs[t].fork] == None
            && forall u | u in s.procs && s.procs[u].Granted? && s.procs[u].r == r :: u == t
  {
    var pl: map<Ref, Place> :| Explains(pl, s);
    ThreadAt(s, pl, t);
    NodeAt(s, pl, s.procs[t].r);
    forall u | u in s.procs && s.procs[u].Granted? && s.procs[u].r == s.procs[t].r
      ensures u == t
    {
      ThreadAt(s, pl, u);
    }
  }

  lemma OnlyGrant(s: State, t: Tid, f: nat)
    requires Inv(s) && t in s.procs && s.procs[t].Granted?
    ensures GrantedTo(s, s.procs[t].r, f) <==> f == s.procs[t].fork
  {
    GrantFacts(s, t);
    if f == s.procs[t].fork { assert Has(s, t, s.procs[t].r, f); }
  }

  lemma NoGrant(s: State, r: Ref, f: nat)
    requires Inv(s)
    requires |s.tab.buckets| > 0 && InTable(s.tab, r) ==>
               !s.tab.nodes[r].attaching || (f < |s.tab.nodes[r].forks| && s.tab.nodes[r].forks[f].Some?)
    ensures !GrantedTo(s, r, f)
  {
    if GrantedTo(s, r, f) {
      var t :| t in s.procs && s.procs[t] == Granted(r, f);
      GrantFacts(s, t);
    }
  }

  // The other nodes are not concerned.
  lemma OthersSame(s: State, s': State, t: Tid, r: Ref)
    requires |s.tab.buckets| > 0 && |s'.tab.buckets| > 0 && GrantsKept(s, s', t)
    requires NotGranted(s, t) || s.procs[t].r == r
    requires NotGranted(s', t) || s'.procs[t].r == r
    requires forall q | q != r :: InTable(s.tab, q) <==> InTable(s'.tab, q)
    requires forall q | q != r && InTable(s.tab, q) :: q in s'.tab.nodes && s'.tab.nodes[q] == s.tab.nodes[q]
    ensures forall q {:trigger SameAt(s, s', q)} | q != r :: SameAt(s, s', q)
  {
    forall q {:trigger SameAt(s, s', q)} | q != r
      ensures SameAt(s, s', q)
    {
      if InTable(s.tab, q) {
        forall f
          ensures At(s', q, f) == At(s, q, f)
        {
          AlikeAt(s, s', t, q, f);
        }
      }
    }
  }

  lemma FoundGrantTable(s: State, t: Tid, r: Ref, s': State)
    requires WellFormed(s.tab) && AtFound(s, t, r) && InTable(s.tab, r) && s' == DoTurn(s, t) && !NotGranted(s', t)
    requires s.procs[t].q.newNode.Some? ==> !InTable(s.tab, s.procs[t].q.newNode.value)
    ensures s'.tab.buckets == s.tab.buckets
    ensures forall q | q in s.tab.nodes && q != r && s.procs[t].q.newNode != Some(q) ::
              q in s'.tab.nodes && s'.tab.nodes[q] == s.tab.nodes[q]
    ensures forall q :: InTable(s.tab, q) <==> InTable(s'.tab, q)
    ensures r in s'.tab.nodes && s'.tab.nodes[r] == Reserved(s.tab.nodes[r])
    ensures s'.procs == s.procs[t := Granted(r, s.procs[t].q.fork)]
    ensures !s.tab.nodes[r].attaching && s.procs[t].q.fork < |s.tab.nodes[r].forks|
            && s.tab.nodes[r].forks[s.procs[t].q.fork] == None
  {
    assert s'.procs[t] == Granted(r, s.procs[t].q.fork);
    assert s'.tab.buckets == s.tab.buckets;
    assert r in s'.tab.nodes && s'.tab.nodes[r] == Reserved(s.tab.nodes[r]);
    forall q
      ensures InTable(s.tab, q) <==> InTable(s'.tab, q)
    {
    }
  }

  lemma FoundGrant(s: State, t: Tid, r: Ref, s': State)
    requires Inv(s) && Inv(s') && |s.tab.buckets| > 0 && AtFound(s, t, r) && s' == DoTurn(s, t) && !NotGranted(s', t)
    ensures WellFormed(s.tab) && WellFormed(s'.tab)
    ensures var q := s.procs[t].q; Refines(s, s', Some(Change(Key(q.dev, q.ino, q.fork), Absent, Attaching)))
  {
    var q := s.procs[t].q;
    InvIsWellFormed(s);
    InvIsWellFormed(s');
    FindFinds(s.tab, q.dev, q.ino);
    if q.newNode.Some? { OwnIsUnlisted(s, t, q.newNode.value); }
    FoundGrantTable(s, t, r, s');
    OthersSame(s, s', t, r);
    NoGrant(s, r, q.fork);
    OnlyGrant(s', t, q.fork);
    forall f | f != q.fork
      ensures At(s', r, f) == At(s, r, f)
    {
      AlikeAt(s, s', t, r, f);
    }
    OneChanges(s, s', r, Change(Key(q.dev, q.ino, q.fork), Absent, Attaching));
  }

  lemma InsertedElsewhere(s: State, t: Tid, r: Ref, fork: nat, s': State)
    requires WellFormed(s.tab) && t in s.procs && s.procs[t].Looking? && r in s.tab.nodes && !InTable(s.tab, r)
    requires Find(s.tab, s.tab.nodes[r].dev, s.tab.nodes[r].ino) == None && s' == Inserted(s, t, r, fork)
    ensures InTable(s'.tab, r)
    ensures forall q {:trigger SameAt(s, s', q)} | q != r :: SameAt(s, s', q)
  {
    InsertKeeps(s.tab, r);
    assert forall x :: InTable(s'.tab, x) <==> InTable(Insert(s.tab, r), x);
    OthersSame(s, s', t, r);
  }

  lemma InsertedGrant(s: State, t: Tid, r: Ref, s': State)
    requires Inv(s) && Inv(s') && |s.tab.buckets| > 0 && t in s.procs && s.procs[t].Looking? && s' == DoTurn(s, t)
    requires Find(s.tab, s.procs[t].q.dev, s.procs[t].q.ino) == None && s.procs[t].q.newNode == Some(r)
    ensures WellFormed(s.tab) && WellFormed(s'.tab)
    ensures var q := s.procs[t].q; Refines(s, s', Some(Change(Key(q.dev, q.ino, q.fork), Absent, Attaching)))
  {
    var q := s.procs[t].q;
    InvIsWellFormed(s);
    InvIsWellFormed(s');
    InsertsOwn(s, t);
    InsertedElsewhere(s, t, r, q.fork, s');
    OnlyGrant(s', t, q.fork);
    forall f | f != q.fork
      ensures At(s', r, f) == Absent
    {
      OnlyGrant(s', t, f);
    }
    OneChanges(s, s', r, Change(Key(q.dev, q.ino, q.fork), Absent, Attaching));
  }

  // The attach on fork of node r, which t had the right to, is over.
  lemma GrantOver(s: State, t: Tid, s': State, f: nat)
    requires Inv(s) && t in s.procs && s.procs[t].Granted?
    requires GrantsKept(s, s', t) && NotGranted(s', t)
    ensures !GrantedTo(s', s.procs[t].r, f)
  {
    GrantFacts(s, t);
    forall u | u in s'.procs && s'.procs[u].Granted?
      ensures s'.procs[u].r != s.procs[t].r
    {
      assert u != t ==> u in s.procs;
    }
  }

  lemma AttachedElsewhere(s: State, t: Tid, r: Ref, s': State)
    requires AttachEnabled(s, t) && s.procs[t].r == r && s' == DoAttachOk(s, t)
    ensures GrantsKept(s, s', t) && (InTable(s.tab, r) <==> InTable(s'.tab, r))
    ensures forall q {:trigger SameAt(s, s', q)} | q != r :: SameAt(s, s', q)
  {
    assert forall q :: InTable(s.tab, q) <==> InTable(s'.tab, q);
    OthersSame(s, s', t, r);
  }

  lemma AttachedAt(s: State, t: Tid, r: Ref, fork: nat, s': State, f: nat)
    requires Inv(s) && t in s.procs && s.procs[t] == Granted(r, fork) && GrantsKept(s, s', t) && NotGranted(s', t)
    requires r in s.tab.nodes && r in s'.tab.nodes && fork < |s.tab.nodes[r].forks|
    requires s'.tab.nodes[r].forks == s.tab.nodes[r].forks[fork := Some(s.nextVnode)]
    ensures At(s', r, f) == if f == fork then Mapped(s.nextVnode) else At(s, r, f)
    ensures At(s, r, fork) == Attaching
  {
    OnlyGrant(s, t, f);
    OnlyGrant(s, t, fork);
    GrantOver(s, t, s', f);
  }

  lemma AttachedMeaning(s: State, t: Tid, s': State)
    requires Inv(s) && Inv(s') && AttachEnabled(s, t) && s' == DoAttachOk(s, t)
    ensures WellFormed(s.tab) && WellFormed(s'.tab)
    ensures var n := s.tab.nodes[s.procs[t].r];
            Refines(s, s', Some(Change(Key(n.dev, n.ino, s.procs[t].fork), Attaching, Mapped(s.nextVnode))))
  {
    var r, fork := s.procs[t].r, s.procs[t].fork;
    var n := s.tab.nodes[r];
    InvIsWellFormed(s);
    InvIsWellFormed(s');
    GrantFacts(s, t);
    AttachedElsewhere(s, t, r, s');
    forall f: nat
      ensures At(s', r, f) == if f == fork then Mapped(s.nextVnode) else At(s, r, f)
      ensures At(s, r, fork) == Attaching
    {
      AttachedAt(s, t, r, fork, s', f);
    }
    OneChanges(s, s', r, Change(Key(n.dev, n.ino, fork), Attaching, Mapped(s.nextVnode)));
  }

  lemma DroppedElsewhere(s: State, t: Tid, r: Ref, n: HNode, s': State)
    requires WellFormed(s.tab) && InTable(s.tab, r) && HasKey(n, s.tab.nodes[r].dev, s.tab.nodes[r].ino)
    requires s'.tab == Dropped(s.tab, r, n) && GrantsKept(s, s', t) && NotGranted(s', t)
    requires NotGranted(s, t) || s.procs[t].r == r
    ensures InTable(s'.tab, r) <==> n.count != 0
    ensures r in s'.tab.nodes && s'.tab.nodes[r] == n
    ensures forall q {:trigger SameAt(s, s', q)} | q != r :: SameAt(s, s', q)
  {
    PutKeeps(s.tab, r, n);
    if n.count == 0 { UnlinkKeeps(Put(s.tab, r, n), r); }
    OthersSame(s, s', t, r);
  }

  // Once the attach has failed, the node's other forks are as they were.
  lemma FailedAt(s: State, t: Tid, s': State, f: nat)
    requires Inv(s) && AttachEnabled(s, t) && GrantsKept(s, s', t) && NotGranted(s', t)
    requires s.procs[t].r in s'.tab.nodes && s'.tab.nodes[s.procs[t].r].forks == s.tab.nodes[s.procs[t].r].forks
    ensures At(s', s.procs[t].r, f) == if f == s.procs[t].fork then Absent else At(s, s.procs[t].r, f)
    ensures At(s, s.procs[t].r, s.procs[t].fork) == Attaching
    ensures s.tab.nodes[s.procs[t].r].count == 1 && f != s.procs[t].fork ==> At(s, s.procs[t].r, f) == Absent
  {
    GrantFacts(s, t);
    OnlyGrant(s, t, f);
    OnlyGrant(s, t, s.procs[t].fork);
    GrantOver(s, t, s', f);
    NoVnodes(s.tab.nodes[s.procs[t].r].forks);
  }

  lemma FailedMeaning(s: State, t: Tid, s': State)
    requires Inv(s) && Inv(s') && AttachEnabled(s, t) && s' == DoAttachFail(s, t)
    ensures WellFormed(s.tab) && WellFormed(s'.tab)
    ensures var n := s.tab.nodes[s.procs[t].r];
            Refines(s, s', Some(Change(Key(n.dev, n.ino, s.procs[t].fork), Attaching, Absent)))
  {
    var r, fork := s.procs[t].r, s.procs[t].fork;
    var n := s.tab.nodes[r];
    InvIsWellFormed(s);
    InvIsWellFormed(s');
    GrantFacts(s, t);
    FailIs(s, t);
    DroppedElsewhere(s, t, r, Released(s, t, r), s');
    forall f: nat
      ensures At(s', r, f) == if f == fork then Absent else At(s, r, f)
      ensures At(s, r, fork) == Attaching
      ensures n.count == 1 && f != fork ==> At(s, r, f) == Absent
    {
      FailedAt(s, t, s', f);
    }
    OneChanges(s, s', r, Change(Key(n.dev, n.ino, fork), Attaching, Absent));
  }

  lemma DetachFacts(s: State, t: Tid)
    requires Inv(s) && DetachEnabled(s, t)
    ensures var v := s.vnodes[s.procs[t].vn];
            && InTable(s.tab, v.r) && s.tab.nodes[v.r].forks[v.fork] == Some(s.procs[t].vn)
            && s.tab.nodes[v.r].count == References(s.tab.nodes[v.r])
  {
    var pl: map<Ref, Place> :| Explains(pl, s);
    VnodeAt(s, pl, s.procs[t].vn);
    NodeAt(s, pl, s.vnodes[s.procs[t].vn].r);
  }

  lemma DetachedAt(s: State, t: Tid, r: Ref, fork: nat, s': State, f: nat)
    requires Inv(s) && DetachEnabled(s, t) && r == s.vnodes[s.procs[t].vn].r && fork == s.vnodes[s.procs[t].vn].fork
    requires GrantsKept(s, s', t) && NotGranted(s', t)
    requires r in s'.tab.nodes && s'.tab.nodes[r].forks == s.tab.nodes[r].forks[fork := None]
    ensures At(s', r, f) == if f == fork then Absent else At(s, r, f)
    ensures At(s, r, fork) == Mapped(s.procs[t].vn)
    ensures s.tab.nodes[r].count == 1 && f != fork ==> At(s, r, f) == Absent
  {
    var forks := s.tab.nodes[r].forks;
    DetachFacts(s, t);
    NoGrant(s, r, fork);
    GrantsSame(s, s', t, r, f);
    VnodesUpdate(forks, fork, None);
    NoVnodes(forks[fork := None]);
    if s.tab.nodes[r].count == 1 && f != fork {
      assert f < |forks| ==> forks[fork := None][f] == None;
      NoGrant(s, r, f);
    }
  }

  lemma DetachedMeaning(s: State, t: Tid, s': State)
    requires Inv(s) && Inv(s') && DetachEnabled(s, t) && s' == DoDetach(s, t)
    ensures WellFormed(s.tab) && WellFormed(s'.tab)
    ensures var v := s.vnodes[s.procs[t].vn]; var n := s.tab.nodes[v.r];
            Refines(s, s', Some(Change(Key(n.dev, n.ino, v.fork), Mapped(s.procs[t].vn), Absent)))
  {
    var vn := s.procs[t].vn;
    var v := s.vnodes[vn];
    var n := s.tab.nodes[v.r];
    InvIsWellFormed(s);
    InvIsWellFormed(s');
    DetachFacts(s, t);
    DetachIs(s, t);
    DroppedElsewhere(s, t, v.r, Emptied(s, v), s');
    forall f: nat
      ensures At(s', v.r, f) == if f == v.fork then Absent else At(s, v.r, f)
      ensures At(s, v.r, v.fork) == Mapped(vn)
      ensures n.count == 1 && f != v.fork ==> At(s, v.r, f) == Absent
    {
      DetachedAt(s, t, v.r, v.fork, s', f);
    }
    OneChanges(s, s', v.r, Change(Key(n.dev, n.ino, v.fork), Mapped(vn), Absent));
  }

  // ------------------------------------------------ the refinement

  lemma QuietStep(s: State, step: Step)
    requires Inv(s) && Enabled(s, step) && Inv(Apply(s, step))
    requires step.BufferAllocated? || step.Check? || step.ScrubDone?
    ensures WellFormed(s.tab) && WellFormed(Apply(s, step).tab) && Refines(s, Apply(s, step), None)
  {
    var s', t := Apply(s, step), step.tid;
    if step.ScrubDone? {
      QuietFree(s, s', t, s.procs[t].r);
    } else if (step.BufferAllocated? <==> step.ok) || s.procs[t].q.newNode == None {
      QuietMove(s, s', t);
    } else {
      QuietFree(s, s', t, s.procs[t].q.newNode.value);
    }
  }

  lemma QuietMoves(s: State, step: Step)
    requires Inv(s) && Enabled(s, step) && Inv(Apply(s, step))
    requires step.Lookup? || step.WakeUp? || step.QuickLookup? || step.QuickCheck? || step.Release? || step.Reclaim?
    ensures WellFormed(s.tab) && WellFormed(Apply(s, step).tab) && Refines(s, Apply(s, step), None)
  {
    QuietMove(s, Apply(s, step), step.tid);
  }

  // In every reachable state every step does to the map what it stands for: a
  // lookup that returns no vnode turns an absent entry into an attaching one, an
  // attach ends that in a vnode or in nothing, a detach removes the vnode it was
  // called for, and nothing else changes any entry.
  lemma StepRefines(s: State, step: Step)
    requires Reachable(s) && Enabled(s, step)
    ensures |s.tab.buckets| > 0 && |Apply(s, step).tab.buckets| > 0
    ensures Refines(s, Apply(s, step), Effect(s, step))
  {
    ReachableInv(s);
    StepKeepsInv(s, step);
    var s' := Apply(s, step);
    match step
    case Turn(t) =>
      TurnRefines(s, t, s');
    case NodeAllocated(t, ok) => QuietNodeAllocated(s, t, ok);
    case AttachOk(t) => AttachedMeaning(s, t, s');
    case AttachFail(t) => FailedMeaning(s, t, s');
    case DetachIt(t) => DetachedMeaning(s, t, s');
    case BufferAllocated(t, ok) => QuietStep(s, step);
    case Check(t, ok) => QuietStep(s, step);
    case ScrubDone(t) => QuietStep(s, step);
    case _ => QuietMoves(s, step);
  }

  lemma TurnRefines(s: State, t: Tid, s': State)
    requires Inv(s) && |s.tab.buckets| > 0 && t in s.procs && s.procs[t].Looking? && s' == DoTurn(s, t) && Inv(s')
    ensures WellFormed(s.tab) && WellFormed(s'.tab)
    ensures var q := s.procs[t].q;
            Refines(s, s', if t in s'.procs && s'.procs[t].Granted?
                           then Some(Change(Key(q.dev, q.ino, q.fork), Absent, Attaching)) else None)
  {
    var q := s.procs[t].q;
    FoundIsListed(s, q.dev, q.ino);
    if NotGranted(s', t) {
      QuietTurn(s, t, s');
    } else if Find(s.tab, q.dev, q.ino).Some? {
      FoundGrant(s, t, Find(s.tab, q.dev, q.ino).value, s');
    } else {
      InsertedGrant(s, t, q.newNode.value, s');
    }
  }

  // Both lookups return the vnode that is mapped at that moment.
  lemma LookupsReturnTheMapped(s: State, t: Tid)
    requires Reachable(s) && t in s.procs && (s.procs[t].Checking? || s.procs[t].QuickChecking?)
    requires Gettable(s, s.procs[t].vn)
    ensures |s.tab.buckets| > 0
    ensures var q := s.procs[t].q; Meaning(s, Key(q.dev, q.ino, q.fork)) == Mapped(s.procs[t].vn)
  {
    ReachableInv(s);
    var pl: map<Ref, Place> :| Explains(pl, s);
    ThreadAt(s, pl, t);
    VnodeIsMapped(s, s.procs[t].vn);
  }

  // As long as a thread holds a vnode, that is the one mapped.
  lemma HeldIsMapped(s: State, t: Tid)
    requires Reachable(s) && t in s.procs && s.procs[t].Holding?
    ensures var r, vn := s.procs[t].r, s.procs[t].vn;
            && |s.tab.buckets| > 0 && r in s.tab.nodes && vn in s.vnodes
            && Meaning(s, Key(s.tab.nodes[r].dev, s.tab.nodes[r].ino, s.vnodes[vn].fork)) == Mapped(vn)
  {
    ReachableInv(s);
    var pl: map<Ref, Place> :| Explains(pl, s);
    ThreadAt(s, pl, t);
    VnodeIsMapped(s, s.procs[t].vn);
  }

  // A vnode is mapped under its key from the attach to the detach.
  lemma VnodeIsMapped(s: State, vn: Vnode)
    requires Inv(s) && vn in s.vnodes
    ensures |s.tab.buckets| > 0 && s.vnodes[vn].r in s.tab.nodes
    ensures var n := s.tab.nodes[s.vnodes[vn].r]; Meaning(s, Key(n.dev, n.ino, s.vnodes[vn].fork)) == Mapped(vn)
  {
    var pl: map<Ref, Place> :| Explains(pl, s);
    var v := s.vnodes[vn];
    VnodeAt(s, pl, vn);
    NodeAt(s, pl, v.r);
    FindFinds(s.tab, s.tab.nodes[v.r].dev, s.tab.nodes[v.r].ino);
    NoGrant(s, v.r, v.fork);
  }

  // ------------------------------------------------ no node is lost

  // Every node ever allocated is still there or was freed.
  ghost predicate Accounted(s: State) {
    forall r: Ref :: r < s.nextRef <==> r in s.tab.nodes || r in s.freed
  }

  // Between s and s' node r, if any, was freed, and no other came or went.
  ghost predicate FreesAtMost(s: State, s': State, r: Option<Ref>) {
    && s'.nextRef == s.nextRef
    && match r
       case None => s'.tab.nodes.Keys == s.tab.nodes.Keys && s'.freed == s.freed
       case Some(x) => x in s.tab.nodes && s'.tab.nodes.Keys == s.tab.nodes.Keys - {x} && s'.freed == s.freed + [x]
  }

  lemma TurnFrees(s: State, t: Tid)
    requires Inv(s) && |s.tab.buckets| > 0 && t in s.procs && s.procs[t].Looking?
    ensures FreesAtMost(s, DoTurn(s, t), None) || FreesAtMost(s, DoTurn(s, t), s.procs[t].q.newNode)
  {
    var pl: map<Ref, Place> :| Explains(pl, s);
    ThreadAt(s, pl, t);
    var q := s.procs[t].q;
    FoundIsListed(s, q.dev, q.ino);
    var s' := DoTurn(s, t);
    if Find(s.tab, q.dev, q.ino).Some? && s'.procs[t].Granted? && q.newNode.Some? {
      assert s'.tab.nodes.Keys == s.tab.nodes.Keys - {q.newNode.value};
    } else {
      assert s'.tab.nodes.Keys == s.tab.nodes.Keys;
    }
  }

  predicate MayFree(step: Step) { step.BufferAllocated? || step.Check? || step.ScrubDone? }

  lemma NothingFreed(s: State, step: Step)
    requires Enabled(s, step) && !step.Turn? && !step.NodeAllocated? && !MayFree(step)
    ensures FreesAtMost(s, Apply(s, step), None)
  {
    assert Apply(s, step).tab.nodes.Keys == s.tab.nodes.Keys;
  }

  lemma StepFrees(s: State, step: Step) returns (r: Option<Ref>)
    requires Inv(s) && Enabled(s, step) && !step.NodeAllocated?
    ensures FreesAtMost(s, Apply(s, step), r)
  {
    var pl: map<Ref, Place> :| Explains(pl, s);
    if step.tid in s.procs { ThreadAt(s, pl, step.tid); }
    var s' := Apply(s, step);
    if step.Turn? {
      TurnFrees(s, step.tid);
      r := if FreesAtMost(s, s', None) then None else s.procs[step.tid].q.newNode;
    } else if !MayFree(step) {
      r := None;
      NothingFreed(s, step);
    } else if s'.freed == s.freed {
      r := None;
      assert s'.tab.nodes.Keys == s.tab.nodes.Keys;
    } else {
      r := Some(s'.freed[|s.freed|]);
      assert s'.tab.nodes.Keys == s.tab.nodes.Keys - {r.value};
    }
  }

  lemma StepAccounts(s: State, step: Step)
    requires Inv(s) && Enabled(s, step) && Accounted(s)
    ensures Accounted(Apply(s, step))
  {
    if !step.NodeAllocated? {
      var r := StepFrees(s, step);
    }
  }

  lemma {:induction false} RunAccounts(s: State, steps: seq<Step>, s': State)
    requires Inv(s) && Accounted(s) && Runs(s, steps, s')
    ensures Accounted(s')
    decreases |steps|
  {
    if steps != [] {
      StepKeepsInv(s, steps[0]);
      StepAccounts(s, steps[0]);
      RunAccounts(Apply(s, steps[0]), steps[1..], s');
    }
  }

  // The thread that must insert or free node r.
  predicate InHands(s: State, t: Tid, r: Ref) {
    t in s.procs && r in Own(s.procs[t]) && !s.procs[t].Granted?
  }

  // Every node ever allocated was freed, once, or is in the table, or is in the
  // hands of exactly one thread.
  lemma EveryNodeAccounted(s: State)
    requires Reachable(s)
    ensures |s.tab.buckets| > 0 && Distinct(s.freed)
    ensures forall r: Ref :: r < s.nextRef <==> (r in s.freed || r in s.tab.nodes)
    ensures forall r | r in s.freed :: r !in s.tab.nodes
    ensures forall r | r in s.tab.nodes && !InTable(s.tab, r) :: exists t :: InHands(s, t, r)
    ensures forall t, u, r | InHands(s, t, r) && InHands(s, u, r) :: t == u && r in s.tab.nodes && !InTable(s.tab, r)
  {
    ReachableInv(s);
    var size: nat, steps :| size > 0 && Runs(Start(size), steps, s);
    StartInv(size);
    RunAccounts(Start(size), steps, s);
    var pl: map<Ref, Place> :| Explains(pl, s);
    forall r | r in s.tab.nodes && !InTable(s.tab, r)
      ensures exists t :: InHands(s, t, r)
    {
      SomebodyHas(s, pl, r);
    }
    forall t, u, r | InHands(s, t, r) && InHands(s, u, r)
      ensures t == u && r in s.tab.nodes && !InTable(s.tab, r)
    {
      OnlyOneHas(s, pl, t, r);
      OnlyOneHas(s, pl, u, r);
    }
  }

  lemma SomebodyHas(s: State, pl: map<Ref, Place>, r: Ref)
    requires Explains(pl, s) && r in s.tab.nodes && !InTable(s.tab, r)
    ensures exists t :: InHands(s, t, r)
  {
    NodeAt(s, pl, r);
    var t := if pl[r].Private? then pl[r].holder else pl[r].scrubber;
    assert InHands(s, t, r);
  }

  lemma OnlyOneHas(s: State, pl: map<Ref, Place>, t: Tid, r: Ref)
    requires Explains(pl, s) && InHands(s, t, r)
    ensures r in s.tab.nodes && !InTable(s.tab, r) && (pl[r] == Private(t) || pl[r] == Doomed(t))
  {
    ThreadAt(s, pl, t);
    NodeAt(s, pl, r);
  }
}
