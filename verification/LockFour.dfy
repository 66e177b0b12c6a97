/** Locking up to four fusenodes: an order on nodes, a merge of two ordered pairs
    that skips duplicates, and locks taken all or none. */
module LockFour {
  type Addr = nat

  // A fusenode pointer. The sentinel is the address 0xffffffff, past every node.
  datatype Ptr = Null | Node(addr: Addr) | Sentinel

  datatype Ids = Ids(nodeid: nat, parent: nat)

  type Forest = Addr -> Ids

  // fusefs_isordered
  predicate Ordered(ids: Forest, p: Ptr, q: Ptr) {
    if p == q then false
    else if p.Null? || q.Sentinel? then true
    else if q.Null? || p.Sentinel? then false
    else if ids(p.addr).nodeid == ids(q.addr).parent then true
    else if ids(q.addr).nodeid == ids(p.addr).parent then false
    else p.addr < q.addr
  }

  // Two distinct nodes that name each other as parent.
  predicate MutualParents(ids: Forest, p: Ptr, q: Ptr) {
    && p.Node? && q.Node? && p != q
    && ids(p.addr).nodeid == ids(q.addr).parent && ids(q.addr).nodeid == ids(p.addr).parent
  }

  // The order is total, and only mutual parents come both before and after.
  lemma OrderedIsTotal(ids: Forest, p: Ptr, q: Ptr)
    ensures Ordered(ids, p, q) || Ordered(ids, q, p) <==> p != q
    ensures Ordered(ids, p, q) && Ordered(ids, q, p) <==> MutualParents(ids, p, q)
  {
  }

  function SortPair(ids: Forest, p: Ptr, q: Ptr): seq<Ptr> {
    if Ordered(ids, p, q) then [p, q] else [q, p]
  }

  // Append unless it repeats the last element.
  function Push(s: seq<Ptr>, p: Ptr): seq<Ptr> {
    if s != [] && s[|s| - 1] == p then s else s + [p]
  }

  function Merge(ids: Forest, a: seq<Ptr>, b: seq<Ptr>, acc: seq<Ptr>): seq<Ptr>
    decreases |a| + |b|
  {
    if a == [] && b == [] then acc
    else if b == [] || (a != [] && Ordered(ids, a[0], b[0])) then Merge(ids, a[1..], b, Push(acc, a[0]))
    else Merge(ids, a, b[1..], Push(acc, b[0]))
  }

  // The list fusefs_lockfour builds.
  function LockList(ids: Forest, c1: Ptr, c2: Ptr, c3: Ptr, c4: Ptr): seq<Ptr> {
    Merge(ids, SortPair(ids, c1, c2), SortPair(ids, c3, c4), [])
  }

  // ------------------------------------------------ each node exactly once

  // Every node of s is in list, once, and no other node is.
  ghost predicate EachOnce(list: seq<Ptr>, s: seq<Ptr>) {
    NodesDiffer(list) && forall p: Ptr | p.Node? :: p in list <==> p in s
  }

  // When the list goes wrong: the last two arguments are each other's parents,
  // and the first two bring the fourth in at the wrong moment.
  predicate Collides(ids: Forest, c1: Ptr, c2: Ptr, c3: Ptr, c4: Ptr) {
    var a := SortPair(ids, c1, c2);
    MutualParents(ids, c3, c4) && (a[0] == c4 || (a[1] == c4 && Ordered(ids, a[0], c3)))
  }

  // The merge of two pairs, written out.
  function Merge22(ids: Forest, a0: Ptr, a1: Ptr, b0: Ptr, b1: Ptr): seq<Ptr> {
    if Ordered(ids, a0, b0) then
      if Ordered(ids, a1, b0) then Push(Push(Push([a0], a1), b0), b1)
      else if Ordered(ids, a1, b1) then Push(Push(Push([a0], b0), a1), b1)
      else Push(Push(Push([a0], b0), b1), a1)
    else
      if Ordered(ids, a0, b1) then
        if Ordered(ids, a1, b1) then Push(Push(Push([b0], a0), a1), b1)
        else Push(Push(Push([b0], a0), b1), a1)
      else Push(Push(Push([b0], b1), a0), a1)
  }

  lemma MergeStep(ids: Forest, a: seq<Ptr>, b: seq<Ptr>, acc: seq<Ptr>)
    requires a != [] && b != []
    ensures Merge(ids, a, b, acc) ==
              if Ordered(ids, a[0], b[0]) then Merge(ids, a[1..], b, Push(acc, a[0]))
              else Merge(ids, a, b[1..], Push(acc, b[0]))
    ensures Merge(ids, a, [], acc) == Merge(ids, a[1..], [], Push(acc, a[0]))
    ensures Merge(ids, [], b, acc) == Merge(ids, [], b[1..], Push(acc, b[0]))
  {
  }

  lemma MergeOneOne(ids: Forest, x: Ptr, y: Ptr, acc: seq<Ptr>)
    ensures Merge(ids, [x], [y], acc) == if Ordered(ids, x, y) then Push(Push(acc, x), y) else Push(Push(acc, y), x)
  {
    MergeStep(ids, [x], [y], acc);
    MergeStep(ids, [x], [y], Push(acc, x));
    MergeStep(ids, [x], [y], Push(acc, y));
    assert [x][1..] == [] && [y][1..] == [];
  }

  lemma MergeRest(ids: Forest, x: Ptr, y: Ptr, acc: seq<Ptr>)
    ensures Merge(ids, [x, y], [], acc) == Push(Push(acc, x), y) == Merge(ids, [], [x, y], acc)
  {
    assert [x, y][1..] == [y] && [y][1..] == [];
    MergeStep(ids, [x, y], [x, y], acc);
    MergeStep(ids, [y], [y], Push(acc, x));
  }

  lemma MergeIs(ids: Forest, a0: Ptr, a1: Ptr, b0: Ptr, b1: Ptr)
    ensures Merge(ids, [a0, a1], [b0, b1], []) == Merge22(ids, a0, a1, b0, b1)
  {
    assert [a0, a1][1..] == [a1] && [a1][1..] == [] && [b0, b1][1..] == [b1] && [b1][1..] == [];
    assert Push([], a0) == [a0] && Push([], b0) == [b0];
    MergeStep(ids, [a0, a1], [b0, b1], []);
    if Ordered(ids, a0, b0) {
      MergeStep(ids, [a1], [b0, b1], [a0]);
      MergeRest(ids, b0, b1, Push([a0], a1));
      MergeOneOne(ids, a1, b1, Push([a0], b0));
    } else {
      MergeStep(ids, [a0, a1], [b1], [b0]);
      MergeRest(ids, a0, a1, Push([b0], b1));
      MergeOneOne(ids, a1, b1, Push([b0], a0));
    }
  }

  ghost predicate NodesDiffer(list: seq<Ptr>) {
    forall i, j | 0 <= i < j < |list| && list[i].Node? :: list[i] != list[j]
  }

  lemma PushDiffers(s: seq<Ptr>, p: Ptr)
    ensures NodesDiffer(Push(s, p)) <==> NodesDiffer(s) && (p.Node? && p in s ==> s[|s| - 1] == p)
    ensures forall q :: q in Push(s, p) <==> q in s || q == p
    ensures Push(s, p) != [] && Push(s, p)[|Push(s, p)| - 1] == p
  {
    var t := Push(s, p);
    if t == s + [p] {
      assert forall i | 0 <= i < |s| :: t[i] == s[i];
      assert t[|s|] == p;
      if p.Node? && p in s {
        var i :| 0 <= i < |s| && s[i] == p;
        assert t[i] == t[|s|];
      }
    }
  }

  // One case of the merge: the first element and the three pushed after it.
  lemma PushedOnce(x: Ptr, y: Ptr, z: Ptr, w: Ptr)
    ensures var list := Push(Push(Push([x], y), z), w);
            && (forall q :: q in list <==> q in [x, y, z, w])
            && (NodesDiffer(list) <==>
                  && (x == z && x.Node? ==> x == y)
                  && (x == w && x.Node? ==> x == y == z)
                  && (y == w && y.Node? ==> y == z))
  {
    PushDiffers([x], y);
    PushDiffers(Push([x], y), z);
    PushDiffers(Push(Push([x], y), z), w);
  }

  // The list holds each node exactly once unless its arguments collide; so it
  // does whenever no two nodes are each other's parents, transitive or not.
  lemma LockListExact(ids: Forest, c1: Ptr, c2: Ptr, c3: Ptr, c4: Ptr)
    requires !c1.Sentinel? && !c2.Sentinel? && !c3.Sentinel? && !c4.Sentinel?
    ensures EachOnce(LockList(ids, c1, c2, c3, c4), [c1, c2, c3, c4]) <==> !Collides(ids, c1, c2, c3, c4)
  {
    var a, b := SortPair(ids, c1, c2), SortPair(ids, c3, c4);
    assert forall p :: p in [a[0], a[1], b[0], b[1]] <==> p in [c1, c2, c3, c4];
    assert a == [a[0], a[1]] && b == [b[0], b[1]];
    MergeIs(ids, a[0], a[1], b[0], b[1]);
    MergeExact(ids, a[0], a[1], b[0], b[1]);
  }

  // After sorting, the collision is that the second pair's last is met first.
  predicate Overtakes(ids: Forest, a0: Ptr, a1: Ptr, b0: Ptr, b1: Ptr) {
    && b0.Node? && b1.Node? && b0 != b1 && Ordered(ids, b1, b0)
    && (a0 == b1 || (a1 == b1 && Ordered(ids, a0, b0)))
  }

  lemma MergeExact(ids: Forest, a0: Ptr, a1: Ptr, b0: Ptr, b1: Ptr)
    requires !a0.Sentinel? && !a1.Sentinel? && !b0.Sentinel? && !b1.Sentinel?
    requires a0 == a1 || Ordered(ids, a0, a1)
    requires b0 == b1 || Ordered(ids, b0, b1)
    ensures var list := Merge22(ids, a0, a1, b0, b1);
            && (forall q :: q in list <==> q in [a0, a1, b0, b1])
            && (NodesDiffer(list) <==> !Overtakes(ids, a0, a1, b0, b1))
  {
    if Ordered(ids, a0, b0) {
      if Ordered(ids, a1, b0) {
        PushedOnce(a0, a1, b0, b1);
      } else if Ordered(ids, a1, b1) {
        PushedOnce(a0, b0, a1, b1);
      } else {
        PushedOnce(a0, b0, b1, a1);
      }
    } else if Ordered(ids, a0, b1) {
      if Ordered(ids, a1, b1) {
        PushedOnce(b0, a0, a1, b1);
      } else {
        PushedOnce(b0, a0, b1, a1);
      }
    } else {
      PushedOnce(b0, b1, a0, a1);
    }
  }

  // Two nodes that are each other's parents: the list has one of them twice, and
  // the thread would wait for itself.
  lemma MutualParentsCollide()
    ensures var ids: Forest := (n: Addr) => if n == 1 then Ids(10, 20) else Ids(20, 10);
            var x, y := Node(1), Node(2);
            MutualParents(ids, x, y) && LockList(ids, x, y, y, x) == [x, y, x]
  {
    var ids: Forest := (n: Addr) => if n == 1 then Ids(10, 20) else Ids(20, 10);
    var x, y := Node(1), Node(2);
    MergeIs(ids, x, y, y, x);
  }

  // ------------------------------------------------ sorted when transitive

  ghost predicate Transitive(ids: Forest, S: set<Ptr>) {
    forall x, y, z | x in S && y in S && z in S && Ordered(ids, x, y) && Ordered(ids, y, z) :: Ordered(ids, x, z)
  }

  ghost predicate Sorted(ids: Forest, s: seq<Ptr>) {
    forall i, j | 0 <= i < j < |s| :: Ordered(ids, s[i], s[j])
  }

  ghost predicate WeaklySorted(ids: Forest, s: seq<Ptr>) {
    forall i, j | 0 <= i < j < |s| :: s[i] == s[j] || Ordered(ids, s[i], s[j])
  }

  // Everything in s comes after what was emitted, or repeats the last of it.
  ghost predicate After(ids: Forest, acc: seq<Ptr>, s: seq<Ptr>) {
    forall i, j | 0 <= i < |acc| && 0 <= j < |s| :: Ordered(ids, acc[i], s[j]) || (i == |acc| - 1 && acc[i] == s[j])
  }

  // p goes out first; it is no later than anything in s.
  lemma PushAfter(ids: Forest, S: set<Ptr>, acc: seq<Ptr>, p: Ptr, s: seq<Ptr>)
    requires Transitive(ids, S) && p in S && (forall x | x in acc :: x in S) && (forall x | x in s :: x in S)
    requires After(ids, acc, s) && After(ids, acc, [p])
    requires forall y | y in s :: y == p || Ordered(ids, p, y)
    ensures After(ids, Push(acc, p), s)
  {
    forall i, j | 0 <= i < |Push(acc, p)| && 0 <= j < |s|
      ensures Ordered(ids, Push(acc, p)[i], s[j]) || (i == |Push(acc, p)| - 1 && Push(acc, p)[i] == s[j])
    {
      assert s[j] in s;
      if i < |acc| {
        assert acc[i] in acc && [p][0] == p;
        assert Ordered(ids, acc[i], [p][0]) || (i == |acc| - 1 && acc[i] == [p][0]);
      }
    }
  }

  lemma {:induction false} MergeSorted(ids: Forest, S: set<Ptr>, a: seq<Ptr>, b: seq<Ptr>, acc: seq<Ptr>)
    requires Transitive(ids, S)
    requires (forall x | x in acc :: x in S) && (forall x | x in a :: x in S) && (forall x | x in b :: x in S)
    requires WeaklySorted(ids, a) && WeaklySorted(ids, b) && Sorted(ids, acc)
    requires After(ids, acc, a) && After(ids, acc, b)
    ensures Sorted(ids, Merge(ids, a, b, acc))
    decreases |a| + |b|
  {
    if b != [] && (a == [] || !Ordered(ids, a[0], b[0])) {
      OrderedFirst(ids, S, b, a);
      PushStep(ids, S, acc, b, a);
      MergeSorted(ids, S, a, b[1..], Push(acc, b[0]));
    } else if a != [] {
      OrderedFirst(ids, S, a, b);
      PushStep(ids, S, acc, a, b);
      MergeSorted(ids, S, a[1..], b, Push(acc, a[0]));
    }
  }

  lemma OrderedFirst(ids: Forest, S: set<Ptr>, a: seq<Ptr>, b: seq<Ptr>)
    requires Transitive(ids, S) && (forall x | x in a :: x in S) && (forall x | x in b :: x in S)
    requires a != [] && WeaklySorted(ids, b) && (b == [] || a[0] == b[0] || Ordered(ids, a[0], b[0]))
    ensures forall y | y in b :: y == a[0] || Ordered(ids, a[0], y)
  {
    forall y | y in b
      ensures y == a[0] || Ordered(ids, a[0], y)
    {
      var j :| 0 <= j < |b| && b[j] == y;
      assert a[0] in a && b[0] in b;
      assert j > 0 ==> b[0] == b[j] || Ordered(ids, b[0], b[j]);
    }
  }

  lemma PushStep(ids: Forest, S: set<Ptr>, acc: seq<Ptr>, a: seq<Ptr>, b: seq<Ptr>)
    requires Transitive(ids, S) && a != []
    requires (forall x | x in acc :: x in S) && (forall x | x in a :: x in S) && (forall x | x in b :: x in S)
    requires WeaklySorted(ids, a) && WeaklySorted(ids, b) && Sorted(ids, acc)
    requires After(ids, acc, a) && After(ids, acc, b)
    requires forall y | y in b :: y == a[0] || Ordered(ids, a[0], y)
    ensures Sorted(ids, Push(acc, a[0])) && WeaklySorted(ids, a[1..])
    ensures After(ids, Push(acc, a[0]), a[1..]) && After(ids, Push(acc, a[0]), b)
    ensures forall x | x in Push(acc, a[0]) :: x in S
    ensures forall x | x in a[1..] :: x in S
  {
    assert a[0] in a;
    assert After(ids, acc, [a[0]]);
    assert After(ids, acc, a[1..]);
    forall y | y in a[1..]
      ensures y == a[0] || Ordered(ids, a[0], y)
    {
      var j :| 0 <= j < |a[1..]| && a[1..][j] == y;
      assert a[0] == a[j + 1] || Ordered(ids, a[0], a[j + 1]);
    }
    PushAfter(ids, S, acc, a[0], a[1..]);
    PushAfter(ids, S, acc, a[0], b);
  }

  // If the order is transitive, the list is strictly sorted by it.
  lemma LockListSorted(ids: Forest, c1: Ptr, c2: Ptr, c3: Ptr, c4: Ptr)
    requires Transitive(ids, {c1, c2, c3, c4})
    ensures Sorted(ids, LockList(ids, c1, c2, c3, c4))
  {
    MergeSorted(ids, {c1, c2, c3, c4}, SortPair(ids, c1, c2), SortPair(ids, c3, c4), []);
  }

  // ------------------------------------------------ the code in place

  datatype Mode = SharedLock | ExclusiveLock | ForceLock

  // A node's lock as the calling thread has it.
  datatype Lock = Free | Shared | Exclusive

  function Taken(mode: Mode): Lock { if mode.SharedLock? then Shared else Exclusive }

  const ENOENT := 2

  ghost function Named(s: seq<Ptr>): set<Addr> { set p | p in s && p.Node? :: p.addr }

  ghost function WithLocks(m: map<Addr, Lock>, S: set<Addr>, l: Lock): map<Addr, Lock> {
    map n | n in m :: if n in S then l else m[n]
  }

  // fusefs_unlockfour undoes a fusefs_lockfour of free nodes.
  lemma LocksRestored(m: map<Addr, Lock>, S: set<Addr>, mode: Mode)
    requires forall n | n in S && n in m :: m[n] == Free
    ensures WithLocks(WithLocks(m, S, Taken(mode)), S, Free) == m
  {
  }

  // The nodes of list[..i] are locked, the others as in m.
  ghost function LockedUpTo(m: map<Addr, Lock>, list: seq<Ptr>, i: nat, l: Lock): map<Addr, Lock>
    requires i <= |list|
  {
    WithLocks(m, Named(list[..i]), l)
  }

  ghost predicate Lockable(m: map<Addr, Lock>, list: seq<Ptr>) {
    NodesDiffer(list) && forall i | 0 <= i < |list| && list[i].Node? :: list[i].addr in m && m[list[i].addr] == Free
  }

  lemma NextLock(m: map<Addr, Lock>, list: seq<Ptr>, i: nat, l: Lock)
    requires i < |list| && Lockable(m, list)
    ensures !list[i].Node? ==> LockedUpTo(m, list, i + 1, l) == LockedUpTo(m, list, i, l)
    ensures list[i].Node? ==>
              && list[i].addr in m
              && LockedUpTo(m, list, i, l)[list[i].addr] == Free
              && LockedUpTo(m, list, i + 1, l) == LockedUpTo(m, list, i, l)[list[i].addr := l]
              && LockedUpTo(m, list, i, l) == LockedUpTo(m, list, i + 1, l)[list[i].addr := Free]
  {
    assert list[..i + 1] == list[..i] + [list[i]];
    assert Named(list[..i + 1]) == Named(list[..i]) + Named([list[i]]);
    if list[i].Node? {
      assert list[i].addr in Named([list[i]]);
      assert list[i].addr !in Named(list[..i]);
    }
  }

  lemma NextNamed(list: seq<Ptr>, i: nat)
    requires i < |list|
    ensures Named(list[..i + 1]) == Named(list[..i]) + (if list[i].Node? then {list[i].addr} else {})
    ensures list[i].Node? ==> list[i].addr in Named(list)
  {
    assert list[..i + 1] == list[..i] + [list[i]];
    assert list[i] in list;
  }

  lemma SameNames(list: seq<Ptr>, s: seq<Ptr>)
    requires EachOnce(list, s)
    ensures Named(list) == Named(s)
  {
    forall n
      ensures n in Named(list) <==> n in Named(s)
    {
      assert n in Named(list) <==> Node(n) in list;
      assert n in Named(s) <==> Node(n) in s;
    }
  }

  // With the sentinel behind each pair, the comparison of the cursors decides as
  // the merge does.
  function AtCursor(s: seq<Ptr>, i: nat): Ptr
    requires |s| == 2
  {
    if i < 2 then s[i] else Sentinel
  }

  lemma MergeTakes(ids: Forest, a: seq<Ptr>, b: seq<Ptr>, i: nat, j: nat, acc: seq<Ptr>)
    requires |a| == |b| == 2 && Sentinel !in a && Sentinel !in b && i <= 2 && j <= 2 && (i < 2 || j < 2)
    ensures Ordered(ids, AtCursor(a, i), AtCursor(b, j)) ==>
              i < 2 && Merge(ids, a[i..], b[j..], acc) == Merge(ids, a[i + 1..], b[j..], Push(acc, a[i]))
    ensures !Ordered(ids, AtCursor(a, i), AtCursor(b, j)) ==>
              j < 2 && Merge(ids, a[i..], b[j..], acc) == Merge(ids, a[i..], b[j + 1..], Push(acc, b[j]))
  {
    assert i < 2 ==> a[i..][1..] == a[i + 1..] && a[i] in a;
    assert j < 2 ==> b[j..][1..] == b[j + 1..] && b[j] in b;
  }

  ghost predicate NodesOf(list: seq<Ptr>, s: seq<Ptr>) { forall q :: q in list <==> q in s && q.Node? }

  class NodeLocks {
    var locks: map<Addr, Lock>
    var gone: set<Addr>  // nodes flagged C_NOEXISTS

    method LockNode(n: Addr, mode: Mode) returns (error: int)
      requires n in locks && locks[n] == Free
      modifies this`locks
      ensures error == if mode != ForceLock && n in gone then ENOENT else 0
      ensures locks == if error == 0 then old(locks)[n := Taken(mode)] else old(locks)
      ensures error == 0 ==> locks[n] == if mode == SharedLock then Shared else Exclusive
    {
      locks := locks[n := Taken(mode)];
      if mode != ForceLock && n in gone {
        UnlockNode(n);
        return ENOENT;
      }
      return 0;
    }

    method UnlockNode(n: Addr)
      requires n in locks && locks[n] != Free
      modifies this`locks
      ensures locks == old(locks)[n := Free]
    {
      locks := locks[n := Free];
    }

    // A pair in order, with the sentinel behind it.
    method SortedPair(ids: Forest, p: Ptr, q: Ptr) returns (a: array<Ptr>)
      ensures fresh(a) && a.Length == 3 && a[..2] == SortPair(ids, p, q) && a[2] == Sentinel
    {
      a := new Ptr[3];
      if Ordered(ids, p, q) { a[0], a[1] := p, q; } else { a[0], a[1] := q, p; }
      a[2] := Sentinel;
    }

    // Append to the list unless it repeats the last entry.
    method Append(list: array<Ptr>, k: nat, p: Ptr) returns (k': nat)
      requires k < list.Length
      modifies list
      ensures k <= k' <= k + 1 && list[..k'] == Push(old(list[..k]), p)
    {
      k' := k;
      if k == 0 || p != list[k - 1] {
        list[k] := p;
        k' := k + 1;
      }
    }

    // The merge with two cursors into a list of four.
    method BuildList(ids: Forest, c1: Ptr, c2: Ptr, c3: Ptr, c4: Ptr) returns (list: array<Ptr>, k: nat)
      requires !c1.Sentinel? && !c2.Sentinel? && !c3.Sentinel? && !c4.Sentinel?
      ensures fresh(list) && k <= list.Length == 4
      ensures list[..k] == LockList(ids, c1, c2, c3, c4)
    {
      var a := SortedPair(ids, c1, c2);
      var b := SortedPair(ids, c3, c4);
      ghost var pa, pb := a[..2], b[..2];
      list := new Ptr[4];
      var i, j := 0, 0;
      k := 0;
      assert list[..0] == [] && pa[0..] == pa && pb[0..] == pb;
      while i < 2 || j < 2
        invariant 0 <= i <= 2 && 0 <= j <= 2 && k <= i + j
        invariant a[..2] == pa && b[..2] == pb && a[2] == Sentinel && b[2] == Sentinel
        invariant Merge(ids, pa[i..], pb[j..], list[..k]) == LockList(ids, c1, c2, c3, c4)
        decreases 4 - i - j
      {
        ghost var before := list[..k];
        assert a[i] == AtCursor(pa, i) && b[j] == AtCursor(pb, j);
        MergeTakes(ids, pa, pb, i, j, before);
        var tmp;
        if Ordered(ids, a[i], b[j]) {
          tmp, i := a[i], i + 1;
        } else {
          tmp, j := b[j], j + 1;
        }
        k := Append(list, k, tmp);
      }
    }

    // Unlock what was locked of list[..i], backwards.
    method DropLocks(list: array<Ptr>, k: nat, mode: Mode, ghost m: map<Addr, Lock>, ghost l: seq<Ptr>)
      requires k <= |l| <= list.Length && l == list[..|l|] && Lockable(m, l)
               && locks == LockedUpTo(m, l, k, Taken(mode))
      modifies this`locks
      ensures locks == m
    {
      var i := k;
      while i > 0
        invariant 0 <= i <= k && locks == LockedUpTo(m, l, i, Taken(mode))
      {
        i := i - 1;
        NextLock(m, l, i, Taken(mode));
        if list[i].Node? {
          UnlockNode(list[i].addr);
        }
      }
    }

    // All the locks or none.
    method LockFour(ids: Forest, c1: Ptr, c2: Ptr, c3: Ptr, c4: Ptr, mode: Mode) returns (error: int)
      requires !c1.Sentinel? && !c2.Sentinel? && !c3.Sentinel? && !c4.Sentinel?
      requires !Collides(ids, c1, c2, c3, c4)
      requires forall n | n in Named([c1, c2, c3, c4]) :: n in locks && locks[n] == Free
      modifies this`locks
      ensures error == if mode != ForceLock && Named([c1, c2, c3, c4]) * gone != {} then ENOENT else 0
      ensures locks == if error == 0 then WithLocks(old(locks), Named([c1, c2, c3, c4]), Taken(mode)) else old(locks)
    {
      var list, k := BuildList(ids, c1, c2, c3, c4);
      LockListExact(ids, c1, c2, c3, c4);
      SameNames(list[..k], [c1, c2, c3, c4]);
      error := LockAll(list, k, mode);
    }

    // Lock list[..k], skipping NULL; undo it all at the first error.
    method LockAll(list: array<Ptr>, k: nat, mode: Mode) returns (error: int)
      requires k <= list.Length && Lockable(locks, list[..k])
      modifies this`locks
      ensures error == if mode != ForceLock && Named(list[..k]) * gone != {} then ENOENT else 0
      ensures locks == if error == 0 then WithLocks(old(locks), Named(list[..k]), Taken(mode)) else old(locks)
    {
      ghost var m, l := locks, list[..k];
      var i := 0;
      while i < k
        invariant 0 <= i <= k && locks == LockedUpTo(m, l, i, Taken(mode))
        invariant mode != ForceLock ==> Named(l[..i]) * gone == {}
      {
        NextLock(m, l, i, Taken(mode));
        NextNamed(l, i);
        if list[i].Node? {
          error := LockNode(list[i].addr, mode);
          if error != 0 {
            assert list[i].addr in Named(l) * gone;
            DropLocks(list, i, mode, m, l);
            return;
          }
        }
        i := i + 1;
      }
      assert l[..k] == l;
      error := 0;
    }

    method Listed(list: array<Ptr>, k: nat, p: Ptr) returns (found: bool)
      requires k <= list.Length
      ensures found <==> p in list[..k]
    {
      var i := 0;
      while i < k
        invariant 0 <= i <= k && p !in list[..i]
      {
        if list[i] == p { return true; }
        i := i + 1;
      }
      return false;
    }

    method UnlockFour(c1: Ptr, c2: Ptr, c3: Ptr, c4: Ptr)
      requires !c1.Sentinel? && !c2.Sentinel? && !c3.Sentinel? && !c4.Sentinel?
      requires forall n | n in Named([c1, c2, c3, c4]) :: n in locks && locks[n] != Free
      modifies this`locks
      ensures locks == WithLocks(old(locks), Named([c1, c2, c3, c4]), Free)
    {
      UnlockEach(c1, c2, c3, c4, [c1, c2, c3, c4]);
    }

    method UnlockEach(c1: Ptr, c2: Ptr, c3: Ptr, c4: Ptr, ghost all: seq<Ptr>)
      requires |all| == 4 && c1 == all[0] && c2 == all[1] && c3 == all[2] && c4 == all[3] && Sentinel !in all
      requires forall n | n in Named(all) :: n in locks && locks[n] != Free
      modifies this`locks
      ensures locks == WithLocks(old(locks), Named(all), Free)
    {
      ghost var m := locks;
      forall i | 0 <= i < 4 && all[i].Node?
        ensures all[i].addr in m && m[all[i].addr] != Free
      {
        NextNamed(all, i);
      }
      var list := new Ptr[4];
      assert all[..4] == all;
      assert all[..0] == [] && list[..0] == [] && Named([]) == {} && WithLocks(m, {}, Free) == m;
      var k := UnlockNew(list, 0, c1, all, 0, m);
      k := UnlockNew(list, k, c2, all, 1, m);
      k := UnlockNew(list, k, c3, all, 2, m);
      k := UnlockNew(list, k, c4, all, 3, m);
    }

    // One argument of fusefs_unlockfour: unlock it unless it is NULL or done.
    method UnlockNew(list: array<Ptr>, k: nat, p: Ptr, ghost all: seq<Ptr>, ghost i: nat, ghost m: map<Addr, Lock>)
      returns (k': nat)
      requires k <= i < |all| <= list.Length && p == all[i] && !p.Sentinel?
      requires NodesOf(list[..k], all[..i]) && locks == WithLocks(m, Named(all[..i]), Free)
      requires p.Node? ==> p.addr in m && m[p.addr] != Free
      modifies this`locks, list
      ensures k' <= i + 1
      ensures NodesOf(list[..k'], all[..i + 1]) && locks == WithLocks(m, Named(all[..i + 1]), Free)
    {
      NextNamed(all, i);
      assert all[..i + 1] == all[..i] + [p];
      k' := k;
      if p.Node? {
        var found := Listed(list, k, p);
        if !found {
          UnlockNode(p.addr);
          list[k] := p;
          k' := k + 1;
          assert list[..k'] == old(list[..k]) + [p];
        }
      }
    }
  }
}
