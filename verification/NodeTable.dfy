/** The HNode hash table: chains of nodes keyed by (device, inode number), each
    node with an array of fork vnodes, a reference count and the "attach
    outstanding" reservation. Every function below is what one stretch of code
    does while it owns gHashMutex; class HashTable is that code updating the
    table in place, proved against the functions. */
module NodeTable {
  import opened Common

  type Ref = nat    // an HNode's address
  type Vnode = nat  // a vnode together with its vid: one life of a vnode

  datatype HNode = HNode(
    dev: nat,
    ino: nat,
    attaching: bool,   // attachOutstanding
    waiting: bool,
    forks: seq<Option<Vnode>>,
    count: int)        // forkVNodesCount

  // nodes holds every allocated HNode, linked into a chain or not.
  datatype Table = Table(nodes: map<Ref, HNode>, buckets: seq<seq<Ref>>, nodeCount: int)

  // ((u_long)dev + ino) & gHashTableMask; the table size is a power of two.
  function Hash(size: nat, dev: nat, ino: nat): (h: nat)
    requires size > 0
    ensures h < size
  {
    (dev + ino) % size
  }

  predicate HasKey(n: HNode, dev: nat, ino: nat) { n.dev == dev && n.ino == ino }

  function FindIn(nodes: map<Ref, HNode>, chain: seq<Ref>, dev: nat, ino: nat): Option<Ref> {
    if chain == [] then None
    else if chain[0] in nodes && HasKey(nodes[chain[0]], dev, ino) then Some(chain[0])
    else FindIn(nodes, chain[1..], dev, ino)
  }

  function Find(tab: Table, dev: nat, ino: nat): Option<Ref>
    requires |tab.buckets| > 0
  {
    FindIn(tab.nodes, tab.buckets[Hash(|tab.buckets|, dev, ino)], dev, ino)
  }

  function Put(tab: Table, r: Ref, n: HNode): Table { tab.(nodes := tab.nodes[r := n]) }

  // LIST_INSERT_HEAD and the node count
  function Insert(tab: Table, r: Ref): Table
    requires |tab.buckets| > 0 && r in tab.nodes
  {
    var h := Hash(|tab.buckets|, tab.nodes[r].dev, tab.nodes[r].ino);
    tab.(buckets := tab.buckets[h := [r] + tab.buckets[h]], nodeCount := tab.nodeCount + 1)
  }

  function Unlink(tab: Table, r: Ref): Table
    requires |tab.buckets| > 0 && r in tab.nodes
  {
    var h := Hash(|tab.buckets|, tab.nodes[r].dev, tab.nodes[r].ino);
    tab.(buckets := tab.buckets[h := Remove(tab.buckets[h], r)], nodeCount := tab.nodeCount - 1)
  }

  function Nones(k: nat): (s: seq<Option<Vnode>>)
    ensures |s| == k && forall i | 0 <= i < k :: s[i] == None
  {
    seq(k, _ => None)
  }

  // A node as HNodeLookupCreatingIfNecessary allocates it, big enough for fork.
  function NewNode(dev: nat, ino: nat, fork: nat): HNode {
    HNode(dev, ino, false, false, Nones(fork + 1), 0)
  }

  // The fork array replaced by one that has room for fork.
  function Expanded(n: HNode, fork: nat): HNode
    requires |n.forks| <= fork
  {
    n.(forks := n.forks + Nones(fork + 1 - |n.forks|))
  }

  // What one turn of the lookup loop finds out before it drops the mutex.
  datatype Outcome =
    | NeedNode                        // allocate a node and retry
    | MustSleep(r: Ref)               // an attach is outstanding
    | NeedBuffer(r: Ref)              // allocate a larger fork array and retry
    | DidExpand(r: Ref)               // installed it; retry
    | Grant(r: Ref)                   // success with a NULL vnode
    | Candidate(r: Ref, vn: Vnode)    // a vnode to be validated with its vid

  // The checks on a node that is in the table.
  function Status(tab: Table, r: Ref, fork: nat, haveBuffer: bool): (Table, Outcome)
    requires r in tab.nodes
  {
    var n := tab.nodes[r];
    if n.attaching then (Put(tab, r, n.(waiting := true)), MustSleep(r))
    else if fork >= |n.forks| then
      if !haveBuffer then (tab, NeedBuffer(r)) else (Put(tab, r, Expanded(n, fork)), DidExpand(r))
    else if n.forks[fork] == None then
      (Put(tab, r, n.(attaching := true, count := n.count + 1)), Grant(r))
    else (tab, Candidate(r, n.forks[fork].value))
  }

  // One turn of the loop: find or insert, then check.
  function Turn(tab: Table, dev: nat, ino: nat, fork: nat, newNode: Option<Ref>, haveBuffer: bool): (Table, Outcome)
    requires |tab.buckets| > 0
  {
    match Find(tab, dev, ino)
    case Some(r) => if r in tab.nodes then Status(tab, r, fork, haveBuffer) else (tab, NeedNode)
    case None =>
      if newNode.Some? && newNode.value in tab.nodes
      then Status(Insert(tab, newNode.value), newNode.value, fork, haveBuffer)
      else (tab, NeedNode)
  }

  // HNodeAttachComplete: the reservation ends and sleepers are to be woken.
  function AttachComplete(n: HNode): HNode { n.(attaching := false, waiting := false) }

  // HNodeForkVNodeDecrement: a node without references leaves the table.
  function Decrement(tab: Table, r: Ref): (Table, bool)
    requires |tab.buckets| > 0 && r in tab.nodes
  {
    var n := tab.nodes[r];
    var tab' := Put(tab, r, n.(count := n.count - 1));
    if n.count - 1 == 0 then (Unlink(tab', r), true) else (tab', false)
  }

  function AttachSucceeded(tab: Table, r: Ref, fork: nat, vn: Vnode): Table
    requires r in tab.nodes && fork < |tab.nodes[r].forks|
  {
    var n := tab.nodes[r];
    Put(tab, r, AttachComplete(n).(forks := n.forks[fork := Some(vn)]))
  }

  function AttachFailed(tab: Table, r: Ref): (Table, bool)
    requires |tab.buckets| > 0 && r in tab.nodes
  {
    Decrement(Put(tab, r, AttachComplete(tab.nodes[r])), r)
  }

  function Detach(tab: Table, r: Ref, fork: nat): (Table, bool)
    requires |tab.buckets| > 0 && r in tab.nodes && fork < |tab.nodes[r].forks|
  {
    var n := tab.nodes[r];
    Decrement(Put(tab, r, n.(forks := n.forks[fork := None])), r)
  }

  // ------------------------------------------------------ the table is a map

  ghost predicate InTable(tab: Table, r: Ref)
    requires |tab.buckets| > 0
  {
    r in tab.nodes && r in tab.buckets[Hash(|tab.buckets|, tab.nodes[r].dev, tab.nodes[r].ino)]
  }

  ghost predicate SameKey(tab: Table, r: Ref, q: Ref)
    requires r in tab.nodes && q in tab.nodes
  {
    HasKey(tab.nodes[r], tab.nodes[q].dev, tab.nodes[q].ino)
  }

  function Total(buckets: seq<seq<Ref>>): nat {
    if buckets == [] then 0 else |buckets[0]| + Total(buckets[1..])
  }

  // Each node sits once, in the chain its key hashes to; no two share a key; and
  // gHashNodeCount is the number of nodes.
  ghost predicate WellFormed(tab: Table) {
    && |tab.buckets| > 0
    && (forall h | 0 <= h < |tab.buckets| :: Distinct(tab.buckets[h]))
    && (forall h, r | 0 <= h < |tab.buckets| && r in tab.buckets[h] ::
          r in tab.nodes && Hash(|tab.buckets|, tab.nodes[r].dev, tab.nodes[r].ino) == h)
    && (forall r, q {:trigger SameKey(tab, r, q)} | InTable(tab, r) && InTable(tab, q) && SameKey(tab, r, q) :: r == q)
    && tab.nodeCount == Total(tab.buckets)
  }

  lemma {:induction false} FindInFinds(nodes: map<Ref, HNode>, chain: seq<Ref>, dev: nat, ino: nat)
    ensures var f := FindIn(nodes, chain, dev, ino);
            && (f.Some? ==> f.value in chain && f.value in nodes && HasKey(nodes[f.value], dev, ino))
            && (f.None? ==> forall r | r in chain && r in nodes :: !HasKey(nodes[r], dev, ino))
  {
    if chain != [] {
      FindInFinds(nodes, chain[1..], dev, ino);
      assert chain == [chain[0]] + chain[1..];
    }
  }

  // Walking the chain finds the one node with the key, if there is one.
  lemma FindFinds(tab: Table, dev: nat, ino: nat)
    requires WellFormed(tab)
    ensures Find(tab, dev, ino).Some? ==>
              InTable(tab, Find(tab, dev, ino).value) && HasKey(tab.nodes[Find(tab, dev, ino).value], dev, ino)
    ensures forall r | InTable(tab, r) && HasKey(tab.nodes[r], dev, ino) :: Find(tab, dev, ino) == Some(r)
  {
    FindInFinds(tab.nodes, tab.buckets[Hash(|tab.buckets|, dev, ino)], dev, ino);
    forall r | InTable(tab, r) && HasKey(tab.nodes[r], dev, ino)
      ensures Find(tab, dev, ino) == Some(r)
    {
      assert SameKey(tab, r, Find(tab, dev, ino).value);
    }
  }

  lemma {:induction false} TotalUpdate(b: seq<seq<Ref>>, h: nat, c: seq<Ref>)
    requires h < |b|
    ensures Total(b[h := c]) == Total(b) - |b[h]| + |c|
  {
    if h > 0 {
      TotalUpdate(b[1..], h - 1, c);
      assert b[h := c][1..] == b[1..][h - 1 := c];
    } else {
      assert b[h := c][1..] == b[1..];
    }
  }

  lemma PutKeeps(tab: Table, r: Ref, n: HNode)
    requires WellFormed(tab) && (r in tab.nodes ==> HasKey(n, tab.nodes[r].dev, tab.nodes[r].ino))
    ensures WellFormed(Put(tab, r, n))
    ensures forall q | q in tab.nodes :: InTable(Put(tab, r, n), q) <==> InTable(tab, q)
    ensures r !in tab.nodes ==> !InTable(Put(tab, r, n), r)
  {
    var tab' := Put(tab, r, n);
    forall q | q in tab.nodes
      ensures InTable(tab', q) <==> InTable(tab, q)
    {
    }
    forall p, q {:trigger SameKey(tab', p, q)} | InTable(tab', p) && InTable(tab', q) && SameKey(tab', p, q)
      ensures p == q
    {
      assert SameKey(tab, p, q);
    }
  }

  lemma InsertKeeps(tab: Table, r: Ref)
    requires WellFormed(tab) && r in tab.nodes && !InTable(tab, r)
    requires Find(tab, tab.nodes[r].dev, tab.nodes[r].ino) == None
    ensures WellFormed(Insert(tab, r)) && InTable(Insert(tab, r), r)
    ensures forall q | q in tab.nodes && q != r :: InTable(Insert(tab, r), q) <==> InTable(tab, q)
  {
    var h := Hash(|tab.buckets|, tab.nodes[r].dev, tab.nodes[r].ino);
    var tab' := Insert(tab, r);
    FindFinds(tab, tab.nodes[r].dev, tab.nodes[r].ino);
    TotalUpdate(tab.buckets, h, [r] + tab.buckets[h]);
    forall q | q in tab.nodes && q != r
      ensures InTable(tab', q) <==> InTable(tab, q)
    {
    }
    forall p, q {:trigger SameKey(tab', p, q)} | InTable(tab', p) && InTable(tab', q) && SameKey(tab', p, q)
      ensures p == q
    {
      if p != r && q != r { assert SameKey(tab, p, q); }
    }
  }

  lemma UnlinkKeeps(tab: Table, r: Ref)
    requires WellFormed(tab) && InTable(tab, r)
    ensures WellFormed(Unlink(tab, r)) && !InTable(Unlink(tab, r), r)
    ensures forall q | q in tab.nodes && q != r :: InTable(Unlink(tab, r), q) <==> InTable(tab, q)
  {
    var h := Hash(|tab.buckets|, tab.nodes[r].dev, tab.nodes[r].ino);
    var tab' := Unlink(tab, r);
    RemoveElements(tab.buckets[h], r);
    TotalUpdate(tab.buckets, h, Remove(tab.buckets[h], r));
    forall q | q in tab.nodes && q != r
      ensures InTable(tab', q) <==> InTable(tab, q)
    {
    }
    forall p, q {:trigger SameKey(tab', p, q)} | InTable(tab', p) && InTable(tab', q) && SameKey(tab', p, q)
      ensures p == q
    {
      assert SameKey(tab, p, q);
    }
  }

  // ------------------------------------------------------ the fork count

  function Vnodes(forks: seq<Option<Vnode>>): nat {
    if forks == [] then 0 else (if forks[0].Some? then 1 else 0) + Vnodes(forks[1..])
  }

  function References(n: HNode): nat { Vnodes(n.forks) + if n.attaching then 1 else 0 }

  lemma {:induction false} VnodesUpdate(s: seq<Option<Vnode>>, i: nat, o: Option<Vnode>)
    requires i < |s|
    ensures Vnodes(s[i := o]) == Vnodes(s) - (if s[i].Some? then 1 else 0) + (if o.Some? then 1 else 0)
  {
    if i > 0 {
      VnodesUpdate(s[1..], i - 1, o);
      assert s[i := o][1..] == s[1..][i - 1 := o];
    } else {
      assert s[i := o][1..] == s[1..];
    }
  }

  lemma {:induction false} VnodesAppendNones(s: seq<Option<Vnode>>, k: nat)
    ensures Vnodes(s + Nones(k)) == Vnodes(s)
    decreases |s|, k
  {
    if s != [] {
      VnodesAppendNones(s[1..], k);
      assert (s + Nones(k))[1..] == s[1..] + Nones(k);
    } else if k > 0 {
      VnodesAppendNones(s, k - 1);
      assert (s + Nones(k))[1..] == s + Nones(k - 1);
    }
  }

  lemma {:induction false} NoVnodes(s: seq<Option<Vnode>>)
    ensures Vnodes(s) == 0 <==> forall i | 0 <= i < |s| :: s[i] == None
  {
    if s != [] {
      NoVnodes(s[1..]);
      assert forall i | 1 <= i < |s| :: s[i] == s[1..][i - 1];
    }
  }

  // ------------------------------------------------------ the code in place

  class HashTable {
    var nodes: map<Ref, HNode>
    var buckets: seq<seq<Ref>>
    var nodeCount: int

    ghost function View(): Table
      reads this
    {
      Table(nodes, buckets, nodeCount)
    }

    constructor (size: nat)
      requires size > 0
      ensures View() == Table(map[], seq(size, _ => []), 0) && |buckets| == size
    {
      nodes, buckets, nodeCount := map[], seq(size, _ => []), 0;
    }

    // The walk along a hash chain.
    method FindNode(dev: nat, ino: nat) returns (thisNode: Option<Ref>)
      requires |buckets| > 0
      ensures thisNode == Find(View(), dev, ino)
    {
      var chain := buckets[Hash(|buckets|, dev, ino)];
      var i := 0;
      while i < |chain|
        invariant 0 <= i <= |chain|
        invariant Find(View(), dev, ino) == FindIn(nodes, chain[i..], dev, ino)
      {
        if chain[i] in nodes && HasKey(nodes[chain[i]], dev, ino) {
          return Some(chain[i]);
        }
        i := i + 1;
      }
      thisNode := None;
    }

    // One turn of HNodeLookupCreatingIfNecessary, mutex held.
    method LookupTurn(dev: nat, ino: nat, fork: nat, newNode: Option<Ref>, haveBuffer: bool)
      returns (out: Outcome)
      requires |buckets| > 0
      modifies this
      ensures (View(), out) == Turn(old(View()), dev, ino, fork, newNode, haveBuffer)
    {
      var thisNode := FindNode(dev, ino);
      if thisNode == None {
        if newNode == None || newNode.value !in nodes {
          return NeedNode;
        }
        var h := Hash(|buckets|, nodes[newNode.value].dev, nodes[newNode.value].ino);
        buckets := buckets[h := [newNode.value] + buckets[h]];
        nodeCount := nodeCount + 1;
        thisNode := newNode;
      }
      if thisNode.value !in nodes {
        return NeedNode;
      }
      var r := thisNode.value;
      var n := nodes[r];
      if n.attaching {
        nodes := nodes[r := n.(waiting := true)];
        out := MustSleep(r);
      } else if fork >= |n.forks| {
        if !haveBuffer {
          out := NeedBuffer(r);
        } else {
          nodes := nodes[r := n.(forks := n.forks + Nones(fork + 1 - |n.forks|))];
          out := DidExpand(r);
        }
      } else if n.forks[fork] == None {
        nodes := nodes[r := n.(attaching := true, count := n.count + 1)];
        out := Grant(r);
      } else {
        out := Candidate(r, n.forks[fork].value);
      }
    }

    method ForkVnodeDecrement(r: Ref) returns (scrubIt: bool)
      requires |buckets| > 0 && r in nodes
      modifies this
      ensures (View(), scrubIt) == Decrement(old(View()), r)
    {
      nodes := nodes[r := nodes[r].(count := nodes[r].count - 1)];
      scrubIt := false;
      if nodes[r].count == 0 {
        var h := Hash(|buckets|, nodes[r].dev, nodes[r].ino);
        buckets := buckets[h := Remove(buckets[h], r)];
        nodeCount := nodeCount - 1;
        scrubIt := true;
      }
    }

    method AttachVnodeSucceeded(r: Ref, fork: nat, vn: Vnode)
      requires r in nodes && fork < |nodes[r].forks|
      modifies this
      ensures View() == AttachSucceeded(old(View()), r, fork, vn)
    {
      nodes := nodes[r := AttachComplete(nodes[r]).(forks := nodes[r].forks[fork := Some(vn)])];
    }

    method AttachVnodeFailed(r: Ref) returns (scrubIt: bool)
      requires |buckets| > 0 && r in nodes
      modifies this
      ensures (View(), scrubIt) == AttachFailed(old(View()), r)
    {
      nodes := nodes[r := AttachComplete(nodes[r])];
      scrubIt := ForkVnodeDecrement(r);
    }

    // HNodeDetachVNode: search the fork array for the vnode.
    method DetachVnode(r: Ref, vn: Vnode) returns (scrubIt: bool)
      requires |buckets| > 0 && r in nodes && Some(vn) in nodes[r].forks
      modifies this
      ensures exists fork ::
                && 0 <= fork < |old(nodes)[r].forks| && old(nodes)[r].forks[fork] == Some(vn)
                && (forall k | 0 <= k < fork :: old(nodes)[r].forks[k] != Some(vn))
                && (View(), scrubIt) == Detach(old(View()), r, fork)
    {
      var forks := nodes[r].forks;
      var fork := 0;
      while fork < |forks| && forks[fork] != Some(vn)
        invariant 0 <= fork <= |forks|
        invariant forall k | 0 <= k < fork :: forks[k] != Some(vn)
      {
        fork := fork + 1;
      }
      nodes := nodes[r := nodes[r].(forks := forks[fork := None])];
      scrubIt := ForkVnodeDecrement(r);
    }
  }
}
