/** Threads that call fusefs_lockfour and fusefs_unlockfour concurrently, taking
    and dropping one lock at a time. They can wait for each other in a circle if
    and only if the order on nodes is not transitive. */
module LockProtocol {
  import opened Common
  import opened LockFour

  type Tid = nat

  datatype Call = Call(c1: Ptr, c2: Ptr, c3: Ptr, c4: Ptr, mode: Mode)

  datatype Pc =
    | Locking(call: Call, list: seq<Addr>, got: nat)     // has list[..got], wants list[got]
    | Unwinding(call: Call, list: seq<Addr>, left: nat)  // met an error, still has list[..left]
    | Locked(call: Call, list: seq<Addr>)
    | Unlocking(call: Call, rest: seq<Addr>)

  datatype State = State(
    holders: map<Addr, map<Tid, Lock>>,  // who has a node's lock, and which
    procs: map<Tid, Pc>,
    gone: set<Addr>)

  const Start := State(map[], map[], {})

  function Holders(s: State, n: Addr): map<Tid, Lock> { if n in s.holders then s.holders[n] else map[] }

  function Args(call: Call): seq<Ptr> { [call.c1, call.c2, call.c3, call.c4] }

  function Addrs(s: seq<Ptr>): seq<Addr> {
    if s == [] then [] else (if s[0].Node? then [s[0].addr] else []) + Addrs(s[1..])
  }

  // The order in which fusefs_unlockfour visits the nodes.
  function Firsts(s: seq<Ptr>, acc: seq<Addr>): seq<Addr> {
    if s == [] then acc
    else Firsts(s[1..], if s[0].Node? && s[0].addr !in acc then acc + [s[0].addr] else acc)
  }

  function ListOf(ids: Forest, c: Call): seq<Addr> { Addrs(LockList(ids, c.c1, c.c2, c.c3, c.c4)) }

  // A read/write lock: two threads can have it at a time if both have it shared.
  predicate Compatible(l: Lock, m: Lock) { l == Shared && m == Shared }

  predicate Wants(s: State, t: Tid) {
    t in s.procs && s.procs[t].Locking? && s.procs[t].got < |s.procs[t].list|
  }

  function Wanted(s: State, t: Tid): Addr
    requires Wants(s, t)
  {
    s.procs[t].list[s.procs[t].got]
  }

  // t waits for u: u has the lock t wants, and they cannot share it.
  predicate Waits(s: State, t: Tid, u: Tid) {
    && Wants(s, t) && u in Holders(s, Wanted(s, t))
    && !Compatible(Taken(s.procs[t].call.mode), Holders(s, Wanted(s, t))[u])
  }

  datatype Step =
    | Begin(tid: Tid, call: Call)
    | Acquire(tid: Tid)
    | Unwind(tid: Tid)
    | StartUnlock(tid: Tid)
    | UnlockNext(tid: Tid)
    | Delete(node: Addr)   // C_NOEXISTS is set

  ghost predicate Enabled(S: set<Addr>, s: State, step: Step) {
    match step
    case Begin(t, c) => t !in s.procs && forall p | p in Args(c) :: p.Null? || (p.Node? && p.addr in S)
    case Acquire(t) => t in s.procs && s.procs[t].Locking? && forall u :: !Waits(s, t, u)
    case Unwind(t) => t in s.procs && s.procs[t].Unwinding?
    case StartUnlock(t) => t in s.procs && s.procs[t].Locked?
    case UnlockNext(t) => t in s.procs && s.procs[t].Unlocking?
    case Delete(n) => true
  }

  function Goto(s: State, t: Tid, pc: Pc): State { s.(procs := s.procs[t := pc]) }

  function Take(s: State, t: Tid, n: Addr, mode: Mode): State {
    s.(holders := s.holders[n := Holders(s, n)[t := Taken(mode)]])
  }

  function Drop(s: State, t: Tid, n: Addr): State { s.(holders := s.holders[n := Holders(s, n) - {t}]) }

  function DoAcquire(s: State, t: Tid): State
    requires t in s.procs && s.procs[t].Locking?
  {
    var pc := s.procs[t];
    if !Wants(s, t) then Goto(s, t, Locked(pc.call, pc.list))
    else if pc.call.mode != ForceLock && Wanted(s, t) in s.gone then Goto(s, t, Unwinding(pc.call, pc.list, pc.got))
    else Goto(Take(s, t, Wanted(s, t), pc.call.mode), t, pc.(got := pc.got + 1))
  }

  function DoUnwind(s: State, t: Tid): State
    requires t in s.procs && s.procs[t].Unwinding?
  {
    var pc := s.procs[t];
    if pc.left == 0 || pc.left > |pc.list| then s.(procs := s.procs - {t})
    else Goto(Drop(s, t, pc.list[pc.left - 1]), t, pc.(left := pc.left - 1))
  }

  function DoUnlockNext(s: State, t: Tid): State
    requires t in s.procs && s.procs[t].Unlocking?
  {
    var pc := s.procs[t];
    if pc.rest == [] then s.(procs := s.procs - {t})
    else Goto(Drop(s, t, pc.rest[0]), t, pc.(rest := pc.rest[1..]))
  }

  ghost function Apply(ids: Forest, S: set<Addr>, s: State, step: Step): State
    requires Enabled(S, s, step)
  {
    match step
    case Begin(t, c) => Goto(s, t, Locking(c, ListOf(ids, c), 0))
    case Acquire(t) => DoAcquire(s, t)
    case Unwind(t) => DoUnwind(s, t)
    case StartUnlock(t) => Goto(s, t, Unlocking(s.procs[t].call, Firsts(Args(s.procs[t].call), [])))
    case UnlockNext(t) => DoUnlockNext(s, t)
    case Delete(n) => s.(gone := s.gone + {n})
  }

  ghost predicate Runs(ids: Forest, S: set<Addr>, s: State, steps: seq<Step>, s': State)
    decreases |steps|
  {
    if steps == [] then s == s'
    else Enabled(S, s, steps[0]) && Runs(ids, S, Apply(ids, S, s, steps[0]), steps[1..], s')
  }

  ghost predicate Reachable(ids: Forest, S: set<Addr>, s: State) {
    exists steps :: Runs(ids, S, Start, steps, s)
  }

  // A circle: a set of threads each of which waits for one of them.
  ghost predicate Circle(s: State, D: set<Tid>) {
    D != {} && forall t {:trigger WaitsWithin(s, D, t)} | t in D :: WaitsWithin(s, D, t)
  }

  ghost predicate WaitsWithin(s: State, D: set<Tid>, t: Tid) { exists u :: u in D && Waits(s, t, u) }

  ghost predicate Deadlocked(s: State) { exists D :: Circle(s, D) }

  ghost function NodesAt(S: set<Addr>): set<Ptr> { set n | n in S :: Node(n) }

  // ------------------------------------------------ lists of addresses

  predicate Before(ids: Forest, m: Addr, n: Addr) { Ordered(ids, Node(m), Node(n)) }

  ghost predicate Ascending(ids: Forest, s: seq<Addr>) {
    forall i, j | 0 <= i < j < |s| :: Before(ids, s[i], s[j])
  }

  lemma {:induction false} AddrsOf(ids: Forest, s: seq<Ptr>)
    ensures forall n :: n in Addrs(s) <==> Node(n) in s
    ensures Sorted(ids, s) ==> Ascending(ids, Addrs(s))
  {
    if s != [] {
      AddrsOf(ids, s[1..]);
      assert s == [s[0]] + s[1..];
      if Sorted(ids, s) {
        assert Sorted(ids, s[1..]);
        var r := Addrs(s[1..]);
        forall j | s[0].Node? && 0 <= j < |r|
          ensures Before(ids, s[0].addr, r[j])
        {
          assert r[j] in r;
          assert Node(r[j]) in s[1..];
          var k :| 0 <= k < |s[1..]| && s[1..][k] == Node(r[j]);
          assert s[k + 1] == Node(r[j]);
        }
      }
    }
  }

  lemma {:induction false} FirstsOf(s: seq<Ptr>, acc: seq<Addr>)
    requires Distinct(acc)
    ensures Distinct(Firsts(s, acc))
    ensures forall n :: n in Firsts(s, acc) <==> n in acc || Node(n) in s
  {
    if s != [] {
      assert s == [s[0]] + s[1..];
      FirstsOf(s[1..], if s[0].Node? && s[0].addr !in acc then acc + [s[0].addr] else acc);
    }
  }

  // Transitivity extends from the nodes to NULL, and leaves no mutual parents.
  lemma WithNull(ids: Forest, S: set<Addr>, c: Call)
    requires Transitive(ids, NodesAt(S)) && forall p | p in Args(c) :: p.Null? || (p.Node? && p.addr in S)
    ensures Transitive(ids, {c.c1, c.c2, c.c3, c.c4}) && !Collides(ids, c.c1, c.c2, c.c3, c.c4)
  {
    assert c.c1 in Args(c) && c.c2 in Args(c) && c.c3 in Args(c) && c.c4 in Args(c);
    var P := {c.c1, c.c2, c.c3, c.c4};
    forall x, y, z | x in P && y in P && z in P && Ordered(ids, x, y) && Ordered(ids, y, z)
      ensures Ordered(ids, x, z)
    {
      if x.Node? && y.Node? && z.Node? {
        assert x in NodesAt(S) && y in NodesAt(S) && z in NodesAt(S);
      }
    }
    OrderedIsTotal(ids, c.c3, c.c4);
  }

  lemma CallList(ids: Forest, S: set<Addr>, c: Call)
    requires Transitive(ids, NodesAt(S)) && forall p | p in Args(c) :: p.Null? || (p.Node? && p.addr in S)
    ensures Ascending(ids, ListOf(ids, c)) && Distinct(ListOf(ids, c))
    ensures forall n :: n in ListOf(ids, c) <==> Node(n) in Args(c)
  {
    WithNull(ids, S, c);
    assert c.c1 in Args(c) && c.c2 in Args(c) && c.c3 in Args(c) && c.c4 in Args(c);
    var list := LockList(ids, c.c1, c.c2, c.c3, c.c4);
    LockListSorted(ids, c.c1, c.c2, c.c3, c.c4);
    LockListExact(ids, c.c1, c.c2, c.c3, c.c4);
    AddrsOf(ids, list);
    forall i, j | 0 <= i < j < |ListOf(ids, c)|
      ensures ListOf(ids, c)[i] != ListOf(ids, c)[j]
    {
      assert Before(ids, ListOf(ids, c)[i], ListOf(ids, c)[j]);
    }
  }
}
