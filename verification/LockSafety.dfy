/** Deadlock freedom of the four-node locks, exactly when the order is transitive. */
module LockSafety {
  import opened Common
  import opened LockFour
  import opened LockProtocol

  // ------------------------------------------------ the invariant

  function Held(pc: Pc): seq<Addr> {
    match pc
    case Locking(_, list, got) => if got <= |list| then list[..got] else []
    case Unwinding(_, list, left) => if left <= |list| then list[..left] else []
    case Locked(_, list) => list
    case Unlocking(_, rest) => rest
  }

  ghost predicate CallOk(S: set<Addr>, c: Call) {
    forall p | p in Args(c) :: p.Null? || (p.Node? && p.addr in S)
  }

  // A thread has the locks that its position says, in order.
  ghost predicate PcOk(ids: Forest, S: set<Addr>, s: State, t: Tid)
    requires t in s.procs
  {
    var pc := s.procs[t];
    && CallOk(S, pc.call) && Distinct(Held(pc))
    && (!pc.Unlocking? ==> pc.list == ListOf(ids, pc.call))
    && (pc.Locking? ==> pc.got <= |pc.list|) && (pc.Unwinding? ==> pc.left <= |pc.list|)
    && forall n :: t in Holders(s, n) <==> n in Held(pc)
  }

  // Holders run and have the kind of lock they called for; only shared locks are
  // shared.
  ghost predicate Exclusion(s: State) {
    && (forall n, t | t in Holders(s, n) :: t in s.procs && Holders(s, n)[t] == Taken(s.procs[t].call.mode))
    && (forall n, t, u | t in Holders(s, n) && u in Holders(s, n) && t != u ::
          Compatible(Holders(s, n)[t], Holders(s, n)[u]))
  }

  ghost predicate Inv(ids: Forest, S: set<Addr>, s: State) {
    && Exclusion(s)
    && forall t {:trigger PcOk(ids, S, s, t)} | t in s.procs :: PcOk(ids, S, s, t)
  }

  // Only t moves, and only t's hold on n changes.
  ghost predicate OnlyChanges(s: State, s': State, t: Tid, n: Addr) {
    && (forall u {:trigger u in s.procs} {:trigger u in s'.procs} | u != t ::
          (u in s.procs <==> u in s'.procs) && (u in s.procs ==> s'.procs[u] == s.procs[u]))
    && (forall m, u {:trigger u in Holders(s', m)} | u != t || m != n ::
          (u in Holders(s', m) <==> u in Holders(s, m))
          && (u in Holders(s, m) ==> Holders(s', m)[u] == Holders(s, m)[u]))
  }

  lemma KeepOthers(ids: Forest, S: set<Addr>, s: State, s': State, t: Tid, n: Addr)
    requires Inv(ids, S, s) && OnlyChanges(s, s', t, n)
    requires t in s'.procs ==> PcOk(ids, S, s', t)
    requires Exclusion(s')
    ensures Inv(ids, S, s')
  {
    forall u {:trigger PcOk(ids, S, s', u)} | u in s'.procs
      ensures PcOk(ids, S, s', u)
    {
      if u != t {
        assert PcOk(ids, S, s, u);
        assert s'.procs[u] == s.procs[u];
      }
    }
  }

  // What taking a lock, dropping one, and moving on without either do.
  lemma TakeChanges(s: State, t: Tid, n: Addr, pc: Pc, s': State)
    requires Exclusion(s) && t in s.procs && pc.call == s.procs[t].call
    requires s' == Goto(Take(s, t, n, pc.call.mode), t, pc)
    requires forall u | u in Holders(s, n) && u != t :: Compatible(Taken(pc.call.mode), Holders(s, n)[u])
    ensures OnlyChanges(s, s', t, n) && Exclusion(s')
    ensures forall m :: t in Holders(s', m) <==> t in Holders(s, m) || m == n
  {
    assert forall m :: Holders(s', m) == if m == n then Holders(s, n)[t := Taken(pc.call.mode)] else Holders(s, m);
  }

  lemma DropChanges(s: State, t: Tid, n: Addr, pc: Pc, s': State)
    requires Exclusion(s) && t in s.procs && pc.call == s.procs[t].call && s' == Goto(Drop(s, t, n), t, pc)
    ensures OnlyChanges(s, s', t, n) && Exclusion(s')
    ensures forall m :: t in Holders(s', m) <==> t in Holders(s, m) && m != n
  {
    assert forall m :: Holders(s', m) == if m == n then Holders(s, n) - {t} else Holders(s, m);
  }

  lemma MoveChanges(s: State, t: Tid, pc: Pc, s': State)
    requires Exclusion(s) && s' == Goto(s, t, pc)
    requires t in s.procs ==> pc.call == s.procs[t].call
    ensures OnlyChanges(s, s', t, 0) && Exclusion(s')
    ensures forall m :: Holders(s', m) == Holders(s, m)
  {
    assert forall m :: Holders(s', m) == Holders(s, m);
  }

  lemma KeepExit(ids: Forest, S: set<Addr>, s: State, t: Tid)
    requires Inv(ids, S, s) && t in s.procs && Held(s.procs[t]) == []
    ensures Inv(ids, S, s.(procs := s.procs - {t}))
  {
    var s' := s.(procs := s.procs - {t});
    assert PcOk(ids, S, s, t);
    assert forall m :: Holders(s', m) == Holders(s, m);
    KeepOthers(ids, S, s, s', t, 0);
  }

  lemma KeepBegin(ids: Forest, S: set<Addr>, s: State, t: Tid, c: Call)
    requires Inv(ids, S, s) && t !in s.procs && CallOk(S, c)
    ensures Inv(ids, S, Goto(s, t, Locking(c, ListOf(ids, c), 0)))
  {
    var s' := Goto(s, t, Locking(c, ListOf(ids, c), 0));
    MoveChanges(s, t, s'.procs[t], s');
    KeepOthers(ids, S, s, s', t, 0);
  }

  lemma KeepAcquire(ids: Forest, S: set<Addr>, s: State, t: Tid)
    requires Inv(ids, S, s) && Transitive(ids, NodesAt(S))
    requires t in s.procs && s.procs[t].Locking? && forall u :: !Waits(s, t, u)
    ensures Inv(ids, S, DoAcquire(s, t))
  {
    var s' := DoAcquire(s, t);
    var pc := s.procs[t];
    assert PcOk(ids, S, s, t);
    if Wants(s, t) && s'.procs[t].Locking? {
      KeepTake(ids, S, s, t, Wanted(s, t));
    } else {
      assert pc.list[..|pc.list|] == pc.list;
      MoveChanges(s, t, s'.procs[t], s');
      KeepOthers(ids, S, s, s', t, 0);
    }
  }

  lemma KeepTake(ids: Forest, S: set<Addr>, s: State, t: Tid, n: Addr)
    requires Inv(ids, S, s) && Transitive(ids, NodesAt(S))
    requires Wants(s, t) && n == Wanted(s, t) && forall u :: !Waits(s, t, u)
    ensures Inv(ids, S, Goto(Take(s, t, n, s.procs[t].call.mode), t, s.procs[t].(got := s.procs[t].got + 1)))
  {
    var pc := s.procs[t];
    var pc' := pc.(got := pc.got + 1);
    var s' := Goto(Take(s, t, n, s.procs[t].call.mode), t, pc');
    assert PcOk(ids, S, s, t);
    forall u | u in Holders(s, n) && u != t
      ensures Compatible(Taken(pc.call.mode), Holders(s, n)[u])
    {
      assert !Waits(s, t, u);
    }
    TakeChanges(s, t, n, pc', s');
    CallList(ids, S, pc.call);
    TakenPrefix(pc.list, pc.got);
    assert PcOk(ids, S, s', t);
    KeepOthers(ids, S, s, s', t, n);
  }

  lemma TakenPrefix(list: seq<Addr>, k: nat)
    requires k < |list| && Distinct(list)
    ensures Distinct(list[..k + 1]) && Distinct(list[..k])
    ensures forall n :: n in list[..k + 1] <==> n in list[..k] || n == list[k]
    ensures list[k] !in list[..k]
  {
    assert list[..k + 1] == list[..k] + [list[k]];
  }

  lemma KeepUnwind(ids: Forest, S: set<Addr>, s: State, t: Tid)
    requires Inv(ids, S, s) && Transitive(ids, NodesAt(S)) && t in s.procs && s.procs[t].Unwinding?
    ensures Inv(ids, S, DoUnwind(s, t))
  {
    var s' := DoUnwind(s, t);
    var pc := s.procs[t];
    assert PcOk(ids, S, s, t);
    if pc.left > 0 {
      var n := pc.list[pc.left - 1];
      CallList(ids, S, pc.call);
      TakenPrefix(pc.list, pc.left - 1);
      DropChanges(s, t, n, s'.procs[t], s');
      assert PcOk(ids, S, s', t);
      KeepOthers(ids, S, s, s', t, n);
    } else {
      KeepExit(ids, S, s, t);
    }
  }

  lemma KeepStartUnlock(ids: Forest, S: set<Addr>, s: State, t: Tid)
    requires Inv(ids, S, s) && Transitive(ids, NodesAt(S)) && t in s.procs && s.procs[t].Locked?
    ensures Inv(ids, S, Goto(s, t, Unlocking(s.procs[t].call, Firsts(Args(s.procs[t].call), []))))
  {
    var c := s.procs[t].call;
    var s' := Goto(s, t, Unlocking(c, Firsts(Args(c), [])));
    assert PcOk(ids, S, s, t);
    CallList(ids, S, c);
    FirstsOf(Args(c), []);
    MoveChanges(s, t, s'.procs[t], s');
    KeepOthers(ids, S, s, s', t, 0);
  }

  lemma KeepUnlockNext(ids: Forest, S: set<Addr>, s: State, t: Tid)
    requires Inv(ids, S, s) && t in s.procs && s.procs[t].Unlocking?
    ensures Inv(ids, S, DoUnlockNext(s, t))
  {
    var s' := DoUnlockNext(s, t);
    var rest := s.procs[t].rest;
    assert PcOk(ids, S, s, t);
    if rest != [] {
      assert rest == [rest[0]] + rest[1..];
      DropChanges(s, t, rest[0], s'.procs[t], s');
      KeepOthers(ids, S, s, s', t, rest[0]);
    } else {
      KeepExit(ids, S, s, t);
    }
  }

  lemma StepKeepsInv(ids: Forest, S: set<Addr>, s: State, step: Step)
    requires Inv(ids, S, s) && Transitive(ids, NodesAt(S)) && Enabled(S, s, step)
    ensures Inv(ids, S, Apply(ids, S, s, step))
  {
    match step
    case Begin(t, c) => KeepBegin(ids, S, s, t, c);
    case Acquire(t) => KeepAcquire(ids, S, s, t);
    case Unwind(t) => KeepUnwind(ids, S, s, t);
    case StartUnlock(t) => KeepStartUnlock(ids, S, s, t);
    case UnlockNext(t) => KeepUnlockNext(ids, S, s, t);
    case Delete(n) => KeepDelete(ids, S, s, n);
  }

  lemma KeepDelete(ids: Forest, S: set<Addr>, s: State, n: Addr)
    requires Inv(ids, S, s)
    ensures Inv(ids, S, s.(gone := s.gone + {n}))
  {
    var s' := s.(gone := s.gone + {n});
    assert forall m :: Holders(s', m) == Holders(s, m);
    assert Exclusion(s');
    forall t {:trigger PcOk(ids, S, s', t)} | t in s'.procs
      ensures PcOk(ids, S, s', t)
    {
      assert PcOk(ids, S, s, t);
    }
  }

  lemma {:induction false} RunKeepsInv(ids: Forest, S: set<Addr>, s: State, steps: seq<Step>, s': State)
    requires Inv(ids, S, s) && Transitive(ids, NodesAt(S)) && Runs(ids, S, s, steps, s')
    ensures Inv(ids, S, s')
    decreases |steps|
  {
    if steps != [] {
      StepKeepsInv(ids, S, s, steps[0]);
      RunKeepsInv(ids, S, Apply(ids, S, s, steps[0]), steps[1..], s');
    }
  }

  lemma ReachableInv(ids: Forest, S: set<Addr>, s: State)
    requires Reachable(ids, S, s) && Transitive(ids, NodesAt(S))
    ensures Inv(ids, S, s)
  {
    var steps :| Runs(ids, S, Start, steps, s);
    RunKeepsInv(ids, S, Start, steps, s);
  }

  // ------------------------------------------------ transitive: no circle

  // What a thread wants comes after everything it has.
  lemma WaitersAscend(ids: Forest, S: set<Addr>, s: State, t: Tid, u: Tid)
    requires Inv(ids, S, s) && Transitive(ids, NodesAt(S)) && Waits(s, t, u) && Wants(s, u)
    ensures Before(ids, Wanted(s, t), Wanted(s, u))
  {
    assert PcOk(ids, S, s, u);
    CallList(ids, S, s.procs[u].call);
    var pc := s.procs[u];
    assert Wanted(s, t) in pc.list[..pc.got];
  }

  lemma WantedIsLive(ids: Forest, S: set<Addr>, s: State, t: Tid)
    requires Inv(ids, S, s) && Transitive(ids, NodesAt(S)) && Wants(s, t)
    ensures Wanted(s, t) in S
  {
    assert PcOk(ids, S, s, t);
    CallList(ids, S, s.procs[t].call);
    assert Wanted(s, t) in s.procs[t].list;
    assert Node(Wanted(s, t)) in Args(s.procs[t].call);
  }

  ghost predicate Last(ids: Forest, N: set<Addr>, m: Addr) { forall n | n in N :: !Before(ids, m, n) }

  lemma {:induction false} LastOf(ids: Forest, S: set<Addr>, N: set<Addr>) returns (m: Addr)
    requires Transitive(ids, NodesAt(S)) && N <= S && N != {}
    ensures m in N && Last(ids, N, m)
    decreases |N|
  {
    var x :| x in N;
    m := x;
    if N != {x} {
      m := LastOf(ids, S, N - {x});
      assert forall n | n in N :: n == x || n in N - {x};
      if Before(ids, m, x) {
        forall n | n in N
          ensures !Before(ids, x, n)
        {
          if Before(ids, x, n) {
            assert Node(m) in NodesAt(S) && Node(x) in NodesAt(S) && Node(n) in NodesAt(S);
            assert Before(ids, m, n);
          }
        }
        m := x;
      }
    }
  }

  // In a circle every thread waits for one that wants a later node.
  lemma CircleClimbs(ids: Forest, S: set<Addr>, s: State, D: set<Tid>, t: Tid) returns (u: Tid)
    requires Inv(ids, S, s) && Transitive(ids, NodesAt(S)) && Circle(s, D) && t in D
    ensures u in D && Wants(s, t) && Wants(s, u) && Before(ids, Wanted(s, t), Wanted(s, u)) && Wanted(s, t) in S
  {
    assert WaitsWithin(s, D, t);
    u :| u in D && Waits(s, t, u);
    assert WaitsWithin(s, D, u);
    var v :| v in D && Waits(s, u, v);
    WaitersAscend(ids, S, s, t, u);
    WantedIsLive(ids, S, s, t);
  }

  lemma NoCircle(ids: Forest, S: set<Addr>, s: State, D: set<Tid>)
    requires Inv(ids, S, s) && Transitive(ids, NodesAt(S))
    ensures !Circle(s, D)
  {
    if Circle(s, D) {
      var N := set t | t in D && Wants(s, t) :: Wanted(s, t);
      var x :| x in D;
      var y := CircleClimbs(ids, S, s, D, x);
      assert Wanted(s, x) in N;
      forall n | n in N
        ensures n in S && !Last(ids, N, n)
      {
        var t :| t in D && Wants(s, t) && Wanted(s, t) == n;
        var u := CircleClimbs(ids, S, s, D, t);
        assert Wanted(s, u) in N;
      }
      var m := LastOf(ids, S, N);
      assert false;
    }
  }

  // Can thread t take its next step?
  ghost predicate CanMove(s: State, t: Tid) {
    t in s.procs && (s.procs[t].Locking? ==> forall u :: !Waits(s, t, u))
  }

  lemma HoldersRun(ids: Forest, S: set<Addr>, s: State, t: Tid, u: Tid)
    requires Inv(ids, S, s) && Waits(s, t, u)
    ensures u in s.procs
  {
  }

  // In every reachable state in which a thread is under way, one of them can move.
  lemma SomebodyMoves(ids: Forest, S: set<Addr>, s: State, t0: Tid)
    requires Reachable(ids, S, s) && Transitive(ids, NodesAt(S)) && t0 in s.procs
    ensures exists t :: CanMove(s, t)
  {
    ReachableInv(ids, S, s);
    NoCircle(ids, S, s, s.procs.Keys);
    var t := OutsideCircle(s, s.procs.Keys, t0);
    WaitsForNobody(ids, S, s, t);
  }

  lemma OutsideCircle(s: State, D: set<Tid>, t0: Tid) returns (t: Tid)
    requires t0 in D && !Circle(s, D)
    ensures t in D && !WaitsWithin(s, D, t)
  {
    t :| t in D && !WaitsWithin(s, D, t);
  }

  lemma WaitsForNobody(ids: Forest, S: set<Addr>, s: State, t: Tid)
    requires Inv(ids, S, s) && t in s.procs && !WaitsWithin(s, s.procs.Keys, t)
    ensures CanMove(s, t)
  {
    forall u
      ensures !Waits(s, t, u)
    {
      if Waits(s, t, u) { HoldersRun(ids, S, s, t, u); }
    }
  }

  // In every reachable state: two threads that have the same node locked both called
  // for a shared lock, and a caller that did not has each of its nodes alone.
  lemma WritersExclude(ids: Forest, S: set<Addr>, s: State, t: Tid, u: Tid, n: Addr)
    requires Reachable(ids, S, s) && Transitive(ids, NodesAt(S)) && t in Holders(s, n)
    ensures t in s.procs && n in Held(s.procs[t])
    ensures u in Holders(s, n) && u != t ==>
              u in s.procs && s.procs[t].call.mode == SharedLock && s.procs[u].call.mode == SharedLock
    ensures s.procs[t].call.mode != SharedLock ==> Holders(s, n) == map[t := Exclusive]
  {
    ReachableInv(ids, S, s);
    assert PcOk(ids, S, s, t);
    assert forall v | v in Holders(s, n) && v != t :: Compatible(Holders(s, n)[t], Holders(s, n)[v]);
    assert s.procs[t].call.mode != SharedLock ==> Holders(s, n).Keys == {t};
  }

  // A thread that has come through has every node of its call, and no other, each
  // with the kind of lock it called for.
  lemma LockedHasAll(ids: Forest, S: set<Addr>, s: State, t: Tid, n: Addr)
    requires Reachable(ids, S, s) && Transitive(ids, NodesAt(S)) && t in s.procs && s.procs[t].Locked?
    ensures var c := s.procs[t].call;
            && (t in Holders(s, n) <==> Node(n) in Args(c))
            && (t in Holders(s, n) ==> Holders(s, n)[t] == if c.mode == SharedLock then Shared else Exclusive)
  {
    ReachableInv(ids, S, s);
    assert PcOk(ids, S, s, t);
    CallList(ids, S, s.procs[t].call);
  }

  // An acquisition fails exactly if the node wanted was deleted and the caller did
  // not force it; the thread has come through exactly if it has all its nodes;
  // otherwise it has one node more.
  lemma AcquireOutcome(ids: Forest, S: set<Addr>, s: State, t: Tid)
    requires Reachable(ids, S, s) && Transitive(ids, NodesAt(S)) && Enabled(S, s, Acquire(t))
    ensures var c, s' := s.procs[t].call, DoAcquire(s, t);
            && t in s'.procs && s'.procs[t].call == c
            && (s'.procs[t].Locked? <==> forall n | Node(n) in Args(c) :: t in Holders(s, n))
            && (s'.procs[t].Unwinding? <==> Wants(s, t) && c.mode != ForceLock && Wanted(s, t) in s.gone)
            && (s'.procs[t].Locking? || s'.holders == s.holders)
            && (s'.procs[t].Locking? ==>
                Wants(s, t) && t !in Holders(s, Wanted(s, t)) && t in Holders(s', Wanted(s, t)))
  {
    ReachableInv(ids, S, s);
    var pc := s.procs[t];
    assert PcOk(ids, S, s, t);
    CallList(ids, S, pc.call);
    if Wants(s, t) {
      TakenPrefix(pc.list, pc.got);
      assert Wanted(s, t) in pc.list;
      assert Node(Wanted(s, t)) in Args(pc.call);
    } else {
      assert pc.list[..|pc.list|] == pc.list;
    }
  }

  // ------------------------------------------------ not transitive: a circle

  function PairCall(x: Addr, y: Addr): Call { Call(Node(x), Node(y), Null, Null, ExclusiveLock) }

  lemma PairList(ids: Forest, x: Addr, y: Addr)
    requires Before(ids, x, y)
    ensures ListOf(ids, PairCall(x, y)) == [x, y]
  {
    MergeIs(ids, Node(x), Node(y), Null, Null);
    var l := [Null, Node(x), Node(y)];
    assert SortPair(ids, Node(x), Node(y)) == [Node(x), Node(y)] && SortPair(ids, Null, Null) == [Null, Null];
    assert Merge22(ids, Node(x), Node(y), Null, Null) == l;
    assert l[1..] == [Node(x), Node(y)] && l[1..][1..] == [Node(y)] && l[1..][1..][1..] == [];
    assert Addrs([Node(y)]) == [y];
    assert Addrs([Node(x), Node(y)]) == [x, y];
  }

  function Next(ns: seq<Addr>, i: nat): Addr
    requires i < |ns|
  {
    if i + 1 < |ns| then ns[i + 1] else ns[0]
  }

  // Nodes each of which comes before the next, all around.
  ghost predicate Cycle(ids: Forest, S: set<Addr>, ns: seq<Addr>) {
    && |ns| >= 2 && Distinct(ns)
    && forall i | 0 <= i < |ns| :: ns[i] in S && Before(ids, ns[i], Next(ns, i))
  }

  // Threads 0..k-1 have each taken the first of their two locks.
  function HalfWay(ns: seq<Addr>, k: nat): State
    requires k <= |ns|
  {
    if k == 0 then Start
    else Goto(Take(HalfWay(ns, k - 1), k - 1, ns[k - 1], ExclusiveLock), k - 1,
              Locking(PairCall(ns[k - 1], Next(ns, k - 1)), [ns[k - 1], Next(ns, k - 1)], 1))
  }

  lemma {:induction false} HalfWayThread(ns: seq<Addr>, k: nat, t: Tid)
    requires k <= |ns|
    ensures t in HalfWay(ns, k).procs <==> t < k
    ensures t < k ==> HalfWay(ns, k).procs[t] == Locking(PairCall(ns[t], Next(ns, t)), [ns[t], Next(ns, t)], 1)
    ensures HalfWay(ns, k).gone == {}
  {
    if k > 0 { HalfWayThread(ns, k - 1, t); }
  }

  lemma {:induction false} HalfWayHolder(ns: seq<Addr>, k: nat, t: Tid)
    requires k <= |ns| && Distinct(ns) && t < |ns|
    ensures Holders(HalfWay(ns, k), ns[t]) == if t < k then map[t := Exclusive] else map[]
  {
    if k > 0 { HalfWayHolder(ns, k - 1, t); }
  }

  lemma {:induction false} RunsOn(ids: Forest, S: set<Addr>, s: State, a: seq<Step>, s1: State, step: Step)
    requires Runs(ids, S, s, a, s1) && Enabled(S, s1, step)
    ensures Runs(ids, S, s, a + [step], Apply(ids, S, s1, step))
    decreases |a|
  {
    if a == [] {
      assert a + [step] == [step] && [step][1..] == [];
    } else {
      RunsOn(ids, S, Apply(ids, S, s, a[0]), a[1..], s1, step);
      assert (a + [step])[0] == a[0] && (a + [step])[1..] == a[1..] + [step];
    }
  }

  lemma FirstLock(ids: Forest, S: set<Addr>, s: State, t: Tid, x: Addr, y: Addr)
    requires t !in s.procs && s.gone == {} && Holders(s, x) == map[] && Before(ids, x, y) && x in S && y in S
    ensures var s1 := Goto(s, t, Locking(PairCall(x, y), [x, y], 0));
            && Enabled(S, s, Begin(t, PairCall(x, y))) && Apply(ids, S, s, Begin(t, PairCall(x, y))) == s1
            && Enabled(S, s1, Acquire(t))
            && Apply(ids, S, s1, Acquire(t)) ==
                Goto(Take(s, t, x, ExclusiveLock), t, Locking(PairCall(x, y), [x, y], 1))
  {
    PairList(ids, x, y);
    var s1 := Goto(s, t, Locking(PairCall(x, y), [x, y], 0));
    assert Holders(s1, x) == map[];
    assert DoAcquire(s1, t).procs == s.procs[t := Locking(PairCall(x, y), [x, y], 1)];
  }

  lemma {:induction false} HalfWayReachable(ids: Forest, S: set<Addr>, ns: seq<Addr>, k: nat) returns (steps: seq<Step>)
    requires Cycle(ids, S, ns) && k <= |ns|
    ensures Runs(ids, S, Start, steps, HalfWay(ns, k))
  {
    steps := [];
    if k > 0 {
      steps := HalfWayReachable(ids, S, ns, k - 1);
      var t := k - 1;
      var s, x, y := HalfWay(ns, t), ns[t], Next(ns, t);
      HalfWayThread(ns, t, t);
      HalfWayHolder(ns, t, t);
      assert Before(ids, x, y) && y in S;
      FirstLock(ids, S, s, t, x, y);
      RunsOn(ids, S, Start, steps, s, Begin(t, PairCall(x, y)));
      steps := steps + [Begin(t, PairCall(x, y))];
      RunsOn(ids, S, Start, steps, Goto(s, t, Locking(PairCall(x, y), [x, y], 0)), Acquire(t));
      steps := steps + [Acquire(t)];
    }
  }

  lemma CycleDeadlocks(ids: Forest, S: set<Addr>, ns: seq<Addr>)
    requires Cycle(ids, S, ns)
    ensures exists s :: Reachable(ids, S, s) && Deadlocked(s)
  {
    var k := |ns|;
    var s := HalfWay(ns, k);
    var steps := HalfWayReachable(ids, S, ns, k);
    HalfWayThread(ns, k, 0);
    HalfWayCircle(ids, S, ns);
    assert Reachable(ids, S, s) && Deadlocked(s);
  }

  lemma HalfWayCircle(ids: Forest, S: set<Addr>, ns: seq<Addr>)
    requires Cycle(ids, S, ns)
    ensures Circle(HalfWay(ns, |ns|), HalfWay(ns, |ns|).procs.Keys)
  {
    var k := |ns|;
    var s := HalfWay(ns, k);
    HalfWayThread(ns, k, 0);
    assert 0 in s.procs.Keys;
    forall t | t in s.procs.Keys
      ensures WaitsWithin(s, s.procs.Keys, t)
    {
      HalfWayThread(ns, k, t);
      var u := if t + 1 < k then t + 1 else 0;
      HalfWayThread(ns, k, u);
      HalfWayHolder(ns, k, u);
      assert Next(ns, t) == ns[u] && Wanted(s, t) == ns[u];
      assert u in s.procs.Keys && Waits(s, t, u);
    }
  }

  // Three nodes that break transitivity go around in a circle, or two of them do.
  lemma IntransitiveCycle(ids: Forest, S: set<Addr>) returns (ns: seq<Addr>)
    requires !Transitive(ids, NodesAt(S))
    ensures Cycle(ids, S, ns)
  {
    var x, y, z :| x in NodesAt(S) && y in NodesAt(S) && z in NodesAt(S) && Ordered(ids, x, y)
      && Ordered(ids, y, z) && !Ordered(ids, x, z);
    OrderedIsTotal(ids, x, z);
    if x == z {
      ns := [x.addr, y.addr];
    } else {
      ns := [x.addr, y.addr, z.addr];
    }
    assert Node(x.addr) == x && Node(y.addr) == y && Node(z.addr) == z;
  }

  // Concurrent callers on nodes S can wait for each other in a circle exactly if
  // the order is not transitive on S.
  lemma DeadlockFreeIffTransitive(ids: Forest, S: set<Addr>)
    ensures (forall s | Reachable(ids, S, s) :: !Deadlocked(s)) <==> Transitive(ids, NodesAt(S))
  {
    if Transitive(ids, NodesAt(S)) {
      forall s | Reachable(ids, S, s)
        ensures !Deadlocked(s)
      {
        ReachableInv(ids, S, s);
        forall D
          ensures !Circle(s, D)
        {
          NoCircle(ids, S, s, D);
        }
      }
    } else {
      var ns := IntransitiveCycle(ids, S);
      CycleDeadlocks(ids, S, ns);
    }
  }

  // A directory at a higher address than its child, and an unrelated node between
  // the two: parent order and address order together are not transitive.
  lemma MixedOrderDeadlocks()
    ensures var ids: Forest := (n: Addr) => if n == 3 then Ids(30, 1) else if n == 1 then Ids(10, 30) else Ids(20, 2);
            exists s :: Reachable(ids, {1, 2, 3}, s) && Deadlocked(s)
  {
    var ids: Forest := (n: Addr) => if n == 3 then Ids(30, 1) else if n == 1 then Ids(10, 30) else Ids(20, 2);
    CycleDeadlocks(ids, {1, 2, 3}, [3, 1, 2]);
  }
}
