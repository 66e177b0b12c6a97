/** File handles of a vnode: three slots, one for each access type, with use
    counts; and the books on them: fuse_fh_current, the handles the daemon gave
    out, the handles for which a RELEASE was sent, and the handles abandoned because
    the file system is dead. Class Vnops is the code updating them. */
module Handles {
  import opened Common

  type Tid = nat
  type Fh = nat

  const RDONLY := 0
  const WRONLY := 1
  const RDWR := 2
  const MAXTYPE := 3

  datatype Slot = Slot(openCount: int, fhId: Fh)

  // FUFH_IS_VALID
  predicate IsValid(s: Slot) { s.openCount > 0 }

  datatype Books = Books(current: int, granted: multiset<Fh>, released: multiset<Fh>, abandoned: multiset<Fh>)

  // A vnode's slots and the books.
  datatype Account = Account(fufh: seq<Slot>, books: Books)

  predicate Sized(a: Account) { |a.fufh| == MAXTYPE }

  function Use(a: Account, k: nat, d: int): Account
    requires k < |a.fufh|
  {
    a.(fufh := a.fufh[k := a.fufh[k].(openCount := a.fufh[k].openCount + d)])
  }

  function Reset(a: Account, k: nat): Account
    requires k < |a.fufh|
  {
    a.(fufh := a.fufh[k := a.fufh[k].(openCount := 0)])
  }

  // fuse_filehandle_get with the daemon's reply, if it gave a handle.
  function Get(a: Account, k: nat, reply: Option<Fh>): Account
    requires k < |a.fufh|
  {
    match reply
    case None => a
    case Some(fh) =>
      Account(a.fufh[k := Slot(1, fh)],
        a.books.(current := a.books.current + 1, granted := a.books.granted + multiset{fh}))
  }

  // fuse_filehandle_put: a RELEASE is sent for the handle, unless the file system
  // is dead.
  function Put(a: Account, k: nat, dead: bool): Account
    requires k < |a.fufh|
  {
    var b, h := a.books.(current := a.books.current - 1), a.fufh[k].fhId;
    a.(books := if dead then b.(abandoned := b.abandoned + multiset{h}) else b.(released := b.released + multiset{h}))
  }

  // The stash that fuse_vnop_create leaves for the creator's open.
  function Stash(a: Account, fh: Fh): Account
    requires Sized(a)
  {
    Account(a.fufh[RDWR := Slot(1, fh)],
      a.books.(current := a.books.current + 1, granted := a.books.granted + multiset{fh}))
  }

  // The creator's open moves the stash to its own slot, which can be the same.
  function HandOff(a: Account, k: nat): Account
    requires Sized(a) && k < MAXTYPE
  {
    var id := a.fufh[RDWR].fhId;
    a.(fufh := a.fufh[RDWR := a.fufh[RDWR].(openCount := 0)][k := Slot(1, id)])
  }

  function UseOrGet(a: Account, k: nat, reply: Option<Fh>): Account
    requires Sized(a) && k < MAXTYPE
  {
    if IsValid(a.fufh[k]) then Use(a, k, 1) else Get(a, k, reply)
  }

  function Close(a: Account, k: nat): Account
    requires Sized(a) && k < MAXTYPE
  {
    if !IsValid(a.fufh[k]) then a
    else
      var a1 := Use(a, k, -1);
      if IsValid(a1.fufh[k]) then a1 else Put(a1, k, false)
  }

  // What filehandle_get met: a handle, EACCES, or another error.
  datatype Reply = Handle(fh: Fh) | Eacces | Failed

  function HandleOf(r: Reply): Option<Fh> { if r.Handle? then Some(r.fh) else None }

  // A writable mapping that is refused is tried again read-only.
  function Mmap(a: Account, k: nat, first: Reply, second: Reply): Account
    requires Sized(a) && k < MAXTYPE
  {
    if !IsValid(a.fufh[k]) && first.Eacces? && k != RDONLY then UseOrGet(a, RDONLY, HandleOf(second))
    else UseOrGet(a, k, HandleOf(first))
  }

  // A directory read without an open handle gets one and releases it.
  function Readdir(a: Account, reply: Option<Fh>): Account
    requires Sized(a)
  {
    if IsValid(a.fufh[RDONLY]) || reply == None then a
    else Put(Use(Get(a, RDONLY, reply), RDONLY, -1), RDONLY, false)
  }

  // Which handle I/O uses: its own type, else read-write, else a new one.
  function Strategy(a: Account, read: bool, reply: Option<Fh>): Account
    requires Sized(a)
  {
    if IsValid(a.fufh[if read then RDONLY else WRONLY]) || IsValid(a.fufh[RDWR]) then a
    else Get(a, if read then RDONLY else RDWR, reply)
  }

  function ReleaseOne(a: Account, k: nat, dead: bool): Account
    requires Sized(a) && k < MAXTYPE
  {
    if IsValid(a.fufh[k]) then Put(Reset(a, k), k, dead) else a
  }

  // Inactive and reclaim put every valid handle, from slot k on.
  function ReleaseFrom(a: Account, k: nat, dead: bool): Account
    requires Sized(a) && k <= MAXTYPE
    decreases MAXTYPE - k
  {
    if k == MAXTYPE then a else ReleaseFrom(ReleaseOne(a, k, dead), k + 1, dead)
  }

  // ------------------------------------------------ conservation

  function One(s: Slot): nat { if IsValid(s) then 1 else 0 }

  function ValidSlots(f: seq<Slot>): nat
    requires |f| == MAXTYPE
  {
    One(f[0]) + One(f[1]) + One(f[2])
  }

  function Has(s: Slot, h: Fh): nat { if IsValid(s) && s.fhId == h then 1 else 0 }

  // How many slots hold handle h.
  function Held(f: seq<Slot>, h: Fh): nat
    requires |f| == MAXTYPE
  {
    Has(f[0], h) + Has(f[1], h) + Has(f[2], h)
  }

  // How often handle h was released or abandoned.
  function Gone(b: Books, h: Fh): nat { b.released[h] + b.abandoned[h] }

  // fuse_fh_current moves with the number of valid slots.
  ghost predicate CountKept(a: Account, a': Account)
    requires Sized(a) && Sized(a')
  {
    a'.books.current + ValidSlots(a.fufh) == a.books.current + ValidSlots(a'.fufh)
  }

  // How often h was given out and is neither held nor gone.
  function Unaccounted(a: Account, h: Fh): int
    requires Sized(a)
  {
    a.books.granted[h] - Gone(a.books, h) - Held(a.fufh, h)
  }

  // Handles given out are held, released or abandoned: none is lost, none doubled.
  ghost predicate HandlesKept(a: Account, a': Account)
    requires Sized(a) && Sized(a')
  {
    forall h :: Unaccounted(a', h) == Unaccounted(a, h)
  }

  ghost predicate Kept(a: Account, a': Account)
    requires Sized(a)
  {
    Sized(a') && CountKept(a, a') && HandlesKept(a, a')
  }

  lemma KeptTrans(a: Account, b: Account, c: Account)
    requires Sized(a) && Sized(b) && Kept(a, b) && Kept(b, c)
    ensures Kept(a, c)
  {
    forall h
      ensures Unaccounted(c, h) == Unaccounted(a, h)
    {
      assert Unaccounted(b, h) == Unaccounted(a, h);
    }
  }

  lemma SlotChange(a: Account, a': Account, k: nat)
    requires Sized(a) && Sized(a') && k < MAXTYPE && a'.fufh == a.fufh[k := a'.fufh[k]]
    ensures ValidSlots(a'.fufh) == ValidSlots(a.fufh) - One(a.fufh[k]) + One(a'.fufh[k])
    ensures forall h :: Held(a'.fufh, h) == Held(a.fufh, h) - Has(a.fufh[k], h) + Has(a'.fufh[k], h)
  {
  }

  lemma UseOrGetKeeps(a: Account, k: nat, reply: Option<Fh>)
    requires Sized(a) && k < MAXTYPE
    ensures Kept(a, UseOrGet(a, k, reply))
  {
    SlotChange(a, UseOrGet(a, k, reply), k);
  }

  lemma CloseKeeps(a: Account, k: nat)
    requires Sized(a) && k < MAXTYPE
    ensures Kept(a, Close(a, k))
  {
    SlotChange(a, Close(a, k), k);
  }

  lemma MmapKeeps(a: Account, k: nat, first: Reply, second: Reply)
    requires Sized(a) && k < MAXTYPE
    ensures Kept(a, Mmap(a, k, first, second))
  {
    UseOrGetKeeps(a, k, HandleOf(first));
    UseOrGetKeeps(a, RDONLY, HandleOf(second));
  }

  lemma ReaddirKeeps(a: Account, reply: Option<Fh>)
    requires Sized(a)
    ensures Kept(a, Readdir(a, reply))
  {
  }

  lemma StrategyKeeps(a: Account, read: bool, reply: Option<Fh>)
    requires Sized(a)
    ensures Kept(a, Strategy(a, read, reply))
  {
  }

  lemma ReleaseOneKeeps(a: Account, k: nat, dead: bool)
    requires Sized(a) && k < MAXTYPE
    ensures Kept(a, ReleaseOne(a, k, dead))
  {
    SlotChange(a, ReleaseOne(a, k, dead), k);
  }

  lemma {:induction false} ReleaseKeeps(a: Account, k: nat, dead: bool)
    requires Sized(a) && k <= MAXTYPE
    ensures Kept(a, ReleaseFrom(a, k, dead))
    decreases MAXTYPE - k
  {
    if k < MAXTYPE {
      ReleaseOneKeeps(a, k, dead);
      ReleaseKeeps(ReleaseOne(a, k, dead), k + 1, dead);
      KeptTrans(a, ReleaseOne(a, k, dead), ReleaseFrom(ReleaseOne(a, k, dead), k + 1, dead));
    }
  }

  // Afterwards no slot from k on is valid; and what was put is released or
  // abandoned by whether the file system is dead.
  lemma {:induction false} ReleaseFrees(a: Account, k: nat, dead: bool)
    requires Sized(a) && k <= MAXTYPE
    ensures Sized(ReleaseFrom(a, k, dead))
    ensures forall j | k <= j < MAXTYPE :: !IsValid(ReleaseFrom(a, k, dead).fufh[j])
    ensures forall j | 0 <= j < k :: ReleaseFrom(a, k, dead).fufh[j] == a.fufh[j]
    ensures var b := ReleaseFrom(a, k, dead).books;
            if dead then b.released == a.books.released else b.abandoned == a.books.abandoned
    decreases MAXTYPE - k
  {
    if k < MAXTYPE { ReleaseFrees(ReleaseOne(a, k, dead), k + 1, dead); }
  }

  // The stash is accounted for exactly if the read-write slot was free.
  lemma StashKeeps(a: Account, fh: Fh)
    requires Sized(a)
    ensures Kept(a, Stash(a, fh)) <==> !IsValid(a.fufh[RDWR])
    ensures CountKept(a, Stash(a, fh)) <==> !IsValid(a.fufh[RDWR])
  {
    SlotChange(a, Stash(a, fh), RDWR);
  }

  // The hand-off conserves the count exactly if one of the two slots is in use, or
  // the one slot when they are the same; and the handles exactly if it is the
  // stash that is in use, or the other slot has the stashed handle already.
  lemma HandOffKeeps(a: Account, k: nat)
    requires Sized(a) && k < MAXTYPE
    ensures CountKept(a, HandOff(a, k)) <==>
              if k == RDWR then IsValid(a.fufh[RDWR]) else IsValid(a.fufh[RDWR]) != IsValid(a.fufh[k])
    ensures HandlesKept(a, HandOff(a, k)) <==>
              || (IsValid(a.fufh[RDWR]) && (k == RDWR || !IsValid(a.fufh[k])))
              || (!IsValid(a.fufh[RDWR]) && k != RDWR && IsValid(a.fufh[k]) && a.fufh[k].fhId == a.fufh[RDWR].fhId)
  {
    var rw := a.(fufh := a.fufh[RDWR := a.fufh[RDWR].(openCount := 0)]);
    var a' := HandOff(a, k);
    SlotChange(a, rw, RDWR);
    SlotChange(rw, a', k);
    assert Held(a'.fufh, a.fufh[RDWR].fhId) >= 1;
    var id, other := a.fufh[RDWR].fhId, a.fufh[k].fhId;
    assert HandlesKept(a, a') ==>
        Unaccounted(a', id) == Unaccounted(a, id) && Unaccounted(a', other) == Unaccounted(a, other);
  }

  // ------------------------------------------------ the code in place

  class VnodeData {
    const fufh: array<Slot>
    var creating: bool  // FN_CREATING
    var creator: Tid
    var dead: bool      // fuse_isdeadfs: the session is dead or the vnode revoked

    ghost predicate Valid()
    {
      fufh.Length == MAXTYPE
    }

    constructor (creating: bool, creator: Tid)
      ensures Valid() && fresh(fufh) && this.creating == creating && this.creator == creator && !dead
      ensures forall k | 0 <= k < MAXTYPE :: fufh[k].openCount == 0
    {
      fufh := new Slot[MAXTYPE](_ => Slot(0, 0));
      this.creating, this.creator, dead := creating, creator, false;
    }
  }

  class Vnops {
    var current: int                    // fuse_fh_current
    ghost var granted: multiset<Fh>
    ghost var released: multiset<Fh>
    ghost var abandoned: multiset<Fh>

    ghost function View(v: VnodeData): Account
      reads this, v.fufh
    {
      Account(v.fufh[..], Books(current, granted, released, abandoned))
    }

    // With a valid slot this would be the panic of fuse_filehandle_get.
    method FilehandleGet(v: VnodeData, k: nat, reply: Option<Fh>) returns (err: bool)
      requires v.Valid() && k < MAXTYPE && !IsValid(v.fufh[k])
      modifies this, v.fufh
      ensures View(v) == Get(old(View(v)), k, reply) && err == reply.None?
    {
      err := reply.None?;
      if !err {
        current := current + 1;
        granted := granted + multiset{reply.value};
        v.fufh[k] := Slot(1, reply.value);
      }
    }

    // With a valid slot this would be the panic of fuse_filehandle_put.
    method FilehandlePut(v: VnodeData, k: nat)
      requires v.Valid() && k < MAXTYPE && !IsValid(v.fufh[k])
      modifies this
      ensures View(v) == Put(old(View(v)), k, v.dead)
    {
      if v.dead {
        abandoned := abandoned + multiset{v.fufh[k].fhId};
      } else {
        released := released + multiset{v.fufh[k].fhId};
      }
      current := current - 1;
    }

    // Create leaves the handle in the read-write slot.
    method CreateStash(v: VnodeData, fh: Fh)
      requires v.Valid()
      modifies this, v.fufh
      ensures View(v) == Stash(old(View(v)), fh)
    {
      v.fufh[RDWR] := v.fufh[RDWR].(fhId := fh);
      v.fufh[RDWR] := v.fufh[RDWR].(openCount := 1);
      current := current + 1;
      granted := granted + multiset{fh};
    }

    // Open by thread t. A contender of the creator goes to sleep and comes back
    // once the flag is clear; on a dead file system nothing happens.
    method VnopOpen(v: VnodeData, t: Tid, k: nat, reply: Option<Fh>) returns (sleeps: bool)
      requires v.Valid() && k < MAXTYPE
      modifies this, v, v.fufh
      ensures v.creator == old(v.creator) && v.dead == old(v.dead)
      ensures sleeps == (!v.dead && old(v.creating) && v.creator != t)
      ensures v.creating == (old(v.creating) && (v.dead || sleeps))
      ensures View(v) == if v.dead || sleeps then old(View(v))
                         else if old(v.creating) then HandOff(old(View(v)), k)
                         else UseOrGet(old(View(v)), k, reply)
    {
      sleeps := false;
      if v.dead {
        return;
      }
      if v.creating {
        if v.creator == t {
          // RDWR can be k: the order of these matters.
          v.fufh[k] := v.fufh[k].(fhId := v.fufh[RDWR].fhId);
          v.fufh[RDWR] := v.fufh[RDWR].(openCount := 0);
          v.fufh[k] := v.fufh[k].(openCount := 1);
          v.creating := false;
        } else {
          sleeps := true;
        }
      } else {
        UseSlotOrGet(v, k, reply);
      }
    }

    method UseSlotOrGet(v: VnodeData, k: nat, reply: Option<Fh>)
      requires v.Valid() && k < MAXTYPE
      modifies this, v.fufh
      ensures View(v) == UseOrGet(old(View(v)), k, reply)
    {
      if IsValid(v.fufh[k]) {
        v.fufh[k] := v.fufh[k].(openCount := v.fufh[k].openCount + 1);
      } else {
        var _ := FilehandleGet(v, k, reply);
      }
    }

    method VnopClose(v: VnodeData, k: nat)
      requires v.Valid() && k < MAXTYPE
      modifies this, v.fufh
      ensures View(v) == if v.dead then old(View(v)) else Close(old(View(v)), k)
    {
      if !v.dead && IsValid(v.fufh[k]) {
        v.fufh[k] := v.fufh[k].(openCount := v.fufh[k].openCount - 1);
        if !IsValid(v.fufh[k]) {
          FilehandlePut(v, k);
        }
      }
    }

    method VnopMmap(v: VnodeData, k0: nat, first: Reply, second: Reply) returns (err: bool)
      requires v.Valid() && k0 < MAXTYPE
      modifies this, v.fufh
      ensures View(v) == Mmap(old(View(v)), k0, first, second)
    {
      var k, retried, reply := k0, false, first;
      while true
        invariant k < MAXTYPE && View(v) == old(View(v))
        invariant !retried ==> k == k0 && reply == first
        invariant retried ==> k == RDONLY && reply == second && first.Eacces? && k0 != RDONLY && !IsValid(v.fufh[k0])
        decreases !retried
      {
        if IsValid(v.fufh[k]) {
          v.fufh[k] := v.fufh[k].(openCount := v.fufh[k].openCount + 1);
          return false;
        }
        err := FilehandleGet(v, k, HandleOf(reply));
        if !err {
          return;
        }
        if retried || !reply.Eacces? || (k != RDWR && k != WRONLY) {
          return;
        }
        k, retried, reply := RDONLY, true, second;
      }
    }

    method VnopReaddir(v: VnodeData, reply: Option<Fh>)
      requires v.Valid()
      modifies this, v.fufh
      ensures View(v) == if v.dead then old(View(v)) else Readdir(old(View(v)), reply)
    {
      if v.dead {
        return;
      }
      var freeFufh := false;
      if !IsValid(v.fufh[RDONLY]) {
        var err := FilehandleGet(v, RDONLY, reply);
        if err {
          return;
        }
        freeFufh := true;
      }
      if freeFufh {
        v.fufh[RDONLY] := v.fufh[RDONLY].(openCount := v.fufh[RDONLY].openCount - 1);
        FilehandlePut(v, RDONLY);
      }
    }

    method StrategyHandle(v: VnodeData, read: bool, reply: Option<Fh>)
      requires v.Valid()
      modifies this, v.fufh
      ensures View(v) == if v.dead then old(View(v)) else Strategy(old(View(v)), read, reply)
    {
      if v.dead {
        return;
      }
      var k := if read then RDONLY else WRONLY;
      if !IsValid(v.fufh[k]) && !IsValid(v.fufh[RDWR]) {
        k := if read then RDONLY else RDWR;
        var _ := FilehandleGet(v, k, reply);
      }
    }

    // The loop of inactive and of reclaim.
    method ReleaseAll(v: VnodeData)
      requires v.Valid()
      modifies this, v.fufh
      ensures View(v) == ReleaseFrom(old(View(v)), 0, v.dead)
    {
      var k := 0;
      while k < MAXTYPE
        invariant 0 <= k <= MAXTYPE
        invariant ReleaseFrom(View(v), k, v.dead) == ReleaseFrom(old(View(v)), 0, v.dead)
      {
        ghost var a := View(v);
        if IsValid(v.fufh[k]) {
          v.fufh[k] := v.fufh[k].(openCount := 0);
          FilehandlePut(v, k);
        }
        assert View(v) == ReleaseOne(a, k, v.dead);
        k := k + 1;
      }
    }
  }
}
