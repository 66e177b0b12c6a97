/** Reading a directory: each reply of the daemon, a piece of the encoded entries
    that may be cut off anywhere, is turned into dirents for the caller. */
module Readdir {
  import opened Common
  import opened Dirent

  // The codes of fuse_internal_readdir_processdata: -1, 0, EINVAL, EIO.
  datatype Verdict = Stop | More | BadName | LongName

  datatype Outcome = Outcome(entries: seq<Entry>, verdict: Verdict)

  type Veil = seq<Byte> -> bool

  // What a reply b yields for a caller with room for resid bytes.
  function Process(b: seq<Byte>, resid: nat, first: bool): Outcome
    decreases |b|
  {
    if |b| < NAME_OFFSET then Outcome([], Stop)
    else
      var n := NameLen(b);
      if |b| < RecordSize(n) then Outcome([], if first then Stop else More)
      else if n == 0 then Outcome([], BadName)
      else if n > MAXNAMLEN then Outcome([], LongName)
      else if DirSize(n) > resid then Outcome([], Stop)
      else
        var o := Process(b[RecordSize(n)..], resid - DirSize(n), false);
        Outcome([Decode(b)] + o.entries, o.verdict)
  }

  // How an entry is shown to the caller.
  type Cook = Entry -> seq<Byte>

  function CookWith(veil: Veil): Cook { (e: Entry) => Cooked(e, veil(e.name)) }

  function Room(es: seq<Entry>): nat { if es == [] then 0 else DirSize(|es[0].name|) + Room(es[1..]) }

  ghost predicate AllOk(es: seq<Entry>) { forall i | 0 <= i < |es| :: EntryOk(es[i]) }

  // How many of the entries are complete in the first m bytes and fit.
  function Fits(es: seq<Entry>, m: int, resid: int): (k: nat)
    ensures k <= |es|
  {
    if es == [] || m < RecordSize(|es[0].name|) || resid < DirSize(|es[0].name|) then 0
    else 1 + Fits(es[1..], m - RecordSize(|es[0].name|), resid - DirSize(|es[0].name|))
  }

  lemma RecordHoldsName(n: nat)
    requires n <= MAXNAMLEN
    ensures RecordSize(n) >= NAME_OFFSET + n
  {
  }

  // Is there a whole record with a good name at the front, and room for it?
  predicate Good(b: seq<Byte>, resid: nat) {
    && |b| >= NAME_OFFSET && 1 <= NameLen(b) <= MAXNAMLEN
    && RecordSize(NameLen(b)) <= |b| && DirSize(NameLen(b)) <= resid
  }

  lemma ProcessGood(b: seq<Byte>, resid: nat, first: bool)
    requires Good(b, resid)
    ensures NAME_OFFSET + NameLen(b) <= RecordSize(NameLen(b))
    ensures |Decode(b).name| == NameLen(b)
    ensures var o := Process(b[RecordSize(NameLen(b))..], resid - DirSize(NameLen(b)), false);
            Process(b, resid, first) == Outcome([Decode(b)] + o.entries, o.verdict)
  {
    RecordHoldsName(NameLen(b));
  }

  lemma ProcessEnds(b: seq<Byte>, resid: nat, first: bool)
    requires !Good(b, resid)
    ensures Process(b, resid, first).entries == [] && (Process(b, resid, first).verdict == More ==> !first)
  {
  }

  // Whatever the reply, only well-formed names come out, they fit, and the caller
  // is told to go on only after getting something.
  lemma {:induction false} ProcessIsSafe(b: seq<Byte>, resid: nat, first: bool)
    ensures var o := Process(b, resid, first);
            && (forall i | 0 <= i < |o.entries| :: 1 <= |o.entries[i].name| <= MAXNAMLEN)
            && Room(o.entries) <= resid
            && (o.verdict == More && first ==> o.entries != [])
    decreases |b|
  {
    if Good(b, resid) {
      ProcessGood(b, resid, first);
      var rest, left := b[RecordSize(NameLen(b))..], resid - DirSize(NameLen(b));
      ProcessIsSafe(rest, left, false);
      assert ([Decode(b)] + Process(rest, left, false).entries)[1..] == Process(rest, left, false).entries;
    } else {
      ProcessEnds(b, resid, first);
    }
  }

  // One complete entry at the front of a reply.
  lemma ProcessOne(e: Entry, rest: seq<Byte>, resid: nat, first: bool)
    requires EntryOk(e)
    ensures Process(Encode(e) + rest, resid, first) ==
              if DirSize(|e.name|) > resid then Outcome([], Stop)
              else var o := Process(rest, resid - DirSize(|e.name|), false); Outcome([e] + o.entries, o.verdict)
  {
    EncodeParts(e);
    DecodeEncode(e, rest);
    assert (Encode(e) + rest)[RecordSize(|e.name|)..] == rest;
  }

  // An entry that is cut off.
  lemma ProcessCut(e: Entry, rest: seq<Byte>, m: nat, resid: nat, first: bool)
    requires EntryOk(e) && m < RecordSize(|e.name|)
    ensures m <= |Encode(e) + rest|
    ensures Process((Encode(e) + rest)[..m], resid, first) ==
              Outcome([], if m < NAME_OFFSET || first then Stop else More)
  {
    EncodeParts(e);
    if m >= NAME_OFFSET { HeaderOfPrefix(e, rest, m); }
  }

  ghost predicate IsOutcome(b: seq<Byte>, resid: nat, first: bool, o: Outcome) { o == Process(b, resid, first) }

  // The reply b yields the first k of es, is not taken for malformed, and tells the
  // caller to go on or to stop.
  ghost predicate Yields(b: seq<Byte>, resid: nat, first: bool, es: seq<Entry>, k: nat, more: bool)
    requires k <= |es|
  {
    forall o {:trigger IsOutcome(b, resid, first, o)} | IsOutcome(b, resid, first, o) ::
      o.entries == es[..k] && o.verdict == if more then More else Stop
  }

  lemma YieldsOne(e: Entry, rest: seq<Byte>, resid: nat, first: bool, es: seq<Entry>, k: nat, more: bool)
    requires EntryOk(e) && DirSize(|e.name|) <= resid && es != [] && e == es[0] && k < |es|
    requires Yields(rest, resid - DirSize(|e.name|), false, es[1..], k, more)
    ensures Yields(Encode(e) + rest, resid, first, es, 1 + k, more)
  {
    ProcessOne(e, rest, resid, first);
    assert IsOutcome(rest, resid - DirSize(|e.name|), false, Process(rest, resid - DirSize(|e.name|), false));
    PrefixCons(es, k);
  }

  lemma YieldsNone(e: Entry, rest: seq<Byte>, m: nat, resid: nat, first: bool, es: seq<Entry>)
    requires EntryOk(e) && m <= |Encode(e) + rest| && EndsAt(e, m, resid)
    ensures Yields((Encode(e) + rest)[..m], resid, first, es, 0, !first && IsCut(e, m))
  {
    EncodedSize(e);
    if m < RecordSize(|e.name|) {
      ProcessCut(e, rest, m, resid, first);
    } else {
      PrefixSplit(Encode(e), rest, m);
      ProcessOne(e, rest[..m - |Encode(e)|], resid, first);
    }
  }

  // Is the entry cut off behind its header?
  predicate IsCut(e: Entry, m: int) { NAME_OFFSET <= m < RecordSize(|e.name|) }

  // Does a reply of m bytes end with an entry that is cut off, and not the first?
  function GoesOn(es: seq<Entry>, m: int, resid: int, first: bool): bool {
    if es == [] then false
    else if EndsAt(es[0], m, resid) then !first && IsCut(es[0], m)
    else GoesOn(es[1..], m - RecordSize(|es[0].name|), resid - DirSize(|es[0].name|), false)
  }

  // Is the first entry cut off, or too large for the caller?
  predicate EndsAt(e: Entry, m: int, resid: int) { m < RecordSize(|e.name|) || DirSize(|e.name|) > resid }

  lemma FitsNext(es: seq<Entry>, m: int, resid: int)
    requires es != []
    ensures EndsAt(es[0], m, resid) ==>
              Fits(es, m, resid) == 0 && forall first :: GoesOn(es, m, resid, first) == (!first && IsCut(es[0], m))
    ensures !EndsAt(es[0], m, resid) ==>
              var m', resid' := m - RecordSize(|es[0].name|), resid - DirSize(|es[0].name|);
              && Fits(es, m, resid) == 1 + Fits(es[1..], m', resid')
              && forall first :: GoesOn(es, m, resid, first) == GoesOn(es[1..], m', resid', false)
  {
  }

  // A reply that is the first m bytes of encoded entries yields, in order, those
  // that are complete and fit; it is never taken for malformed, and the caller is
  // told to go on exactly if an entry behind another one is cut off.
  lemma {:induction false} ProcessPrefix(es: seq<Entry>, m: nat, resid: nat, first: bool)
    requires AllOk(es) && m <= |EncodeAll(es)|
    ensures Yields(EncodeAll(es)[..m], resid, first, es, Fits(es, m, resid), GoesOn(es, m, resid, first))
    decreases es, 1
  {
    if es != [] {
      FitsNext(es, m, resid);
      if EndsAt(es[0], m, resid) {
        YieldsNone(es[0], EncodeAll(es[1..]), m, resid, first, es);
      } else {
        PrefixMore(es, m, resid, first, RecordSize(|es[0].name|), DirSize(|es[0].name|));
      }
    }
  }

  lemma {:induction false} PrefixMore(es: seq<Entry>, m: nat, resid: nat, first: bool, size: nat, room: nat)
    requires AllOk(es) && es != [] && m <= |EncodeAll(es)|
    requires size == RecordSize(|es[0].name|) <= m && room == DirSize(|es[0].name|) <= resid
    ensures Yields(EncodeAll(es)[..m], resid, first, es, 1 + Fits(es[1..], m - size, resid - room),
                   GoesOn(es[1..], m - size, resid - room, false))
    decreases es, 0
  {
    var e, rest := es[0], EncodeAll(es[1..]);
    EncodedSize(e);
    PrefixSplit(Encode(e), rest, m);
    ProcessPrefix(es[1..], m - size, resid - room, false);
    YieldsOne(e, rest[..m - size], resid, first, es, Fits(es[1..], m - size, resid - room),
              GoesOn(es[1..], m - size, resid - room, false));
  }

  lemma PrefixCons(es: seq<Entry>, k: nat)
    requires k < |es|
    ensures es[..1 + k] == [es[0]] + es[1..][..k]
  {
  }

  lemma PrefixSplit(a: seq<Byte>, b: seq<Byte>, m: nat)
    requires |a| <= m <= |a| + |b|
    ensures (a + b)[..m] == a + b[..m - |a|]
  {
  }

  lemma EncodedSize(e: Entry)
    requires EntryOk(e)
    ensures |Encode(e)| == RecordSize(|e.name|)
  {
    EncodeParts(e);
  }

  // ------------------------------------------------ the code in place

  class Uio {
    var resid: nat
    var offset: nat
    var moved: seq<Byte>  // what reached the caller

    ghost function View(): Caller
      reads this
    {
      Caller(resid, offset, moved)
    }

    method Move(b: seq<Byte>)
      requires |b| <= resid
      modifies this
      ensures resid == old(resid) - |b| && moved == old(moved) + b
    {
      resid, offset, moved := resid - |b|, offset + |b|, moved + b;
    }
  }

  lemma Assembled(b: seq<Byte>, head: seq<Byte>, name: seq<Byte>, size: nat)
    requires |head| + |name| <= size <= |b| && b[..|head|] == head && b[|head|..|head| + |name|] == name
    requires forall i | |head| + |name| <= i < size :: b[i] == 0
    ensures b[..size] == head + name + Zeros(size - |head| - |name|)
  {
    assert b[..size] == b[..|head|] + b[|head|..|head| + |name|] + b[|head| + |name|..size];
  }

  const COOKED_SIZE := 280  // DIRCOOKEDSIZE

  // The buffer a dirent is put together in.
  class Iov {
    const base: array<Byte>
    var len: nat

    ghost predicate Clean()
      reads this, base
    {
      base.Length == COOKED_SIZE && len <= COOKED_SIZE && forall i | len <= i < COOKED_SIZE :: base[i] == 0
    }

    // fiov_init
    constructor ()
      ensures Clean() && fresh(base)
    {
      base, len := new Byte[COOKED_SIZE](_ => 0), 0;
    }

    // fiov_refresh: clear what the last use wrote.
    method Refresh()
      requires Clean()
      modifies this, base
      ensures Clean() && len == 0
    {
      var i := 0;
      while i < len
        invariant 0 <= i <= len && Clean() && forall j | 0 <= j < i :: base[j] == 0
      {
        base[i] := 0;
        i := i + 1;
      }
      len := 0;
    }

    method Write(i0: nat, b: seq<Byte>)
      requires i0 + |b| <= base.Length
      modifies base
      ensures base[i0..i0 + |b|] == b
      ensures forall j | 0 <= j < base.Length && !(i0 <= j < i0 + |b|) :: base[j] == old(base[j])
    {
      var i := 0;
      while i < |b|
        invariant 0 <= i <= |b|
        invariant forall j | 0 <= j < i :: base[i0 + j] == b[j]
        invariant forall j | 0 <= j < base.Length && !(i0 <= j < i0 + i) :: base[j] == old(base[j])
      {
        base[i0 + i] := b[i];
        i := i + 1;
      }
    }

    // Nothing of an earlier entry is left in the padding.
    method Cook(e: Entry, hidden: bool)
      requires Clean() && 1 <= |e.name| <= MAXNAMLEN
      modifies this, base
      ensures Clean() && len == DirSize(|e.name|) && base[..len] == Cooked(e, hidden)
    {
      Refresh();
      var size := DirSize(|e.name|);
      var head := Bytes(if hidden then 0 else e.ino, 4) + Bytes(size, 2)
                  + Bytes(if hidden then DT_WHT else e.kind, 1) + Bytes(|e.name|, 1);
      Write(0, head);
      Write(DIRENT_HEADER, e.name);
      base[size] := 0;
      len := size;
      assert base[..][DIRENT_HEADER..DIRENT_HEADER + |e.name|] == base[DIRENT_HEADER..DIRENT_HEADER + |e.name|];
      Assembled(base[..], head, e.name, size);
    }
  }

  // After the entries done, the rest of the reply decides.
  ghost predicate Agrees(reply: seq<Byte>, resid0: nat, done: seq<Entry>, buf: seq<Byte>, resid: nat) {
    var o := Process(buf, resid, done == []);
    Process(reply, resid0, true) == Outcome(done + o.entries, o.verdict)
  }

  lemma AgreesNext(reply: seq<Byte>, resid0: nat, done: seq<Entry>, buf: seq<Byte>, resid: nat)
    requires Agrees(reply, resid0, done, buf, resid) && Good(buf, resid)
    ensures 0 < RecordSize(NameLen(buf)) <= |buf| && NAME_OFFSET + NameLen(buf) <= |buf|
            && |Decode(buf).name| == NameLen(buf)
    ensures Agrees(reply, resid0, done + [Decode(buf)], buf[RecordSize(NameLen(buf))..], resid - DirSize(NameLen(buf)))
  {
    ProcessGood(buf, resid, done == []);
    var o := Process(buf[RecordSize(NameLen(buf))..], resid - DirSize(NameLen(buf)), false);
    assert done + ([Decode(buf)] + o.entries) == done + [Decode(buf)] + o.entries;
  }

  // A caller's state.
  datatype Caller = Caller(resid: int, offset: nat, moved: seq<Byte>)

  function DeliverOne(cook: Cook, c: Caller, e: Entry): Caller {
    Caller(c.resid - |cook(e)|, e.off, c.moved + cook(e))
  }

  // What the entries done make of it.
  function Deliver(cook: Cook, c: Caller, done: seq<Entry>): Caller
    decreases |done|
  {
    if done == [] then c else Deliver(cook, DeliverOne(cook, c, done[0]), done[1..])
  }

  lemma {:induction false} DeliverMore(cook: Cook, c: Caller, a: seq<Entry>, b: seq<Entry>)
    ensures Deliver(cook, c, a + b) == Deliver(cook, Deliver(cook, c, a), b)
    decreases |a|
  {
    if a == [] {
      assert a + b == b;
    } else {
      DeliverMore(cook, DeliverOne(cook, c, a[0]), a[1..], b);
      assert (a + b)[0] == a[0] && (a + b)[1..] == a[1..] + b;
    }
  }

  lemma DeliverLast(cook: Cook, c: Caller, done: seq<Entry>, e: Entry)
    ensures Deliver(cook, c, done + [e]) == DeliverOne(cook, Deliver(cook, c, done), e)
  {
    DeliverMore(cook, c, done, [e]);
    assert [e][1..] == [];
  }

  // The offset is that of the last entry, and the room taken is theirs.
  lemma {:induction false} DeliverIs(cook: Cook, c: Caller, done: seq<Entry>)
    requires forall e :: |cook(e)| == DirSize(|e.name|)
    ensures Deliver(cook, c, done).offset == if done == [] then c.offset else done[|done| - 1].off
    ensures Deliver(cook, c, done).resid == c.resid - Room(done)
    ensures done != [] ==> Room(done) > 0
    decreases |done|
  {
    if done != [] { DeliverIs(cook, DeliverOne(cook, c, done[0]), done[1..]); }
  }

  lemma CookWithSize(veil: Veil)
    ensures forall e :: |CookWith(veil)(e)| == DirSize(|e.name|)
  {
    forall e
      ensures |CookWith(veil)(e)| == DirSize(|e.name|)
    {
      CookedSize(e, veil(e.name));
    }
  }

  // How a caller reads its buffer: record after record.
  function ReadAll(b: seq<Byte>): seq<Shown>
    decreases |b|
  {
    if !Readable(b) then [] else [ReadOne(b)] + ReadAll(b[Field(b, 4, 2)..])
  }

  function ShownAll(veil: Veil, es: seq<Entry>): seq<Shown> {
    if es == [] then [] else [AsShown(es[0], veil(es[0].name))] + ShownAll(veil, es[1..])
  }

  // What is delivered is appended to the caller's buffer, and there the caller reads
  // the entries: their numbers, types and names, in order.
  lemma {:induction false} DeliveredReads(veil: Veil, c: Caller, done: seq<Entry>)
    requires forall i | 0 <= i < |done| :: |done[i].name| <= MAXNAMLEN
    ensures c.moved <= Deliver(CookWith(veil), c, done).moved
    ensures ReadAll(Deliver(CookWith(veil), c, done).moved[|c.moved|..]) == ShownAll(veil, done)
    decreases |done|
  {
    if done != [] {
      var e := done[0];
      var c1, cooked := DeliverOne(CookWith(veil), c, e), Cooked(e, veil(e.name));
      DeliveredReads(veil, c1, done[1..]);
      var moved := Deliver(CookWith(veil), c1, done[1..]).moved;
      BehindFront(c.moved, cooked, moved);
      CookedReads(e, veil(e.name), moved[|c1.moved|..]);
    }
  }

  lemma BehindFront(a: seq<Byte>, b: seq<Byte>, all: seq<Byte>)
    requires a + b <= all
    ensures a <= all && all[|a|..] == b + all[|a + b|..]
  {
  }

  // A record with no name or too long a name behind good ones ends the reply with
  // its own error, after those were delivered.
  lemma {:induction false} ProcessMalformed(es: seq<Entry>, bad: seq<Byte>, resid: nat, first: bool)
    requires AllOk(es) && Room(es) <= resid
    requires |bad| >= NAME_OFFSET && |bad| >= RecordSize(NameLen(bad)) && !(1 <= NameLen(bad) <= MAXNAMLEN)
    ensures Process(EncodeAll(es) + bad, resid, first) ==
              Outcome(es, if NameLen(bad) == 0 then BadName else LongName)
    decreases es
  {
    if es == [] {
      assert EncodeAll(es) + bad == bad;
    } else {
      var rest := EncodeAll(es[1..]) + bad;
      assert EncodeAll(es) + bad == Encode(es[0]) + rest;
      ProcessOne(es[0], rest, resid, first);
      ProcessMalformed(es[1..], bad, resid - DirSize(|es[0].name|), false);
    }
  }

  method Emit(veil: Veil, e: Entry, uio: Uio, iov: Iov)
    requires iov.Clean() && 1 <= |e.name| <= MAXNAMLEN && DirSize(|e.name|) <= uio.resid
    modifies uio, iov, iov.base
    ensures iov.Clean() && uio.View() == DeliverOne(CookWith(veil), old(uio.View()), e)
    ensures uio.resid == old(uio.resid) - DirSize(|e.name|)
  {
    CookedSize(e, veil(e.name));
    iov.Cook(e, veil(e.name));
    uio.Move(iov.base[..iov.len]);
    uio.offset := e.off;
  }

  lemma AgreesEnd(reply: seq<Byte>, resid0: nat, done: seq<Entry>, buf: seq<Byte>, resid: nat, v: Verdict)
    requires Agrees(reply, resid0, done, buf, resid) && Process(buf, resid, done == []) == Outcome([], v)
    ensures Process(reply, resid0, true) == Outcome(done, v)
  {
    assert done + [] == done;
  }

  // Does the loop end at this record, and how?
  method CheckFront(buf: seq<Byte>, resid: nat, cou: nat) returns (verdict: Option<Verdict>)
    ensures verdict == None <==> Good(buf, resid)
    ensures verdict.Some? ==> Process(buf, resid, cou == 0) == Outcome([], verdict.value)
  {
    if |buf| < NAME_OFFSET { return Some(Stop); }
    var namelen := NameLen(buf);
    if |buf| < RecordSize(namelen) { return Some(if cou == 0 then Stop else More); }
    if namelen == 0 { return Some(BadName); }
    if namelen > MAXNAMLEN { return Some(LongName); }
    if DirSize(namelen) > resid { return Some(Stop); }
    return None;
  }

  // fuse_internal_readdir_processdata on any reply.
  method ProcessData(veil: Veil, reply: seq<Byte>, uio: Uio, iov: Iov) returns (verdict: Verdict, done: seq<Entry>)
    requires iov.Clean()
    modifies uio, iov, iov.base
    ensures iov.Clean() && IsOutcome(reply, old(uio.resid), true, Outcome(done, verdict))
    ensures uio.View() == Deliver(CookWith(veil), old(uio.View()), done)
  {
    ghost var c, cook := uio.View(), CookWith(veil);
    var buf, cou := reply, 0;
    var end := CheckFront(buf, uio.resid, cou);
    done := [];
    assert [] + Process(reply, c.resid, true).entries == Process(reply, c.resid, true).entries;
    while end == None
      invariant iov.Clean() && cou == |done| && uio.View() == Deliver(cook, c, done)
      invariant Agrees(reply, c.resid, done, buf, uio.resid)
      invariant end == None <==> Good(buf, uio.resid)
      invariant end.Some? ==> Process(buf, uio.resid, done == []) == Outcome([], end.value)
      decreases |buf|
    {
      AgreesNext(reply, c.resid, done, buf, uio.resid);
      var e, freclen := Decode(buf), RecordSize(NameLen(buf));
      DeliverLast(cook, c, done, e);
      Emit(veil, e, uio, iov);
      buf, done, cou := buf[freclen..], done + [e], cou + 1;
      end := CheckFront(buf, uio.resid, cou);
    }
    verdict := end.value;
    AgreesEnd(reply, c.resid, done, buf, uio.resid, verdict);
  }

  // ------------------------------------------------ a whole call

  // How the daemon takes a request: an error, or at most so many bytes.
  datatype Answer = Fails(errno: Errno) | Data(max: nat)

  // A directory's entries, each with a cookie of its own that is not zero.
  ghost predicate Directory(dir: seq<Entry>) {
    && AllOk(dir)
    && (forall i | 0 <= i < |dir| :: dir[i].off != 0)
    && (forall i, j {:trigger Differ(dir, i, j)} | 0 <= i < j < |dir| :: Differ(dir, i, j))
  }

  predicate Differ(dir: seq<Entry>, i: nat, j: nat)
    requires i < |dir| && j < |dir|
  {
    dir[i].off != dir[j].off
  }

  // The number of entries up to and including the one with cookie off.
  function Position(dir: seq<Entry>, off: nat): (p: nat)
    ensures p <= |dir|
  {
    if dir == [] then 0 else if dir[|dir| - 1].off == off then |dir| else Position(dir[..|dir| - 1], off)
  }

  lemma {:induction false} PositionAt(dir: seq<Entry>, p: nat)
    requires Directory(dir) && p <= |dir|
    ensures Position(dir, if p == 0 then 0 else dir[p - 1].off) == p
  {
    if p < |dir| {
      var front := dir[..|dir| - 1];
      forall i, j {:trigger Differ(front, i, j)} | 0 <= i < j < |front|
        ensures Differ(front, i, j)
      {
        assert Differ(dir, i, j);
      }
      assert p > 0 ==> Differ(dir, p - 1, |dir| - 1);
      PositionAt(front, p);
    }
  }

  // A piece of the encoded entries behind off, no more than was asked for.
  function Reply(dir: seq<Entry>, off: nat, size: nat, max: nat): (b: seq<Byte>)
    ensures |b| <= size
  {
    var all := EncodeAll(dir[Position(dir, off)..]);
    all[..Min(|all|, Min(size, max))]
  }

  function Cookie(dir: seq<Entry>, p: nat): nat
    requires p <= |dir|
  {
    if p == 0 then 0 else dir[p - 1].off
  }

  // Replies and encodings are spoken of through predicates like this one, so that
  // a proof unfolds them only where it names one.
  ghost predicate IsReply(dir: seq<Entry>, p: nat, resid: nat, iosize: nat, max: nat, b: seq<Byte>)
    requires p <= |dir|
  {
    b == Reply(dir, Cookie(dir, p), Min(resid, iosize), max)
  }

  // The request behind entry p, with room for resid bytes, gets a reply of m bytes.
  ghost predicate HasSize(dir: seq<Entry>, p: nat, resid: nat, iosize: nat, max: nat, m: nat)
    requires p <= |dir|
  {
    forall b {:trigger IsReply(dir, p, resid, iosize, max, b)} | IsReply(dir, p, resid, iosize, max, b) :: |b| == m
  }

  // The reply to the request behind entry p, with room for resid bytes, is delivered
  // up to entry last, which leaves room for left bytes. It ends there because that
  // was all, or the next entry does not fit, or the reply holds no more complete
  // record; and more is whether it is the one behind some others that is cut off.
  ghost predicate Stops(dir: seq<Entry>, p: nat, last: nat, max: nat, iosize: nat, resid: nat, left: nat, more: bool) {
    p <= last <= |dir|
    && forall m: nat {:trigger HasSize(dir, p, resid, iosize, max, m)} | HasSize(dir, p, resid, iosize, max, m) ::
         && resid == left + Room(dir[p..last])
         && (last < |dir| ==> EndsAt(dir[last], m - |EncodeAll(dir[p..last])|, left))
         && (more <==> p < last < |dir| && IsCut(dir[last], m - |EncodeAll(dir[p..last])|))
  }

  // A request that was answered: it was sent behind entry p, and left is the room
  // that remained after its reply was delivered.
  datatype Request = Request(p: nat, left: nat)

  // The i-th request: its reply was delivered up to where the next request was
  // sent, or to last, and stops there. There is a next one only if it said so.
  ghost predicate Answered(dir: seq<Entry>, answers: nat -> Answer, iosize: nat, resid: nat, asked: seq<Request>,
                           last: nat, more: bool, i: nat)
    requires i < |asked|
  {
    var p, next := asked[i].p, if i + 1 < |asked| then asked[i + 1].p else last;
    var room := if i == 0 then resid else asked[i - 1].left;
    && answers(i).Data? && room > 0
    && Stops(dir, p, next, answers(i).max, iosize, room, asked[i].left, i + 1 < |asked| || more)
  }

  // The requests of a call that starts behind entry start with room for resid
  // bytes, and ends at entry last with room for left; more is what the last reply
  // said.
  ghost predicate Traced(dir: seq<Entry>, answers: nat -> Answer, iosize: nat, start: nat, resid: nat,
                         asked: seq<Request>, last: nat, left: nat, more: bool)
  {
    && (if asked == [] then last == start && left == resid && more
        else asked[0].p == start && asked[|asked| - 1].left == left)
    && forall i: nat {:trigger Answered(dir, answers, iosize, resid, asked, last, more, i)} | i < |asked| ::
         Answered(dir, answers, iosize, resid, asked, last, more, i)
  }

  lemma TraceMore(dir: seq<Entry>, answers: nat -> Answer, iosize: nat, start: nat, resid: nat, asked: seq<Request>,
                  last: nat, left: nat, last': nat, left': nat, more': bool)
    requires Traced(dir, answers, iosize, start, resid, asked, last, left, true) && answers(|asked|).Data? && left > 0
    requires Stops(dir, last, last', answers(|asked|).max, iosize, left, left', more')
    ensures Traced(dir, answers, iosize, start, resid, asked + [Request(last, left')], last', left', more')
  {
    var asked' := asked + [Request(last, left')];
    forall i: nat {:trigger Answered(dir, answers, iosize, resid, asked', last', more', i)} | i < |asked'|
      ensures Answered(dir, answers, iosize, resid, asked', last', more', i)
    {
      if i < |asked| { assert Answered(dir, answers, iosize, resid, asked, last, true, i); }
    }
  }

  // fuse_internal_readdir: i-th request answered as answers(i) says. The caller
  // gets a contiguous run of entries from where its offset stood, none skipped and
  // none repeated, and the offset is left at the last of them. As long as there is
  // room and the replies say so, it goes on; so it ends with the error of the next
  // request, with no room left, or with a reply that says stop.
  method ReadDirectory(veil: Veil, dir: seq<Entry>, answers: nat -> Answer, iosize: nat, uio: Uio, iov: Iov)
    returns (err: int, last: nat, ghost asked: seq<Request>, ghost more: bool)
    requires Directory(dir) && iov.Clean()
    requires uio.offset == 0 || exists i :: 0 <= i < |dir| && uio.offset == dir[i].off
    modifies uio, iov, iov.base
    ensures iov.Clean()
    ensures Position(dir, old(uio.offset)) <= last <= |dir|
    ensures uio.View() == Deliver(CookWith(veil), old(uio.View()), dir[Position(dir, old(uio.offset))..last])
    ensures Traced(dir, answers, iosize, Position(dir, old(uio.offset)), old(uio.resid), asked, last, uio.resid, more)
    ensures err == 0 <==> !more || uio.resid == 0
    ensures err != 0 ==> answers(|asked|) == Fails(err)
  {
    StartIsCookie(dir, uio.offset);
    ghost var start := Position(dir, uio.offset);
    assert dir[start..start] == [];
    err, last, asked, more := RequestLoop(veil, dir, answers, iosize, uio, iov, start, uio.View(), CookWith(veil));
  }

  method RequestLoop(veil: Veil, dir: seq<Entry>, answers: nat -> Answer, iosize: nat, uio: Uio, iov: Iov,
                     ghost start: nat, ghost c: Caller, ghost cook: Cook)
    returns (err: int, last: nat, ghost asked: seq<Request>, ghost more: bool)
    requires Directory(dir) && iov.Clean() && cook == CookWith(veil)
    requires start <= |dir| && IsCookie(dir, uio.offset, start)
             && uio.View() == c == Deliver(cook, c, dir[start..start])
    modifies uio, iov, iov.base
    ensures iov.Clean() && start <= last <= |dir| && uio.View() == Deliver(cook, c, dir[start..last])
    ensures Traced(dir, answers, iosize, start, old(uio.resid), asked, last, uio.resid, more)
    ensures err == 0 <==> !more || uio.resid == 0
    ensures err != 0 ==> answers(|asked|) == Fails(err)
  {
    PositionIs(dir, uio.offset, start);
    last, asked, more := Position(dir, uio.offset), [], true;
    var i := 0;
    while uio.resid > 0
      invariant iov.Clean() && start <= last <= |dir| && i == |asked|
      invariant uio.View() == Deliver(cook, c, dir[start..last])
      invariant IsCookie(dir, uio.offset, last)
      invariant more && Traced(dir, answers, iosize, start, old(uio.resid), asked, last, uio.resid, true)
      decreases uio.resid
    {
      if answers(i).Fails? {
        return answers(i).errno, last, asked, true;
      }
      var goOn;
      goOn, last, asked := NextRequest(veil, dir, answers, iosize, uio, iov, start, c, cook, old(uio.resid), i, last,
                                       asked);
      if !goOn {
        return 0, last, asked, false;
      }
      i := i + 1;
    }
    err := 0;
  }

  // The i-th request adds to what was delivered and to the trace.
  method NextRequest(veil: Veil, dir: seq<Entry>, answers: nat -> Answer, iosize: nat, uio: Uio, iov: Iov,
                     ghost start: nat, ghost c: Caller, ghost cook: Cook, ghost resid: nat, i: nat, last: nat,
                     ghost asked: seq<Request>)
    returns (more: bool, last': nat, ghost asked': seq<Request>)
    requires Directory(dir) && iov.Clean() && cook == CookWith(veil) && start <= last <= |dir|
    requires i == |asked| && answers(i).Data? && IsCookie(dir, uio.offset, last)
    requires uio.View() == Deliver(cook, c, dir[start..last])
    requires uio.resid > 0 && Traced(dir, answers, iosize, start, resid, asked, last, uio.resid, true)
    modifies uio, iov, iov.base
    ensures iov.Clean() && last <= last' <= |dir| && IsCookie(dir, uio.offset, last')
    ensures uio.View() == Deliver(cook, c, dir[start..last'])
    ensures Traced(dir, answers, iosize, start, resid, asked', last', uio.resid, more) && |asked'| == i + 1
    ensures more ==> uio.resid < old(uio.resid)
  {
    ghost var left := uio.resid;
    var done;
    more, done := OneRequest(veil, dir, last, answers(i).max, iosize, uio, iov, cook);
    last', asked' := last + |done|, asked + [Request(last, uio.resid)];
    assert uio.View() == Deliver(cook, c, dir[start..last']) by { DeliverRun(cook, c, dir, start, last, done); }
    TraceMore(dir, answers, iosize, start, resid, asked, last, left, last', uio.resid, more);
  }

  // One request, its reply, and what the caller gets of it.
  method OneRequest(veil: Veil, dir: seq<Entry>, last: nat, max: nat, iosize: nat, uio: Uio, iov: Iov, ghost cook: Cook)
    returns (more: bool, done: seq<Entry>)
    requires cook == CookWith(veil) && Directory(dir) && iov.Clean() && last <= |dir| && IsCookie(dir, uio.offset, last)
    modifies uio, iov, iov.base
    ensures iov.Clean() && last + |done| <= |dir| && done == dir[last..last + |done|]
            && IsCookie(dir, uio.offset, last + |done|)
    ensures uio.View() == Deliver(cook, old(uio.View()), done)
    ensures Stops(dir, last, last + |done|, max, iosize, old(uio.resid), uio.resid, more)
    ensures more ==> uio.resid < old(uio.resid)
  {
    ghost var c, resid := uio.View(), uio.resid;
    var reply := Ask(dir, uio.offset, last, uio.resid, iosize, max);
    more, done := TakeReply(veil, dir, last, reply, uio, iov, cook);
    Advanced(veil, cook, c, dir, last, done);
    assert uio.resid + Room(dir[last..last + |done|]) == resid;
    assert last + |done| - last == |done|;
    StopsHere(dir, last, last + |done|, max, iosize, uio.resid, resid, |reply|, more);
  }

  lemma Advanced(veil: Veil, cook: Cook, c: Caller, dir: seq<Entry>, last: nat, done: seq<Entry>)
    requires cook == CookWith(veil)
    requires last + |done| <= |dir| && done == dir[last..last + |done|] && IsCookie(dir, c.offset, last)
    ensures IsCookie(dir, Deliver(cook, c, done).offset, last + |done|)
    ensures Deliver(cook, c, done).resid == c.resid - Room(dir[last..last + |done|])
    ensures done != [] ==> Deliver(cook, c, done).resid < c.resid
  {
    CookWithSize(veil);
    DeliverIs(cook, c, done);
  }

  ghost predicate IsFit(dir: seq<Entry>, p: nat, m: nat, resid: nat, k: nat)
    requires p <= |dir|
  {
    k == Fits(dir[p..], m, resid)
  }

  // Of the m bytes of a reply exactly k entries are complete and fit, and it goes on
  // or not.
  ghost predicate FitExactly(dir: seq<Entry>, p: nat, m: nat, resid: nat, k: nat, more: bool)
    requires p <= |dir|
  {
    forall k': nat {:trigger IsFit(dir, p, m, resid, k')} | IsFit(dir, p, m, resid, k') ::
      k' == k && more == GoesOn(dir[p..], m, resid, true)
  }

  lemma StopsHere(dir: seq<Entry>, p: nat, last: nat, max: nat, iosize: nat, left: nat, resid: nat, size: nat,
                  more: bool)
    requires AllOk(dir) && p <= last <= |dir| && resid == left + Room(dir[p..last])
    requires HasSize(dir, p, resid, iosize, max, size) && FitExactly(dir, p, size, resid, last - p, more)
    ensures Stops(dir, p, last, max, iosize, resid, left, more)
  {
    assert IsFit(dir, p, size, resid, Fits(dir[p..], size, resid));
    Behind(dir, p, last, size, resid);
    StopsThere(dir, p, last, max, iosize, left, resid, size, more);
  }

  lemma StopsThere(dir: seq<Entry>, p: nat, last: nat, max: nat, iosize: nat, left: nat, resid: nat, size: nat,
                   more: bool)
    requires p <= last <= |dir| && resid == left + Room(dir[p..last]) && HasSize(dir, p, resid, iosize, max, size)
    requires last < |dir| ==> EndsAt(dir[last], size - |EncodeAll(dir[p..last])|, left)
    requires more <==> p < last < |dir| && IsCut(dir[last], size - |EncodeAll(dir[p..last])|)
    ensures Stops(dir, p, last, max, iosize, resid, left, more)
  {
    forall m: nat {:trigger HasSize(dir, p, resid, iosize, max, m)} | HasSize(dir, p, resid, iosize, max, m)
      ensures m == size
    {
      SameSize(dir, p, resid, iosize, max, m, size);
    }
  }

  lemma SameSize(dir: seq<Entry>, p: nat, resid: nat, iosize: nat, max: nat, m: nat, size: nat)
    requires p <= |dir| && HasSize(dir, p, resid, iosize, max, m) && HasSize(dir, p, resid, iosize, max, size)
    ensures m == size
  {
    assert IsReply(dir, p, resid, iosize, max, Reply(dir, Cookie(dir, p), Min(resid, iosize), max));
  }

  lemma Behind(dir: seq<Entry>, p: nat, last: nat, m: nat, resid: nat)
    requires AllOk(dir) && p <= last <= |dir| && last == p + Fits(dir[p..], m, resid)
    ensures last < |dir| ==> EndsAt(dir[last], m - |EncodeAll(dir[p..last])|, resid - Room(dir[p..last]))
    ensures GoesOn(dir[p..], m, resid, true) <==> p < last < |dir| && IsCut(dir[last], m - |EncodeAll(dir[p..last])|)
  {
    FitsMaximal(dir[p..], m, resid);
    GoesOnIs(dir[p..], m, resid, true);
    assert dir[p..][..last - p] == dir[p..last];
  }

  // No further entry is complete in the m bytes and fits.
  lemma {:induction false} FitsMaximal(es: seq<Entry>, m: int, resid: int)
    requires AllOk(es)
    ensures var k := Fits(es, m, resid);
            k < |es| ==> EndsAt(es[k], m - |EncodeAll(es[..k])|, resid - Room(es[..k]))
    decreases es
  {
    FitsMore(es, m, resid);
    if es != [] && !EndsAt(es[0], m, resid) {
      var size, room := RecordSize(|es[0].name|), DirSize(|es[0].name|);
      FitsMaximal(es[1..], m - size, resid - room);
      EncodedSize(es[0]);
      var k := Fits(es[1..], m - size, resid - room);
      if k + 1 < |es| { PrefixParts(es, k); }
    }
  }

  // What goes on, told from where the entries that fit end.
  lemma {:induction false} GoesOnIs(es: seq<Entry>, m: int, resid: int, first: bool)
    requires AllOk(es)
    ensures var k := Fits(es, m, resid);
            GoesOn(es, m, resid, first) <==>
              (k > 0 || !first) && k < |es| && IsCut(es[k], m - |EncodeAll(es[..k])|)
    decreases es
  {
    FitsMore(es, m, resid);
    if es != [] {
      FitsNext(es, m, resid);
      if !EndsAt(es[0], m, resid) {
        var size, room := RecordSize(|es[0].name|), DirSize(|es[0].name|);
        GoesOnIs(es[1..], m - size, resid - room, false);
        EncodedSize(es[0]);
        var k := Fits(es[1..], m - size, resid - room);
        if k + 1 < |es| { PrefixParts(es, k); }
      }
    }
  }

  lemma FitsMore(es: seq<Entry>, m: int, resid: int)
    ensures es != [] && EndsAt(es[0], m, resid) ==> Fits(es, m, resid) == 0
    ensures es != [] && !EndsAt(es[0], m, resid) ==>
              Fits(es, m, resid) == 1 + Fits(es[1..], m - RecordSize(|es[0].name|), resid - DirSize(|es[0].name|))
    ensures EncodeAll(es[..0]) == [] && Room(es[..0]) == 0
  {
  }

  lemma PrefixParts(es: seq<Entry>, k: nat)
    requires k < |es|
    ensures |EncodeAll(es[..1 + k])| == |Encode(es[0])| + |EncodeAll(es[1..][..k])|
    ensures Room(es[..1 + k]) == DirSize(|es[0].name|) + Room(es[1..][..k])
  {
    PrefixCons(es, k);
    assert es[..1 + k][1..] == es[1..][..k];
  }

  method TakeReply(veil: Veil, ghost dir: seq<Entry>, ghost last: nat, reply: seq<Byte>, uio: Uio, iov: Iov,
                   ghost cook: Cook)
    returns (more: bool, done: seq<Entry>)
    requires cook == CookWith(veil) && iov.Clean() && AllOk(dir) && last <= |dir| && IsPiece(reply, dir[last..])
    modifies uio, iov, iov.base
    ensures iov.Clean() && uio.View() == Deliver(cook, old(uio.View()), done)
    ensures last + |done| <= |dir| && done == dir[last..last + |done|] && (more ==> done != [])
    ensures FitExactly(dir, last, |reply|, old(uio.resid), |done|, more)
  {
    ReplyYields(dir, last, reply, uio.resid);
    var verdict;
    verdict, done := ProcessData(veil, reply, uio, iov);
    more := verdict == More;
  }

  // The beginning of the encoded entries.
  ghost predicate IsPiece(reply: seq<Byte>, es: seq<Entry>) {
    forall all {:trigger IsEncoding(es, all)} | IsEncoding(es, all) :: reply <= all
  }

  ghost predicate IsEncoding(es: seq<Entry>, all: seq<Byte>) { all == EncodeAll(es) }

  // A READDIR request and its reply.
  method Ask(dir: seq<Entry>, off: nat, ghost p: nat, resid: nat, iosize: nat, max: nat) returns (reply: seq<Byte>)
    requires Directory(dir) && p <= |dir| && IsCookie(dir, off, p)
    ensures IsPiece(reply, dir[p..]) && HasSize(dir, p, resid, iosize, max, |reply|)
  {
    PositionIs(dir, off, p);
    reply := Reply(dir, off, Min(resid, iosize), max);
    assert IsReply(dir, p, resid, iosize, max, reply);
  }

  lemma DeliverRun(cook: Cook, c: Caller, dir: seq<Entry>, i: nat, j: nat, done: seq<Entry>)
    requires i <= j <= j + |done| <= |dir| && done == dir[j..j + |done|]
    ensures Deliver(cook, Deliver(cook, c, dir[i..j]), done) == Deliver(cook, c, dir[i..j + |done|])
  {
    Slices(dir, i, j, done);
    DeliverMore(cook, c, dir[i..j], done);
  }

  lemma Slices(dir: seq<Entry>, i: nat, j: nat, done: seq<Entry>)
    requires i <= j <= j + |done| <= |dir| && done == dir[j..j + |done|]
    ensures dir[i..j] + done == dir[i..j + |done|]
  {
  }

  ghost predicate IsCookie(dir: seq<Entry>, off: nat, p: nat)
    requires p <= |dir|
  {
    off == Cookie(dir, p)
  }

  lemma StartIsCookie(dir: seq<Entry>, off: nat)
    requires Directory(dir) && (off == 0 || exists i :: 0 <= i < |dir| && off == dir[i].off)
    ensures IsCookie(dir, off, Position(dir, off))
  {
    if off == 0 {
      PositionAt(dir, 0);
    } else {
      var i :| 0 <= i < |dir| && off == dir[i].off;
      PositionAt(dir, i + 1);
    }
  }

  lemma PositionIs(dir: seq<Entry>, off: nat, p: nat)
    requires Directory(dir) && p <= |dir| && IsCookie(dir, off, p)
    ensures Position(dir, off) == p
  {
    PositionAt(dir, p);
  }

  lemma ReplyYields(dir: seq<Entry>, p: nat, reply: seq<Byte>, resid: nat)
    requires AllOk(dir) && p <= |dir| && IsPiece(reply, dir[p..])
    ensures forall o {:trigger IsOutcome(reply, resid, true, o)} | IsOutcome(reply, resid, true, o) ::
              && p + |o.entries| <= |dir| && o.entries == dir[p..p + |o.entries|]
              && |o.entries| == Fits(dir[p..], |reply|, resid) && Room(o.entries) <= resid
              && o.verdict == (if GoesOn(dir[p..], |reply|, resid, true) then More else Stop)
              && (o.verdict == More ==> o.entries != [])
  {
    assert IsEncoding(dir[p..], EncodeAll(dir[p..]));
    assert reply == EncodeAll(dir[p..])[..|reply|];
    ProcessPrefix(dir[p..], |reply|, resid, true);
    ProcessIsSafe(reply, resid, true);
  }
}
