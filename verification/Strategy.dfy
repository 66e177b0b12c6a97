/** Block I/O in chunks: a buffer is read or written by as many READ or WRITE
    requests as it takes, and the result is that of one whole transfer. */
module Strategy {
  import opened Common

  const EINVAL := 22

  // How the daemon takes a request: an error, or at most so many bytes of it.
  datatype Answer = Fails(errno: Errno) | Takes(n: nat)

  // ------------------------------------------------ reading

  // The bytes of the file from offset on.
  function From(file: seq<Byte>, offset: nat): seq<Byte> { if offset <= |file| then file[offset..] else [] }

  // The reply to a READ of size bytes: at most what was asked for and is there.
  function ReadReply(file: seq<Byte>, offset: nat, size: nat, n: nat): (r: seq<Byte>)
    ensures |r| <= size && |r| <= |From(file, offset)|
  {
    From(file, offset)[..Min(Min(size, n), |From(file, offset)|)]
  }

  // A buffer of count bytes holding the first got bytes behind offset, then zeros.
  ghost predicate Filled(buf: seq<Byte>, file: seq<Byte>, offset: nat, got: nat) {
    && got <= |buf| && got <= |From(file, offset)|
    && buf == From(file, offset)[..got] + Zeros(|buf| - got)
  }

  // What is behind offset + |a| comes after a in what is behind offset.
  lemma FromLater(file: seq<Byte>, offset: nat, k: nat)
    requires k <= |From(file, offset)|
    ensures From(file, offset + k) == From(file, offset)[k..]
  {
  }

  // How many of total bytes the first i READs bring in, if none fails: each asks for
  // what is missing, but at most iosize bytes, and avail is all that the file has.
  function Arrived(avail: nat, total: nat, iosize: nat, answers: nat -> Answer, i: nat): (g: nat)
    ensures g <= total && g <= avail
  {
    if i == 0 then 0
    else
      var g := Arrived(avail, total, iosize, answers, i - 1);
      if answers(i - 1).Fails? then g else g + Min(Min(Min(total - g, iosize), answers(i - 1).n), avail - g)
  }

  // The daemon sends nothing only when there is nothing more.
  ghost predicate NeverEmpty(answers: nat -> Answer) { forall i :: answers(i).Takes? ==> answers(i).n > 0 }

  // The read half of fuse_internal_strategy. The loop runs on the count before it
  // was trimmed to the file size; the i-th request is answered as answers(i) says.
  method ReadBlock(file: seq<Byte>, filesize: nat, offset0: nat, iosize: nat, answers: nat -> Answer, buf: array<Byte>)
    returns (err: int, resid: nat, got: nat, sent: nat)
    requires iosize > 0
    modifies buf
    ensures buf.Length == 0 ==> err == 0 && resid == 0 && sent == 0
    ensures buf.Length > 0 && offset0 >= filesize ==>
              && buf[..] == old(buf[..]) && resid == buf.Length && err == (if offset0 > filesize then EINVAL else 0)
              && sent == 0
    ensures buf.Length > 0 && offset0 < filesize ==>
              Done(file, offset0, iosize, answers, buf[..], err, resid, got, sent)
  {
    err, resid, got, sent := 0, buf.Length, 0, 0;
    if buf.Length == 0 {
      return;
    }
    if offset0 >= filesize {
      if offset0 != filesize {
        err := EINVAL;
      }
      return;
    }
    err, resid, got, sent := ReadLoop(file, offset0, iosize, answers, buf);
  }

  // How a transfer ends: with the error of one of the READs, the first got bytes
  // in place and the rest not read; or with the whole buffer filled. In that case
  // all the file has is there, unless the daemon sent an empty reply early.
  ghost predicate Transferred(file: seq<Byte>, offset: nat, answers: nat -> Answer, buf: seq<Byte>, err: int,
                              resid: nat, got: nat) {
    && got <= |buf| && got <= |From(file, offset)| && buf[..got] == From(file, offset)[..got]
    && (err != 0 ==> resid == |buf| - got > 0 && exists i :: answers(i).Fails? && answers(i).errno == err)
    && (err == 0 ==> resid == 0 && Filled(buf, file, offset, got))
    && (err == 0 && NeverEmpty(answers) ==> got == Min(|buf|, |From(file, offset)|))
  }

  // The i-th READ is answered, and not with nothing.
  predicate Brings(avail: nat, total: nat, iosize: nat, answers: nat -> Answer, i: nat) {
    answers(i).Takes? && Arrived(avail, total, iosize, answers, i) < Arrived(avail, total, iosize, answers, i + 1)
  }

  ghost predicate AllBring(avail: nat, total: nat, iosize: nat, answers: nat -> Answer, k: nat) {
    forall i: nat {:trigger Brings(avail, total, iosize, answers, i)} | i < k ::
      Brings(avail, total, iosize, answers, i)
  }

  // The READs that were sent: as long as bytes are missing and the last READ brought
  // some. It ends with an error exactly if the last READ failed; otherwise all is
  // there, or the last reply was empty.
  ghost predicate Sent(avail: nat, total: nat, iosize: nat, answers: nat -> Answer, err: int, got: nat, sent: nat) {
    && got == Arrived(avail, total, iosize, answers, sent)
    && if sent == 0 then err == 0 && total == 0
       else
         var before := Arrived(avail, total, iosize, answers, sent - 1);
         && AllBring(avail, total, iosize, answers, sent - 1) && before < total
         && if err != 0 then answers(sent - 1) == Fails(err)
            else answers(sent - 1).Takes? && (got == total || got == before)
  }

  lemma NextArrived(avail: nat, total: nat, iosize: nat, answers: nat -> Answer, i: nat)
    ensures var g, a := Arrived(avail, total, iosize, answers, i), answers(i);
            Arrived(avail, total, iosize, answers, i + 1) ==
            if a.Fails? then g else g + Min(Min(Min(total - g, iosize), a.n), avail - g)
  {
  }

  lemma SentAll(avail: nat, total: nat, iosize: nat, answers: nat -> Answer, i: nat)
    requires AllBring(avail, total, iosize, answers, i) && Arrived(avail, total, iosize, answers, i) == total
    ensures Sent(avail, total, iosize, answers, 0, total, i)
  {
    if i > 0 { assert Brings(avail, total, iosize, answers, i - 1); }
  }

  lemma SentLast(avail: nat, total: nat, iosize: nat, answers: nat -> Answer, i: nat)
    requires AllBring(avail, total, iosize, answers, i) && Arrived(avail, total, iosize, answers, i) < total
    ensures var g, g' := Arrived(avail, total, iosize, answers, i), Arrived(avail, total, iosize, answers, i + 1);
            && (answers(i).Fails? ==> Sent(avail, total, iosize, answers, answers(i).errno, g, i + 1))
            && (answers(i).Takes? && g' == g ==> Sent(avail, total, iosize, answers, 0, g, i + 1))
            && (answers(i).Takes? && g' > g ==> AllBring(avail, total, iosize, answers, i + 1))
  {
    NextArrived(avail, total, iosize, answers, i);
  }

  // So far: got bytes are in place, and sent READs brought them.
  ghost predicate Going(file: seq<Byte>, offset: nat, iosize: nat, answers: nat -> Answer, buf: seq<Byte>, resid: nat,
                        got: nat, sent: nat) {
    var src := From(file, offset);
    && got + resid == |buf| && got <= |src| && buf[..got] == src[..got]
    && got == Arrived(|src|, |buf|, iosize, answers, sent) && AllBring(|src|, |buf|, iosize, answers, sent)
  }

  ghost predicate Done(file: seq<Byte>, offset: nat, iosize: nat, answers: nat -> Answer, buf: seq<Byte>, err: int,
                       resid: nat, got: nat, sent: nat) {
    && Transferred(file, offset, answers, buf, err, resid, got)
    && Sent(|From(file, offset)|, |buf|, iosize, answers, err, got, sent)
  }

  method ReadLoop(file: seq<Byte>, offset0: nat, iosize: nat, answers: nat -> Answer, buf: array<Byte>)
    returns (err: int, resid: nat, got: nat, sent: nat)
    requires iosize > 0
    modifies buf
    ensures Done(file, offset0, iosize, answers, buf[..], err, resid, got, sent)
  {
    err, resid, got, sent := 0, buf.Length, 0, 0;
    while resid > 0
      invariant err == 0 && Going(file, offset0, iosize, answers, buf[..], resid, got, sent)
      decreases resid
    {
      var n;
      n, err := ReadChunk(file, offset0, iosize, answers, buf, resid, got, sent);
      got, resid, sent := got + n, if n == 0 && err == 0 then 0 else resid - n, sent + 1;
      if n == 0 {
        return;
      }
    }
    EndsComplete(file, offset0, iosize, answers, buf[..], got, sent);
  }

  // The next READ: it fails, or brings n bytes more; if it brings none, the rest of
  // the buffer is cleared.
  method ReadChunk(file: seq<Byte>, offset0: nat, iosize: nat, answers: nat -> Answer, buf: array<Byte>, resid: nat,
                   got: nat, sent: nat) returns (n: nat, err: int)
    requires iosize > 0 && resid > 0 && Going(file, offset0, iosize, answers, buf[..], resid, got, sent)
    modifies buf
    ensures n <= resid && (n > 0 ==> err == 0)
    ensures n > 0 ==> Going(file, offset0, iosize, answers, buf[..], resid - n, got + n, sent + 1)
    ensures n == 0 ==>
              Done(file, offset0, iosize, answers, buf[..], err, if err == 0 then 0 else resid, got, sent + 1)
  {
    if answers(sent).Fails? {
      EndsFailed(file, offset0, iosize, answers, buf[..], resid, got, sent);
      return 0, answers(sent).errno;
    }
    err := 0;
    n := TakeReply(file, offset0, iosize, answers, buf, resid, got, sent);
    if n == 0 {
      ZeroRest(file, offset0, answers, buf, got, sent);
    }
  }

  lemma EndsFailed(file: seq<Byte>, offset: nat, iosize: nat, answers: nat -> Answer, buf: seq<Byte>, resid: nat,
                   got: nat, sent: nat)
    requires Going(file, offset, iosize, answers, buf, resid, got, sent) && resid > 0 && answers(sent).Fails?
    ensures Transferred(file, offset, answers, buf, answers(sent).errno, resid, got)
    ensures Sent(|From(file, offset)|, |buf|, iosize, answers, answers(sent).errno, got, sent + 1)
  {
    SentLast(|From(file, offset)|, |buf|, iosize, answers, sent);
  }

  lemma EndsComplete(file: seq<Byte>, offset: nat, iosize: nat, answers: nat -> Answer, buf: seq<Byte>, got: nat,
                     sent: nat)
    requires Going(file, offset, iosize, answers, buf, 0, got, sent)
    ensures Transferred(file, offset, answers, buf, 0, 0, got)
    ensures Sent(|From(file, offset)|, |buf|, iosize, answers, 0, got, sent)
  {
    ZeroFilled(buf, From(file, offset), got);
    SentAll(|From(file, offset)|, |buf|, iosize, answers, sent);
  }

  // The next READ, which does not fail: it brings n bytes more.
  method TakeReply(file: seq<Byte>, offset0: nat, iosize: nat, answers: nat -> Answer, buf: array<Byte>, resid: nat,
                   got: nat, sent: nat) returns (n: nat)
    requires iosize > 0 && resid > 0 && answers(sent).Takes?
    requires Going(file, offset0, iosize, answers, buf[..], resid, got, sent)
    modifies buf
    ensures n <= resid
    ensures n > 0 ==> Going(file, offset0, iosize, answers, buf[..], resid - n, got + n, sent + 1)
    ensures n == 0 ==>
              && Going(file, offset0, iosize, answers, buf[..], resid, got, sent)
              && Sent(|From(file, offset0)|, buf.Length, iosize, answers, 0, got, sent + 1)
              && (answers(sent).n > 0 ==> got == |From(file, offset0)|)
  {
    n := TakeIn(file, offset0, got, Min(resid, iosize), answers(sent).n, buf);
    NextArrived(|From(file, offset0)|, buf.Length, iosize, answers, sent);
    SentLast(|From(file, offset0)|, buf.Length, iosize, answers, sent);
  }

  method ZeroRest(file: seq<Byte>, offset: nat, answers: nat -> Answer, buf: array<Byte>, got: nat, ghost i: nat)
    requires got <= buf.Length && got <= |From(file, offset)| && buf[..got] == From(file, offset)[..got]
    requires answers(i).Takes? && (answers(i).n > 0 ==> got == |From(file, offset)|)
    modifies buf
    ensures Transferred(file, offset, answers, buf[..], 0, 0, got)
  {
    CopyIn(buf, got, Zeros(buf.Length - got));
    assert buf[..][got..] == buf[got..buf.Length];
    AllThere(file, offset, answers, buf[..], got, i);
  }

  // The i-th reply was empty: the file ends here, or the daemon sent less than it has.
  lemma AllThere(file: seq<Byte>, offset: nat, answers: nat -> Answer, b: seq<Byte>, got: nat, i: nat)
    requires got <= |b| && got <= |From(file, offset)| && b[..got] == From(file, offset)[..got]
    requires b[got..] == Zeros(|b| - got) && answers(i).Takes? && (answers(i).n > 0 ==> got == |From(file, offset)|)
    ensures Transferred(file, offset, answers, b, 0, 0, got)
  {
    ZeroFilled(b, From(file, offset), got);
  }

  lemma Extend(b: seq<Byte>, src: seq<Byte>, got: nat, reply: seq<Byte>)
    requires got + |reply| <= |b| && got + |reply| <= |src| && b[..got] == src[..got]
    requires b[got..got + |reply|] == reply == src[got..got + |reply|]
    ensures b[..got + |reply|] == src[..got + |reply|]
  {
    assert b[..got + |reply|] == b[..got] + b[got..got + |reply|];
  }

  lemma ZeroFilled(b: seq<Byte>, src: seq<Byte>, got: nat)
    requires got <= |b| && got <= |src| && b[..got] == src[..got] && b[got..] == Zeros(|b| - got)
    ensures b == src[..got] + Zeros(|b| - got)
  {
    assert b == b[..got] + b[got..];
  }

  // A READ behind the got bytes that are in place adds n more.
  method TakeIn(file: seq<Byte>, offset0: nat, got: nat, chunksize: nat, max: nat, buf: array<Byte>) returns (n: nat)
    requires got + chunksize <= buf.Length && got <= |From(file, offset0)| && buf[..got] == From(file, offset0)[..got]
    modifies buf
    ensures n == Min(Min(chunksize, max), |From(file, offset0)| - got)
    ensures buf[..got + n] == From(file, offset0)[..got + n]
  {
    ghost var src := From(file, offset0);
    FromLater(file, offset0, got);
    var reply := ReadReply(file, offset0 + got, chunksize, max);
    CopyIn(buf, got, reply);
    Extend(buf[..], src, got, reply);
    n := |reply|;
  }

  method CopyIn(buf: array<Byte>, at: nat, b: seq<Byte>)
    requires at + |b| <= buf.Length
    modifies buf
    ensures buf[..at] == old(buf[..at]) && buf[at..at + |b|] == b && buf[at + |b|..] == old(buf[at + |b|..])
  {
    var i := 0;
    while i < |b|
      invariant 0 <= i <= |b|
      invariant forall j | 0 <= j < i :: buf[at + j] == b[j]
      invariant forall j | 0 <= j < buf.Length && !(at <= j < at + i) :: buf[j] == old(buf[j])
    {
      buf[at + i] := b[i];
      i := i + 1;
    }
  }

  // ------------------------------------------------ writing

  // One byte stored; a gap before it reads as zeros.
  function Poke(file: seq<Byte>, offset: nat, b: Byte): seq<Byte> {
    if offset < |file| then file[offset := b] else file + Zeros(offset - |file|) + [b]
  }

  // The file with data stored at offset.
  function Overwrite(file: seq<Byte>, offset: nat, data: seq<Byte>): seq<Byte>
    decreases |data|
  {
    if data == [] then file else Overwrite(Poke(file, offset, data[0]), offset + 1, data[1..])
  }

  // That is: the data at its place, and all else as it was, or zero in a gap.
  lemma {:induction false} OverwriteIs(file: seq<Byte>, offset: nat, data: seq<Byte>)
    requires data != []
    ensures |Overwrite(file, offset, data)| == if |file| > offset + |data| then |file| else offset + |data|
    ensures forall i | 0 <= i < |Overwrite(file, offset, data)| ::
              Overwrite(file, offset, data)[i] ==
                if offset <= i < offset + |data| then data[i - offset] else if i < |file| then file[i] else 0
    decreases |data|
  {
    if |data| > 1 {
      OverwriteIs(Poke(file, offset, data[0]), offset + 1, data[1..]);
    } else {
      assert Overwrite(file, offset, data) == Poke(file, offset, data[0]);
    }
  }

  lemma {:induction false} OverwriteTwice(file: seq<Byte>, offset: nat, a: seq<Byte>, b: seq<Byte>)
    ensures Overwrite(Overwrite(file, offset, a), offset + |a|, b) == Overwrite(file, offset, a + b)
    decreases |a|
  {
    if a == [] {
      assert a + b == b;
    } else {
      OverwriteTwice(Poke(file, offset, a[0]), offset + 1, a[1..], b);
      assert (a + b)[0] == a[0] && (a + b)[1..] == a[1..] + b;
    }
  }

  lemma OverwriteNext(file: seq<Byte>, offset: nat, data: seq<Byte>, i: nat, j: nat)
    requires i <= j <= |data|
    ensures Overwrite(Overwrite(file, offset, data[..i]), offset + i, data[i..j]) == Overwrite(file, offset, data[..j])
  {
    OverwriteTwice(file, offset, data[..i], data[i..j]);
    assert data[..i] + data[i..j] == data[..j];
  }

  // How many of total bytes the first i WRITEs have acknowledged.
  function Acknowledged(total: nat, iosize: nat, acks: seq<Answer>, i: nat): (g: nat)
    requires i <= |acks|
    ensures g <= total
  {
    if i == 0 then 0
    else
      var g := Acknowledged(total, iosize, acks, i - 1);
      if acks[i - 1].Fails? then g else g + Min(acks[i - 1].n, Min(total - g, iosize))
  }

  // The i-th WRITE is sent because bytes are left, and it is answered.
  predicate Stores(total: nat, iosize: nat, acks: seq<Answer>, i: nat)
    requires i < |acks|
  {
    acks[i].Takes? && Acknowledged(total, iosize, acks, i) < total
  }

  ghost predicate AllStore(total: nat, iosize: nat, acks: seq<Answer>, k: nat)
    requires k <= |acks|
  {
    forall i: nat {:trigger Stores(total, iosize, acks, i)} | i < k :: Stores(total, iosize, acks, i)
  }

  lemma NextAcknowledged(total: nat, iosize: nat, acks: seq<Answer>, i: nat)
    requires i < |acks|
    ensures var g := Acknowledged(total, iosize, acks, i);
            Acknowledged(total, iosize, acks, i + 1) ==
            if acks[i].Fails? then g else g + Min(acks[i].n, Min(total - g, iosize))
  {
  }

  ghost predicate Positive(acks: seq<Answer>) { forall i | 0 <= i < |acks| :: acks[i].Takes? && acks[i].n > 0 }

  // So far: sent WRITEs have stored all but the last left bytes of data.
  ghost predicate Writing(file0: seq<Byte>, offset: nat, iosize: nat, acks: seq<Answer>, data: seq<Byte>,
                          file: seq<Byte>, left: nat, sent: nat) {
    && left <= |data| && file == Overwrite(file0, offset, data[..|data| - left])
    && sent <= |acks| && |data| - left == Acknowledged(|data|, iosize, acks, sent)
    && AllStore(|data|, iosize, acks, sent)
  }

  lemma WriteNext(file0: seq<Byte>, offset: nat, iosize: nat, acks: seq<Answer>, data: seq<Byte>, file: seq<Byte>,
                  left: nat, sent: nat, ack: nat)
    requires Writing(file0, offset, iosize, acks, data, file, left, sent) && left > 0 && sent < |acks|
    requires acks[sent].Takes? && ack == Min(acks[sent].n, Min(left, iosize))
    ensures var done := |data| - left;
            Writing(file0, offset, iosize, acks, data, Overwrite(file, offset + done, data[done..done + ack]),
                    left - ack, sent + 1)
  {
    NextAcknowledged(|data|, iosize, acks, sent);
    OverwriteNext(file0, offset, data, |data| - left, |data| - left + ack);
  }

  // With enough positive acknowledgements every byte is stored.
  lemma {:induction false} Progress(total: nat, iosize: nat, acks: seq<Answer>, i: nat)
    requires Positive(acks) && i <= |acks| && iosize > 0
    ensures Acknowledged(total, iosize, acks, i) >= Min(total, i)
  {
    if i > 0 {
      Progress(total, iosize, acks, i - 1);
      assert acks[i - 1].Takes?;
      NextAcknowledged(total, iosize, acks, i - 1);
    }
  }

  // The write half, for as long as the daemon answers: the i-th WRITE fails, or
  // acknowledges acks[i] bytes, or the chunk if that is less, and stores what it
  // acknowledges. With a zero the same chunk is sent again. A WRITE is sent as long
  // as bytes are left; it ends with an error exactly if the last WRITE failed.
  method WriteBlock(file0: seq<Byte>, offset0: nat, iosize: nat, acks: seq<Answer>, data: seq<Byte>)
    returns (err: int, file: seq<Byte>, left: nat, sent: nat)
    requires iosize > 0
    ensures err == 0 ==>
              Writing(file0, offset0, iosize, acks, data, file, left, sent) && (left == 0 || sent == |acks|)
    ensures err != 0 ==>
              && sent > 0 && Writing(file0, offset0, iosize, acks, data, file, left, sent - 1)
              && left > 0 && sent <= |acks| && acks[sent - 1] == Fails(err)
    ensures |acks| >= |data| && Positive(acks) ==> err == 0 && left == 0
  {
    err, file, left, sent := 0, file0, |data|, 0;
    var offset, bufdat := offset0, 0;
    while left > 0 && sent < |acks|
      invariant Writing(file0, offset0, iosize, acks, data, file, left, sent)
      invariant bufdat + left == |data| && offset == offset0 + bufdat
      decreases |acks| - sent
    {
      if acks[sent].Fails? {
        err, sent := acks[sent].errno, sent + 1;
        return;
      }
      var chunksize := Min(left, iosize);
      var ack := Min(acks[sent].n, chunksize);
      WriteNext(file0, offset0, iosize, acks, data, file, left, sent, ack);
      file := Overwrite(file, offset, data[bufdat..bufdat + ack]);
      left, bufdat, offset, sent := left - ack, bufdat + ack, offset + ack, sent + 1;
    }
    if |acks| >= |data| && Positive(acks) { Progress(|data|, iosize, acks, sent); }
  }
}
