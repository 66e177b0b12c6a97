/** Directory entries on the wire: the daemon's fuse_dirent (64-bit fields, padded
    to eight bytes) and the kernel's dirent (32-bit inode, padded to four). */
module Dirent {
  import opened Common

  const MAXNAMLEN := 255
  const NAME_OFFSET := 24    // offsetof(struct fuse_dirent, name)
  const DIRENT_HEADER := 8   // sizeof(struct dirent) - (MAXNAMLEN + 1)
  const SIZE_MODULUS := 0x1_0000_0000  // size_t has 32 bits
  const DT_WHT := 14

  datatype Entry = Entry(ino: nat, off: nat, kind: nat, name: seq<Byte>)

  // ------------------------------------------------ little-endian numbers

  function Pow(k: nat): (p: nat)
    ensures p > 0
  {
    if k == 0 then 1 else 256 * Pow(k - 1)
  }

  function Number(b: seq<Byte>): nat { if b == [] then 0 else b[0] + 256 * Number(b[1..]) }

  function Bytes(n: nat, k: nat): (b: seq<Byte>)
    ensures |b| == k
  {
    if k == 0 then [] else [n % 256] + Bytes(n / 256, k - 1)
  }

  lemma {:induction false} BytesNumber(n: nat, k: nat)
    requires n < Pow(k)
    ensures Number(Bytes(n, k)) == n
  {
    if k > 0 {
      assert n / 256 < Pow(k - 1);
      BytesNumber(n / 256, k - 1);
      assert Bytes(n, k)[1..] == Bytes(n / 256, k - 1);
    }
  }

  // A number that does not fit loses its upper bytes.
  lemma {:induction false} BytesTruncate(n: nat, k: nat)
    ensures Number(Bytes(n, k)) == n % Pow(k)
  {
    if k > 0 {
      BytesTruncate(n / 256, k - 1);
      assert Bytes(n, k)[1..] == Bytes(n / 256, k - 1);
      LowBytes(n, Pow(k - 1));
    }
  }

  lemma LowBytes(n: nat, p: nat)
    requires p > 0
    ensures n % (256 * p) == n % 256 + 256 * (n / 256 % p)
  {
    var q := n / 256;
    assert n == 256 * (p * (q / p) + q % p) + n % 256;
    assert n == (256 * p) * (q / p) + (256 * (q % p) + n % 256);
    Remainder(n, 256 * p, q / p, 256 * (q % p) + n % 256);
  }

  lemma Remainder(n: nat, d: nat, q: nat, r: nat)
    requires d > 0 && r < d && n == d * q + r
    ensures n % d == r
  {
    var e := n / d - q;
    assert d * e == d * (n / d) - d * q;
    assert d * e == r - n % d;
    Multiples(d, e);
  }

  lemma Multiples(d: nat, e: int)
    ensures e >= 1 ==> d * e >= d
    ensures e <= -1 ==> d * e + d <= 0
  {
    assert d * (e - 1) == d * e - d && d * (e + 1) == d * e + d;
    assert e >= 1 ==> d * (e - 1) >= 0;
    assert e <= -1 ==> d * (e + 1) <= 0;
  }

  lemma Powers()
    ensures Pow(4) == 0x1_0000_0000 && Pow(8) == 0x1_0000_0000_0000_0000
  {
    assert Pow(1) == 256 && Pow(2) == 65536 && Pow(3) == 0x100_0000;
    assert Pow(4) == 0x1_0000_0000;
    assert Pow(5) == 256 * Pow(4) && Pow(6) == 256 * Pow(5) && Pow(7) == 256 * Pow(6);
  }

  // ------------------------------------------------ the daemon's format

  // FUSE_DIRENT_SIZE, in the arithmetic of size_t.
  function RecordSize(namelen: nat): nat { (NAME_OFFSET + namelen + 7) % SIZE_MODULUS / 8 * 8 }

  predicate EntryOk(e: Entry) {
    && e.ino < 0x1_0000_0000_0000_0000 && e.off < 0x1_0000_0000_0000_0000 && e.kind < 0x1_0000_0000
    && 1 <= |e.name| <= MAXNAMLEN
  }

  function Encode(e: Entry): seq<Byte> {
    Bytes(e.ino, 8) + Bytes(e.off, 8) + Bytes(|e.name|, 4) + Bytes(e.kind, 4) + e.name + Padding(|e.name|)
  }

  function Padding(namelen: nat): seq<Byte> {
    if NAME_OFFSET + namelen <= RecordSize(namelen) then Zeros(RecordSize(namelen) - NAME_OFFSET - namelen) else []
  }

  function EncodeAll(es: seq<Entry>): seq<Byte> { if es == [] then [] else Encode(es[0]) + EncodeAll(es[1..]) }

  function Field(b: seq<Byte>, i: nat, k: nat): nat
    requires i + k <= |b|
  {
    Number(b[i..i + k])
  }

  function NameLen(b: seq<Byte>): nat
    requires |b| >= NAME_OFFSET
  {
    Field(b, 16, 4)
  }

  // The record at the front of b.
  function Decode(b: seq<Byte>): Entry
    requires |b| >= NAME_OFFSET && NAME_OFFSET + NameLen(b) <= |b|
  {
    Entry(Field(b, 0, 8), Field(b, 8, 8), Field(b, 20, 4), b[NAME_OFFSET..NAME_OFFSET + NameLen(b)])
  }

  lemma EncodeParts(e: Entry)
    requires EntryOk(e)
    ensures |Encode(e)| == RecordSize(|e.name|) >= NAME_OFFSET + |e.name|
    ensures Encode(e)[0..8] == Bytes(e.ino, 8) && Encode(e)[8..16] == Bytes(e.off, 8)
    ensures Encode(e)[16..20] == Bytes(|e.name|, 4) && Encode(e)[20..24] == Bytes(e.kind, 4)
    ensures Encode(e)[24..24 + |e.name|] == e.name
  {
  }

  // A record that starts with an encoded entry decodes to it, whatever follows.
  lemma DecodeEncode(e: Entry, rest: seq<Byte>)
    requires EntryOk(e)
    ensures |Encode(e) + rest| >= NAME_OFFSET && NameLen(Encode(e) + rest) == |e.name|
    ensures NAME_OFFSET + |e.name| <= |Encode(e) + rest| && Decode(Encode(e) + rest) == e
  {
    EncodeParts(e);
    Powers();
    var b := Encode(e) + rest;
    assert b[0..8] == Encode(e)[0..8] && b[8..16] == Encode(e)[8..16];
    assert b[16..20] == Encode(e)[16..20] && b[20..24] == Encode(e)[20..24];
    assert b[24..24 + |e.name|] == Encode(e)[24..24 + |e.name|];
    BytesNumber(e.ino, 8);
    BytesNumber(e.off, 8);
    BytesNumber(|e.name|, 4);
    BytesNumber(e.kind, 4);
  }

  // The name length can be read as soon as the header is there.
  lemma HeaderOfPrefix(e: Entry, rest: seq<Byte>, m: nat)
    requires EntryOk(e) && NAME_OFFSET <= m <= |Encode(e) + rest|
    ensures NameLen((Encode(e) + rest)[..m]) == |e.name|
  {
    DecodeEncode(e, rest);
    assert (Encode(e) + rest)[..m][16..20] == (Encode(e) + rest)[16..20];
  }

  // ------------------------------------------------ the kernel's format

  // GENERIC_DIRSIZ
  function DirSize(namelen: nat): nat { DIRENT_HEADER + (namelen + 1 + 3) / 4 * 4 }

  // Names that the mount hides show up as whiteouts.
  function Cooked(e: Entry, hidden: bool): seq<Byte> {
    var head := Bytes(if hidden then 0 else e.ino, 4) + Bytes(DirSize(|e.name|), 2)
                + Bytes(if hidden then DT_WHT else e.kind, 1) + Bytes(|e.name|, 1);
    if |head| + |e.name| > DirSize(|e.name|) then head
    else head + e.name + Zeros(DirSize(|e.name|) - DIRENT_HEADER - |e.name|)
  }

  lemma CookedSize(e: Entry, hidden: bool)
    ensures |Cooked(e, hidden)| == DirSize(|e.name|) > DIRENT_HEADER + |e.name|
  {
  }

  // A dirent as the caller reads it from the front of its buffer.
  datatype Shown = Shown(ino: nat, reclen: nat, kind: nat, name: seq<Byte>)

  predicate Readable(b: seq<Byte>) {
    |b| >= DIRENT_HEADER && DIRENT_HEADER + Field(b, 7, 1) < Field(b, 4, 2) <= |b|
  }

  function ReadOne(b: seq<Byte>): Shown
    requires Readable(b)
  {
    Shown(Field(b, 0, 4), Field(b, 4, 2), Field(b, 6, 1), b[DIRENT_HEADER..DIRENT_HEADER + Field(b, 7, 1)])
  }

  // What is to be seen of an entry: the low 32 bits of its inode number and the low
  // byte of its type, or a whiteout without a number.
  function AsShown(e: Entry, hidden: bool): Shown {
    Shown(if hidden then 0 else e.ino % 0x1_0000_0000, DirSize(|e.name|),
          if hidden then DT_WHT else e.kind % 256, e.name)
  }

  lemma CookedParts(e: Entry, hidden: bool)
    requires |e.name| <= MAXNAMLEN
    ensures |Cooked(e, hidden)| == DirSize(|e.name|) > DIRENT_HEADER + |e.name|
    ensures var b := Cooked(e, hidden);
            && b[0..4] == Bytes(if hidden then 0 else e.ino, 4) && b[4..6] == Bytes(DirSize(|e.name|), 2)
            && b[6..7] == Bytes(if hidden then DT_WHT else e.kind, 1) && b[7..8] == Bytes(|e.name|, 1)
            && b[8..8 + |e.name|] == e.name && forall i | 8 + |e.name| <= i < |b| :: b[i] == 0
  {
  }

  lemma CookedFields(e: Entry, hidden: bool)
    requires |e.name| <= MAXNAMLEN
    ensures var b := Cooked(e, hidden);
            && |b| == DirSize(|e.name|)
            && Field(b, 0, 4) == AsShown(e, hidden).ino && Field(b, 4, 2) == DirSize(|e.name|)
            && Field(b, 6, 1) == AsShown(e, hidden).kind && Field(b, 7, 1) == |e.name|
  {
    CookedParts(e, hidden);
    Powers();
    assert Pow(1) == 256 && Pow(2) == 65536;
    BytesTruncate(if hidden then 0 else e.ino, 4);
    BytesTruncate(DirSize(|e.name|), 2);
    BytesTruncate(if hidden then DT_WHT else e.kind, 1);
    BytesTruncate(|e.name|, 1);
  }

  lemma FieldOfFront(b: seq<Byte>, rest: seq<Byte>, i: nat, k: nat)
    requires i + k <= |b|
    ensures Field(b + rest, i, k) == Field(b, i, k)
  {
    assert (b + rest)[i..i + k] == b[i..i + k];
  }

  // The caller reads back the entry that was cooked, whatever follows it, and the
  // name is terminated.
  lemma CookedReads(e: Entry, hidden: bool, rest: seq<Byte>)
    requires |e.name| <= MAXNAMLEN
    ensures var b := Cooked(e, hidden) + rest;
            && Readable(b) && ReadOne(b) == AsShown(e, hidden)
            && b[DIRENT_HEADER + |e.name|] == 0 && b[DirSize(|e.name|)..] == rest
  {
    CookedParts(e, hidden);
    CookedFields(e, hidden);
    var c := Cooked(e, hidden);
    FieldOfFront(c, rest, 0, 4);
    FieldOfFront(c, rest, 4, 2);
    FieldOfFront(c, rest, 6, 1);
    FieldOfFront(c, rest, 7, 1);
    assert (c + rest)[8..8 + |e.name|] == c[8..8 + |e.name|];
  }

  // Each record is as short as its alignment allows: the daemon's a multiple of eight
  // bytes with room for the name, the kernel's one of four with a terminated name.
  lemma RecordsAreTight(namelen: nat)
    requires namelen <= MAXNAMLEN
    ensures RecordSize(namelen) % 8 == 0 && NAME_OFFSET + namelen <= RecordSize(namelen) < NAME_OFFSET + namelen + 8
    ensures DirSize(namelen) % 4 == 0
            && DIRENT_HEADER + namelen + 1 <= DirSize(namelen) < DIRENT_HEADER + namelen + 1 + 4
  {
  }
}
