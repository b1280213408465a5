/** The newc archive layout of the Linux initramfs buffer format: how an entry is laid out, and a reader
    that knows only the layout. */
module Newc {
  import opened Optional
  import opened Words

  type Bytes = seq<Byte>

  const MAGIC: Bytes := [48, 55, 48, 55, 48, 49]                             // 070701
  const TRAILER: Bytes := [84, 82, 65, 73, 76, 69, 82, 33, 33, 33]           // TRAILER!!!
  const HEADER_SIZE: nat := 110

  /** The header fields that do not describe lengths. */
  datatype Meta = Meta(ino: nat, mode: nat, uid: nat, gid: nat, nlink: nat, mtime: nat,
                       major: nat, minor: nat, rmajor: nat, rminor: nat, check: nat)

  datatype Entry = Entry(meta: Meta, name: Bytes, data: Bytes)

  // ---------------------------------------------------------------- numbers

  function DigitByte(d: nat): Byte
    requires d < 16
  {
    if d < 10 then 48 + d else 87 + d
  }

  function DigitValue(b: Byte): Maybe<nat> {
    if 48 <= b <= 57 then Just(b - 48)
    else if 97 <= b <= 102 then Just(b - 87)
    else if 65 <= b <= 70 then Just(b - 55)
    else Nothing
  }

  function Ascii(s: string): (r: Bytes)
    requires forall i :: 0 <= i < |s| ==> s[i] < 128 as char
    ensures |r| == |s| && forall i :: 0 <= i < |s| ==> r[i] == s[i] as int
  {
    seq(|s|, i requires 0 <= i < |s| => s[i] as int)
  }

  /** Sixteen digits, the last six of them in either case, and no other byte. */
  lemma DigitsExactly(b: Byte, d: nat)
    ensures DigitValue(b) == Just(d) <==>
      d < 16 && (b == Ascii("0123456789abcdef")[d] || b == Ascii("0123456789ABCDEF")[d])
  {
  }

  function Zeros(n: nat): (r: Bytes)
    ensures |r| == n && forall i :: 0 <= i < n ==> r[i] == 0
  {
    seq(n, _ => 0)
  }

  /** Lower-case hexadecimal without leading zeros, filled up with `0` to at least `width` digits: the
      format 08x at width 8. */
  function Hex(v: nat, width: nat): (r: Bytes)
    ensures |r| >= width
    decreases v, width
  {
    if v == 0 then seq(width, _ => 48)
    else Hex(v / 16, if width == 0 then 0 else width - 1) + [DigitByte(v % 16)]
  }

  function UnHex(s: Bytes): Maybe<nat>
    decreases |s|
  {
    if s == [] then Just(0)
    else
      var high, low := UnHex(s[..|s| - 1]), DigitValue(s[|s| - 1]);
      if high.Just? && low.Just? then Just(16 * high.value + low.value) else Nothing
  }

  function Pow16(n: nat): (r: nat)
    ensures r > 0
  {
    if n == 0 then 1 else 16 * Pow16(n - 1)
  }

  lemma {:induction false} UnHexZeros(n: nat)
    ensures UnHex(seq(n, _ => 48)) == Just(0)
  {
    if n > 0 {
      var s: Bytes := seq(n, _ => 48);
      UnHexZeros(n - 1);
      assert s[..n - 1] == seq(n - 1, _ => 48);
    }
  }

  /** Any number reads back, and it takes exactly `width` digits if and only if it fits them. */
  lemma {:induction false} HexReadsBack(v: nat, width: nat)
    ensures UnHex(Hex(v, width)) == Just(v)
    ensures |Hex(v, width)| == width <==> v < Pow16(width)
    decreases v, width
  {
    if v == 0 {
      UnHexZeros(width);
    } else {
      var w := if width == 0 then 0 else width - 1;
      HexReadsBack(v / 16, w);
      var s := Hex(v, width);
      assert s[..|s| - 1] == Hex(v / 16, w) && s[|s| - 1] == DigitByte(v % 16);
      assert DigitValue(DigitByte(v % 16)) == Just(v % 16);
    }
  }

  lemma Pow16Is()
    ensures Pow16(8) == U32_SPAN
  {
    assert Pow16(4) == 0x1_0000 by { assert Pow16(2) == 256; }
    assert Pow16(6) == 0x100_0000;
  }

  // ---------------------------------------------------------------- layout

  function Fields(e: Entry): (r: seq<nat>)
    ensures |r| == 13
  {
    var m := e.meta;
    [m.ino, m.mode, m.uid, m.gid, m.nlink, m.mtime, |e.data|, m.major, m.minor, m.rmajor, m.rminor, |e.name| + 1,
      m.check]
  }

  function HexAll(fs: seq<nat>): Bytes {
    if fs == [] then [] else HexAll(fs[..|fs| - 1]) + Hex(fs[|fs| - 1], 8)
  }

  function Header(e: Entry): Bytes { MAGIC + HexAll(Fields(e)) }

  /** -n % 4: the bytes missing to a multiple of four. */
  function Pad(n: int): (p: nat)
    ensures p < 4
  {
    (-n) % 4
  }

  function Padded(s: Bytes): Bytes {
    s + Zeros(Pad(|s|))
  }

  lemma PaddedAligned(s: Bytes)
    ensures |Padded(s)| % 4 == 0
  {
  }

  /** An entry padded relative to its own start. */
  function EntryBytes(e: Entry): Bytes {
    Padded(Padded(Header(e) + e.name + [0]) + e.data)
  }

  function ArchiveBytes(es: seq<Entry>): Bytes {
    if es == [] then [] else ArchiveBytes(es[..|es| - 1]) + EntryBytes(es[|es| - 1])
  }

  lemma WordSum(m: nat, n: nat)
    requires m % 4 == 0 && n % 4 == 0
    ensures (m + n) % 4 == 0
  {
  }

  lemma {:induction false} ArchiveAligned(es: seq<Entry>)
    ensures |ArchiveBytes(es)| % 4 == 0
  {
    if es != [] {
      var e := es[|es| - 1];
      ArchiveAligned(es[..|es| - 1]);
      PaddedAligned(Padded(Header(e) + e.name + [0]) + e.data);
      WordSum(|ArchiveBytes(es[..|es| - 1])|, |EntryBytes(e)|);
    }
  }

  /** Fields of at most 32 bits and a name without NUL. */
  ghost predicate Fits(e: Entry) {
    && (forall k :: 0 <= k < 13 ==> Fields(e)[k] < U32_SPAN)
    && 0 !in e.name
  }

  // ---------------------------------------------------------------- reading

  /** Field `k` of the header at `pos`. */
  function FieldAt(a: Bytes, pos: nat, k: nat): Maybe<nat>
    requires k < 13 && pos + HEADER_SIZE <= |a|
  {
    UnHex(a[pos + 6 + 8 * k .. pos + 14 + 8 * k])
  }

  function Up4(n: nat): (r: nat)
    ensures n <= r < n + 4 && r % 4 == 0
  {
    (n + 3) / 4 * 4
  }

  predicate HeaderAt(a: Bytes, pos: nat) {
    && pos + HEADER_SIZE <= |a| && a[pos..pos + 6] == MAGIC
    && (forall k :: 0 <= k < 13 ==> FieldAt(a, pos, k).Just?)
  }

  /** The entry at `pos` and the position behind it: the name behind the header, its data at the next
      multiple of four, the next entry at the multiple of four after that. */
  function ReadAt(a: Bytes, pos: nat): (r: Maybe<(Entry, nat)>)
    ensures r.Just? ==> pos < r.value.1 <= |a|
  {
    if !HeaderAt(a, pos) then Nothing
    else
      var size, nsize := FieldAt(a, pos, 6).value, FieldAt(a, pos, 11).value;
      var dataAt := Up4(pos + HEADER_SIZE + nsize);
      var next := Up4(dataAt + size);
      if nsize == 0 || next > |a| || a[pos + HEADER_SIZE + nsize - 1] != 0 then Nothing
      else
        Just((Entry(MetaAt(a, pos), a[pos + HEADER_SIZE .. pos + HEADER_SIZE + nsize - 1], a[dataAt .. dataAt + size]),
          next))
  }

  function MetaAt(a: Bytes, pos: nat): Meta
    requires HeaderAt(a, pos)
  {
    Meta(FieldAt(a, pos, 0).value, FieldAt(a, pos, 1).value, FieldAt(a, pos, 2).value, FieldAt(a, pos, 3).value,
         FieldAt(a, pos, 4).value, FieldAt(a, pos, 5).value, FieldAt(a, pos, 7).value, FieldAt(a, pos, 8).value,
         FieldAt(a, pos, 9).value, FieldAt(a, pos, 10).value, FieldAt(a, pos, 12).value)
  }

  /** The entries from `pos` up to the trailer. */
  function ReadAll(a: Bytes, pos: nat): Maybe<seq<Entry>>
    requires pos <= |a|
    decreases |a| - pos
  {
    var first := ReadAt(a, pos);
    if first.Nothing? then Nothing
    else if first.value.0.name == TRAILER then Just([])
    else
      var rest := ReadAll(a, first.value.1);
      if rest.Nothing? then Nothing else Just([first.value.0] + rest.value)
  }

  // ---------------------------------------------------------------- round trip

  lemma {:induction false} HexAllParts(fs: seq<nat>, k: nat)
    requires k < |fs| && forall j :: 0 <= j < |fs| ==> fs[j] < U32_SPAN
    ensures |HexAll(fs)| == 8 * |fs| && HexAll(fs)[8 * k .. 8 * k + 8] == Hex(fs[k], 8)
    decreases |fs|
  {
    hide Hex, UnHex, Pow16;
    var n := |fs| - 1;
    HexReadsBack(fs[n], 8);
    Pow16Is();
    if n == 0 {
      assert fs[..n] == [];
    } else {
      HexAllParts(fs[..n], if k < n then k else 0);
      if k < n { assert HexAll(fs)[8 * k .. 8 * k + 8] == HexAll(fs[..n])[8 * k .. 8 * k + 8]; }
    }
  }

  /** Any part of `b` is found again behind `a`. */
  lemma Behind(a: Bytes, b: Bytes, c: Bytes, i: nat, j: nat)
    requires i <= j <= |b|
    ensures (a + b + c)[|a| + i .. |a| + j] == b[i..j]
  {
  }

  lemma HeaderReads(a: Bytes, e: Entry, c: Bytes)
    requires Fits(e)
    ensures |Header(e)| == HEADER_SIZE
    ensures HeaderAt(a + Header(e) + c, |a|)
    ensures forall k :: 0 <= k < 13 ==> FieldAt(a + Header(e) + c, |a|, k) == Just(Fields(e)[k])
  {
    hide Hex, UnHex, HexAll, Fields;
    var h, fs := Header(e), Fields(e);
    HexAllParts(fs, 0);
    Behind(a, h, c, 0, 6);
    forall k | 0 <= k < 13 ensures FieldAt(a + h + c, |a|, k) == Just(fs[k]) {
      HexAllParts(fs, k);
      Behind(a, h, c, 6 + 8 * k, 14 + 8 * k);
      assert h[6 + 8 * k .. 14 + 8 * k] == HexAll(fs)[8 * k .. 8 * k + 8];
      HexReadsBack(fs[k], 8);
    }
  }

  /** The layout by offsets: six bytes of magic, thirteen fields of eight hexadecimal digits in the order of the format,
      and the name behind the header. */
  lemma HeaderLayout(a: Bytes, e: Entry, c: Bytes)
    requires Fits(e)
    ensures var s, n := a + EntryBytes(e) + c, |a|;
      && n + 110 + |e.name| < |s| && s[n .. n + 6] == [48, 55, 48, 55, 48, 49]
      && UnHex(s[n + 6 .. n + 14]) == Just(e.meta.ino) && UnHex(s[n + 14 .. n + 22]) == Just(e.meta.mode)
      && UnHex(s[n + 22 .. n + 30]) == Just(e.meta.uid) && UnHex(s[n + 30 .. n + 38]) == Just(e.meta.gid)
      && UnHex(s[n + 38 .. n + 46]) == Just(e.meta.nlink) && UnHex(s[n + 46 .. n + 54]) == Just(e.meta.mtime)
      && UnHex(s[n + 54 .. n + 62]) == Just(|e.data|)
      && UnHex(s[n + 62 .. n + 70]) == Just(e.meta.major) && UnHex(s[n + 70 .. n + 78]) == Just(e.meta.minor)
      && UnHex(s[n + 78 .. n + 86]) == Just(e.meta.rmajor) && UnHex(s[n + 86 .. n + 94]) == Just(e.meta.rminor)
      && UnHex(s[n + 94 .. n + 102]) == Just(|e.name| + 1) && UnHex(s[n + 102 .. n + 110]) == Just(e.meta.check)
      && s[n + 110 .. n + 110 + |e.name|] == e.name && s[n + 110 + |e.name|] == 0
  {
    hide UnHex, Header, EntryBytes;
    var n := |a|;
    FieldOffset(a, e, c, 0, n + 6);
    FieldOffset(a, e, c, 1, n + 14);
    FieldOffset(a, e, c, 2, n + 22);
    FieldOffset(a, e, c, 3, n + 30);
    FieldOffset(a, e, c, 4, n + 38);
    FieldOffset(a, e, c, 5, n + 46);
    FieldOffset(a, e, c, 6, n + 54);
    FieldOffset(a, e, c, 7, n + 62);
    FieldOffset(a, e, c, 8, n + 70);
    FieldOffset(a, e, c, 9, n + 78);
    FieldOffset(a, e, c, 10, n + 86);
    FieldOffset(a, e, c, 11, n + 94);
    FieldOffset(a, e, c, 12, n + 102);
    NameOffset(a, e, c);
  }

  lemma FieldOffset(a: Bytes, e: Entry, c: Bytes, k: nat, i: nat)
    requires Fits(e) && k < 13 && i == |a| + 6 + 8 * k
    ensures i + 8 <= |a + EntryBytes(e) + c| && UnHex((a + EntryBytes(e) + c)[i .. i + 8]) == Just(Fields(e)[k])
  {
    hide UnHex, Header, EntryBytes, Fields;
    var p, q := EntryParts(e);
    var tail := e.name + [0] + p + e.data + q;
    assert a + EntryBytes(e) + c == a + Header(e) + (tail + c);
    HeaderReads(a, e, tail + c);
    assert FieldAt(a + Header(e) + (tail + c), |a|, k) == Just(Fields(e)[k]);
  }

  lemma NameOffset(a: Bytes, e: Entry, c: Bytes)
    requires Fits(e)
    ensures var s, n := a + EntryBytes(e) + c, |a|;
      && n + 110 + |e.name| < |s| && s[n .. n + 6] == [48, 55, 48, 55, 48, 49]
      && s[n + 110 .. n + 110 + |e.name|] == e.name && s[n + 110 + |e.name|] == 0
  {
    hide UnHex, Header, EntryBytes, Fields;
    var p, q := EntryParts(e);
    var tail := e.name + [0] + p + e.data + q;
    var s := a + EntryBytes(e) + c;
    assert s == a + Header(e) + (tail + c) == a + Header(e) + tail + c;
    HeaderReads(a, e, tail + c);
    TailReads(a + Header(e), e, p, q, c);
  }

  /** An entry's bytes, taken apart. */
  lemma EntryParts(e: Entry) returns (p: Bytes, q: Bytes)
    ensures EntryBytes(e) == Header(e) + (e.name + [0] + p + e.data + q)
    ensures |p| == Pad(|Header(e)| + |e.name| + 1) && |q| == Pad(|Header(e)| + |e.name| + 1 + |p| + |e.data|)
  {
    var h := Header(e) + e.name + [0];
    p := Zeros(Pad(|h|));
    q := Zeros(Pad(|h + p + e.data|));
    assert EntryBytes(e) == h + p + e.data + q;
  }

  lemma Aligned(pos: nat, n: nat)
    requires pos % 4 == 0
    ensures Up4(pos + n) == pos + n + Pad(n)
  {
  }

  /** Where the parts of an entry at `pos` are, as the reader computes it. */
  lemma Places(pos: nat, n: nat, p: nat, d: nat, q: nat)
    requires pos % 4 == 0 && p == Pad(n) && q == Pad(n + p + d)
    ensures Up4(pos + n) == pos + n + p && Up4(pos + n + p + d) == pos + n + p + d + q
  {
    Aligned(pos, n);
    Aligned(pos, n + p + d);
  }

  /** What lies behind the header: name, NUL, padding, data. */
  lemma TailReads(f: Bytes, e: Entry, p: Bytes, q: Bytes, c: Bytes)
    ensures var s := f + (e.name + [0] + p + e.data + q) + c;
      && s[|f| .. |f| + |e.name|] == e.name && s[|f| + |e.name|] == 0
      && s[|f| + |e.name| + 1 + |p| .. |f| + |e.name| + 1 + |p| + |e.data|] == e.data
  {
  }

  /** An entry written at a multiple of four is read back, and reading goes on right behind it. */
  lemma EntryReads(a: Bytes, e: Entry, c: Bytes)
    requires Fits(e) && |a| % 4 == 0
    ensures ReadAt(a + EntryBytes(e) + c, |a|) == Just((e, |a| + |EntryBytes(e)|))
  {
    hide ReadAt, EntryBytes, Header;
    var p, q := EntryParts(e);
    var tail := e.name + [0] + p + e.data + q;
    PartsRead(a, e, tail, p, q, c);
    assert a + EntryBytes(e) + c == a + Header(e) + (tail + c);
  }

  lemma PartsRead(a: Bytes, e: Entry, tail: Bytes, p: Bytes, q: Bytes, c: Bytes)
    requires Fits(e) && |a| % 4 == 0 && tail == e.name + [0] + p + e.data + q
    requires |p| == Pad(|Header(e)| + |e.name| + 1) && |q| == Pad(|Header(e)| + |e.name| + 1 + |p| + |e.data|)
    ensures ReadAt(a + Header(e) + (tail + c), |a|) == Just((e, |a| + |Header(e)| + |tail|))
  {
    hide Header, FieldAt, Up4, Pad;
    HeaderReads(a, e, tail + c);
    Places(|a|, HEADER_SIZE + |e.name| + 1, |p|, |e.data|, |q|);
    TailReads(a + Header(e), e, p, q, c);
    var s := a + Header(e) + (tail + c);
    assert s == a + Header(e) + tail + c;
    assert MetaAt(s, |a|) == e.meta;
  }

  /** The trailer, with whatever comes behind it. */
  predicate IsTrailer(e: Entry) { e.name == TRAILER && e.data == [] }

  lemma ReadAllFirst(front: Bytes, e: Entry, c: Bytes, rest: seq<Entry>)
    requires Fits(e) && |front| % 4 == 0 && e.name != TRAILER
    requires ReadAll(front + EntryBytes(e) + c, |front + EntryBytes(e)|) == Just(rest)
    ensures ReadAll(front + EntryBytes(e) + c, |front|) == Just([e] + rest)
  {
    hide ReadAt, EntryBytes;
    EntryReads(front, e, c);
  }

  lemma {:induction false} ReadsFrom(es: seq<Entry>, k: nat, t: Entry, c: Bytes)
    requires k <= |es| && Fits(t) && IsTrailer(t) &&
      (forall i :: 0 <= i < |es| ==> Fits(es[i]) && es[i].name != TRAILER)
    ensures var a := ArchiveBytes(es) + EntryBytes(t) + c;
      |ArchiveBytes(es[..k])| <= |a| && ReadAll(a, |ArchiveBytes(es[..k])|) == Just(es[k..])
    decreases |es| - k
  {
    hide ReadAt, EntryBytes;
    var front := ArchiveBytes(es[..k]);
    ArchiveAligned(es[..k]);
    if k == |es| {
      assert es[..k] == es && es[k..] == [];
      EntryReads(front, t, c);
    } else {
      var rest := ArchiveRest(es, k);
      var a := ArchiveBytes(es) + EntryBytes(t) + c;
      Regroup(front, EntryBytes(es[k]), rest, EntryBytes(t), c);
      assert es[..k + 1][..k] == es[..k];
      ReadsFrom(es, k + 1, t, c);
      assert ArchiveBytes(es[..k + 1]) == front + EntryBytes(es[k]);
      ReadAllFirst(front, es[k], rest + EntryBytes(t) + c, es[k + 1..]);
      assert es[k..] == [es[k]] + es[k + 1..];
    }
  }

  lemma Regroup(a: Bytes, b: Bytes, c: Bytes, d: Bytes, e: Bytes)
    ensures a + b + c + d + e == a + b + (c + d + e)
    ensures a + b + c + d == a + b + (c + d)
  {
  }

  lemma {:induction false} ArchiveRest(es: seq<Entry>, k: nat) returns (rest: Bytes)
    requires k < |es|
    ensures ArchiveBytes(es) == ArchiveBytes(es[..k]) + EntryBytes(es[k]) + rest
    decreases |es|
  {
    hide EntryBytes;
    var n := |es| - 1;
    var front, mid := ArchiveBytes(es[..k]), EntryBytes(es[k]);
    if k == n {
      rest := [];
      assert front + mid + rest == front + mid;
    } else {
      rest := ArchiveRest(es[..n], k);
      assert es[..n][..k] == es[..k];
      Regroup(front, mid, rest, EntryBytes(es[n]), []);
      rest := rest + EntryBytes(es[n]);
    }
  }

  /** Reading an archive gives back exactly the entries that were written, whatever follows the trailer. */
  lemma RoundTrip(es: seq<Entry>, t: Entry, c: Bytes)
    requires Fits(t) && IsTrailer(t) && (forall i :: 0 <= i < |es| ==> Fits(es[i]) && es[i].name != TRAILER)
    ensures ReadAll(ArchiveBytes(es) + EntryBytes(t) + c, 0) == Just(es)
  {
    ReadsFrom(es, 0, t, c);
    assert es[..0] == [] && es[0..] == es;
  }

  /** Padding relative to the archive: what the other writer does. */
  function Appended(a: Bytes, e: Entry): Bytes {
    Padded(Padded(a + Header(e) + e.name + [0]) + e.data)
  }

  lemma PadBehind(m: nat, n: nat)
    requires m % 4 == 0
    ensures Pad(m + n) == Pad(n)
  {
  }

  /** Both paddings give the same bytes for the same entry in an archive of whole words. */
  lemma PaddingsAgree(a: Bytes, e: Entry)
    requires |a| % 4 == 0
    ensures Appended(a, e) == a + EntryBytes(e)
  {
    hide Header, Pad;
    var h := Header(e) + e.name + [0];
    assert a + Header(e) + e.name + [0] == a + h;
    PadBehind(|a|, |h|);
    assert Padded(a + h) == a + Padded(h);
    PaddedAligned(h);
    var d := Padded(h) + e.data;
    assert a + Padded(h) + e.data == a + d;
    PadBehind(|a|, |d|);
  }
}
