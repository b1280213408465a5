/** The two archive writers: the early ACPI archive, padded entry by entry with counted inodes, and the
    initramfs archive, padded against the whole archive with repeated names dropped. */
module NewcWriters {
  import opened Newc
  import opened Optional
  import opened Words

  const DIRECTORY: nat := 16877   // S_IFDIR | 0755
  const REGULAR: nat := 33188     // S_IFREG | 0644

  /** The fields both writers leave at zero, and one link. */
  function Plain(ino: nat, mode: nat, rmajor: nat, rminor: nat): Meta {
    Meta(ino, mode, 0, 0, 1, 0, 0, 0, rmajor, rminor, 0)
  }

  /** What the writers put where: inode and mode first, one link, the device numbers behind the sizes of the data. */
  lemma WrittenFields(a: Bytes, ino: nat, mode: nat, rmajor: nat, rminor: nat, name: Bytes, data: Bytes)
    requires ino < U32_SPAN && mode < U32_SPAN && rmajor < U32_SPAN && rminor < U32_SPAN
    requires |name| + 1 < U32_SPAN && |data| < U32_SPAN && 0 !in name
    ensures var s, n := a + EntryBytes(Entry(Plain(ino, mode, rmajor, rminor), name, data)), |a|;
      && n + 110 + |name| < |s|
      && UnHex(s[n + 6 .. n + 14]) == Just(ino) && UnHex(s[n + 14 .. n + 22]) == Just(mode)
      && UnHex(s[n + 22 .. n + 30]) == Just(0) && UnHex(s[n + 30 .. n + 38]) == Just(0)
      && UnHex(s[n + 38 .. n + 46]) == Just(1) && UnHex(s[n + 46 .. n + 54]) == Just(0)
      && UnHex(s[n + 54 .. n + 62]) == Just(|data|)
      && UnHex(s[n + 62 .. n + 70]) == Just(0) && UnHex(s[n + 70 .. n + 78]) == Just(0)
      && UnHex(s[n + 78 .. n + 86]) == Just(rmajor) && UnHex(s[n + 86 .. n + 94]) == Just(rminor)
      && UnHex(s[n + 94 .. n + 102]) == Just(|name| + 1) && UnHex(s[n + 102 .. n + 110]) == Just(0)
      && s[n + 110 .. n + 110 + |name|] == name
  {
    hide UnHex, EntryBytes;
    var e := Entry(Plain(ino, mode, rmajor, rminor), name, data);
    assert Fits(e);
    HeaderLayout(a, e, []);
    assert a + EntryBytes(e) + [] == a + EntryBytes(e);
  }

  /** _newc_entry */
  method NewcEntry(name: Bytes, mode: nat, data: Bytes, inode: nat) returns (result: Bytes)
    ensures result == EntryBytes(Entry(Plain(inode, mode, 0, 0), name, data))
  {
    ghost var e := Entry(Plain(inode, mode, 0, 0), name, data);
    var encoded := name + [0];
    var fields := [inode, mode, 0, 0, 1, 0, |data|, 0, 0, 0, 0, |encoded|, 0];
    result := MAGIC + HexAll(fields);
    assert result + encoded == Header(e) + name + [0];
    result := result + encoded;
    result := result + Zeros(Pad(|result|));
    result := result + data;
    result := result + Zeros(Pad(|result|));
  }

  const KERNEL: Bytes := [107, 101, 114, 110, 101, 108]
  const FIRMWARE: Bytes := KERNEL + [47, 102, 105, 114, 109, 119, 97, 114, 101]
  const ACPI: Bytes := FIRMWARE + [47, 97, 99, 112, 105]
  const AML: Bytes := ACPI + [47, 116, 99, 108, 45, 105, 110, 112, 117, 116, 46, 97, 109, 108]

  /** What the early archive holds: three directories and the table, with inodes from 1. */
  function EarlyEntries(aml: Bytes): seq<Entry> {
    [Entry(Plain(1, DIRECTORY, 0, 0), KERNEL, []), Entry(Plain(2, DIRECTORY, 0, 0), FIRMWARE, []),
     Entry(Plain(3, DIRECTORY, 0, 0), ACPI, []), Entry(Plain(4, REGULAR, 0, 0), AML, aml)]
  }

  /** In words: the directories down to the ACPI tables, and the table itself. */
  lemma EarlyNames(aml: Bytes)
    ensures var es := EarlyEntries(aml);
      && es[0].name == Ascii("kernel") && es[1].name == Ascii("kernel") + Ascii("/firmware")
      && es[2].name == Ascii("kernel") + Ascii("/firmware") + Ascii("/acpi")
      && es[3].name == Ascii("kernel") + Ascii("/firmware") + Ascii("/acpi") + Ascii("/tcl-input.aml")
  {
  }

  /** Numbered from 1; directories are 0755 and empty, the table is a file 0644 with the given bytes. */
  lemma EarlyMeans(aml: Bytes)
    ensures var es := EarlyEntries(aml);
      && |es| == 4 && (forall k :: 0 <= k < 3 ==> es[k].meta.mode == 0x41ed && es[k].data == [])
      && es[3].meta.mode == 0x81a4 && es[3].data == aml
      && forall k :: 0 <= k < 4 ==> es[k].meta == Meta(k + 1, es[k].meta.mode, 0, 0, 1, 0, 0, 0, 0, 0, 0)
  {
  }

  function EarlyTrailer(): Entry { Entry(Plain(5, 0, 0, 0), TRAILER, []) }

  lemma ArchiveGrows(es: seq<Entry>, k: nat)
    requires k < |es|
    ensures ArchiveBytes(es[..k + 1]) == ArchiveBytes(es[..k]) + EntryBytes(es[k])
  {
    assert es[..k + 1][..k] == es[..k];
  }

  /** -n % 512 */
  function PadBlock(n: int): (p: nat)
    ensures p < 512 && (n + p) % 512 == 0
  {
    assert n + (-n) % 512 == 512 * -((-n) / 512);
    (-n) % 512
  }

  /** build_early_cpio: whole blocks of 512 bytes, and reading them by the layout gives the three
      directories and the table. */
  method BuildEarlyCpio(aml: Bytes) returns (archive: Bytes)
    ensures |archive| % 512 == 0
    ensures |aml| < U32_SPAN ==> ReadAll(archive, 0) == Just(EarlyEntries(aml))
  {
    hide EntryBytes, ReadAll;
    ghost var es := EarlyEntries(aml);
    archive := [];
    var inode := 0;
    var names := [KERNEL, FIRMWARE, ACPI];
    assert es[..0] == [];
    for k := 0 to |names|
      invariant inode == k && archive == ArchiveBytes(es[..k])
    {
      inode := inode + 1;
      var entry := NewcEntry(names[k], DIRECTORY, [], inode);
      ArchiveGrows(es, k);
      archive := archive + entry;
    }
    inode := inode + 1;
    var entry := NewcEntry(AML, REGULAR, aml, inode);
    ArchiveGrows(es, 3);
    archive := archive + entry;
    assert es[..4] == es;
    inode := inode + 1;
    entry := NewcEntry(TRAILER, 0, [], inode);
    archive := archive + entry;
    var fill := Zeros(PadBlock(|archive|));
    archive := archive + fill;
    if |aml| < U32_SPAN { EarlyReads(aml, fill); }
  }

  lemma EarlyReads(aml: Bytes, fill: Bytes)
    requires |aml| < U32_SPAN
    ensures ReadAll(ArchiveBytes(EarlyEntries(aml)) + EntryBytes(EarlyTrailer()) + fill, 0) == Just(EarlyEntries(aml))
  {
    hide EntryBytes, ReadAll, ArchiveBytes;
    PlainFits(1, DIRECTORY, KERNEL, []);
    PlainFits(2, DIRECTORY, FIRMWARE, []);
    PlainFits(3, DIRECTORY, ACPI, []);
    PlainFits(4, REGULAR, AML, aml);
    PlainFits(5, 0, TRAILER, []);
    var es := EarlyEntries(aml);
    forall i | 0 <= i < |es| ensures Fits(es[i]) && es[i].name != TRAILER { assert es[i].name[0] != TRAILER[0]; }
    RoundTrip(es, EarlyTrailer(), fill);
  }

  lemma PlainFits(ino: nat, mode: nat, name: Bytes, data: Bytes)
    requires ino < U32_SPAN && mode < U32_SPAN && |name| + 1 < U32_SPAN && |data| < U32_SPAN && 0 !in name
    ensures Fits(Entry(Plain(ino, mode, 0, 0), name, data))
  {
  }

  // ---------------------------------------------------------------- the deduplicating writer

  /** The first entry of each name, in order. */
  function Firsts(es: seq<Entry>): seq<Entry> {
    if es == [] then []
    else
      var kept := Firsts(es[..|es| - 1]);
      if es[|es| - 1].name in NamesOf(es[..|es| - 1]) then kept else kept + [es[|es| - 1]]
  }

  function NamesOf(es: seq<Entry>): set<Bytes> { set i | 0 <= i < |es| :: es[i].name }

  lemma {:induction false} FirstsNames(es: seq<Entry>)
    ensures NamesOf(Firsts(es)) == NamesOf(es)
    decreases |es|
  {
    if es != [] {
      var n := |es| - 1;
      FirstsNames(es[..n]);
      NamesGrow(es[..n], es[n]);
      assert es == es[..n] + [es[n]];
      NamesGrow(Firsts(es[..n]), es[n]);
    }
  }

  /** The entry at `k` is the earliest of its name. */
  ghost predicate Earliest(es: seq<Entry>, k: nat) {
    k < |es| && forall j :: 0 <= j < k ==> es[j].name != es[k].name
  }

  ghost predicate IsFirst(es: seq<Entry>, e: Entry) {
    exists k: nat :: Earliest(es, k) && es[k] == e
  }

  lemma {:induction false} FirstsEarliest(es: seq<Entry>, i: nat) returns (k: nat)
    requires i < |Firsts(es)|
    ensures Earliest(es, k) && es[k] == Firsts(es)[i]
    decreases |es|
  {
    var n := |es| - 1;
    if i < |Firsts(es[..n])| {
      k := FirstsEarliest(es[..n], i);
      assert forall j :: 0 <= j < n ==> es[j] == es[..n][j];
    } else {
      k := n;
      assert forall j :: 0 <= j < n ==> es[j] == es[..n][j] && es[j].name in NamesOf(es[..n]);
    }
  }

  lemma {:induction false} FirstsDistinct(es: seq<Entry>)
    ensures forall i, j :: 0 <= i < j < |Firsts(es)| ==> Firsts(es)[i].name != Firsts(es)[j].name
    decreases |es|
  {
    if es != [] {
      var n := |es| - 1;
      FirstsDistinct(es[..n]);
      FirstsNames(es[..n]);
      var kept := Firsts(es[..n]);
      assert forall i :: 0 <= i < |kept| ==> kept[i].name in NamesOf(kept);
    }
  }

  /** No name twice, none lost, and each entry the earliest of its name. */
  lemma FirstsMean(es: seq<Entry>)
    ensures NamesOf(Firsts(es)) == NamesOf(es)
    ensures forall i, j :: 0 <= i < j < |Firsts(es)| ==> Firsts(es)[i].name != Firsts(es)[j].name
    ensures forall i :: 0 <= i < |Firsts(es)| ==> IsFirst(es, Firsts(es)[i])
  {
    FirstsNames(es);
    FirstsDistinct(es);
    forall i | 0 <= i < |Firsts(es)| ensures IsFirst(es, Firsts(es)[i]) {
      var _ := FirstsEarliest(es, i);
    }
  }

  lemma NamesGrow(es: seq<Entry>, e: Entry)
    ensures NamesOf(es + [e]) == NamesOf(es) + {e.name}
  {
    var all := es + [e];
    assert forall i :: 0 <= i < |es| ==> all[i] == es[i];
    assert all[|es|] == e;
    forall x | x in NamesOf(all) ensures x in NamesOf(es) + {e.name} {
      var i :| 0 <= i < |all| && all[i].name == x;
      if i < |es| { assert es[i].name == x; }
    }
    forall x | x in NamesOf(es) ensures x in NamesOf(all) {
      var i :| 0 <= i < |es| && es[i].name == x;
      assert all[i].name == x;
    }
    assert e.name in NamesOf(all);
  }

  class Initramfs {
    var archive: Bytes
    var seen: set<Bytes>
    ghost var added: seq<Entry>

    /** The archive holds the first entry of each name that was added. */
    ghost predicate Valid()
      reads this
    {
      seen == NamesOf(added) && archive == ArchiveBytes(Firsts(added))
    }

    constructor ()
      ensures Valid() && added == []
    {
      archive, seen, added := [], {}, [];
    }

    /** add */
    method Add(name: Bytes, mode: nat, data: Bytes, major: nat, minor: nat)
      requires Valid()
      modifies this
      ensures Valid() && added == old(added) + [Entry(Plain(1, mode, major, minor), name, data)]
    {
      ghost var e := Entry(Plain(1, mode, major, minor), name, data);
      NamesGrow(added, e);
      ghost var all := added + [e];
      assert all[..|added|] == added;
      if name in seen {
        added := all;
        return;
      }
      seen := seen + {name};
      ArchiveAligned(Firsts(added));
      PaddingsAgree(archive, e);
      Append(name, mode, data, major, minor);
      assert Firsts(all) == Firsts(added) + [e];
      assert (Firsts(added) + [e])[..|Firsts(added)|] == Firsts(added);
      added := all;
    }

    /** The bytes of an entry, padded against the archive. */
    method Append(name: Bytes, mode: nat, data: Bytes, major: nat, minor: nat)
      modifies this`archive
      ensures archive == Appended(old(archive), Entry(Plain(1, mode, major, minor), name, data))
    {
      ghost var e := Entry(Plain(1, mode, major, minor), name, data);
      var encoded := name + [0];
      var fields := [1, mode, 0, 0, 1, 0, |data|, 0, 0, major, minor, |encoded|, 0];
      ghost var was := archive;
      archive := archive + (MAGIC + HexAll(fields) + encoded);
      assert archive == was + Header(e) + name + [0];
      archive := archive + Zeros(Pad(|archive|));
      archive := archive + data;
      archive := archive + Zeros(Pad(|archive|));
    }

    /** The last call of the script. Reading what is written gives the first entry of each name. */
    method Finish() returns (bytes: Bytes)
      requires Valid() && TRAILER !in seen
      modifies this
      ensures bytes == archive
      ensures (forall i :: 0 <= i < |old(added)| ==> Fits(old(added)[i])) ==>
        ReadAll(bytes, 0) == Just(Firsts(old(added)))
    {
      hide ReadAll, ArchiveBytes, EntryBytes;
      ghost var all := added;
      Add(TRAILER, 0, [], 0, 0);
      bytes := archive;
      if forall i :: 0 <= i < |all| ==> Fits(all[i]) { FirstsRead(all, Entry(Plain(1, 0, 0, 0), TRAILER, [])); }
    }
  }

  lemma FirstsRead(es: seq<Entry>, t: Entry)
    requires (forall i :: 0 <= i < |es| ==> Fits(es[i])) && TRAILER !in NamesOf(es) && Fits(t) && IsTrailer(t)
    ensures ReadAll(ArchiveBytes(Firsts(es + [t])), 0) == Just(Firsts(es))
  {
    hide EntryBytes, ReadAll;
    var kept := Firsts(es);
    FirstsMean(es);
    forall i | 0 <= i < |kept| ensures Fits(kept[i]) && kept[i].name != TRAILER {
      assert kept[i].name in NamesOf(kept);
    }
    RoundTrip(kept, t, []);
    assert (es + [t])[..|es|] == es && (kept + [t])[..|kept|] == kept;
    assert ArchiveBytes(kept) + EntryBytes(t) + [] == ArchiveBytes(kept) + EntryBytes(t);
  }
}
