/** The panel timing as the driver programs it into two register banks, and as the separate decoder
    reads it back out of each. */
module Lt8911Timing {
  import opened Lt8911
  import opened Words

  /** One axis: active, back porch, front porch and sync width. */
  datatype Axis = Axis(act: nat, bp: nat, fp: nat, sync: nat)
  {
    function Sum(): nat { act + bp + fp + sync }

    /** The total lt8911exb_parse_dt computes, in 32 bits. */
    function Total(): nat { Sum() % U32_SPAN }
  }

  datatype Timing = Timing(h: Axis, v: Axis)

  function High(x: nat): Byte { x / 256 % 256 }
  function Low(x: nat): Byte { x % 256 }

  type Script = seq<(Byte, Byte)>

  /** lt8911exb_mipi_video_timing, behind the selection of bank d0. */
  function MipiScript(t: Timing): Script {
    [(0x0d, High(t.v.Total())), (0x0e, Low(t.v.Total())), (0x0f, High(t.v.act)), (0x10, Low(t.v.act)),
     (0x11, High(t.h.Total())), (0x12, Low(t.h.Total())), (0x13, High(t.h.act)), (0x14, Low(t.h.act)),
     (0x15, Low(t.v.sync)), (0x16, Low(t.h.sync)), (0x17, High(t.v.fp)), (0x18, Low(t.v.fp)),
     (0x19, High(t.h.fp)), (0x1a, Low(t.h.fp))]
  }

  /** lt8911exb_edp_video_cfg, behind the selection of bank a8. */
  function EdpScript(t: Timing): Script {
    var hs, vs := (t.h.sync + t.h.bp) % U32_SPAN, (t.v.sync + t.v.bp) % U32_SPAN;
    [(0x2d, 0x88), (0x05, High(t.h.Total())), (0x06, Low(t.h.Total())), (0x07, High(hs)), (0x08, Low(hs)),
     (0x09, High(t.h.sync)), (0x0a, Low(t.h.sync)), (0x0b, High(t.h.act)), (0x0c, Low(t.h.act)),
     (0x0d, High(t.v.Total())), (0x0e, Low(t.v.Total())), (0x11, High(vs)), (0x12, Low(vs)),
     (0x14, Low(t.v.sync)), (0x15, High(t.v.act)), (0x16, Low(t.v.act))]
  }

  /** A list of single register writes. */
  function RunScript(d: Device, s: Script): (r: Device)
    requires d.Whole()
    ensures r.Whole()
    decreases |s|
  {
    if s == [] then d else WriteByte(RunScript(d, s[..|s| - 1]), s[|s| - 1].0, s[|s| - 1].1)
  }

  /** No register twice, and none of them the bank selector. */
  ghost predicate Once(s: Script) {
    && (forall i :: 0 <= i < |s| ==> s[i].0 != BANK_SELECT)
    && (forall i, j :: 0 <= i < j < |s| ==> s[i].0 != s[j].0)
  }

  /** After such a list each register of the bank has what it was sent; no other bank changes. */
  lemma {:induction false} ScriptMeans(d: Device, s: Script)
    requires d.Whole() && Once(s)
    ensures RunScript(d, s).bank == d.bank
    ensures forall i :: 0 <= i < |s| ==> RunScript(d, s).regs[d.bank][s[i].0] == s[i].1
    ensures forall k :: 0 <= k < 256 && k != d.bank ==> RunScript(d, s).regs[k] == d.regs[k]
    decreases |s|
  {
    if s != [] {
      var n := |s| - 1;
      assert forall i :: 0 <= i < n ==> s[..n][i] == s[i];
      ScriptMeans(d, s[..n]);
    }
  }

  /** Registers in ascending order appear once. */
  lemma {:induction false} AscendingOnce(s: Script)
    requires forall i :: 0 <= i < |s| - 1 ==> s[i].0 < s[i + 1].0
    ensures forall i, j :: 0 <= i < j < |s| ==> s[i].0 < s[j].0
    decreases |s|
  {
    if |s| > 1 {
      var n := |s| - 1;
      assert forall i :: 0 <= i < n ==> s[..n][i] == s[i];
      AscendingOnce(s[..n]);
      forall i, j | 0 <= i < j < |s| ensures s[i].0 < s[j].0 {
        if j == n && i < n - 1 { assert s[..n][i].0 < s[..n][n - 1].0; }
      }
    }
  }

  lemma MipiOnce(t: Timing)
    ensures Once(MipiScript(t))
  {
    AscendingOnce(MipiScript(t));
  }

  lemma EdpOnce(t: Timing)
    ensures Once(EdpScript(t))
  {
    var s := EdpScript(t);
    AscendingOnce(s[1..]);
    assert forall i :: 0 < i < |s| ==> s[i] == s[1..][i - 1] && s[i].0 < 0x2d;
  }

  /** A timing axis as the decoder reports it; differences may come out negative. */
  datatype Decoded = Decoded(total: int, act: int, sync: int, fp: int, bp: int)

  /** pair */
  function Pair(r: seq<Byte>, hi: Byte): int
    requires |r| == 256 && hi < 255
  {
    r[hi] as int * 256 + r[hi + 1]
  }

  function Bank(d: Device, b: Byte): (r: seq<Byte>)
    requires d.Whole()
    ensures |r| == 256
  {
    d.regs[b]
  }

  /** The d0 dictionary: the back porch is what the other three leave of the total. */
  function DecodeMipi(r: seq<Byte>): (Decoded, Decoded)
    requires |r| == 256
  {
    var h := Decoded(Pair(r, 0x11), Pair(r, 0x13), r[0x16], Pair(r, 0x19), 0);
    var v := Decoded(Pair(r, 0x0d), Pair(r, 0x0f), r[0x15], Pair(r, 0x17), 0);
    (h.(bp := h.total - h.act - h.sync - h.fp), v.(bp := v.total - v.act - v.sync - v.fp))
  }

  /** The a8 dictionary: porches from the start of the active part. */
  function DecodeEdp(r: seq<Byte>): (Decoded, Decoded)
    requires |r| == 256
  {
    var hStart, vStart := Pair(r, 0x07), Pair(r, 0x11);
    var h := Decoded(Pair(r, 0x05), Pair(r, 0x0b), Pair(r, 0x09), 0, 0);
    var v := Decoded(Pair(r, 0x0d), Pair(r, 0x15), r[0x14], 0, 0);
    (h.(bp := hStart - h.sync, fp := h.total - h.act - hStart),
     v.(bp := vStart - v.sync, fp := v.total - v.act - vStart))
  }

  function Exact(a: Axis): Decoded { Decoded(a.Sum(), a.act, a.sync, a.fp, a.bp) }

  lemma MipiTable(r: seq<Byte>, t: Timing)
    requires |r| == 256 && forall i :: 0 <= i < |MipiScript(t)| ==> r[MipiScript(t)[i].0] == MipiScript(t)[i].1
    ensures DecodeMipi(r) == (MipiAxis(t.h), MipiAxis(t.v))
  {
    hide High, Low;
    var s := MipiScript(t);
    assert r[s[0].0] == s[0].1 && r[s[1].0] == s[1].1 && r[s[2].0] == s[2].1 && r[s[3].0] == s[3].1;
    assert r[s[4].0] == s[4].1 && r[s[5].0] == s[5].1 && r[s[6].0] == s[6].1 && r[s[7].0] == s[7].1;
    assert r[s[8].0] == s[8].1 && r[s[9].0] == s[9].1 && r[s[10].0] == s[10].1 && r[s[11].0] == s[11].1;
    assert r[s[12].0] == s[12].1 && r[s[13].0] == s[13].1;
  }

  /** What the two axes decode to from bank d0. */
  lemma MipiDecodes(d: Device, t: Timing)
    requires d.Whole() && d.bank == 0xd0
    ensures DecodeMipi(Bank(RunScript(d, MipiScript(t)), 0xd0)) == (MipiAxis(t.h), MipiAxis(t.v))
  {
    hide High, Low, RunScript;
    var s := MipiScript(t);
    MipiOnce(t);
    ScriptMeans(d, s);
    MipiTable(Bank(RunScript(d, s), 0xd0), t);
  }

  function Two(x: nat): int { High(x) as int * 256 + Low(x) }

  function TwoOfWord(x: nat): int { Two(x % U32_SPAN) }

  lemma TwoBytes(x: nat)
    ensures 0 <= Two(x) < 65536 && (x < 65536 ==> Two(x) == x)
  {
  }

  lemma TwoBytesOfWord(x: nat)
    ensures 0 <= TwoOfWord(x) < 65536 && (x < 65536 ==> TwoOfWord(x) == x)
  {
    TwoBytes(x % U32_SPAN);
  }

  lemma OneByte(x: nat)
    ensures Low(x) == x <==> x < 256
  {
  }

  function MipiAxis(a: Axis): Decoded {
    var r := Decoded(TwoOfWord(a.Sum()), Two(a.act), Low(a.sync), Two(a.fp), 0);
    r.(bp := r.total - r.act - r.sync - r.fp)
  }

  /** From bank d0 an axis decodes exactly when its total fits 16 bits and its sync width 8. */
  lemma MipiAxisExactly(a: Axis)
    ensures MipiAxis(a) == Exact(a) <==> a.Sum() < 65536 && a.sync < 256
  {
    hide Two, TwoOfWord, Low;
    TwoBytesOfWord(a.Sum());
    TwoBytes(a.act);
    TwoBytes(a.fp);
    OneByte(a.sync);
  }

  function EdpAxisH(a: Axis): Decoded {
    var start := TwoOfWord(a.sync + a.bp);
    Decoded(TwoOfWord(a.Sum()), Two(a.act), Two(a.sync), TwoOfWord(a.Sum()) - Two(a.act) - start, start - Two(a.sync))
  }

  function EdpAxisV(a: Axis): Decoded {
    var start := TwoOfWord(a.sync + a.bp);
    Decoded(TwoOfWord(a.Sum()), Two(a.act), Low(a.sync), TwoOfWord(a.Sum()) - Two(a.act) - start, start - Low(a.sync))
  }

  lemma EdpDecodes(d: Device, t: Timing)
    requires d.Whole() && d.bank == 0xa8
    ensures DecodeEdp(Bank(RunScript(d, EdpScript(t)), 0xa8)) == (EdpAxisH(t.h), EdpAxisV(t.v))
  {
    hide High, Low, RunScript;
    var s := EdpScript(t);
    EdpOnce(t);
    ScriptMeans(d, s);
    EdpTable(Bank(RunScript(d, s), 0xa8), t);
  }

  lemma EdpTable(r: seq<Byte>, t: Timing)
    requires |r| == 256 && forall i :: 0 <= i < |EdpScript(t)| ==> r[EdpScript(t)[i].0] == EdpScript(t)[i].1
    ensures DecodeEdp(r) == (EdpAxisH(t.h), EdpAxisV(t.v))
  {
    hide High, Low;
    var s := EdpScript(t);
    assert r[s[1].0] == s[1].1 && r[s[2].0] == s[2].1 && r[s[3].0] == s[3].1 && r[s[4].0] == s[4].1;
    assert r[s[5].0] == s[5].1 && r[s[6].0] == s[6].1 && r[s[7].0] == s[7].1 && r[s[8].0] == s[8].1;
    assert r[s[9].0] == s[9].1 && r[s[10].0] == s[10].1 && r[s[11].0] == s[11].1 && r[s[12].0] == s[12].1;
    assert r[s[13].0] == s[13].1 && r[s[14].0] == s[14].1 && r[s[15].0] == s[15].1;
  }

  /** From bank a8 the horizontal axis needs only a total of 16 bits; the vertical sync width is stored in
      8 bits here too. */
  lemma EdpAxesExactly(a: Axis)
    ensures EdpAxisH(a) == Exact(a) <==> a.Sum() < 65536
    ensures EdpAxisV(a) == Exact(a) <==> a.Sum() < 65536 && a.sync < 256
  {
    hide Two, TwoOfWord, Low;
    TwoBytesOfWord(a.Sum());
    TwoBytesOfWord(a.sync + a.bp);
    TwoBytes(a.act);
    TwoBytes(a.sync);
    OneByte(a.sync);
  }

  class Bridge {
    const client: Client

    ghost predicate Valid()
      reads this, client
    {
      client.Valid() && client.Transient()
    }

    constructor (c: Client)
      requires c.Valid() && c.Transient()
      ensures Valid() && client == c
    {
      client := c;
    }

    /** The writes behind a bank selection, one register after the other. */
    method Program(bank: Byte, s: Script)
      requires Valid()
      modifies client
      ensures Valid() && client.dev == RunScript(old(client.dev).(bank := bank), s)
    {
      var ok := client.WriteReg(BANK_SELECT, bank);
      assert s[..0] == [];
      for i := 0 to |s|
        invariant Valid() && client.dev == RunScript(old(client.dev).(bank := bank), s[..i])
      {
        ok := client.WriteReg(s[i].0, s[i].1);
        assert s[..i + 1][..i] == s[..i];
      }
      assert s[..|s|] == s;
    }

    /** Programming both banks and decoding them. Each decodes to the timing that was programmed exactly
        when the totals fit 16 bits and the sync widths it stores in one register fit 8. */
    method ProgramAndDecode(t: Timing) returns (d0: (Decoded, Decoded), a8: (Decoded, Decoded))
      requires Valid()
      modifies client
      ensures Valid() && Bank(client.dev, 0xa8)[0x2d] == 0x88
      ensures d0 == (Exact(t.h), Exact(t.v)) <==>
        t.h.Sum() < 65536 && t.v.Sum() < 65536 && t.h.sync < 256 && t.v.sync < 256
      ensures a8 == (Exact(t.h), Exact(t.v)) <==> t.h.Sum() < 65536 && t.v.Sum() < 65536 && t.v.sync < 256
    {
      Program(0xd0, MipiScript(t));
      ghost var d := old(client.dev).(bank := 0xd0);
      MipiDecodes(d, t);
      ghost var mid := client.dev;
      Program(0xa8, EdpScript(t));
      EdpDecodes(mid.(bank := 0xa8), t);
      EdpRegisters(mid.(bank := 0xa8), t);
      BankSurvives(mid, t);
      d0 := DecodeMipi(Bank(client.dev, 0xd0));
      a8 := DecodeEdp(Bank(client.dev, 0xa8));
      MipiAxisExactly(t.h);
      MipiAxisExactly(t.v);
      EdpAxesExactly(t.h);
      EdpAxesExactly(t.v);
    }
  }

  /** The registers of bank d0 one by one: totals and active parts, porches and sync widths, high byte first. */
  lemma MipiRegisters(d: Device, t: Timing)
    requires d.Whole() && d.bank == 0xd0
    ensures var r := Bank(RunScript(d, MipiScript(t)), 0xd0);
      var hTotal, vTotal := t.h.Sum() % 0x1_0000_0000, t.v.Sum() % 0x1_0000_0000;
      && r[0x0d..0x1b] ==
        [vTotal / 256 % 256, vTotal % 256, t.v.act / 256 % 256, t.v.act % 256, hTotal / 256 % 256, hTotal % 256,
         t.h.act / 256 % 256, t.h.act % 256, t.v.sync % 256, t.h.sync % 256, t.v.fp / 256 % 256, t.v.fp % 256,
         t.h.fp / 256 % 256, t.h.fp % 256]
  {
    hide RunScript;
    var s := MipiScript(t);
    MipiOnce(t);
    ScriptMeans(d, s);
    var r := Bank(RunScript(d, s), 0xd0);
    forall i | 0 <= i < 14 ensures r[0x0d..0x1b][i] == s[i].1 { assert r[s[i].0] == s[i].1; }
  }

  /** Those of bank a8: its mode, and the same for its own layout, where porches are counted from the sync. */
  lemma EdpRegisters(d: Device, t: Timing)
    requires d.Whole() && d.bank == 0xa8
    ensures var r := Bank(RunScript(d, EdpScript(t)), 0xa8);
      var hTotal, vTotal := t.h.Sum() % 0x1_0000_0000, t.v.Sum() % 0x1_0000_0000;
      var hStart, vStart := (t.h.sync + t.h.bp) % 0x1_0000_0000, (t.v.sync + t.v.bp) % 0x1_0000_0000;
      && r[0x2d] == 0x88
      && r[0x05..0x0f] ==
        [hTotal / 256 % 256, hTotal % 256, hStart / 256 % 256, hStart % 256, t.h.sync / 256 % 256, t.h.sync % 256,
         t.h.act / 256 % 256, t.h.act % 256, vTotal / 256 % 256, vTotal % 256]
      && r[0x11] == vStart / 256 % 256 && r[0x12] == vStart % 256 && r[0x14] == t.v.sync % 256
      && r[0x15] == t.v.act / 256 % 256 && r[0x16] == t.v.act % 256
  {
    hide RunScript;
    var s := EdpScript(t);
    EdpOnce(t);
    ScriptMeans(d, s);
    var r := Bank(RunScript(d, s), 0xa8);
    forall i | 0 <= i < 10 ensures r[0x05..0x0f][i] == s[i + 1].1 { assert r[s[i + 1].0] == s[i + 1].1; }
    assert r[s[0].0] == s[0].1 && r[s[11].0] == s[11].1 && r[s[12].0] == s[12].1;
    assert r[s[13].0] == s[13].1 && r[s[14].0] == s[14].1 && r[s[15].0] == s[15].1;
  }

  /** Programming bank a8 leaves bank d0 alone. */
  lemma BankSurvives(d: Device, t: Timing)
    requires d.Whole()
    ensures Bank(RunScript(d.(bank := 0xa8), EdpScript(t)), 0xd0) == Bank(d, 0xd0)
  {
    EdpOnce(t);
    ScriptMeans(d.(bank := 0xa8), EdpScript(t));
  }
}
