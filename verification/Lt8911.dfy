/** The LT8911EXB display bridge: chunked register transfers with retries against a banked device. */
module Lt8911 {
  import opened Optional
  import opened Words

  const BANK_SELECT: Byte := 0xff
  const ADDR_LENGTH: nat := 1

  /** 256 banks of 256 registers; register 0xff of every bank selects the bank. */
  datatype Device = Device(bank: Byte, regs: seq<seq<Byte>>)
  {
    ghost predicate Whole() {
      |regs| == 256 && forall k :: 0 <= k < 256 ==> |regs[k]| == 256
    }
  }

  /** The register `i` places behind `addr`; addresses wrap in 8 bits. */
  function At(addr: Byte, i: nat): Byte { (addr + i) % 256 }

  function WriteByte(d: Device, a: Byte, b: Byte): (r: Device)
    requires d.Whole()
    ensures r.Whole()
  {
    if a == BANK_SELECT then d.(bank := b)
    else
      var row: seq<Byte> := d.regs[d.bank];
      d.(regs := d.regs[d.bank := row[a := b]])
  }

  /** A message of bytes for consecutive registers, as the device takes it. */
  function WriteRun(d: Device, addr: Byte, data: seq<Byte>): (r: Device)
    requires d.Whole()
    ensures r.Whole()
    decreases |data|
  {
    if data == [] then d
    else WriteByte(WriteRun(d, addr, data[..|data| - 1]), At(addr, |data| - 1), data[|data| - 1])
  }

  function ReadRun(d: Device, addr: Byte, n: nat): (r: seq<Byte>)
    requires d.Whole()
    ensures |r| == n
  {
    seq(n, i requires 0 <= i < n => if At(addr, i) == BANK_SELECT then d.bank else d.regs[d.bank][At(addr, i)])
  }

  /** At most one pass over the registers, and the bank is selected at the start if at all. */
  ghost predicate Safe(addr: Byte, n: nat) {
    n <= 256 && forall i :: 0 < i < n ==> At(addr, i) != BANK_SELECT
  }

  /** At most one pass over the registers, and the selector, where it is met later on, is sent bank `b`. */
  ghost predicate Keeps(b: Byte, addr: Byte, data: seq<Byte>) {
    |data| <= 256 && forall i :: 0 < i < |data| && At(addr, i) == BANK_SELECT ==> data[i] == b
  }

  /** The bank the bytes behind the first end up in. */
  function BankOf(d: Device, addr: Byte, data: seq<Byte>): Byte {
    if data != [] && addr == BANK_SELECT then data[0] else d.bank
  }

  lemma AtZero(addr: Byte)
    ensures At(addr, 0) == addr
  {
  }

  lemma AtAt(addr: Byte, i: nat, j: nat)
    ensures At(At(addr, i), j) == At(addr, i + j)
  {
  }

  lemma AtDistinct(addr: Byte, i: nat, j: nat)
    requires i < j < 256
    ensures At(addr, i) != At(addr, j)
  {
  }

  /** Byte by byte: each register of the run holds what it was sent, and no other register of any bank
      changes. */
  lemma {:induction false} RunMeans(d: Device, addr: Byte, data: seq<Byte>)
    requires d.Whole() && Keeps(d.bank, addr, data)
    ensures WriteRun(d, addr, data).bank == BankOf(d, addr, data)
    ensures forall i :: 0 <= i < |data| && At(addr, i) != BANK_SELECT ==>
      WriteRun(d, addr, data).regs[BankOf(d, addr, data)][At(addr, i)] == data[i]
    ensures forall k, a :: 0 <= k < 256 && 0 <= a < 256 && k != BankOf(d, addr, data) ==>
      WriteRun(d, addr, data).regs[k][a] == d.regs[k][a]
    ensures forall k, a :: 0 <= k < 256 && 0 <= a < 256 && (forall i :: 0 <= i < |data| ==> At(addr, i) != a) ==>
      WriteRun(d, addr, data).regs[k][a] == d.regs[k][a]
    decreases |data|
  {
    if data != [] {
      var n := |data| - 1;
      assert forall i :: 0 <= i < n ==> data[..n][i] == data[i];
      RunMeans(d, addr, data[..n]);
      var before, after := WriteRun(d, addr, data[..n]), WriteRun(d, addr, data);
      forall i | 0 <= i < |data| && At(addr, i) != BANK_SELECT
        ensures after.regs[BankOf(d, addr, data)][At(addr, i)] == data[i]
      {
        if i < n { AtDistinct(addr, i, n); assert data[..n][i] == data[i]; }
      }
      AtZero(addr);
      if 0 < n { AtDistinct(addr, 0, n); }
    }
  }

  /** In numbers, for a run that neither wraps nor meets the selector: byte `i` goes to register `addr + i`, and the
      registers before and behind the run are kept. */
  lemma RunAscends(d: Device, addr: Byte, data: seq<Byte>, a: Byte)
    requires d.Whole() && addr + |data| <= 255 && a < 255
    ensures WriteRun(d, addr, data).bank == d.bank
    ensures WriteRun(d, addr, data).regs[d.bank][a] ==
      if addr <= a < addr + |data| then data[a - addr] else d.regs[d.bank][a]
  {
    RunMeans(d, addr, data);
    if addr <= a < addr + |data| { assert At(addr, a - addr) == a; }
  }

  /** What is written can be read back, where the run leaves the bank alone. */
  lemma WriteThenRead(d: Device, addr: Byte, data: seq<Byte>)
    requires d.Whole() && Keeps(d.bank, addr, data)
    ensures ReadRun(WriteRun(d, addr, data), addr, |data|) == data
  {
    RunMeans(d, addr, data);
    AtZero(addr);
    var r := ReadRun(WriteRun(d, addr, data), addr, |data|);
    forall i | 0 <= i < |data| ensures r[i] == data[i] {
      if At(addr, i) == BANK_SELECT && 0 < i { AtDistinct(addr, 0, i); }
    }
  }

  /** Two devices with the same bank and registers are the same. */
  lemma SameDevice(d: Device, e: Device)
    requires d.Whole() && e.Whole() && d.bank == e.bank
    requires forall k, a :: 0 <= k < 256 && 0 <= a < 256 ==> d.regs[k][a] == e.regs[k][a]
    ensures d == e
  {
    forall k | 0 <= k < 256 ensures d.regs[k] == e.regs[k] {
      assert forall a :: 0 <= a < 256 ==> d.regs[k][a] == e.regs[k][a];
    }
    assert d.regs == e.regs;
  }

  /** A message that was cut off and is sent again leaves what sending it once would have left. */
  lemma Resend(d: Device, addr: Byte, data: seq<Byte>, k: nat)
    requires d.Whole() && Keeps(d.bank, addr, data) && k <= |data|
    ensures WriteRun(WriteRun(d, addr, data[..k]), addr, data) == WriteRun(d, addr, data)
  {
    hide At, WriteByte, WriteRun;
    var part := WriteRun(d, addr, data[..k]);
    PartKeeps(d, addr, data, k);
    RunMeans(d, addr, data[..k]);
    RunMeans(part, addr, data);
    RunMeans(d, addr, data);
    var x, y := WriteRun(part, addr, data), WriteRun(d, addr, data);
    assert k > 0 ==> data[..k][0] == data[0];
    forall b, a | 0 <= b < 256 && 0 <= a < 256 ensures x.regs[b][a] == y.regs[b][a] {
      ResendByte(d, addr, data, k, b, a);
    }
    SameDevice(x, y);
  }

  lemma ResendByte(d: Device, addr: Byte, data: seq<Byte>, k: nat, b: nat, a: nat)
    requires d.Whole() && Keeps(d.bank, addr, data) && k <= |data| && b < 256 && a < 256
    ensures WriteRun(WriteRun(d, addr, data[..k]), addr, data).regs[b][a] == WriteRun(d, addr, data).regs[b][a]
  {
    hide At, WriteByte, WriteRun;
    var part := WriteRun(d, addr, data[..k]);
    PartKeeps(d, addr, data, k);
    RunMeans(d, addr, data[..k]);
    RunMeans(part, addr, data);
    RunMeans(d, addr, data);
    assert k > 0 ==> data[..k][0] == data[0];
    if b == BankOf(d, addr, data) && exists i :: 0 <= i < |data| && At(addr, i) == a {
      var i :| 0 <= i < |data| && At(addr, i) == a;
      if a == BANK_SELECT {
        SelectorKept(d, addr, data[..k], b);
        SelectorKept(part, addr, data, b);
        SelectorKept(d, addr, data, b);
      }
    }
  }

  /** A beginning of such a run leaves a device on which the whole run is one again. */
  lemma PartKeeps(d: Device, addr: Byte, data: seq<Byte>, k: nat)
    requires d.Whole() && Keeps(d.bank, addr, data) && k <= |data|
    ensures Keeps(d.bank, addr, data[..k]) && Keeps(WriteRun(d, addr, data[..k]).bank, addr, data)
  {
    hide At, WriteByte, WriteRun;
    assert Keeps(d.bank, addr, data[..k]);
    RunMeans(d, addr, data[..k]);
    AtZero(addr);
    if addr == BANK_SELECT {
      forall i | 0 < i < |data| ensures At(addr, i) != BANK_SELECT { AtDistinct(addr, 0, i); }
    }
  }

  /** The place of the bank selector is never written as a register. */
  lemma {:induction false} SelectorKept(d: Device, addr: Byte, data: seq<Byte>, b: nat)
    requires d.Whole() && b < 256
    ensures WriteRun(d, addr, data).regs[b][BANK_SELECT] == d.regs[b][BANK_SELECT]
    decreases |data|
  {
    if data != [] { SelectorKept(d, addr, data[..|data| - 1], b); }
  }

  /** A run is the run of its first part, and of the rest from where that ends. */
  lemma {:induction false} RunConcat(d: Device, addr: Byte, x: seq<Byte>, y: seq<Byte>)
    requires d.Whole()
    ensures WriteRun(d, addr, x + y) == WriteRun(WriteRun(d, addr, x), At(addr, |x|), y)
    decreases |y|
  {
    hide At;
    var s := x + y;
    if y == [] {
      assert s == x;
    } else {
      RunConcat(d, addr, x, y[..|y| - 1]);
      assert s[..|s| - 1] == x + y[..|y| - 1];
      AtAt(addr, |x|, |y| - 1);
    }
  }

  lemma ReadConcat(d: Device, addr: Byte, m: nat, n: nat)
    requires d.Whole()
    ensures ReadRun(d, addr, m + n) == ReadRun(d, addr, m) + ReadRun(d, At(addr, m), n)
  {
    hide At;
    forall i | 0 <= i < n ensures At(At(addr, m), i) == At(addr, m + i) { AtAt(addr, m, i); }
  }

  /** A stretch of such a run is one by itself, on the device that the run has come to. */
  lemma StretchKeeps(d: Device, addr: Byte, data: seq<Byte>, pos: nat, len: nat)
    requires d.Whole() && Keeps(d.bank, addr, data) && pos + len <= |data|
    ensures Keeps(WriteRun(d, addr, data[..pos]).bank, At(addr, pos), data[pos..pos + len])
  {
    hide At, WriteByte, WriteRun;
    PartKeeps(d, addr, data, pos);
    forall i | 0 < i < len && At(At(addr, pos), i) == BANK_SELECT
      ensures data[pos + i] == WriteRun(d, addr, data[..pos]).bank
    {
      AtAt(addr, pos, i);
    }
  }

  /** Split where the run meets the bank selector, `i` places in, both parts are safe. */
  lemma SplitSafe(addr: Byte, n: nat, i: nat)
    requires 0 < i < n <= 256 && At(addr, i) == BANK_SELECT
    ensures addr != BANK_SELECT && Safe(addr, i) && Safe(BANK_SELECT, n - i)
  {
    hide At;
    AtZero(addr);
    AtDistinct(addr, 0, i);
    forall j | 0 < j < i ensures At(addr, j) != BANK_SELECT { AtDistinct(addr, j, i); }
    AtZero(BANK_SELECT);
    forall j | 0 < j < n - i ensures At(BANK_SELECT, j) != BANK_SELECT { AtDistinct(BANK_SELECT, 0, j); }
  }

  /** The bytes behind the selector are in the bank it was sent, which the device is left in. */
  lemma BehindSelector(d: Device, addr: Byte, data: seq<Byte>, i: nat, j: nat)
    requires d.Whole() && 0 < i < |data| <= 256 && At(addr, i) == BANK_SELECT && i <= j < |data|
    ensures WriteRun(d, addr, data).bank == data[i]
    ensures j > i ==> WriteRun(d, addr, data).regs[data[i]][At(addr, j)] == data[j]
  {
    hide At, WriteByte, WriteRun;
    var x, y := data[..i], data[i..];
    SplitSafe(addr, |data|, i);
    RunConcat(d, addr, x, y);
    assert x + y == data;
    RunMeans(WriteRun(d, addr, x), BANK_SELECT, y);
    AtAt(addr, i, j - i);
    assert y[0] == data[i] && y[j - i] == data[j];
  }

  /** The bytes before it are in the bank the device was in. */
  lemma BeforeSelector(d: Device, addr: Byte, data: seq<Byte>, i: nat, j: nat)
    requires d.Whole() && 0 < i < |data| <= 256 && At(addr, i) == BANK_SELECT && j < i
    ensures WriteRun(d, addr, data).regs[data[i]][At(addr, j)] ==
      if data[i] == d.bank then data[j] else d.regs[data[i]][At(addr, j)]
  {
    hide At, WriteByte, WriteRun;
    var x, y := data[..i], data[i..];
    SplitSafe(addr, |data|, i);
    RunConcat(d, addr, x, y);
    assert x + y == data;
    RunMeans(d, addr, x);
    RunMeans(WriteRun(d, addr, x), BANK_SELECT, y);
    AtDistinct(addr, j, i);
    forall m | 0 <= m < |y| ensures At(BANK_SELECT, m) != At(addr, j) { AtAt(addr, i, m); AtDistinct(addr, j, i + m); }
    assert x[j] == data[j] && y[0] == data[i];
  }

  /** Reading back gives what was written, on every device in bank `b`, exactly when the selector, if the run meets it
      behind its first byte, is sent the bank the device is in already. */
  lemma ReadBackExactly(addr: Byte, data: seq<Byte>, b: Byte)
    requires |data| <= 256
    ensures (forall d: Device :: d.Whole() && d.bank == b ==>
      ReadRun(WriteRun(d, addr, data), addr, |data|) == data) <==>
      Keeps(b, addr, data)
  {
    hide At, WriteByte, WriteRun;
    if Keeps(b, addr, data) {
      forall d: Device | d.Whole() && d.bank == b ensures ReadRun(WriteRun(d, addr, data), addr, |data|) == data {
        WriteThenRead(d, addr, data);
      }
    } else {
      var i :| 0 < i < |data| && At(addr, i) == BANK_SELECT && data[i] != b;
      var other: Byte := if data[0] == 0 then 1 else 0;
      var d := Device(b, seq(256, _ => seq(256, _ => other)));
      BehindSelector(d, addr, data, i, i);
      BeforeSelector(d, addr, data, i, 0);
      AtDistinct(addr, 0, i);
      assert ReadRun(WriteRun(d, addr, data), addr, |data|)[0] == other;
    }
  }

  // -------------------------------------------------- across the selector, with failures that have effect

  /** The run touches no register behind other addresses, in any bank. */
  lemma {:induction false} RunFrame(d: Device, addr: Byte, data: seq<Byte>, k: nat, a: nat)
    requires d.Whole() && k < 256 && a < 256 && forall i :: 0 <= i < |data| ==> At(addr, i) != a
    ensures WriteRun(d, addr, data).regs[k][a] == d.regs[k][a]
    decreases |data|
  {
    hide At;
    if data != [] { RunFrame(d, addr, data[..|data| - 1], k, a); }
  }

  /** Every byte of a run that meets the selector `i` places in is where it was meant to be: before the selector in the
      bank the device was in, behind it in the bank that was selected; and no other address was touched. */
  ghost predicate Placed(was: Device, d: Device, addr: Byte, data: seq<Byte>, i: nat)
    requires was.Whole() && d.Whole() && i < |data|
  {
    && d.bank == data[i]
    && (forall j :: 0 <= j < i ==> d.regs[was.bank][At(addr, j)] == data[j])
    && (forall j :: i < j < |data| ==> d.regs[data[i]][At(addr, j)] == data[j])
    && Untouched(was, d, addr, |data|)
  }

  ghost predicate Untouched(was: Device, d: Device, addr: Byte, n: nat)
    requires was.Whole() && d.Whole()
  {
    forall k, a :: 0 <= k < 256 && 0 <= a < 256 && (forall i :: 0 <= i < n ==> At(addr, i) != a) ==>
      d.regs[k][a] == was.regs[k][a]
  }

  /** A run that does not meet the selector stays in the bank. */
  lemma InBank(d: Device, addr: Byte, x: seq<Byte>)
    requires d.Whole() && |x| <= 256 && forall i :: 0 <= i < |x| ==> At(addr, i) != BANK_SELECT
    ensures WriteRun(d, addr, x).bank == d.bank
    ensures forall j :: 0 <= j < |x| ==> WriteRun(d, addr, x).regs[d.bank][At(addr, j)] == x[j]
  {
    hide At, WriteByte, WriteRun;
    AtZero(addr);
    RunMeans(d, addr, x);
  }

  lemma BeforeInOldBank(d: Device, addr: Byte, data: seq<Byte>, i: nat, j: nat)
    requires d.Whole() && 0 < i < |data| <= 256 && At(addr, i) == BANK_SELECT && j < i
    ensures WriteRun(d, addr, data).regs[d.bank][At(addr, j)] == data[j]
  {
    hide At, WriteByte, WriteRun;
    var x, y := data[..i], data[i..];
    assert x + y == data && x[j] == data[j];
    RunConcat(d, addr, x, y);
    RunUntouched(WriteRun(d, addr, x), BANK_SELECT, y, |y|);
    BeforeStays(d, WriteRun(d, addr, x), WriteRun(d, addr, data), addr, x, |y|, 0, j);
  }

  lemma RunUntouched(d: Device, addr: Byte, data: seq<Byte>, n: nat)
    requires d.Whole() && |data| <= n
    ensures Untouched(d, WriteRun(d, addr, data), addr, n)
  {
    hide At, WriteRun;
    forall k, a | 0 <= k < 256 && 0 <= a < 256 && (forall i :: 0 <= i < n ==> At(addr, i) != a)
      ensures WriteRun(d, addr, data).regs[k][a] == d.regs[k][a]
    {
      RunFrame(d, addr, data, k, a);
    }
  }

  lemma RunPlaces(d: Device, addr: Byte, data: seq<Byte>, i: nat)
    requires d.Whole() && 0 < i < |data| <= 256 && At(addr, i) == BANK_SELECT
    ensures Placed(d, WriteRun(d, addr, data), addr, data, i)
  {
    hide At, WriteByte, WriteRun, Untouched;
    RunUntouched(d, addr, data, |data|);
    BehindSelector(d, addr, data, i, i);
    forall j | 0 <= j < i ensures WriteRun(d, addr, data).regs[d.bank][At(addr, j)] == data[j] {
      BeforeInOldBank(d, addr, data, i, j);
    }
    forall j | i < j < |data| ensures WriteRun(d, addr, data).regs[data[i]][At(addr, j)] == data[j] {
      BehindSelector(d, addr, data, i, j);
    }
  }

  /** Where failed attempts at such a message can have left the device: still in its bank, or behind the selector with
      everything before it in place. */
  ghost predicate OnTheWay(was: Device, d: Device, addr: Byte, data: seq<Byte>, i: nat)
    requires was.Whole() && d.Whole() && i < |data|
  {
    && Untouched(was, d, addr, |data|)
    && (d.bank == was.bank ||
      (d.bank == data[i] && forall j :: 0 <= j < i ==> d.regs[was.bank][At(addr, j)] == data[j]))
  }

  lemma SelectorOnce(addr: Byte, n: nat, i: nat, j: nat)
    requires i < n <= 256 && At(addr, i) == BANK_SELECT && j < n && At(addr, j) == BANK_SELECT
    ensures i == j
  {
    hide At;
    if i < j { AtDistinct(addr, i, j); } else if j < i { AtDistinct(addr, j, i); }
  }

  lemma SelectedKeeps(addr: Byte, data: seq<Byte>, i: nat, k: nat)
    requires 0 < i < |data| <= 256 && At(addr, i) == BANK_SELECT && k <= |data|
    ensures Keeps(data[i], addr, data[..k]) && addr != BANK_SELECT
  {
    hide At;
    AtZero(addr);
    AtDistinct(addr, 0, i);
    forall j | 0 < j < k && At(addr, j) == BANK_SELECT ensures data[j] == data[i] { SelectorOnce(addr, |data|, i, j); }
  }

  /** An attempt that stops after `k` bytes, from there. */
  lemma AttemptStops(was: Device, d: Device, addr: Byte, data: seq<Byte>, i: nat, k: nat)
    requires was.Whole() && d.Whole() && 0 < i < |data| <= 256 && At(addr, i) == BANK_SELECT && k <= |data|
    requires OnTheWay(was, d, addr, data, i)
    ensures OnTheWay(was, WriteRun(d, addr, data[..k]), addr, data, i)
    ensures k == |data| ==> Placed(was, WriteRun(d, addr, data), addr, data, i)
  {
    var part, e := data[..k], WriteRun(d, addr, data[..k]);
    assert k == |data| ==> part == data;
    RunUntouched(d, addr, part, |data|);
    assert Untouched(was, e, addr, |data|);
    hide At, WriteByte, WriteRun, Untouched;
    SelectedKeeps(addr, data, i, k);
    if d.bank == data[i] {
      RunMeans(d, addr, part);
      InPlace(was, d, addr, data, i, k);
    } else if k <= i {
      forall j | 0 < j < k ensures At(addr, j) != BANK_SELECT {
        if At(addr, j) == BANK_SELECT { SelectorOnce(addr, |data|, i, j); }
      }
      RunMeans(d, addr, part);
    } else {
      RunPlaces(d, addr, part, i);
    }
  }

  /** A run inside the selected bank: what was in place before stays, and what is sent is in place. */
  lemma InPlace(was: Device, d: Device, addr: Byte, data: seq<Byte>, i: nat, k: nat)
    requires was.Whole() && d.Whole() && 0 < i < |data| <= 256 && At(addr, i) == BANK_SELECT && k <= |data|
    requires d.bank == data[i]
    requires d.bank == was.bank || forall j :: 0 <= j < i ==> d.regs[was.bank][At(addr, j)] == data[j]
    ensures d.bank != was.bank || k == |data| ==>
      forall j :: 0 <= j < i ==> WriteRun(d, addr, data[..k]).regs[was.bank][At(addr, j)] == data[j]
    ensures k == |data| ==> forall j :: i < j < |data| ==> WriteRun(d, addr, data).regs[data[i]][At(addr, j)] == data[j]
  {
    hide At, WriteByte, WriteRun;
    SelectedKeeps(addr, data, i, k);
    var part := data[..k];
    RunMeans(d, addr, part);
    assert k == |data| ==> part == data;
    forall j | 0 <= j < |data| && j != i ensures At(addr, j) != BANK_SELECT {
      if At(addr, j) == BANK_SELECT { SelectorOnce(addr, |data|, i, j); }
    }
    assert forall j :: 0 <= j < k ==> part[j] == data[j];
  }

  /** More of the run, behind a part that is in place. */
  lemma PlacedOn(was: Device, d: Device, addr: Byte, x: seq<Byte>, y: seq<Byte>, i: nat)
    requires was.Whole() && d.Whole() && 0 < i < |x| && |x| + |y| <= 256 && At(addr, i) == BANK_SELECT
    requires Placed(was, d, addr, x, i)
    ensures Keeps(d.bank, At(addr, |x|), y) && Placed(was, WriteRun(d, At(addr, |x|), y), addr, x + y, i)
  {
    hide At, WriteByte, WriteRun;
    var next, e := At(addr, |x|), WriteRun(d, At(addr, |x|), y);
    forall m | 0 <= m < |y| ensures At(next, m) == At(addr, |x| + m) != BANK_SELECT {
      AtAt(addr, |x|, m);
      AtDistinct(addr, i, |x| + m);
    }
    AtZero(next);
    RunMeans(d, next, y);
    forall j | 0 <= j < |x| ensures forall k :: 0 <= k < 256 ==> e.regs[k][At(addr, j)] == d.regs[k][At(addr, j)] {
      forall m | 0 <= m < |y| ensures At(next, m) != At(addr, j) { AtDistinct(addr, j, |x| + m); }
      forall k | 0 <= k < 256 ensures e.regs[k][At(addr, j)] == d.regs[k][At(addr, j)] {
        RunFrame(d, next, y, k, At(addr, j));
      }
    }
    forall j | |x| <= j < |x + y| ensures e.regs[x[i]][At(addr, j)] == (x + y)[j] {
      assert At(next, j - |x|) == At(addr, j);
    }
    FrameOn(was, d, addr, x, y);
  }

  lemma FrameOn(was: Device, d: Device, addr: Byte, x: seq<Byte>, y: seq<Byte>)
    requires was.Whole() && d.Whole() && Untouched(was, d, addr, |x|)
    ensures Untouched(was, WriteRun(d, At(addr, |x|), y), addr, |x| + |y|)
  {
    hide At, WriteRun;
    var next := At(addr, |x|);
    forall k, a | 0 <= k < 256 && 0 <= a < 256 && (forall i :: 0 <= i < |x| + |y| ==> At(addr, i) != a)
      ensures WriteRun(d, next, y).regs[k][a] == was.regs[k][a]
    {
      forall m | 0 <= m < |y| ensures At(next, m) != a { AtAt(addr, |x|, m); }
      RunFrame(d, next, y, k, a);
    }
  }

  lemma FrameBehind(was: Device, d: Device, e: Device, addr: Byte, x: seq<Byte>, n: nat)
    requires was.Whole() && d.Whole() && e.Whole() && d == WriteRun(was, addr, x) && Untouched(d, e, At(addr, |x|), n)
    ensures Untouched(was, e, addr, |x| + n)
  {
    hide At, WriteRun;
    forall k, a | 0 <= k < 256 && 0 <= a < 256 && (forall i :: 0 <= i < |x| + n ==> At(addr, i) != a)
      ensures e.regs[k][a] == was.regs[k][a]
    {
      forall i | 0 <= i < n ensures At(At(addr, |x|), i) != a { AtAt(addr, |x|, i); }
      RunFrame(was, addr, x, k, a);
    }
  }

  /** A register before the stretch of `n` keeps its value. */
  lemma KeptBefore(d: Device, e: Device, addr: Byte, pos: nat, n: nat, k: nat, j: nat)
    requires d.Whole() && e.Whole() && pos + n <= 256 && j < pos && k < 256 && Untouched(d, e, At(addr, pos), n)
    ensures e.regs[k][At(addr, j)] == d.regs[k][At(addr, j)]
  {
    hide At;
    forall i | 0 <= i < n ensures At(At(addr, pos), i) != At(addr, j) {
      AtAt(addr, pos, i);
      AtDistinct(addr, j, pos + i);
    }
  }

  lemma Unstarted(d: Device, addr: Byte, data: seq<Byte>, i: nat)
    requires d.Whole() && i < |data|
    ensures OnTheWay(d, d, addr, data, i)
  {
  }

  /** A message that meets the selector, behind a part that does not. */
  lemma PlacedBehind(was: Device, d: Device, e: Device, addr: Byte, x: seq<Byte>, y: seq<Byte>, m: nat)
    requires was.Whole() && d.Whole() && e.Whole() && |x| + |y| <= 256 && m < |y| && At(addr, |x| + m) == BANK_SELECT
    requires 0 < |x| + m && d == WriteRun(was, addr, x) && Placed(d, e, At(addr, |x|), y, m)
    ensures Placed(was, e, addr, x + y, |x| + m)
  {
    hide At, WriteByte, WriteRun, Untouched;
    FrameBehind(was, d, e, addr, x, |y|);
    forall j | 0 <= j < |x| ensures e.regs[was.bank][At(addr, j)] == (x + y)[j] {
      BeforeStays(was, d, e, addr, x, |y|, m, j);
    }
    InBankBehind(was, addr, x, m);
    forall j | |x| <= j < |x + y| ensures At(At(addr, |x|), j - |x|) == At(addr, j) && (x + y)[j] == y[j - |x|] {
      AtAt(addr, |x|, j - |x|);
    }
  }

  lemma InBankBehind(was: Device, addr: Byte, x: seq<Byte>, m: nat)
    requires was.Whole() && |x| + m < 256 && At(addr, |x| + m) == BANK_SELECT
    ensures WriteRun(was, addr, x).bank == was.bank
    ensures forall j :: 0 <= j < |x| ==> WriteRun(was, addr, x).regs[was.bank][At(addr, j)] == x[j]
  {
    hide At, WriteByte, WriteRun;
    forall j | 0 <= j < |x| ensures At(addr, j) != BANK_SELECT { AtDistinct(addr, j, |x| + m); }
    InBank(was, addr, x);
  }

  /** A byte before the message stays where the part before put it. */
  lemma BeforeStays(was: Device, d: Device, e: Device, addr: Byte, x: seq<Byte>, n: nat, m: nat, j: nat)
    requires was.Whole() && d.Whole() && e.Whole() && |x| + n <= 256 && m < n && At(addr, |x| + m) == BANK_SELECT
    requires d == WriteRun(was, addr, x) && Untouched(d, e, At(addr, |x|), n) && j < |x|
    ensures e.regs[was.bank][At(addr, j)] == x[j]
  {
    hide At, WriteByte, WriteRun, Untouched;
    InBankBehind(was, addr, x, m);
    KeptBefore(d, e, addr, |x|, n, was.bank, j);
  }

  /** One attempt, from wherever earlier ones left the device. */
  lemma AttemptMade(was: Device, d: Device, e: Device, addr: Byte, data: seq<Byte>, whole: bool)
    requires was.Whole() && d.Whole() && e.Whole()
    requires if whole then e == WriteRun(d, addr, data)
             else exists k: nat :: k <= |data| && e == WriteRun(d, addr, data[..k])
    requires |data| <= 256 ==> forall i :: 0 < i < |data| && At(addr, i) == BANK_SELECT ==>
      OnTheWay(was, d, addr, data, i)
    ensures |data| <= 256 ==> forall i :: 0 < i < |data| && At(addr, i) == BANK_SELECT ==>
      OnTheWay(was, e, addr, data, i) && (whole ==> Placed(was, e, addr, data, i))
  {
    hide At, WriteRun, Placed, OnTheWay;
    assert data[..|data|] == data;
    var k: nat :| k <= |data| && e == WriteRun(d, addr, data[..k]) && (whole ==> k == |data|);
    if |data| <= 256 {
      forall i | 0 < i < |data| && At(addr, i) == BANK_SELECT
        ensures OnTheWay(was, e, addr, data, i) && (whole ==> Placed(was, e, addr, data, i))
      {
        AttemptStops(was, d, addr, data, i, k);
      }
    }
  }

  /** What a message that went through has done, whatever failed attempts did before it. */
  ghost predicate Sent(was: Device, d: Device, addr: Byte, data: seq<Byte>)
    requires was.Whole() && d.Whole()
  {
    && (Keeps(was.bank, addr, data) ==> d == WriteRun(was, addr, data))
    && (|data| <= 256 ==> forall i :: 0 < i < |data| && At(addr, i) == BANK_SELECT ==> Placed(was, d, addr, data, i))
  }

  lemma SentNothing(d: Device, addr: Byte)
    requires d.Whole()
    ensures Sent(d, d, addr, [])
  {
  }

  /** Messages one behind the other do what one message does. */
  lemma SentOn(was: Device, d: Device, e: Device, addr: Byte, x: seq<Byte>, y: seq<Byte>)
    requires was.Whole() && d.Whole() && e.Whole() && Sent(was, d, addr, x) && Sent(d, e, At(addr, |x|), y)
    ensures Sent(was, e, addr, x + y)
  {
    hide At, WriteByte, WriteRun, Placed;
    if Keeps(was.bank, addr, x + y) {
      assert (x + y)[..|x|] == x && (x + y)[|x|..|x| + |y|] == y;
      PartKeeps(was, addr, x + y, |x|);
      StretchKeeps(was, addr, x + y, |x|, |y|);
      RunConcat(was, addr, x, y);
    }
    if |x + y| <= 256 {
      forall i | 0 < i < |x + y| && At(addr, i) == BANK_SELECT ensures Placed(was, e, addr, x + y, i) {
        if i < |x| { PlacedOn(was, d, addr, x, y, i); } else { SentAcross(was, d, e, addr, x, y, i - |x|); }
      }
    }
  }

  lemma SentAcross(was: Device, d: Device, e: Device, addr: Byte, x: seq<Byte>, y: seq<Byte>, m: nat)
    requires was.Whole() && d.Whole() && e.Whole() && Sent(was, d, addr, x) && Sent(d, e, At(addr, |x|), y)
    requires |x| + |y| <= 256 && m < |y| && 0 < |x| + m && At(addr, |x| + m) == BANK_SELECT
    ensures Placed(was, e, addr, x + y, |x| + m)
  {
    hide At, WriteByte, WriteRun, Placed;
    forall j | 0 < j < |x| ensures At(addr, j) != BANK_SELECT { AtDistinct(addr, j, |x| + m); }
    assert d == WriteRun(was, addr, x);
    AtAt(addr, |x|, m);
    if m > 0 {
      PlacedBehind(was, d, e, addr, x, y, m);
    } else {
      AtZero(At(addr, |x|));
      forall j | 0 < j < |y| ensures At(At(addr, |x|), j) != BANK_SELECT { AtDistinct(At(addr, |x|), 0, j); }
      RunConcat(was, addr, x, y);
      RunPlaces(was, addr, x + y, |x|);
    }
  }

  /** The adapter and the device behind it. Transfer number n goes through if line(n) is Nothing; if it is
      Just(k), the transfer is reported failed after the device took k bytes of it. */
  class Client {
    const maxTransfer: nat   // I2C_MAX_TRANSFER_SIZE
    const retryMax: nat      // RETRY_MAX_TIMES
    const line: nat -> Maybe<nat>
    var dev: Device
    var clock: nat

    ghost predicate Valid()
      reads this
    {
      maxTransfer > ADDR_LENGTH && retryMax > 0 && dev.Whole()
    }

    constructor (limit: nat, retries: nat, outcomes: nat -> Maybe<nat>, d: Device)
      requires limit > ADDR_LENGTH && retries > 0 && d.Whole()
      ensures Valid() && maxTransfer == limit && retryMax == retries && line == outcomes && dev == d && clock == 0
    {
      maxTransfer, retryMax, line, dev, clock := limit, retries, outcomes, d, 0;
    }

    /** No failed transfer has an effect. */
    ghost predicate Clean() {
      forall n: nat :: line(n).Just? ==> line(n).value == 0
    }

    /** One of the retryMax transfers from number `from` on goes through. */
    ghost predicate GoesThrough(from: nat) {
      exists m: nat :: from <= m < from + retryMax && line(m).Nothing?
    }

    /** Failures are transient: of any retryMax transfers in a row one goes through. */
    ghost predicate Transient() {
      forall n: nat :: GoesThrough(n)
    }

    /** One i2c_transfer of a write message, which with its address fits the buffer. */
    method Transfer(addr: Byte, data: seq<Byte>) returns (sent: bool)
      requires Valid() && ADDR_LENGTH + |data| <= maxTransfer
      modifies this`dev, this`clock
      ensures Valid() && clock == old(clock) + 1 && (sent <==> line(old(clock)).Nothing?)
      ensures sent ==> dev == WriteRun(old(dev), addr, data)
      ensures !sent && (Keeps(old(dev).bank, addr, data) || Clean()) ==>
        WriteRun(dev, addr, data) == WriteRun(old(dev), addr, data)
      ensures !sent && Keeps(old(dev).bank, addr, data) ==> Keeps(dev.bank, addr, data)
      ensures !sent ==> exists k: nat :: k <= |data| && dev == WriteRun(old(dev), addr, data[..k])
    {
      var outcome := line(clock);
      clock := clock + 1;
      if outcome.Nothing? {
        dev := WriteRun(dev, addr, data);
        return true;
      }
      var k := if outcome.value < |data| then outcome.value else |data|;
      if Keeps(dev.bank, addr, data) { Resend(dev, addr, data, k); PartKeeps(dev, addr, data, k); }
      if Clean() { assert data[..k] == []; }
      dev := WriteRun(dev, addr, data[..k]);
      sent := false;
    }

    /** The retry loop around one message: it succeeds exactly if an attempt goes through, and then the message has
        done what one attempt alone would have done, or, where it selects a bank on its way, every byte is in the bank
        it was meant for, whatever the failed attempts did. */
    method SendWithRetries(addr: Byte, data: seq<Byte>) returns (ok: bool)
      requires Valid() && ADDR_LENGTH + |data| <= maxTransfer
      modifies this`dev, this`clock
      ensures Valid() && (ok <==> GoesThrough(old(clock)))
      ensures ok && (Keeps(old(dev).bank, addr, data) || Clean()) ==> dev == WriteRun(old(dev), addr, data)
      ensures ok ==> Sent(old(dev), dev, addr, data)
    {
      hide At, WriteByte, WriteRun, Keeps, Placed, OnTheWay;
      forall i | 0 < i < |data| ensures OnTheWay(dev, dev, addr, data, i) { Unstarted(dev, addr, data, i); }
      var retry := 0;
      while retry < retryMax
        invariant 0 <= retry <= retryMax && Valid() && clock == old(clock) + retry
        invariant forall m: nat :: old(clock) <= m < clock ==> line(m).Just?
        invariant Keeps(old(dev).bank, addr, data) || Clean() ==> Keeps(dev.bank, addr, data) || Clean()
        invariant Keeps(old(dev).bank, addr, data) || Clean() ==>
          WriteRun(dev, addr, data) == WriteRun(old(dev), addr, data)
        invariant |data| <= 256 ==>
          forall i :: 0 < i < |data| && At(addr, i) == BANK_SELECT ==> OnTheWay(old(dev), dev, addr, data, i)
      {
        ghost var before := dev;
        var sent := Transfer(addr, data);
        AttemptMade(old(dev), before, dev, addr, data, sent);
        if sent { return true; }
        retry := retry + 1;
      }
      ok := false;
    }

    /** lt8911exb_i2c_write: in pieces of at most the transfer size, each retried. Whatever the pieces and whatever
        fails in between, a write that succeeds leaves what one whole message would have left, and if failures are
        transient it succeeds. Where the run selects another bank on its way and failed transfers had effect, every
        byte is still in the bank it was meant for, and no other address was touched. */
    method I2cWrite(start: Byte, data: seq<Byte>) returns (ok: bool)
      requires Valid()
      modifies this`dev, this`clock
      ensures Valid() && (Transient() ==> ok)
      ensures ok && (Keeps(old(dev).bank, start, data) || Clean()) ==> dev == WriteRun(old(dev), start, data)
      ensures ok ==> Sent(old(dev), dev, start, data)
    {
      hide At, WriteByte, Keeps, Sent;
      SentNothing(dev, start);
      var pos := 0;
      var address := start;
      AtZero(start);
      assert data[..0] == [];
      while pos != |data|
        invariant 0 <= pos <= |data| && Valid() && address == At(start, pos)
        invariant Sent(old(dev), dev, start, data[..pos])
        invariant Keeps(old(dev).bank, start, data) || Clean() ==> dev == WriteRun(old(dev), start, data[..pos])
        decreases |data| - pos
      {
        var len := if |data| - pos > maxTransfer - ADDR_LENGTH then maxTransfer - ADDR_LENGTH else |data| - pos;
        var piece := data[pos..pos + len];
        if Keeps(old(dev).bank, start, data) { StretchKeeps(old(dev), start, data, pos, len); }
        ghost var from, before := clock, dev;
        var sent := SendWithRetries(address, piece);
        if !sent {
          assert !GoesThrough(from);
          return false;
        }
        SentOn(old(dev), before, dev, start, data[..pos], piece);
        RunConcat(old(dev), start, data[..pos], piece);
        AtAt(start, pos, len);
        assert data[..pos] + piece == data[..pos + len];
        pos := pos + len;
        address := At(address, len);
      }
      assert data[..pos] == data;
      ok := true;
    }

    /** The retry loop around one read: address out, bytes in. A failed one changes nothing. */
    method ReceiveWithRetries(addr: Byte, n: nat) returns (ok: bool, data: seq<Byte>)
      requires Valid() && n <= maxTransfer
      modifies this`clock
      ensures Valid() && (ok <==> GoesThrough(old(clock)))
      ensures ok ==> data == ReadRun(dev, addr, n)
    {
      data := [];
      var retry := 0;
      while retry < retryMax
        invariant 0 <= retry <= retryMax && Valid() && clock == old(clock) + retry
        invariant forall m: nat :: old(clock) <= m < clock ==> line(m).Just?
      {
        var outcome := line(clock);
        clock := clock + 1;
        if outcome.Nothing? { return true, ReadRun(dev, addr, n); }
        retry := retry + 1;
      }
      ok := false;
    }

    /** lt8911exb_i2c_read */
    method I2cRead(start: Byte, n: nat) returns (ok: bool, data: seq<Byte>)
      requires Valid()
      modifies this`clock
      ensures Valid() && (Transient() ==> ok)
      ensures ok ==> data == ReadRun(dev, start, n)
    {
      hide At, ReadRun;
      var pos := 0;
      var address := start;
      AtZero(start);
      data := [];
      while pos != n
        invariant 0 <= pos <= n && Valid() && address == At(start, pos) && data == ReadRun(dev, start, pos)
        decreases n - pos
      {
        var len := if n - pos > maxTransfer then maxTransfer else n - pos;
        ghost var from := clock;
        var got, piece := ReceiveWithRetries(address, len);
        if !got {
          assert !GoesThrough(from);
          return false, data;
        }
        ReadConcat(dev, start, pos, len);
        AtAt(start, pos, len);
        data := data + piece;
        pos := pos + len;
        address := At(address, len);
      }
      ok := true;
    }

    /** A chunked write and a chunked read of the same registers, with transient failures in both: the same bytes,
        unless the run meets the bank selector on its way and sends it another bank. */
    method WriteAndReadBack(start: Byte, data: seq<Byte>) returns (ok: bool, back: seq<Byte>)
      requires Valid()
      modifies this`dev, this`clock
      ensures Valid() && (Transient() ==> ok)
      ensures ok && Keeps(old(dev).bank, start, data) ==> back == data
    {
      back := [];
      ok := I2cWrite(start, data);
      if ok {
        if Keeps(old(dev).bank, start, data) { WriteThenRead(old(dev), start, data); }
        ok, back := I2cRead(start, |data|);
      }
    }

    /** lt8911exb_write */
    method WriteReg(addr: Byte, b: Byte) returns (ok: bool)
      requires Valid()
      modifies this`dev, this`clock
      ensures Valid() && (Transient() ==> ok) && (ok ==> dev == WriteByte(old(dev), addr, b))
    {
      var data := [b];
      ok := I2cWrite(addr, data);
      assert data[..0] == [] && At(addr, 0) == addr;
      assert WriteRun(old(dev), addr, data) == WriteByte(WriteRun(old(dev), addr, []), addr, b);
    }
  }
}
