/** The frequency table the driver decodes from the hardware's lookup table, and the performance state
    it selects by index. */
module CpufreqLut {
  import opened Arith
  import opened Words

  const LUT_MAX_ENTRIES: nat := 40
  const LUT_TURBO_IND: nat := 1
  const ENTRY_INVALID: nat := 0xFFFF_FFFF
  const TABLE_END: nat := 0xFFFF_FFFE

  /** The two registers of a row. */
  datatype LutRegs = LutRegs(freqReg: nat, voltReg: nat)

  /** What a row means: its frequency in kHz, its voltage, and whether it is for fewer cores only. */
  datatype Row = Row(freq: nat, volt: nat, turbo: bool)

  datatype Clocks = Clocks(xoRate: nat, cpuHwRate: nat)

  /** LUT_SRC, LUT_L_VAL, LUT_CORE_COUNT and LUT_VOLT, and a frequency in 32 bits. */
  function RowOf(k: Clocks, r: LutRegs): Row {
    var src, lval, cores := r.freqReg / 0x4000_0000 % 4, r.freqReg % 256, r.freqReg / 0x1_0000 % 8;
    Row((if src != 0 then k.xoRate * lval / 1000 else k.cpuHwRate / 1000) % U32_SPAN,
        r.voltReg % 4096 * 1000,
        cores == LUT_TURBO_IND)
  }

  /** A register pair put together from its fields, whatever the other bits are, decodes to them: source and multiplier
      give the frequency, the core count the turbo flag, the voltage comes in millivolts. */
  lemma RowFromFields(k: Clocks, src: nat, a: nat, cores: nat, b: nat, lval: nat, c: nat, millivolt: nat)
    requires src < 4 && a < 0x800 && cores < 8 && b < 256 && lval < 256 && millivolt < 4096
    ensures
      var freqReg := src * 0x4000_0000 + a * 0x8_0000 + cores * 0x1_0000 + b * 0x100 + lval;
      RowOf(k, LutRegs(freqReg, c * 4096 + millivolt)) ==
        Row((if src == 0 then k.cpuHwRate / 1000 else k.xoRate * lval / 1000) % 0x1_0000_0000, 1000 * millivolt,
          cores == 1)
  {
    var reg := src * 0x4000_0000 + a * 0x8_0000 + cores * 0x1_0000 + b * 0x100 + lval;
    FreqFields(reg, src, a, cores, b, lval);
    DivMod(c * 4096 + millivolt, c, millivolt, 4096);
  }

  lemma FreqFields(reg: nat, src: nat, a: nat, cores: nat, b: nat, lval: nat)
    requires src < 4 && a < 0x800 && cores < 8 && b < 256 && lval < 256
    requires reg == src * 0x4000_0000 + a * 0x8_0000 + cores * 0x1_0000 + b * 0x100 + lval
    ensures reg / 0x4000_0000 % 4 == src && reg / 0x1_0000 % 8 == cores && reg % 256 == lval
  {
    DivMod(reg, src, a * 0x8_0000 + cores * 0x1_0000 + b * 0x100 + lval, 0x4000_0000);
    DivMod(reg, src * 0x4000 + a * 8 + cores, b * 0x100 + lval, 0x1_0000);
    DivMod(src * 0x4000 + a * 8 + cores, src * 0x800 + a, cores, 8);
    DivMod(reg, src * 0x40_0000 + a * 0x800 + cores * 0x100 + b, lval, 256);
  }

  lemma DivMod(n: nat, q: nat, r: nat, k: nat)
    requires r < k && n == q * k + r
    ensures n / k == q && n % k == r
  {
    TimesIsProduct(q, k);
    QuotUnique(n, q, k);
    QuotIsQuotient(n, k);
  }

  function RowsOf(k: Clocks, regs: seq<LutRegs>): (rows: seq<Row>)
    ensures |rows| == |regs| && forall i :: 0 <= i < |regs| ==> rows[i] == RowOf(k, regs[i])
  {
    seq(|regs|, i requires 0 <= i < |regs| => RowOf(k, regs[i]))
  }

  /** Whether each OPP update succeeds: one answer per row, one for the boost. */
  datatype Opp = Opp(rowOk: nat -> bool, boostOk: bool)

  datatype Entry = Entry(frequency: nat, boost: bool)

  /** A lookup table whose frequencies are positive and not one of the two markers. */
  predicate Plausible(lut: seq<Row>) {
    forall i :: 0 <= i < |lut| ==> 0 < lut[i].freq < TABLE_END
  }

  /** The first row after `i` that repeats the frequency before it, or the length of the table. */
  function EndFrom(lut: seq<Row>, i: nat): (e: nat)
    requires i <= |lut|
    ensures i <= e <= |lut|
    ensures forall j :: i <= j < e && j > 0 ==> lut[j].freq != lut[j - 1].freq
    ensures e < |lut| ==> e > 0 && lut[e].freq == lut[e - 1].freq
    decreases |lut| - i
  {
    if i == |lut| || (i > 0 && lut[i].freq == lut[i - 1].freq) then i else EndFrom(lut, i + 1)
  }

  /** Where the decoded table ends. */
  function End(lut: seq<Row>): nat { EndFrom(lut, 0) }

  /** An OPP update is made for the row. The first row is compared with a frequency of zero. */
  predicate Announced(lut: seq<Row>, i: nat)
    requires i < |lut|
  {
    !lut[i].turbo && (i > 0 || lut[0].freq != 0)
  }

  /** The row is listed as it stands. */
  predicate Normal(o: Opp, lut: seq<Row>, i: nat)
    requires i < |lut|
  {
    Announced(lut, i) && o.rowOk(i)
  }

  /** What a row that does not repeat the one before it is given at first: its frequency, the invalid
      marker, or nothing at all. */
  function Passed(o: Opp, lut: seq<Row>, i: nat): Entry
    requires i < |lut|
  {
    var frequency :=
      if Normal(o, lut, i) then lut[i].freq
      else if lut[i].turbo || Announced(lut, i) then ENTRY_INVALID
      else 0;
    Entry(frequency, false)
  }

  /** The row is the last before a repetition, was not listed, and could be a boost. */
  predicate BoostTried(o: Opp, lut: seq<Row>, i: nat)
    requires i < |lut|
  {
    i + 1 == End(lut) < |lut| && Passed(o, lut, i).frequency == ENTRY_INVALID
  }

  /** What stands at index `i` of the table, before its end. */
  function Slot(o: Opp, lut: seq<Row>, i: nat): Entry
    requires i < |lut|
  {
    if BoostTried(o, lut, i) && o.boostOk then Entry(lut[i].freq, true) else Passed(o, lut, i)
  }

  /** The OPP updates for the first `n` rows. */
  function Updates(lut: seq<Row>, n: nat): seq<(nat, nat)>
    requires n <= |lut|
  {
    if n == 0 then []
    else Updates(lut, n - 1) + if Announced(lut, n - 1) then [(lut[n - 1].freq, lut[n - 1].volt)] else []
  }

  /** All of them: the boost is registered with the voltage of the row that repeats it. */
  function AllUpdates(o: Opp, lut: seq<Row>): seq<(nat, nat)> {
    var e := End(lut);
    Updates(lut, e) +
      if 0 < e < |lut| && BoostTried(o, lut, e - 1) then [(lut[e - 1].freq, lut[e].volt)] else []
  }

  /** Hardware indices are kept: an index below the end is usable or invalid, and a usable one carries its
      own row's frequency. */
  ghost predicate Decoded(o: Opp, lut: seq<Row>, table: seq<Entry>) {
    && |lut| == LUT_MAX_ENTRIES && |table| == LUT_MAX_ENTRIES + 1
    && table[End(lut)] == Entry(TABLE_END, false)
    && forall i :: 0 <= i < End(lut) ==> table[i] == Slot(o, lut, i)
  }

  predicate Usable(table: seq<Entry>, i: nat) {
    i < |table| && table[i].frequency != ENTRY_INVALID && table[i].frequency != TABLE_END &&
    forall j :: 0 <= j < i ==> table[j].frequency != TABLE_END
  }

  /** Scanning from the front as the cpufreq core does: the table ends where the lookup table first
      repeats itself, a usable entry has its row's frequency, and only the last entry can be a boost. */
  lemma TableMeans(o: Opp, lut: seq<Row>, table: seq<Entry>)
    requires Plausible(lut) && Decoded(o, lut, table)
    ensures forall i :: 0 <= i < |table| ==>
      (Usable(table, i) <==> i < End(lut) && (Normal(o, lut, i) || (BoostTried(o, lut, i) && o.boostOk)))
    ensures forall i :: 0 <= i < |table| && Usable(table, i) ==> i < |lut| && table[i].frequency == lut[i].freq
    ensures forall i :: 0 <= i < End(lut) && table[i].boost ==> i + 1 == End(lut)
    ensures forall i :: 0 < i < End(lut) && Usable(table, i) && Usable(table, i - 1) ==>
      table[i].frequency != table[i - 1].frequency
  {
    var e := End(lut);
    forall i | 0 <= i < e ensures table[i].frequency != TABLE_END { assert table[i] == Slot(o, lut, i); }
    assert table[e].frequency == TABLE_END;
  }

  /** In the table's own terms: an entry before the end is usable exactly when its row is for all cores and its OPP
      update succeeded, or it is the last before a repetition, was not listed for one of those reasons, and the
      boost succeeded. */
  lemma UsableExactly(o: Opp, lut: seq<Row>, table: seq<Entry>, i: nat)
    requires Plausible(lut) && Decoded(o, lut, table) && i < End(lut)
    ensures var listed := !lut[i].turbo && o.rowOk(i);
      && (Usable(table, i) <==> listed || (i + 1 == End(lut) < |lut| && o.boostOk))
      && (table[i].boost <==> !listed && i + 1 == End(lut) < |lut| && o.boostOk)
      && table[i].frequency == if Usable(table, i) then lut[i].freq else 0xFFFF_FFFF
  {
    TableMeans(o, lut, table);
    assert table[i] == Slot(o, lut, i);
  }

  /** The rows for all cores among the first `n`. */
  function AllCoreRows(lut: seq<Row>, n: nat): (at: seq<nat>)
    requires n <= |lut|
    ensures forall j :: 0 <= j < |at| ==> at[j] < n
  {
    if n == 0 then []
    else
      var rest := AllCoreRows(lut, n - 1);
      if lut[n - 1].turbo then rest else rest + [n - 1]
  }

  lemma {:induction false} AllCoreRowsMean(lut: seq<Row>, n: nat)
    requires n <= |lut|
    ensures forall i :: 0 <= i < n ==> (i in AllCoreRows(lut, n) <==> !lut[i].turbo)
    ensures forall j, l :: 0 <= j < l < |AllCoreRows(lut, n)| ==> AllCoreRows(lut, n)[j] < AllCoreRows(lut, n)[l]
  {
    if n > 0 { AllCoreRowsMean(lut, n - 1); }
  }

  /** The OPP updates for the first `n` rows are those for all cores, each with its own frequency and voltage. */
  lemma {:induction false} UpdatesMean(lut: seq<Row>, n: nat, j: nat)
    requires Plausible(lut) && n <= |lut|
    ensures |Updates(lut, n)| == |AllCoreRows(lut, n)|
    ensures j < |AllCoreRows(lut, n)| ==>
      var i := AllCoreRows(lut, n)[j]; Updates(lut, n)[j] == (lut[i].freq, lut[i].volt)
  {
    if n > 0 { UpdatesMean(lut, n - 1, j); }
  }

  /** The OPP updates the driver makes: the rows for all cores before the end of the table, in order, and last the
      boost, where it is tried, with its own frequency and the voltage of the row that repeats it. */
  lemma AllUpdatesMean(o: Opp, lut: seq<Row>)
    requires Plausible(lut) && |lut| > 0
    ensures var e := End(lut);
      && e > 0 && Updates(lut, e) <= AllUpdates(o, lut)
      && AllUpdates(o, lut)[|Updates(lut, e)|..] ==
        if e < |lut| && (lut[e - 1].turbo || !o.rowOk(e - 1)) then [(lut[e - 1].freq, lut[e].volt)] else []
  {
  }

  /** A first row with frequency zero, which repeats the zero it is compared with, is neither listed nor refused, and no
      OPP update is made for it. */
  lemma ZeroFirstRow(o: Opp, lut: seq<Row>)
    requires |lut| > 0 && lut[0].freq == 0 && !lut[0].turbo
    ensures Passed(o, lut, 0) == Entry(0, false) && Updates(lut, 1) == []
  {
    assert Updates(lut, 0) == [];
  }

  /** The register reads of one round of the loop. */
  method ReadRow(k: Clocks, regs: seq<LutRegs>, i: nat) returns (row: Row)
    requires i < |regs|
    ensures row == RowsOf(k, regs)[i]
  {
    row := RowOf(k, regs[i]);
  }

  /** One row: what the driver enters for it and the OPP updates it makes. */
  method EnterRow(o: Opp, ghost lut: seq<Row>, i: nat, row: Row, prevFreq: nat, was: Entry)
      returns (e: Entry, calls: seq<(nat, nat)>)
    requires i < |lut| && row == lut[i]
    requires prevFreq == (if i == 0 then 0 else lut[i - 1].freq) && was == Entry(0, false)
    ensures i == 0 || row.freq != prevFreq ==>
      e == Passed(o, lut, i) && calls == if Announced(lut, i) then [(row.freq, row.volt)] else []
    ensures row.freq == prevFreq ==> calls == [] && !e.boost
  {
    e, calls := was, [];
    if row.freq != prevFreq && !row.turbo {
      calls := [(row.freq, row.volt)];
      e := was.(frequency := if o.rowOk(i) then row.freq else ENTRY_INVALID);
    } else if row.turbo {
      e := was.(frequency := ENTRY_INVALID);
    }
  }

  /** The loop has passed the first `i` rows without finding a repetition. */
  ghost predicate Passing(o: Opp, lut: seq<Row>, table: seq<Entry>, i: nat, calls: seq<(nat, nat)>) {
    && |lut| == LUT_MAX_ENTRIES && |table| == LUT_MAX_ENTRIES + 1 && i <= End(lut)
    && (forall j :: 0 <= j < i ==> table[j] == Passed(o, lut, j))
    && (forall j :: i <= j < |table| ==> table[j] == Entry(0, false))
    && calls == Updates(lut, i)
  }

  lemma PassRow(o: Opp, lut: seq<Row>, table: seq<Entry>, i: nat, calls: seq<(nat, nat)>)
    requires Passing(o, lut, table, i, calls) && i < |lut| && EndFrom(lut, i) == End(lut)
    requires i == 0 || lut[i].freq != lut[i - 1].freq
    ensures EndFrom(lut, i + 1) == End(lut)
    ensures Passing(o, lut, table[i := Passed(o, lut, i)], i + 1,
      calls + if Announced(lut, i) then [(lut[i].freq, lut[i].volt)] else [])
  {
  }

  /** Where the loop stops, the last entry may become the boost. */
  lemma Finish(o: Opp, lut: seq<Row>, table: seq<Entry>, i: nat, calls: seq<(nat, nat)>, last: Entry,
      more: seq<(nat, nat)>)
    requires Passing(o, lut, table, i, calls) && i == End(lut) && i > 0
    requires var tried := i < |lut| && table[i - 1].frequency == ENTRY_INVALID;
      && last == (if tried && o.boostOk then Entry(lut[i - 1].freq, true) else table[i - 1])
      && more == if tried then [(lut[i - 1].freq, lut[i].volt)] else []
    ensures Decoded(o, lut, table[i - 1 := last][i := Entry(TABLE_END, false)]) && calls + more == AllUpdates(o, lut)
  {
    var t := table[i - 1 := last][i := Entry(TABLE_END, false)];
    assert table[i - 1] == Passed(o, lut, i - 1);
    forall j | 0 <= j < i ensures t[j] == Slot(o, lut, j) {
      assert table[j] == Passed(o, lut, j);
    }
  }

  /** qcom_cpufreq_hw_read_lut, once the table is allocated. */
  method ReadLut(k: Clocks, regs: seq<LutRegs>, o: Opp) returns (table: array<Entry>, calls: seq<(nat, nat)>)
    requires |regs| == LUT_MAX_ENTRIES
    ensures fresh(table) && Decoded(o, RowsOf(k, regs), table[..])
    ensures calls == AllUpdates(o, RowsOf(k, regs))
  {
    ghost var lut := RowsOf(k, regs);
    table := new Entry[LUT_MAX_ENTRIES + 1](_ => Entry(0, false));
    calls := [];
    var prevFreq := 0;
    var i := 0;
    while i < LUT_MAX_ENTRIES
      invariant 0 <= i <= LUT_MAX_ENTRIES && prevFreq == if i == 0 then 0 else lut[i - 1].freq
      invariant Passing(o, lut, table[..], i, calls) && EndFrom(lut, i) == End(lut)
    {
      var row := ReadRow(k, regs, i);
      ghost var was, done := table[..], calls;
      var entry, updates := EnterRow(o, lut, i, row, prevFreq, table[i]);
      table[i] := entry;
      calls := calls + updates;
      assert table[..] == was[i := entry];
      if i > 0 && prevFreq == row.freq {
        var more := MarkBoost(table, i, prevFreq, row.volt, o);
        calls := calls + more;
        MarkEnd(table, i, o, lut, was, done, more);
        return;
      }
      PassRow(o, lut, was, i, done);
      prevFreq := row.freq;
      i := i + 1;
    }
    MarkEnd(table, i, o, lut, table[..], calls, []);
  }

  /** The end marker, written behind the loop. */
  method MarkEnd(table: array<Entry>, i: nat, o: Opp, ghost lut: seq<Row>, ghost was: seq<Entry>,
      ghost done: seq<(nat, nat)>, ghost more: seq<(nat, nat)>)
    requires Passing(o, lut, was, i, done) && 0 < i == End(lut) && table.Length == |was| && !table[i].boost
    requires table[..] == was[i := table[i]][i - 1 := table[i - 1]]
    requires var tried := i < |lut| && was[i - 1].frequency == ENTRY_INVALID;
      && table[i - 1] == (if tried && o.boostOk then Entry(lut[i - 1].freq, true) else was[i - 1])
      && more == if tried then [(lut[i - 1].freq, lut[i].volt)] else []
    modifies table
    ensures Decoded(o, lut, table[..]) && done + more == AllUpdates(o, lut)
  {
    Finish(o, lut, was, i, done, table[i - 1], more);
    ghost var prev := table[..];
    table[i] := Entry(TABLE_END, table[i].boost);
    assert table[..] == was[i - 1 := prev[i - 1]][i := Entry(TABLE_END, false)];
  }

  /** The entry before a repetition, if it was not listed, is tried as the boost. */
  method MarkBoost(table: array<Entry>, i: nat, prevFreq: nat, volt: nat, o: Opp) returns (calls: seq<(nat, nat)>)
    requires 0 < i < table.Length
    modifies table
    ensures var tried := old(table[i - 1]).frequency == ENTRY_INVALID;
      && calls == (if tried then [(prevFreq, volt)] else [])
      && table[..] == old(table[..])[i - 1 := if tried && o.boostOk then Entry(prevFreq, true) else old(table[i - 1])]
  {
    calls := [];
    if table[i - 1].frequency == ENTRY_INVALID {
      calls := [(prevFreq, volt)];
      if o.boostOk { table[i - 1] := Entry(prevFreq, true); }
    }
  }

  /** One frequency domain: its table and the performance state register of each of its CPUs. */
  class Domain {
    const table: seq<Entry>
    const perCore: bool
    var perf: seq<nat>

    ghost predicate Valid()
      reads this
    {
      |table| == LUT_MAX_ENTRIES + 1 && |perf| > 0
    }

    constructor (t: seq<Entry>, cores: nat, separate: bool)
      requires |t| == LUT_MAX_ENTRIES + 1 && cores > 0
      ensures Valid() && table == t && perCore == separate && perf == seq(cores, _ => 0)
    {
      table, perCore := t, separate;
      perf := seq(cores, _ => 0);
    }

    /** The register writes of qcom_cpufreq_hw_target_index and qcom_cpufreq_hw_fast_switch. */
    method Select(index: nat)
      requires Valid()
      modifies this`perf
      ensures Valid() && |perf| == |old(perf)|
      ensures forall c :: 0 <= c < |perf| ==> perf[c] == if c == 0 || perCore then index else old(perf)[c]
    {
      perf := perf[0 := index];
      if perCore {
        var i := 1;
        while i < |perf|
          invariant 1 <= i <= |perf| == |old(perf)|
          invariant forall c :: 0 <= c < |perf| ==> perf[c] == if c < i then index else old(perf)[c]
        {
          perf := perf[i := index];
          i := i + 1;
        }
      }
    }

    /** qcom_cpufreq_hw_fast_switch */
    method FastSwitch(index: nat) returns (freq: nat)
      requires Valid() && index <= LUT_MAX_ENTRIES
      modifies this`perf
      ensures Valid() && freq == table[index].frequency && perf[0] == index && |perf| == |old(perf)|
      ensures perCore ==> forall c :: 0 <= c < |perf| ==> perf[c] == index
    {
      Select(index);
      freq := table[index].frequency;
    }

    /** qcom_cpufreq_get_freq */
    method GetFreq() returns (freq: nat)
      requires Valid()
      ensures freq == table[if perf[0] < LUT_MAX_ENTRIES then perf[0] else LUT_MAX_ENTRIES - 1].frequency
    {
      var index := perf[0];
      if index > LUT_MAX_ENTRIES - 1 { index := LUT_MAX_ENTRIES - 1; }
      freq := table[index].frequency;
    }

    /** Selecting any usable index of a decoded table and asking for the frequency gives the frequency of
        the hardware row with that index. */
    method SelectThenGet(index: nat, ghost o: Opp, ghost lut: seq<Row>) returns (freq: nat)
      requires Valid() && Plausible(lut) && Decoded(o, lut, table) && Usable(table, index)
      modifies this`perf
      ensures Valid() && index < |lut| && freq == lut[index].freq
    {
      TableMeans(o, lut, table);
      Select(index);
      freq := GetFreq();
    }
  }
}
