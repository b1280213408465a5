/**
 What requests and queries of a pin mean on the bits of its two registers, and what a pin remembers of a list of them.
 */
module TlmmRequests {
  import opened RegBits
  import opened TlmmConfig
  import opened TlmmMux

  // ---------------------------------------------------------------- one request

  predicate IsBias(p: Param) { p.BiasDisable? || p.BiasPullDown? || p.BiasBusHold? || p.BiasPullUp? }
  predicate IsOutput(p: Param) { p.Level? || p.InputEnable? || p.OutputEnable? }

  /** What the driver takes: a bus hold only with keepers, the even drive strengths up to 16, and a strong pull up only
      where it is told from a pull up and the pull field starts at bit 0. */
  predicate Accepted(soc: Soc, g: Group, p: Param, arg: nat) {
    match p
    case BiasBusHold => !soc.pullNoKeeper
    case BiasPullUp => soc.pullNoKeeper || g.i2cPullBit == 0 || arg != 2200 || g.pullBit == 0
    case DriveStrength => arg in {2, 4, 6, 8, 10, 12, 14, 16}
    case Unsupported => false
    case _ => true
  }

  /** The bits of the control register that a request concerns. */
  predicate Concerns(g: Group, p: Param, n: nat) {
    || (IsBias(p) && (n == g.pullBit || n == g.pullBit + 1 || (g.i2cPullBit != 0 && n == g.i2cPullBit)))
    || (p.DriveStrength? && g.drvBit <= n < g.drvBit + 3)
    || (p.DriveOpenDrain? && n == g.odBit)
    || (IsOutput(p) && n == g.oeBit)
  }

  lemma Inside(g: Group)
    requires WellFormed(g)
    ensures g.pullBit + 2 <= 32 && g.odBit < 32 && g.oeBit < 32 && g.i2cPullBit < 32 && g.drvBit + 3 <= 32
  {
    assert Mask(g, BiasField)[1] && Mask(g, DrainField)[0] && Mask(g, OutputField)[0];
    assert Fits(Mask(g, BiasField), Pos(g, BiasField)) && Fits(Mask(g, DrainField), Pos(g, DrainField));
    assert Fits(Mask(g, OutputField), Pos(g, OutputField));
  }

  /** A value passes the range check exactly when it has no bit outside the mask. */
  lemma InRange(a: Reg, m: Reg)
    ensures And(a, Not(m)) == Zero() <==> forall n :: 0 <= n < 32 && a[n] ==> m[n]
  {
    if n :| 0 <= n < 32 && a[n] && !m[n] { assert And(a, Not(m))[n]; }
  }

  lemma DriveInRange(arg: nat)
    requires arg in {2, 4, 6, 8, 10, 12, 14, 16}
    ensures And(Of(arg / 2 - 1), Not(Low(3))) == Zero() && Value(Of(arg / 2 - 1), 0, 3) == arg / 2 - 1
  {
    var v := arg / 2 - 1;
    assert Pow2(3) == 8 by { assert Pow2(1) == 2 && Pow2(2) == 4; }
    InRange(Of(v), Low(3));
    forall n | 3 <= n < 32 ensures !Of(v)[n] { NoHighDigits(v, 3, n); }
    ValueOfDigits(Of(v), 0, 3, v);
  }

  lemma DriveAccepted(soc: Soc, g: Group, arg: nat)
    ensures var a := Convert(soc, g, DriveStrength, arg);
      a.Ok? && (And(a.value, Not(Low(3))) == Zero() <==> Accepted(soc, g, DriveStrength, arg))
  {
    if Accepted(soc, g, DriveStrength, arg) { DriveInRange(arg); } else { assert And(AllOnes(), Not(Low(3)))[31]; }
  }

  /** Success, and the two errors. */
  lemma AcceptedExactly(soc: Soc, g: Group, pin: Pin, p: Param, arg: nat)
    requires WellFormed(g)
    ensures SetOne(soc, g, pin, p, arg).1.Ok? <==> Accepted(soc, g, p, arg)
    ensures !Accepted(soc, g, p, arg) ==>
      SetOne(soc, g, pin, p, arg).1 == Err(if p.BiasBusHold? || p.Unsupported? then ENotSupp else EInval)
  {
    Inside(g);
    if IsBias(p) && Convert(soc, g, p, arg).Ok? { BiasInRange(soc, g, p, arg); }
    if p.DriveStrength? { DriveAccepted(soc, g, arg); }
    if p.DriveOpenDrain? || IsOutput(p) { InRange(Bit(0), Low(1)); InRange(Zero(), Low(1)); }
  }

  lemma BiasInRange(soc: Soc, g: Group, p: Param, arg: nat)
    requires WellFormed(g) && IsBias(p) && Convert(soc, g, p, arg).Ok?
    ensures And(Convert(soc, g, p, arg).value, Not(Mask(g, BiasField))) == Zero() <==> Accepted(soc, g, p, arg)
  {
    var a, m := Convert(soc, g, p, arg).value, Mask(g, BiasField);
    InRange(a, m);
    if p.BiasPullUp? && !soc.pullNoKeeper && g.i2cPullBit != 0 && arg == 2200 {
      assert a[g.i2cPullBit] && (m[g.i2cPullBit] <==> g.pullBit == 0);
    }
  }

  /** A request touches the control bits it concerns and, a level apart, nothing else; a refused one none of them. */
  lemma OthersKept(soc: Soc, g: Group, pin: Pin, p: Param, arg: nat, n: nat)
    requires WellFormed(g) && n < 32 && (!Accepted(soc, g, p, arg) || !Concerns(g, p, n))
    ensures SetOne(soc, g, pin, p, arg).0.ctl[n] == pin.ctl[n]
  {
    Inside(g);
    AcceptedExactly(soc, g, pin, p, arg);
    if Accepted(soc, g, p, arg) && FieldOf(p).Ok? && Convert(soc, g, p, arg).Ok? {
      InRange(Convert(soc, g, p, arg).value, Mask(g, FieldOf(p).value));
    }
  }

  lemma BiasWrites(soc: Soc, g: Group, pin: Pin, p: Param, arg: nat)
    requires WellFormed(g) && IsBias(p) && Accepted(soc, g, p, arg)
    ensures Convert(soc, g, p, arg).Ok?
    ensures SetOne(soc, g, pin, p, arg).0.ctl ==
      WithField(pin.ctl, Mask(g, BiasField), g.pullBit, Convert(soc, g, p, arg).value)
  {
    hide WithField, Mask;
    BiasInRange(soc, g, p, arg);
  }

  /** No pull, pull down, keeper, pull up: 0, 1, 2 and 3 in the two pull bits, pull up 2 where there are no keepers; and
      the i2c bit, where there is one, for the strong pull up alone. */
  lemma BiasBits(soc: Soc, g: Group, pin: Pin, p: Param, arg: nat)
    requires WellFormed(g) && IsBias(p) && Accepted(soc, g, p, arg)
    ensures g.pullBit + 1 < 32 && g.i2cPullBit < 32
    ensures var ctl := SetOne(soc, g, pin, p, arg).0.ctl;
      && ctl[g.pullBit] == (p.BiasPullDown? || (p.BiasPullUp? && !soc.pullNoKeeper))
      && ctl[g.pullBit + 1] == (p.BiasBusHold? || p.BiasPullUp?)
      && (g.i2cPullBit != 0 ==> ctl[g.i2cPullBit] == (p.BiasPullUp? && !soc.pullNoKeeper && arg == 2200))
  {
    Inside(g);
    BiasWrites(soc, g, pin, p, arg);
    hide SetOne;
    BiasPlaces(g, pin.ctl, Convert(soc, g, p, arg).value);
    hide Mask, WithField, WellFormed;
  }

  lemma BiasPlaces(g: Group, r: Reg, a: Reg)
    requires WellFormed(g) && g.pullBit + 1 < 32
    ensures var ctl := WithField(r, Mask(g, BiasField), g.pullBit, a);
      && ctl[g.pullBit] == a[0] && ctl[g.pullBit + 1] == a[1]
      && (g.i2cPullBit != 0 ==> g.pullBit + 2 <= g.i2cPullBit < 32 && ctl[g.i2cPullBit] == a[g.i2cPullBit - g.pullBit])
  {
  }

  lemma DriveWrites(soc: Soc, g: Group, pin: Pin, arg: nat)
    requires WellFormed(g) && Accepted(soc, g, DriveStrength, arg)
    ensures SetOne(soc, g, pin, DriveStrength, arg).0.ctl == WithField(pin.ctl, Low(3), g.drvBit, Of(arg / 2 - 1))
  {
    hide Digit, WithField;
    DriveInRange(arg);
  }

  /** The strength in steps of two, from zero. */
  lemma DriveBits(soc: Soc, g: Group, pin: Pin, arg: nat)
    requires WellFormed(g) && Accepted(soc, g, DriveStrength, arg)
    ensures 2 * (Value(SetOne(soc, g, pin, DriveStrength, arg).0.ctl, g.drvBit, 3) + 1) == arg
  {
    hide SetOne, Pow2, Value, Accepted, WithField, Mask;
    DriveNumber(soc, g, arg);
    DriveWrites(soc, g, pin, arg);
    NumberWritten(pin.ctl, g.drvBit, 3, arg / 2 - 1);
  }

  lemma DriveNumber(soc: Soc, g: Group, arg: nat)
    requires Accepted(soc, g, DriveStrength, arg)
    ensures 0 <= arg / 2 - 1 < Pow2(3) && 2 * (arg / 2 - 1 + 1) == arg
  {
    assert Pow2(3) == 8 by { assert Pow2(1) == 2 && Pow2(2) == 4; }
  }

  lemma NumberWritten(r: Reg, b: nat, w: nat, v: nat)
    requires b + w <= 32 && v < Pow2(w)
    ensures Value(WithField(r, Low(w), b, Of(v)), b, w) == v
  {
    hide Digit, Pow2, Value;
    ValueOfDigits(WithField(r, Low(w), b, Of(v)), b, w, v);
  }

  /** Open drain is a one. A level and an enabled output set the output bit, an input and a disabled output clear it. */
  lemma SingleBits(soc: Soc, g: Group, pin: Pin, p: Param, arg: nat)
    requires WellFormed(g)
    ensures g.odBit < 32 && g.oeBit < 32
    ensures p.DriveOpenDrain? ==> SetOne(soc, g, pin, p, arg).0.ctl[g.odBit]
    ensures IsOutput(p) ==>
      SetOne(soc, g, pin, p, arg).0.ctl[g.oeBit] == (p.Level? || (p.OutputEnable? && arg != 0))
  {
    Inside(g);
    AcceptedExactly(soc, g, pin, p, arg);
  }

  /** The level asked for is driven, and no other request touches the data register. */
  lemma LevelBits(soc: Soc, g: Group, pin: Pin, p: Param, arg: nat, n: nat)
    requires n < 32
    ensures SetOne(soc, g, pin, p, arg).0.io[n] == if p.Level? && n == g.outBit then arg != 0 else pin.io[n]
  {
  }

  // ---------------------------------------------------------------- one query

  /** What the fields must hold for a query to be answered, and the answer. */
  lemma QueryBits(soc: Soc, g: Group, pin: Pin, p: Param)
    requires WellFormed(g) && g.inBit < 32
    ensures g.pullBit + 1 < 32 && g.i2cPullBit < 32 && g.odBit < 32 && g.oeBit < 32
    ensures var low, high, strong := pin.ctl[g.pullBit], pin.ctl[g.pullBit + 1],
              g.i2cPullBit != 0 && pin.ctl[g.i2cPullBit];
      match p
      case BiasDisable => GetOne(soc, g, pin, p) == if low || high || strong then Err(EInval) else Ok(1)
      case BiasPullDown => GetOne(soc, g, pin, p) == if !low || high || strong then Err(EInval) else Ok(1)
      case BiasBusHold =>
        GetOne(soc, g, pin, p) ==
          if soc.pullNoKeeper then Err(ENotSupp) else if low || !high || strong then Err(EInval) else Ok(1)
      case BiasPullUp =>
        soc.pullNoKeeper ==> GetOne(soc, g, pin, p) == if low || !high || strong then Err(EInval) else Ok(1)
      case DriveOpenDrain => GetOne(soc, g, pin, p) == if pin.ctl[g.odBit] then Ok(1) else Err(EInval)
      case DriveStrength => GetOne(soc, g, pin, p) == Ok(2 * (Value(pin.ctl, g.drvBit, 3) + 1))
      case Level =>
        GetOne(soc, g, pin, p) ==
          if !pin.ctl[g.oeBit] then Err(EInval) else Ok(if pin.io[g.inBit] then 1 else 0)
      case OutputEnable => GetOne(soc, g, pin, p) == if pin.ctl[g.oeBit] then Ok(1) else Err(EInval)
      case InputEnable => GetOne(soc, g, pin, p) == Err(ENotSupp)
      case Unsupported => GetOne(soc, g, pin, p) == Err(ENotSupp)
  {
    hide WellFormed, Field;
    Inside(g);
    if IsBias(p) { BiasRead(g, pin.ctl); }
    if p.DriveStrength? { DriveRead(g, pin.ctl); }
    if p.DriveOpenDrain? { OneRead(pin.ctl, g.odBit); }
    if IsOutput(p) { OneRead(pin.ctl, g.oeBit); TestBit(pin.io, g.inBit); }
  }

  lemma BiasRead(g: Group, ctl: Reg)
    requires WellFormed(g) && g.pullBit + 1 < 32
    ensures var arg := Field(ctl, Mask(g, BiasField), g.pullBit);
      var low, high, strong := ctl[g.pullBit], ctl[g.pullBit + 1], g.i2cPullBit != 0 && ctl[g.i2cPullBit];
      && (arg == Zero() <==> !low && !high && !strong) && (arg == Bit(0) <==> low && !high && !strong)
      && (arg == Bit(1) <==> !low && high && !strong)
  {
    var arg := Field(ctl, Mask(g, BiasField), g.pullBit);
    assert arg[0] == ctl[g.pullBit] && arg[1] == ctl[g.pullBit + 1];
    if g.i2cPullBit != 0 { assert arg[g.i2cPullBit - g.pullBit] == ctl[g.i2cPullBit]; }
    forall n | 2 <= n < 32 && !(g.i2cPullBit != 0 && n == g.i2cPullBit - g.pullBit) ensures !arg[n] {}
  }

  lemma PullUpRead(g: Group, ctl: Reg)
    requires WellFormed(g) && g.pullBit + 1 < 32
    ensures g.i2cPullBit < 32
    ensures var arg := Field(ctl, Mask(g, BiasField), g.pullBit);
      && (arg == Low(2) <==> ctl[g.pullBit] && ctl[g.pullBit + 1] && !(g.i2cPullBit != 0 && ctl[g.i2cPullBit]))
      && arg[g.i2cPullBit] == if g.i2cPullBit == 0 then ctl[g.pullBit] else g.pullBit == 0 && ctl[g.i2cPullBit]
  {
    var arg := Field(ctl, Mask(g, BiasField), g.pullBit);
    assert arg[0] == ctl[g.pullBit] && arg[1] == ctl[g.pullBit + 1];
    if g.i2cPullBit != 0 { assert arg[g.i2cPullBit - g.pullBit] == ctl[g.i2cPullBit]; }
    forall n | 2 <= n < 32 && !(g.i2cPullBit != 0 && n == g.i2cPullBit - g.pullBit) ensures !arg[n] {}
  }

  /** With keepers, and no i2c bit, low alone decides, because the query tests bit 0 for it; with one, the strong pull
      up is told only where the pull field starts at bit 0. */
  lemma PullUpQuery(soc: Soc, g: Group, pin: Pin)
    requires WellFormed(g) && !soc.pullNoKeeper
    ensures g.pullBit + 1 < 32 && g.i2cPullBit < 32
    ensures var low, high := pin.ctl[g.pullBit], pin.ctl[g.pullBit + 1];
      GetOne(soc, g, pin, BiasPullUp) ==
        if g.i2cPullBit == 0 then (if low then Ok(2200) else Err(EInval))
        else if pin.ctl[g.i2cPullBit] then (if g.pullBit == 0 then Ok(2200) else Err(EInval))
        else if low && high then Ok(1) else Err(EInval)
  {
    hide Field, Mask, WellFormed;
    Inside(g);
    PullUpRead(g, pin.ctl);
    TestBit(Field(pin.ctl, Mask(g, BiasField), g.pullBit), g.i2cPullBit);
  }

  lemma OneRead(ctl: Reg, b: nat)
    requires b < 32
    ensures Field(ctl, Low(1), b) == Zero() <==> !ctl[b]
  {
    assert Field(ctl, Low(1), b)[0] == ctl[b];
  }

  lemma DriveRead(g: Group, ctl: Reg)
    requires g.drvBit + 3 <= 32
    ensures Value(Field(ctl, Low(3), g.drvBit), 0, 3) == Value(ctl, g.drvBit, 3)
  {
    var f := Field(ctl, Low(3), g.drvBit);
    assert f[0] == ctl[g.drvBit] && f[1] == ctl[g.drvBit + 1] && f[2] == ctl[g.drvBit + 2];
    assert Value(f, 3, 0) == Value(ctl, g.drvBit + 3, 0) && Value(f, 2, 1) == Value(ctl, g.drvBit + 2, 1);
    assert Value(f, 1, 2) == Value(ctl, g.drvBit + 1, 2);
  }

  // ---------------------------------------------------------------- one mux change

  /** Selecting the egpio function hands an egpio-capable pin over, by its enable bit alone; selecting any other
      function writes its index and claims such a pin back. */
  lemma MuxBits(soc: Soc, g: Group, ctl: Reg, i: nat)
    requires WellFormed(g) && i < |g.funcs| && g.egpioPresent < 32 && g.egpioEnable < 32
    requires !(g.muxBit <= g.egpioPresent < g.muxBit + Order(|g.funcs|))
    ensures var v, egpio := MuxCtl(soc, g, ctl, i), soc.egpioFunc != 0 && i == soc.egpioFunc;
      && v[g.egpioEnable] == (if soc.egpioFunc != 0 && ctl[g.egpioPresent] then !egpio else ctl[g.egpioEnable])
      && (!egpio ==> Value(v, g.muxBit, Order(|g.funcs|)) == i)
      && (forall n :: 0 <= n < 32 && n != g.egpioEnable && !(g.muxBit <= n < g.muxBit + Order(|g.funcs|)) ==>
        v[n] == ctl[n])
      && (egpio ==> forall n :: 0 <= n < 32 && n != g.egpioEnable ==> v[n] == ctl[n])
  {
    hide Order, Mask, WellFormed, Value;
    EnableApart(g);
    MuxFieldBits(g, ctl, i);
    var u := WithField(ctl, Mask(g, MuxField), g.muxBit, Of(i));
    TestBit(ctl, g.egpioPresent);
    TestBit(u, g.egpioPresent);
    hide WithField, Digit;
    var v, w := MuxCtl(soc, g, ctl, i), Order(|g.funcs|);
    if !(soc.egpioFunc != 0 && i == soc.egpioFunc) { ValueOfDigits(v, g.muxBit, w, i); }
  }

  lemma MuxFieldBits(g: Group, ctl: Reg, i: nat)
    requires WellFormed(g) && i < |g.funcs|
    ensures g.muxBit + Order(|g.funcs|) <= 32 && i < Pow2(Order(|g.funcs|))
    ensures forall n :: 0 <= n < 32 ==>
      WithField(ctl, Mask(g, MuxField), g.muxBit, Of(i))[n] ==
        if g.muxBit <= n < g.muxBit + Order(|g.funcs|) then Digit(i, n - g.muxBit) else ctl[n]
  {
    hide Order, Digit;
    IndexInMask(g, i);
    InRange(Of(i), Mask(g, MuxField));
  }

  lemma EnableApart(g: Group)
    requires WellFormed(g) && g.egpioEnable < 32
    ensures !(g.muxBit <= g.egpioEnable < g.muxBit + Order(|g.funcs|))
  {
    hide Order;
    assert Apart(Low(1), g.egpioEnable, Mask(g, MuxField), Pos(g, MuxField));
    assert !And(Shl(Low(1), g.egpioEnable), Shl(Mask(g, MuxField), g.muxBit))[g.egpioEnable];
  }

  // ---------------------------------------------------------------- lists of requests

  predicate Asks(q: Request, p: Param) { q.Conf? && q.p == p }

  /** The output bit is what the last level request asked for, and what it was if there was none. */
  lemma {:induction false} OutputFollowsLastLevel(soc: Soc, g: Group, pin: Pin, qs: seq<Request>, k: nat)
    requires g.outBit < 32 && k <= |qs| && (k > 0 ==> Asks(qs[k - 1], Level))
    requires forall j :: k <= j < |qs| ==> !Asks(qs[j], Level)
    ensures ServeAll(soc, g, pin, qs).io[g.outBit] == if k > 0 then qs[k - 1].arg != 0 else pin.io[g.outBit]
    decreases |qs|
  {
    hide SetOne, MuxCtl;
    if qs != [] {
      var rest, last := qs[..|qs| - 1], qs[|qs| - 1];
      var before := ServeAll(soc, g, pin, rest);
      if last.Conf? { LevelBits(soc, g, before, last.p, last.arg, g.outBit); }
      if k < |qs| { OutputFollowsLastLevel(soc, g, pin, rest, k); }
    }
  }

  predicate AsksOutput(q: Request) { q.Conf? && IsOutput(q.p) }

  lemma ServeKeeps(soc: Soc, g: Group, pin: Pin, q: Request, f: FieldId, b: nat)
    requires WellFormed(g) && (f.DrainField? || f.OutputField?) && b == Pos(g, f) && b < 32
    requires q.Conf? ==> FieldOf(q.p) != Ok(f)
    ensures Serve(soc, g, pin, q).ctl[b] == pin.ctl[b]
  {
    ServeField(soc, g, pin, q, f);
    hide WellFormed, Serve;
    OneBit(g, Serve(soc, g, pin, q).ctl, f);
    OneBit(g, pin.ctl, f);
  }

  lemma OneBit(g: Group, ctl: Reg, f: FieldId)
    requires (f.DrainField? || f.OutputField?) && Pos(g, f) < 32
    ensures Field(ctl, Mask(g, f), Pos(g, f))[0] == ctl[Pos(g, f)]
  {
  }

  /** The output is enabled exactly as the last request about it asked. */
  lemma {:induction false} OutputEnabledAsAsked(soc: Soc, g: Group, pin: Pin, qs: seq<Request>, k: nat)
    requires WellFormed(g) && g.oeBit < 32 && k <= |qs| && (k > 0 ==> AsksOutput(qs[k - 1]))
    requires forall j :: k <= j < |qs| ==> !AsksOutput(qs[j])
    ensures ServeAll(soc, g, pin, qs).ctl[g.oeBit] ==
      if k > 0 then qs[k - 1].p.Level? || (qs[k - 1].p.OutputEnable? && qs[k - 1].arg != 0) else pin.ctl[g.oeBit]
    decreases |qs|
  {
    hide SetOne, MuxCtl, WellFormed;
    if qs != [] {
      var rest, last := qs[..|qs| - 1], qs[|qs| - 1];
      var before := ServeAll(soc, g, pin, rest);
      if k == |qs| {
        SingleBits(soc, g, before, last.p, last.arg);
      } else {
        ServeKeeps(soc, g, before, last, OutputField, g.oeBit);
        OutputEnabledAsAsked(soc, g, pin, rest, k);
      }
    }
  }

  /** Open drain, once asked for, stays: no request takes it back. */
  lemma {:induction false} OpenDrainStays(soc: Soc, g: Group, pin: Pin, qs: seq<Request>)
    requires WellFormed(g) && g.odBit < 32
    ensures ServeAll(soc, g, pin, qs).ctl[g.odBit] <==>
      pin.ctl[g.odBit] || exists k :: 0 <= k < |qs| && Asks(qs[k], DriveOpenDrain)
    decreases |qs|
  {
    hide SetOne, MuxCtl, WellFormed;
    if qs != [] {
      var rest, last := qs[..|qs| - 1], qs[|qs| - 1];
      var before := ServeAll(soc, g, pin, rest);
      OpenDrainStays(soc, g, pin, rest);
      if Asks(last, DriveOpenDrain) {
        SingleBits(soc, g, before, last.p, last.arg);
        assert Asks(qs[|qs| - 1], DriveOpenDrain);
      } else {
        ServeKeeps(soc, g, before, last, DrainField, g.odBit);
        if k :| 0 <= k < |rest| && Asks(rest[k], DriveOpenDrain) { assert Asks(qs[k], DriveOpenDrain); }
        if k :| 0 <= k < |qs| && Asks(qs[k], DriveOpenDrain) { assert Asks(rest[k], DriveOpenDrain); }
      }
    }
  }
}
