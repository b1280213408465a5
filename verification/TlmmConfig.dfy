/** Pin control and configuration fields of a TLMM pin group: what a request writes, what a query
    reads, and that the fields of one register do not disturb each other. */
module TlmmConfig {
  import opened RegBits

  datatype Param =
    | BiasDisable | BiasPullDown | BiasBusHold | BiasPullUp | DriveOpenDrain
    | DriveStrength | Level | InputEnable | OutputEnable | Unsupported

  datatype Error = EInval | ENotSupp
  datatype Result<+T> = Ok(value: T) | Err(error: Error)

  const I2C_STRONG_PULL_UP: nat := 2200

  /** Bit positions of one pin's fields, and the functions its mux selects between. */
  datatype Group = Group(
    funcs: seq<nat>, muxBit: nat, pullBit: nat, i2cPullBit: nat, drvBit: nat, odBit: nat, oeBit: nat,
    inBit: nat, outBit: nat, egpioPresent: nat, egpioEnable: nat)

  /** Indices of the gpio and egpio functions (0: no egpio), and whether the hardware lacks keepers. */
  datatype Soc = Soc(gpioFunc: nat, egpioFunc: nat, pullNoKeeper: bool)

  datatype Pin = Pin(ctl: Reg, io: Reg)

  /** order_base_2: the least w with n <= 2^w. */
  function Order(n: nat): (w: nat)
    ensures n <= Pow2(w)
    ensures w == 0 || Pow2(w - 1) < n
  {
    if n <= 1 then 0 else Order((n + 1) / 2) + 1
  }

  datatype FieldId = MuxField | BiasField | DriveField | DrainField | OutputField

  /** The mask of a field, before it is shifted into place. */
  function Mask(g: Group, f: FieldId): Reg {
    match f
    case MuxField => Low(Order(|g.funcs|))
    case BiasField => if g.i2cPullBit != 0 then Or(Low(2), Shr(Bit(g.i2cPullBit), g.pullBit)) else Low(2)
    case DriveField => Low(3)
    case DrainField => Low(1)
    case OutputField => Low(1)
  }

  function Pos(g: Group, f: FieldId): nat {
    match f
    case MuxField => g.muxBit
    case BiasField => g.pullBit
    case DriveField => g.drvBit
    case DrainField => g.odBit
    case OutputField => g.oeBit
  }

  /** Disjoint fields inside the register, the egpio enable bit apart from all of them, and an i2c pull
      bit, where there is one, above the pull bits. */
  ghost predicate WellFormed(g: Group) {
    && (forall f :: Fits(Mask(g, f), Pos(g, f)))
    && (forall f, f' :: f != f' ==> Apart(Mask(g, f), Pos(g, f), Mask(g, f'), Pos(g, f')))
    && (forall f :: Apart(Low(1), g.egpioEnable, Mask(g, f), Pos(g, f)))
    && (g.i2cPullBit == 0 || g.pullBit + 2 <= g.i2cPullBit < 32)
    && g.muxBit + Order(|g.funcs|) <= 32 && g.drvBit + 3 <= 32
  }

  /** msm_config_reg */
  function FieldOf(p: Param): Result<FieldId> {
    match p
    case BiasDisable => Ok(BiasField)
    case BiasPullDown => Ok(BiasField)
    case BiasBusHold => Ok(BiasField)
    case BiasPullUp => Ok(BiasField)
    case DriveOpenDrain => Ok(DrainField)
    case DriveStrength => Ok(DriveField)
    case Level => Ok(OutputField)
    case InputEnable => Ok(OutputField)
    case OutputEnable => Ok(OutputField)
    case Unsupported => Err(ENotSupp)
  }

  /** The conversions of msm_config_group_set: no pull, pull down, keeper and pull up are 0, 1, 2 and 3;
      without keepers pull up is 2; an unusable drive strength becomes all ones. */
  function Convert(soc: Soc, g: Group, p: Param, arg: nat): Result<Reg> {
    match p
    case BiasDisable => Ok(Zero())
    case BiasPullDown => Ok(Bit(0))
    case BiasBusHold => if soc.pullNoKeeper then Err(ENotSupp) else Ok(Bit(1))
    case BiasPullUp =>
      if soc.pullNoKeeper then Ok(Bit(1))
      else if g.i2cPullBit != 0 && arg == I2C_STRONG_PULL_UP then Ok(Or(Bit(g.i2cPullBit), Low(2)))
      else Ok(Low(2))
    case DriveOpenDrain => Ok(Bit(0))
    case DriveStrength => if arg > 16 || arg < 2 || arg % 2 != 0 then Ok(AllOnes()) else Ok(Of(arg / 2 - 1))
    case Level => Ok(Bit(0))
    case InputEnable => Ok(Zero())
    case OutputEnable => Ok(if arg != 0 then Bit(0) else Zero())
    case Unsupported => Err(EInval)
  }

  /** One round of msm_config_group_set: the pin afterwards and the error, if any. Setting a level
      drives the output bit before the range check. */
  function SetOne(soc: Soc, g: Group, pin: Pin, p: Param, arg: nat): (Pin, Result<FieldId>) {
    match FieldOf(p)
    case Err(e) => (pin, Err(e))
    case Ok(f) =>
      match Convert(soc, g, p, arg)
      case Err(e) => (pin, Err(e))
      case Ok(a) =>
        var io := if arg != 0 then Or(pin.io, Bit(g.outBit)) else And(pin.io, Not(Bit(g.outBit)));
        var pin := if p.Level? then pin.(io := io) else pin;
        if And(a, Not(Mask(g, f))) != Zero() then (pin, Err(EInval))
        else (pin.(ctl := WithField(pin.ctl, Mask(g, f), Pos(g, f), a)), Ok(f))
  }

  /** msm_config_group_get */
  function GetOne(soc: Soc, g: Group, pin: Pin, p: Param): Result<nat> {
    match FieldOf(p)
    case Err(e) => Err(e)
    case Ok(f) =>
      var arg := Field(pin.ctl, Mask(g, f), Pos(g, f));
      match p
      case BiasDisable => if arg != Zero() then Err(EInval) else Ok(1)
      case BiasPullDown => if arg != Bit(0) then Err(EInval) else Ok(1)
      case BiasBusHold => if soc.pullNoKeeper then Err(ENotSupp) else if arg != Bit(1) then Err(EInval) else Ok(1)
      case BiasPullUp =>
        if soc.pullNoKeeper then (if arg == Bit(1) then Ok(1) else Err(EInval))
        else if And(arg, Bit(g.i2cPullBit)) != Zero() then Ok(I2C_STRONG_PULL_UP)
        else if arg == Low(2) then Ok(1) else Err(EInval)
      case DriveOpenDrain => if arg == Zero() then Err(EInval) else Ok(1)
      case DriveStrength => Ok((Value(arg, 0, 3) + 1) * 2)
      case Level => if arg == Zero() then Err(EInval) else Ok(if And(pin.io, Bit(g.inBit)) != Zero() then 1 else 0)
      case OutputEnable => if arg == Zero() then Err(EInval) else Ok(1)
      case InputEnable => Err(ENotSupp)
      case Unsupported => Err(ENotSupp)
  }

  /** Where a function stands in the group's list, or its length when it is not there. */
  function IndexOf(funcs: seq<nat>, f: nat): (i: nat)
    ensures i <= |funcs|
    ensures i < |funcs| ==> funcs[i] == f
    ensures forall j :: 0 <= j < i ==> funcs[j] != f
  {
    if funcs == [] || funcs[0] == f then 0 else IndexOf(funcs[1..], f) + 1
  }

  /** The control register msm_pinmux_set_mux writes for function index `i`. */
  function MuxCtl(soc: Soc, g: Group, val: Reg, i: nat): Reg {
    if soc.egpioFunc != 0 && i == soc.egpioFunc then
      (if And(val, Bit(g.egpioPresent)) != Zero() then And(val, Not(Bit(g.egpioEnable))) else val)
    else
      var val := WithField(val, Mask(g, MuxField), g.muxBit, Of(i));
      if soc.egpioFunc != 0 && And(val, Bit(g.egpioPresent)) != Zero() then Or(val, Bit(g.egpioEnable)) else val
  }

  // ---------------------------------------------------------------- what a field remembers

  datatype Request = Conf(p: Param, arg: nat) | Mux(fn: nat)

  /** The pin after a request on it. A mux request for a function the group lacks changes nothing. */
  function Serve(soc: Soc, g: Group, pin: Pin, q: Request): Pin {
    match q
    case Conf(p, arg) => SetOne(soc, g, pin, p, arg).0
    case Mux(fn) =>
      var i := IndexOf(g.funcs, fn);
      if i == |g.funcs| then pin else pin.(ctl := MuxCtl(soc, g, pin.ctl, i))
  }

  /** The field a request succeeds in writing and the value it writes there. */
  function Writes(soc: Soc, g: Group, q: Request): map<FieldId, Reg> {
    match q
    case Conf(p, arg) =>
      (match FieldOf(p)
       case Err(_) => map[]
       case Ok(f) =>
         match Convert(soc, g, p, arg)
         case Err(_) => map[]
         case Ok(a) => if And(a, Not(Mask(g, f))) != Zero() then map[] else map[f := a])
    case Mux(fn) =>
      var i := IndexOf(g.funcs, fn);
      if i == |g.funcs| || (soc.egpioFunc != 0 && i == soc.egpioFunc) then map[] else map[MuxField := Of(i)]
  }

  /** Setting or clearing a bit outside a field leaves the field alone. */
  lemma BitApart(r: Reg, k: nat, m: Reg, b: nat)
    requires Apart(Low(1), k, m, b)
    ensures Field(Or(r, Bit(k)), m, b) == Field(r, m, b)
    ensures Field(And(r, Not(Bit(k))), m, b) == Field(r, m, b)
  {
    forall n | 0 <= n < 32
      ensures Field(Or(r, Bit(k)), m, b)[n] == Field(r, m, b)[n]
      ensures Field(And(r, Not(Bit(k))), m, b)[n] == Field(r, m, b)[n]
    {
      if n + b < 32 && m[n] { assert And(Shl(Low(1), k), Shl(m, b))[n + b] == false; }
    }
  }

  lemma IndexInMask(g: Group, i: nat)
    requires i < |g.funcs|
    ensures And(Of(i), Not(Mask(g, MuxField))) == Zero()
  {
    forall n | 0 <= n < 32 ensures !And(Of(i), Not(Mask(g, MuxField)))[n] {
      if Order(|g.funcs|) <= n { NoHighDigits(i, Order(|g.funcs|), n); }
    }
  }

  lemma FieldAfterWrite(g: Group, ctl: Reg, f: FieldId, a: Reg, f': FieldId)
    requires WellFormed(g) && And(a, Not(Mask(g, f))) == Zero()
    ensures Field(WithField(ctl, Mask(g, f), Pos(g, f), a), Mask(g, f'), Pos(g, f')) ==
      if f' == f then a else Field(ctl, Mask(g, f'), Pos(g, f'))
  {
    if f' == f { FieldOfWithField(ctl, Mask(g, f), Pos(g, f), a); }
    else { OtherFieldKept(ctl, Mask(g, f), Pos(g, f), a, Mask(g, f'), Pos(g, f')); }
  }

  lemma FieldAfterMux(soc: Soc, g: Group, ctl: Reg, i: nat, f: FieldId)
    requires WellFormed(g) && i < |g.funcs|
    ensures Field(MuxCtl(soc, g, ctl, i), Mask(g, f), Pos(g, f)) ==
      if f == MuxField && !(soc.egpioFunc != 0 && i == soc.egpioFunc) then Of(i) else Field(ctl, Mask(g, f), Pos(g, f))
  {
    var m, b := Mask(g, f), Pos(g, f);
    IndexInMask(g, i);
    FieldAfterWrite(g, ctl, MuxField, Of(i), f);
    BitApart(ctl, g.egpioEnable, m, b);
    BitApart(WithField(ctl, Mask(g, MuxField), g.muxBit, Of(i)), g.egpioEnable, m, b);
  }

  /** A request changes the field it writes, to the value it writes, and no other field. */
  lemma ServeField(soc: Soc, g: Group, pin: Pin, q: Request, f: FieldId)
    requires WellFormed(g)
    ensures var w := Writes(soc, g, q);
      Field(Serve(soc, g, pin, q).ctl, Mask(g, f), Pos(g, f)) ==
        if f in w then w[f] else Field(pin.ctl, Mask(g, f), Pos(g, f))
  {
    match q
    case Mux(fn) =>
      var i := IndexOf(g.funcs, fn);
      if i < |g.funcs| { FieldAfterMux(soc, g, pin.ctl, i, f); }
    case Conf(p, arg) =>
      if FieldOf(p).Ok? && Convert(soc, g, p, arg).Ok? {
        var f', a := FieldOf(p).value, Convert(soc, g, p, arg).value;
        if And(a, Not(Mask(g, f'))) == Zero() { FieldAfterWrite(g, pin.ctl, f', a, f); }
      }
  }

  function ServeAll(soc: Soc, g: Group, pin: Pin, qs: seq<Request>): Pin
    decreases |qs|
  {
    if qs == [] then pin else Serve(soc, g, ServeAll(soc, g, pin, qs[..|qs| - 1]), qs[|qs| - 1])
  }

  /** The last value each field was successfully given. */
  function LastWrites(soc: Soc, g: Group, qs: seq<Request>): map<FieldId, Reg>
    decreases |qs|
  {
    if qs == [] then map[] else LastWrites(soc, g, qs[..|qs| - 1]) + Writes(soc, g, qs[|qs| - 1])
  }

  /** After any list of mux and configuration requests each field reads as the last request that
      succeeded on it left it, and a field never written reads as it did at the start. */
  lemma {:induction false} LastRequestReadsBack(soc: Soc, g: Group, pin: Pin, qs: seq<Request>, f: FieldId)
    requires WellFormed(g)
    ensures var mem := LastWrites(soc, g, qs);
      Field(ServeAll(soc, g, pin, qs).ctl, Mask(g, f), Pos(g, f)) ==
        if f in mem then mem[f] else Field(pin.ctl, Mask(g, f), Pos(g, f))
    decreases |qs|
  {
    if qs != [] {
      LastRequestReadsBack(soc, g, pin, qs[..|qs| - 1], f);
      ServeField(soc, g, ServeAll(soc, g, pin, qs[..|qs| - 1]), qs[|qs| - 1], f);
    }
  }

  // ---------------------------------------------------------------- what queries report

  /** Drive strengths 2, 4, .. 16 are stored as 0 .. 7; nothing else passes the range check. */
  lemma DriveReadsBack(arg: nat)
    ensures 2 <= arg <= 16 && arg % 2 == 0 ==> (Value(Of(arg / 2 - 1), 0, 3) + 1) * 2 == arg
    ensures And(AllOnes(), Not(Low(3))) != Zero()
  {
    assert And(AllOnes(), Not(Low(3)))[31] != Zero()[31];
    if 2 <= arg <= 16 {
      assert Pow2(3) == 8 by { assert Pow2(1) == 2 && Pow2(2) == 4; }
      ValueOfDigits(Of(arg / 2 - 1), 0, 3, arg / 2 - 1);
    }
  }

  lemma DriveMask(g: Group)
    ensures Mask(g, DriveField) == Low(3)
  {
  }

  /** Bias disable, pull down, bus hold and drive strength read back as requested, whatever requests on
      other fields came before, between or after. */
  lemma ReadBack(soc: Soc, g: Group, pin: Pin, qs: seq<Request>, p: Param, arg: nat)
    requires WellFormed(g) && (p.BiasDisable? || p.BiasPullDown? || p.BiasBusHold? || p.DriveStrength?)
    requires var f := FieldOf(p).value;
      f in Writes(soc, g, Conf(p, arg)) && f in LastWrites(soc, g, qs) &&
      LastWrites(soc, g, qs)[f] == Writes(soc, g, Conf(p, arg))[f]
    ensures GetOne(soc, g, ServeAll(soc, g, pin, qs), p) == Ok(if p.DriveStrength? then arg else 1)
  {
    hide WellFormed, ServeAll, LastWrites, Mask, Field, Value;
    LastRequestReadsBack(soc, g, pin, qs, FieldOf(p).value);
    if p.DriveStrength? { DriveReadsBack(arg); DriveMask(g); }
  }

  /** The mux field reads back as the index of the last function selected, egpio apart. */
  lemma MuxReadsBack(soc: Soc, g: Group, pin: Pin, qs: seq<Request>, i: nat)
    requires WellFormed(g) && i < |g.funcs| && MuxField in LastWrites(soc, g, qs) &&
      LastWrites(soc, g, qs)[MuxField] == Of(i)
    ensures Value(ServeAll(soc, g, pin, qs).ctl, g.muxBit, Order(|g.funcs|)) == i
  {
    hide ServeAll, LastWrites, Order;
    LastRequestReadsBack(soc, g, pin, qs, MuxField);
    var ctl, w := ServeAll(soc, g, pin, qs).ctl, Order(|g.funcs|);
    forall n | g.muxBit <= n < g.muxBit + w ensures ctl[n] == Digit(i, n - g.muxBit) {
      assert Field(ctl, Mask(g, MuxField), g.muxBit)[n - g.muxBit] == Of(i)[n - g.muxBit];
    }
    ValueOfDigits(ctl, g.muxBit, w, i);
  }

  /** Pull up reads back as requested exactly where the hardware has no keepers or the group has an
      i2c pull bit: with none, the query tests bit 0 and takes every pull up for the strong one. */
  lemma PullUpReadsBackExactly(soc: Soc, g: Group, pin: Pin, qs: seq<Request>, arg: nat)
    requires WellFormed(g) && BiasField in Writes(soc, g, Conf(BiasPullUp, arg)) && BiasField in LastWrites(soc, g, qs)
    requires LastWrites(soc, g, qs)[BiasField] == Writes(soc, g, Conf(BiasPullUp, arg))[BiasField]
    ensures
      var strong := !soc.pullNoKeeper && g.i2cPullBit != 0 && arg == I2C_STRONG_PULL_UP;
      var asked := if strong then I2C_STRONG_PULL_UP else 1;
      GetOne(soc, g, ServeAll(soc, g, pin, qs), BiasPullUp) == Ok(asked) <==> soc.pullNoKeeper || g.i2cPullBit != 0
  {
    hide ServeAll, LastWrites, Field;
    LastRequestReadsBack(soc, g, pin, qs, BiasField);
    if !soc.pullNoKeeper {
      var a := Writes(soc, g, Conf(BiasPullUp, arg))[BiasField];
      if g.i2cPullBit == 0 {
        assert And(Low(2), Bit(0))[0] != Zero()[0];
      } else if arg == I2C_STRONG_PULL_UP {
        assert And(a, Bit(g.i2cPullBit))[g.i2cPullBit] != Zero()[g.i2cPullBit];
      } else {
        assert And(Low(2), Bit(g.i2cPullBit)) == Zero();
      }
    }
  }

  /** On such a group a pulled-down pin is reported as strongly pulled up. */
  lemma PullDownReportedAsPullUp(soc: Soc, g: Group, pin: Pin)
    requires WellFormed(g) && !soc.pullNoKeeper && g.i2cPullBit == 0
    ensures GetOne(soc, g, SetOne(soc, g, pin, BiasPullDown, 1).0, BiasPullUp) == Ok(I2C_STRONG_PULL_UP)
  {
    hide WellFormed, Field, WithField;
    assert And(Bit(0), Not(Low(2))) == Zero();
    FieldAfterWrite(g, pin.ctl, BiasField, Bit(0), BiasField);
    assert And(Bit(0), Bit(0))[0] != Zero()[0];
  }

  /** The strong pull up is accepted exactly when the pull field starts at bit 0: the mask is shifted
      down by its position, the argument is not. */
  lemma StrongPullUpAcceptedExactly(soc: Soc, g: Group, pin: Pin)
    requires WellFormed(g) && !soc.pullNoKeeper && g.i2cPullBit != 0
    ensures SetOne(soc, g, pin, BiasPullUp, I2C_STRONG_PULL_UP).1.Ok? <==> g.pullBit == 0
  {
    var a, m := Or(Bit(g.i2cPullBit), Low(2)), Mask(g, BiasField);
    assert And(a, Not(m))[g.i2cPullBit] == (g.pullBit != 0);
    if g.pullBit == 0 {
      forall n | 0 <= n < 32 ensures !And(a, Not(m))[n] { assert Shr(Bit(g.i2cPullBit), 0)[n] == Bit(g.i2cPullBit)[n]; }
      assert And(a, Not(m)) == Zero();
    } else {
      assert And(a, Not(m))[g.i2cPullBit] != Zero()[g.i2cPullBit];
    }
  }
}
