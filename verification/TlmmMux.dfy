/** Muxing a pin that carries an interrupt: the calls msm_pinmux_set_mux makes into the interrupt
    core, and the pin controller that makes them. */
module TlmmMux {
  import opened RegBits
  import opened TlmmConfig

  /** disable_irq_nosync, dropping what was latched (at the parent or in the status register), and
      enable_irq, for a hardware interrupt number. */
  datatype Event = Disable(hw: nat) | Clear(hw: nat, atParent: bool) | Enable(hw: nat)

  /** A mux change of pin `hw` to function index `i`; `mapped` when the pin has an interrupt then. */
  datatype Change = Change(hw: nat, i: nat, mapped: bool, atParent: bool)

  /** The calls made for one change, given the disabled_for_mux bitmap. */
  function Calls(gpio: nat, disabled: set<nat>, ch: Change): seq<Event> {
    if !ch.mapped then []
    else if ch.i != gpio then (if ch.hw in disabled then [] else [Disable(ch.hw)])
    else if ch.hw in disabled then [Clear(ch.hw, ch.atParent), Enable(ch.hw)] else []
  }

  function Bitmap(gpio: nat, disabled: set<nat>, ch: Change): set<nat> {
    if !ch.mapped then disabled else if ch.i != gpio then disabled + {ch.hw} else disabled - {ch.hw}
  }

  function BitmapAfter(gpio: nat, chs: seq<Change>): set<nat> {
    if chs == [] then {} else Bitmap(gpio, BitmapAfter(gpio, chs[..|chs| - 1]), chs[|chs| - 1])
  }

  function LogAfter(gpio: nat, chs: seq<Change>): seq<Event> {
    if chs == [] then []
    else LogAfter(gpio, chs[..|chs| - 1]) + Calls(gpio, BitmapAfter(gpio, chs[..|chs| - 1]), chs[|chs| - 1])
  }

  lemma LogStep(gpio: nat, chs: seq<Change>, ch: Change)
    ensures BitmapAfter(gpio, chs + [ch]) == Bitmap(gpio, BitmapAfter(gpio, chs), ch)
    ensures LogAfter(gpio, chs + [ch]) == LogAfter(gpio, chs) + Calls(gpio, BitmapAfter(gpio, chs), ch)
  {
    assert (chs + [ch])[..|chs|] == chs;
  }

  function Weight(e: Event, hw: nat): int {
    if e == Disable(hw) then 1 else if e == Enable(hw) then -1 else 0
  }

  /** Disables minus enables of an interrupt. */
  function Balance(log: seq<Event>, hw: nat): int {
    if log == [] then 0 else Balance(log[..|log| - 1], hw) + Weight(log[|log| - 1], hw)
  }

  lemma {:induction false} BalanceConcat(a: seq<Event>, b: seq<Event>, hw: nat)
    ensures Balance(a + b, hw) == Balance(a, hw) + Balance(b, hw)
    decreases |b|
  {
    if b == [] {
      assert a + b == a;
    } else {
      assert (a + b)[..|a + b| - 1] == a + b[..|b| - 1];
      BalanceConcat(a, b[..|b| - 1], hw);
    }
  }

  lemma CallsBalance(gpio: nat, disabled: set<nat>, ch: Change, hw: nat)
    ensures Balance(Calls(gpio, disabled, ch), hw) ==
      (if hw in Bitmap(gpio, disabled, ch) then 1 else 0) - (if hw in disabled then 1 else 0)
  {
    var log := Calls(gpio, disabled, ch);
    if |log| == 1 {
      assert log[..0] == [];
    } else if |log| == 2 {
      assert log[..1] == [log[0]] && log[..1][..0] == [];
      assert Balance(log[..1], hw) == 0;
    }
  }

  /** Over any mux changes and any interrupt mappings, an interrupt has been disabled once more than it
      has been enabled exactly while its disabled_for_mux bit is set, and equally often otherwise. */
  lemma {:induction false} MuxBalance(gpio: nat, chs: seq<Change>, hw: nat)
    ensures Balance(LogAfter(gpio, chs), hw) == if hw in BitmapAfter(gpio, chs) then 1 else 0
    decreases |chs|
  {
    if chs != [] {
      var before, last := chs[..|chs| - 1], chs[|chs| - 1];
      MuxBalance(gpio, before, hw);
      CallsBalance(gpio, BitmapAfter(gpio, before), last, hw);
      BalanceConcat(LogAfter(gpio, before), Calls(gpio, BitmapAfter(gpio, before), last), hw);
    }
  }

  /** Right before an interrupt is enabled again, what it latched meanwhile is dropped. */
  ghost predicate ClearedBeforeEnable(log: seq<Event>) {
    forall k :: 0 <= k < |log| && log[k].Enable? ==> k > 0 && log[k - 1].Clear? && log[k - 1].hw == log[k].hw
  }

  lemma {:induction false} StaleStateCleared(gpio: nat, chs: seq<Change>)
    ensures ClearedBeforeEnable(LogAfter(gpio, chs))
    decreases |chs|
  {
    if chs != [] {
      var before, last := chs[..|chs| - 1], chs[|chs| - 1];
      StaleStateCleared(gpio, before);
      var a, log := LogAfter(gpio, before), LogAfter(gpio, chs);
      forall k | 0 <= k < |log| && log[k].Enable?
        ensures k > 0 && log[k - 1].Clear? && log[k - 1].hw == log[k].hw
      {
        if k < |a| { assert log[k] == a[k]; }
      }
    }
  }

  /** The output latch of a pin muxed to gpio for the first time while it drives. */
  function Unglitched(g: Group, io: Reg): Reg {
    if And(io, Bit(g.inBit)) != Zero() then
      if And(io, Bit(g.outBit)) == Zero() then Or(io, Bit(g.outBit)) else io
    else
      if And(io, Bit(g.outBit)) != Zero() then And(io, Not(Bit(g.outBit))) else io
  }

  /** The pin goes on driving the level that was read on it, and only the output bit changes. */
  lemma NoGlitch(g: Group, io: Reg)
    requires g.inBit < 32 && g.outBit < 32
    ensures Unglitched(g, io)[g.outBit] == io[g.inBit]
    ensures forall n :: 0 <= n < 32 && n != g.outBit ==> Unglitched(g, io)[n] == io[n]
  {
    TestBit(io, g.inBit);
    TestBit(io, g.outBit);
  }

  lemma TestBit(r: Reg, k: nat)
    ensures And(r, Bit(k)) != Zero() <==> k < 32 && r[k]
  {
    if k < 32 && r[k] { assert And(r, Bit(k))[k] != Zero()[k]; }
    else { assert And(r, Bit(k)) == Zero(); }
  }

  /** A driving pin is about to become a gpio for the first time. */
  predicate FirstGpio(soc: Soc, g: Group, pin: Pin, i: nat, ever: bool) {
    i == soc.gpioFunc && And(pin.ctl, Bit(g.oeBit)) != Zero() && !ever
  }

  /** The pin's registers after a mux change to function index `i`. */
  function MuxedPin(soc: Soc, g: Group, pin: Pin, i: nat, ever: bool): Pin {
    Pin(MuxCtl(soc, g, pin.ctl, i), if FirstGpio(soc, g, pin, i, ever) then Unglitched(g, pin.io) else pin.io)
  }

  /** The output bit takes the level read on the pin if `takes`, and no other bit of the data register changes. */
  ghost predicate DrivesOn(g: Group, io: Reg, io': Reg, takes: bool)
    requires g.inBit < 32
  {
    forall n :: 0 <= n < 32 ==> io'[n] == if takes && n == g.outBit then io[g.inBit] else io[n]
  }

  /** A pin that drives and becomes a gpio for the first time goes on driving the level it has; no other mux change
      touches the data register. */
  lemma MuxKeepsLevel(soc: Soc, g: Group, pin: Pin, i: nat, ever: bool)
    requires g.oeBit < 32 && g.inBit < 32 && g.outBit < 32
    ensures DrivesOn(g, pin.io, MuxedPin(soc, g, pin, i, ever).io, i == soc.gpioFunc && pin.ctl[g.oeBit] && !ever)
  {
    TestBit(pin.ctl, g.oeBit);
    NoGlitch(g, pin.io);
  }

  class Controller {
    const soc: Soc
    const groups: seq<Group>
    const valid: set<nat>          // lines the gpio chip exposes
    var pins: seq<Pin>
    var disabledForMux: set<nat>
    var everGpio: set<nat>
    var skipWake: set<nat>
    ghost var changes: seq<Change>
    ghost var log: seq<Event>

    ghost predicate Valid()
      reads this
    {
      && |pins| == |groups|
      && disabledForMux == BitmapAfter(soc.gpioFunc, changes)
      && log == LogAfter(soc.gpioFunc, changes)
    }

    constructor (s: Soc, gs: seq<Group>, lines: set<nat>, regs: seq<Pin>)
      requires |regs| == |gs|
      ensures Valid() && soc == s && groups == gs && valid == lines && pins == regs
      ensures disabledForMux == {} && everGpio == {} && changes == [] && log == []
    {
      soc, groups, valid, pins := s, gs, lines, regs;
      disabledForMux, everGpio, skipWake := {}, {}, {};
      changes, log := [], [];
    }

    /** The register half of msm_pinmux_set_mux, under the lock. */
    method WriteMux(group: nat, i: nat)
      requires |pins| == |groups| && group < |groups|
      modifies this`pins, this`everGpio
      ensures pins == old(pins)[group := MuxedPin(soc, groups[group], old(pins)[group], i, group in old(everGpio))]
      ensures var first := FirstGpio(soc, groups[group], old(pins)[group], i, group in old(everGpio));
        everGpio == old(everGpio) + if first then {group} else {}
    {
      var g := groups[group];
      var val := pins[group].ctl;
      if i == soc.gpioFunc && And(val, Bit(g.oeBit)) != Zero() && group !in everGpio {
        everGpio := everGpio + {group};
        pins := pins[group := pins[group].(io := Unglitched(g, pins[group].io))];
      }
      pins := pins[group := pins[group].(ctl := MuxCtl(soc, g, val, i))];
    }

    /** test_and_set_bit on disabled_for_mux, and the disable it guards. */
    method MuxAway(group: nat)
      modifies this`disabledForMux, this`log
      ensures disabledForMux == old(disabledForMux) + {group}
      ensures log == old(log) + if group in old(disabledForMux) then [] else [Disable(group)]
    {
      if group !in disabledForMux { log := log + [Disable(group)]; }
      disabledForMux := disabledForMux + {group};
    }

    /** test_and_clear_bit on it, and the clearing and enabling that guards. */
    method MuxBack(group: nat, parent: bool)
      modifies this`disabledForMux, this`log
      ensures disabledForMux == old(disabledForMux) - {group}
      ensures log == old(log) +
        if group in old(disabledForMux) then [Clear(group, parent && group in skipWake), Enable(group)] else []
    {
      if group in disabledForMux {
        disabledForMux := disabledForMux - {group};
        if parent && group in skipWake {
          log := log + [Clear(group, true)];
        } else {
          log := log + [Clear(group, false)];
        }
        log := log + [Enable(group)];
      }
    }

    /** msm_pinmux_set_mux; `irq` says whether the pin's interrupt is mapped, `parent` whether it has a
        parent interrupt. */
    method SetMux(fn: nat, group: nat, irq: bool, parent: bool) returns (r: Result<nat>)
      requires Valid() && group < |groups|
      modifies this`pins, this`everGpio, this`disabledForMux, this`log, this`changes
      ensures Valid()
      ensures var g := groups[group]; var i := IndexOf(g.funcs, fn);
        if i == |g.funcs|
        then r == Err(EInval) && pins == old(pins) && changes == old(changes)
        else
          && r == Ok(i)
          && changes == old(changes) + [Change(group, i, irq, parent && group in skipWake)]
          && pins == old(pins)[group := MuxedPin(soc, g, old(pins)[group], i, group in old(everGpio))]
          && everGpio == old(everGpio) +
               if FirstGpio(soc, g, old(pins)[group], i, group in old(everGpio)) then {group} else {}
      ensures var g := groups[group];
        r.Ok? && g.oeBit < 32 && g.inBit < 32 && g.outBit < 32 ==>
          DrivesOn(g, old(pins)[group].io, pins[group].io,
            r.value == soc.gpioFunc && old(pins)[group].ctl[g.oeBit] && group !in old(everGpio))
    {
      hide MuxedPin, FirstGpio, BitmapAfter, LogAfter, DrivesOn;
      var g := groups[group];
      var i := FindFunction(g.funcs, fn);
      if i == |g.funcs| { return Err(EInval); }

      ghost var ch := Change(group, i, irq, parent && group in skipWake);
      ghost var calls := Calls(soc.gpioFunc, disabledForMux, ch);
      if irq && i != soc.gpioFunc { MuxAway(group); }
      WriteMux(group, i);
      if irq && i == soc.gpioFunc { MuxBack(group, parent); }
      assert log == old(log) + calls && disabledForMux == Bitmap(soc.gpioFunc, old(disabledForMux), ch);
      LogStep(soc.gpioFunc, changes, ch);
      changes := changes + [ch];
      r := Ok(i);
      if g.oeBit < 32 && g.inBit < 32 && g.outBit < 32 {
        MuxKeepsLevel(soc, g, old(pins)[group], i, group in old(everGpio));
      }
    }

    /** msm_config_group_set: the configurations in order, up to the first that fails. */
    method ConfigGroupSet(group: nat, configs: seq<(Param, nat)>) returns (r: Result<()>)
      requires Valid() && group < |groups|
      modifies this`pins
      ensures Valid() && pins == old(pins)[group := pins[group]]
      ensures (pins[group], r) == SetAll(soc, groups[group], old(pins)[group], configs)
    {
      var g := groups[group];
      var i := 0;
      assert configs[0..] == configs;
      while i < |configs|
        invariant i <= |configs| && |pins| == |groups| && pins == old(pins)[group := pins[group]]
        invariant SetAll(soc, g, pins[group], configs[i..]) == SetAll(soc, g, old(pins)[group], configs)
      {
        var (p, arg) := configs[i];
        var (pin, done) := SetOne(soc, g, pins[group], p, arg);
        pins := pins[group := pin];
        assert configs[i..][1..] == configs[i + 1..];
        if done.Err? { return Err(done.error); }
        i := i + 1;
      }
      r := Ok(());
    }

    /** msm_config_group_get */
    method ConfigGroupGet(group: nat, p: Param) returns (r: Result<nat>)
      requires Valid() && group < |groups|
      ensures r == if group !in valid then Err(EInval) else GetOne(soc, groups[group], pins[group], p)
    {
      if group !in valid { return Err(EInval); }
      r := GetOne(soc, groups[group], pins[group], p);
    }
  }

  /** The configurations of one call, in order, up to the first that fails. */
  function SetAll(soc: Soc, g: Group, pin: Pin, configs: seq<(Param, nat)>): (Pin, Result<()>)
    decreases |configs|
  {
    if configs == [] then (pin, Ok(()))
    else
      var (p, arg) := configs[0];
      var (pin', done) := SetOne(soc, g, pin, p, arg);
      if done.Err? then (pin', Err(done.error)) else SetAll(soc, g, pin', configs[1..])
  }

  lemma {:induction false} ServeFirst(soc: Soc, g: Group, pin: Pin, q: Request, qs: seq<Request>)
    ensures ServeAll(soc, g, pin, [q] + qs) == ServeAll(soc, g, Serve(soc, g, pin, q), qs)
    decreases |qs|
  {
    var all := [q] + qs;
    if qs == [] {
      assert all == [q] && all[..0] == [];
    } else {
      assert all[..|all| - 1] == [q] + qs[..|qs| - 1];
      ServeFirst(soc, g, pin, q, qs[..|qs| - 1]);
    }
  }

  /** A call is a run of single requests: what is proved of those holds after it. */
  lemma {:induction false} SetAllServes(soc: Soc, g: Group, pin: Pin, configs: seq<(Param, nat)>)
      returns (qs: seq<Request>)
    ensures |qs| <= |configs| && (forall k :: 0 <= k < |qs| ==> qs[k] == Conf(configs[k].0, configs[k].1))
    ensures SetAll(soc, g, pin, configs).0 == ServeAll(soc, g, pin, qs)
    ensures SetAll(soc, g, pin, configs).1.Ok? ==> |qs| == |configs|
    decreases |configs|
  {
    if configs == [] {
      qs := [];
    } else {
      var (p, arg) := configs[0];
      var (pin', done) := SetOne(soc, g, pin, p, arg);
      qs := [];
      if done.Ok? { qs := SetAllServes(soc, g, pin', configs[1..]); }
      ServeFirst(soc, g, pin, Conf(p, arg), qs);
      qs := [Conf(p, arg)] + qs;
    }
  }

  /** The search of msm_pinmux_set_mux. */
  method FindFunction(funcs: seq<nat>, f: nat) returns (i: nat)
    ensures i == IndexOf(funcs, f)
  {
    i := 0;
    while i < |funcs| && funcs[i] != f
      invariant i <= |funcs| && forall j :: 0 <= j < i ==> funcs[j] != f
    {
      i := i + 1;
    }
    assert IndexOf(funcs, f) < |funcs| ==> funcs[IndexOf(funcs, f)] == f;
  }
}
