/**
 References to a bus: who takes one, who drops one, and that every path, the failing ones included,
 leaves one for the registration, one for each registered device, driver and interface, and one for
 each reference that calls still in progress hold.
 */
module BusRefs {

  /** Where an operation fails, if it does. The numbers follow the order of the steps. */
  datatype Fault = NoFault | AtStep(n: nat)

  /** A list without its first `x`. */
  function WithoutFirst(q: seq<nat>, x: nat): (r: seq<nat>)
    ensures |r| == if x in q then |q| - 1 else |q|
    ensures multiset(r) == multiset(q) - multiset{x}
  {
    if q == [] then []
    else
      assert q == [q[0]] + q[1..];
      if q[0] == x then q[1..] else [q[0]] + WithoutFirst(q[1..], x)
  }

  class Bus {
    var listed: bool            // on bus_kset, where bus_to_subsys looks
    var refs: int
    var devices: seq<nat>
    var drivers: seq<nat>
    var interfaces: seq<nat>
    var autoprobe: bool

    function Members(): nat
      reads this
    {
      |devices| + |drivers| + |interfaces|
    }

    /** Every reference has an owner; `n` of them belong to calls in progress. */
    ghost predicate Valid(n: nat)
      reads this
    {
      refs == (if listed then 1 else 0) + Members() + n
    }

    /** bus_register, when it succeeds. */
    constructor ()
      ensures Valid(0) && listed && devices == [] && drivers == [] && interfaces == [] && autoprobe
    {
      listed, refs, autoprobe := true, 1, true;
      devices, drivers, interfaces := [], [], [];
    }

    /** bus_to_subsys: a registered bus is found, and found with a reference. */
    method BusToSubsys(ghost n: nat) returns (found: bool)
      requires Valid(n)
      modifies this`refs
      ensures found <==> listed
      ensures Valid(if found then n + 1 else n)
    {
      found := listed;
      if found { refs := refs + 1; }
    }

    /** subsys_put of a reference the caller holds. It frees the bus only when nobody owns a reference. */
    method SubsysPut(ghost n: nat) returns (freed: bool)
      requires Valid(n + 1)
      modifies this`refs
      ensures Valid(n)
      ensures freed <==> !listed && Members() == 0 && n == 0
    {
      refs := refs - 1;
      freed := refs == 0;
    }

    /** bus_unregister, as far as the bus's own reference goes. */
    method Unregister(ghost n: nat)
      requires Valid(n)
      modifies this`listed, this`refs
      ensures Valid(n) && !listed
    {
      var found := BusToSubsys(n);
      if found {
        listed := false;
        refs := refs - 1;
        var _ := SubsysPut(n);
      }
    }

    /** bus_add_device. The reference taken at the start stays with the device, unless one of the three
        sysfs steps fails. */
    method AddDevice(dev: nat, fault: Fault, ghost n: nat) returns (ok: bool)
      requires Valid(n)
      modifies this`refs, this`devices
      ensures Valid(n) && (ok <==> !listed || fault.NoFault? || fault.n > 2)
      ensures devices == old(devices) + if listed && ok then [dev] else []
    {
      var found := BusToSubsys(n);
      if !found { return true; }
      if fault.AtStep? && fault.n <= 2 {
        var _ := SubsysPut(n);
        return false;
      }
      devices := devices + [dev];
      ok := true;
    }

    /** bus_remove_device, of a device that was added: one reference for this call, one for the device. */
    method RemoveDevice(dev: nat, ghost n: nat)
      requires Valid(n) && dev in devices
      modifies this`refs, this`devices
      ensures Valid(n) && devices == if listed then WithoutFirst(old(devices), dev) else old(devices)
    {
      var found := BusToSubsys(n);
      if !found { return; }
      devices := WithoutFirst(devices, dev);
      var _ := SubsysPut(n + 1);
      var _ := SubsysPut(n);
    }

    /** bus_for_each_dev, bus_for_each_drv, bus_find_device: a reference for the time of the walk. */
    method Walk(ghost n: nat) returns (found: bool)
      requires Valid(n)
      modifies this`refs
      ensures Valid(n) && (found <==> listed)
    {
      found := BusToSubsys(n);
      if found { var _ := SubsysPut(n); }
    }

    /** bus_add_driver. Allocation, kobject and module links can fail; driver_attach walks the devices
        while the driver is listed already, and a later failure takes the driver off the list again. */
    method AddDriver(drv: nat, fault: Fault, ghost n: nat) returns (ok: bool)
      requires Valid(n)
      modifies this`refs, this`drivers
      ensures Valid(n) && (ok <==> listed && (fault.NoFault? || fault.n > 2))
      ensures drivers == old(drivers) + if ok then [drv] else []
    {
      var found := BusToSubsys(n);
      if !found { return false; }
      if fault.AtStep? && fault.n <= 1 {
        var _ := SubsysPut(n);
        return false;
      }
      drivers := drivers + [drv];
      if autoprobe { var _ := Walk(n); }
      if fault.AtStep? && fault.n == 2 {
        drivers := drivers[..|drivers| - 1];
        var _ := SubsysPut(n);
        return false;
      }
      ok := true;
    }

    /** bus_remove_driver, of a driver that was added. */
    method RemoveDriver(drv: nat, ghost n: nat)
      requires Valid(n) && drv in drivers
      modifies this`refs, this`drivers
      ensures Valid(n) && drivers == if listed then WithoutFirst(old(drivers), drv) else old(drivers)
    {
      var found := BusToSubsys(n);
      if !found { return; }
      drivers := WithoutFirst(drivers, drv);
      var _ := SubsysPut(n + 1);
      var _ := SubsysPut(n);
    }

    /** subsys_interface_register */
    method InterfaceRegister(sif: nat, ghost n: nat) returns (ok: bool)
      requires Valid(n)
      modifies this`refs, this`interfaces
      ensures Valid(n) && (ok <==> listed) && interfaces == old(interfaces) + if ok then [sif] else []
    {
      ok := BusToSubsys(n);
      if ok { interfaces := interfaces + [sif]; }
    }

    /** subsys_interface_unregister */
    method InterfaceUnregister(sif: nat, ghost n: nat)
      requires Valid(n) && sif in interfaces
      modifies this`refs, this`interfaces
      ensures Valid(n) && interfaces == if listed then WithoutFirst(old(interfaces), sif) else old(interfaces)
    {
      var found := BusToSubsys(n);
      if !found { return; }
      interfaces := WithoutFirst(interfaces, sif);
      var _ := SubsysPut(n + 1);
      var _ := SubsysPut(n);
    }

    /** bus_put: it looks the bus up again and so drops two references, or, once the bus is unregistered,
        none at all. */
    method BusPut(ghost n: nat)
      requires Valid(n + 1)
      modifies this`refs
      ensures Valid(if listed then n else n + 1)
    {
      var found := BusToSubsys(n + 1);
      if found {
        var _ := SubsysPut(n + 1);
        var _ := SubsysPut(n);
      }
    }

    /** The first half of bind_store and unbind_store: the bus, with a reference, and the device on it. */
    method BindStart(ghost n: nat) returns (got: bool)
      requires Valid(n)
      modifies this`refs
      ensures got == listed && Valid(if got then n + 1 else n)
    {
      got := BusToSubsys(n);
      if got { var _ := Walk(n + 1); }
    }

    /** bind_store and unbind_store; `gone` when the bus is unregistered while the device is being bound or
        released. Then, and only then, the reference taken at the start is never given back. */
    method BindOrUnbind(gone: bool, ghost n: nat)
      requires Valid(n)
      modifies this`refs, this`listed
      ensures listed == (old(listed) && !gone)
      ensures Valid(if old(listed) && gone then n + 1 else n)
    {
      var got := BindStart(n);
      if !got { return; }
      if gone { Unregister(n + 1); }
      BusPut(n);
    }
  }

  // ---------------------------------------------------------------- whole runs

  datatype Op =
    | AddDev(d: nat, fault: Fault) | RemoveDev(d: nat)
    | AddDrv(r: nat, fault: Fault) | RemoveDrv(r: nat)
    | AddIf(s: nat) | RemoveIf(s: nat)
    | Iterate | StartBind | EndBind | UnregisterBus

  /** Who is owed what: the members, `held` binds and unbinds in progress, and `lost` that ended without giving back. */
  datatype Tally = Tally(listed: bool, devices: seq<nat>, drivers: seq<nat>, interfaces: seq<nat>, held: nat, lost: nat)

  function Count(t: Tally, op: Op): Tally {
    match op
    case AddDev(d, fault) => if t.listed && (fault.NoFault? || fault.n > 2) then t.(devices := t.devices + [d]) else t
    case RemoveDev(d) => if t.listed then t.(devices := WithoutFirst(t.devices, d)) else t
    case AddDrv(r, fault) => if t.listed && (fault.NoFault? || fault.n > 2) then t.(drivers := t.drivers + [r]) else t
    case RemoveDrv(r) => if t.listed then t.(drivers := WithoutFirst(t.drivers, r)) else t
    case AddIf(s) => if t.listed then t.(interfaces := t.interfaces + [s]) else t
    case RemoveIf(s) => if t.listed then t.(interfaces := WithoutFirst(t.interfaces, s)) else t
    case Iterate => t
    case StartBind => if t.listed then t.(held := t.held + 1) else t
    case EndBind =>
      if t.held == 0 then t
      else t.(held := t.held - 1, lost := if t.listed then t.lost else t.lost + 1)
    case UnregisterBus => t.(listed := false)
  }

  function Tallied(t: Tally, ops: seq<Op>): Tally
    decreases |ops|
  {
    if ops == [] then t else Count(Tallied(t, ops[..|ops| - 1]), ops[|ops| - 1])
  }

  ghost function Now(bus: Bus, held: nat, lost: nat): Tally
    reads bus
  {
    Tally(bus.listed, bus.devices, bus.drivers, bus.interfaces, held, lost)
  }

  lemma {:induction false} WithoutAbsent(q: seq<nat>, x: nat)
    requires x !in q
    ensures WithoutFirst(q, x) == q
  {
    if q != [] { WithoutAbsent(q[1..], x); }
  }

  /** An operation on the members. Removals of what was never added are not made. */
  method ChangeMembers(bus: Bus, op: Op, ghost held: nat, ghost lost: nat, ghost all: nat)
    requires bus.Valid(all) && !op.StartBind? && !op.EndBind? && !op.UnregisterBus?
    modifies bus
    ensures bus.Valid(all) && Now(bus, held, lost) == Count(old(Now(bus, held, lost)), op)
  {
    hide WithoutFirst;
    match op
    case AddDev(d, fault) => var _ := bus.AddDevice(d, fault, all);
    case RemoveDev(d) => if d in bus.devices { bus.RemoveDevice(d, all); } else { WithoutAbsent(bus.devices, d); }
    case AddDrv(r, fault) => var _ := bus.AddDriver(r, fault, all);
    case RemoveDrv(r) => if r in bus.drivers { bus.RemoveDriver(r, all); } else { WithoutAbsent(bus.drivers, r); }
    case AddIf(s) => var _ := bus.InterfaceRegister(s, all);
    case RemoveIf(s) =>
      if s in bus.interfaces { bus.InterfaceUnregister(s, all); } else { WithoutAbsent(bus.interfaces, s); }
    case Iterate => var _ := bus.Walk(all);
  }

  /** Any operation, with `held` binds in progress. Ends of what never started are not made. */
  method Perform(bus: Bus, op: Op, held: nat, ghost lost: nat, ghost n: nat) returns (held': nat, ghost lost': nat)
    requires bus.Valid(n + held + lost)
    modifies bus
    ensures bus.Valid(n + held' + lost') && Now(bus, held', lost') == Count(old(Now(bus, held, lost)), op)
  {
    held', lost' := held, lost;
    ghost var all := n + held + lost;
    match op
    case StartBind =>
      var got := bus.BindStart(all);
      if got { held' := held + 1; }
    case EndBind =>
      if held > 0 {
        bus.BusPut(all - 1);
        held', lost' := held - 1, if bus.listed then lost else lost + 1;
      }
    case UnregisterBus => bus.Unregister(all);
    case _ => ChangeMembers(bus, op, held, lost, all);
  }

  /** Any sequence of operations, beside any calls in progress: the count is one for the registration, while it lasts,
      plus the members, plus what those calls and the binds in progress hold, plus what is lost. */
  method RunOps(bus: Bus, ops: seq<Op>, ghost n: nat) returns (held: nat)
    requires bus.Valid(n)
    modifies bus
    ensures var t := Tallied(old(Now(bus, 0, 0)), ops);
      && Now(bus, held, t.lost) == t
      && bus.refs == (if bus.listed then 1 else 0) + bus.Members() + n + held + t.lost
  {
    hide Count;
    held := 0;
    ghost var lost := 0;
    for k := 0 to |ops|
      invariant bus.Valid(n + held + lost) && Now(bus, held, lost) == Tallied(old(Now(bus, 0, 0)), ops[..k])
    {
      assert ops[..k + 1][..k] == ops[..k];
      held, lost := Perform(bus, ops[k], held, lost, n);
    }
    assert ops[..|ops|] == ops;
  }

  lemma {:induction false} RegisteredLosesNothing(t: Tally, ops: seq<Op>)
    requires UnregisterBus !in ops && t.listed
    ensures Tallied(t, ops).listed && Tallied(t, ops).lost == t.lost
    decreases |ops|
  {
    if ops != [] { RegisteredLosesNothing(t, ops[..|ops| - 1]); }
  }

  /** What is lost, exactly: while the bus is registered nothing, and from its unregistering on every bind then in
      progress that has ended since. Once all have ended, that is all of them. */
  lemma {:induction false} OvertakenAreLost(t: Tally, pre: seq<Op>, post: seq<Op>)
    requires UnregisterBus !in pre && t.listed && t.lost == 0
    ensures Tallied(t, pre).lost == 0 && !Tallied(t, pre + [UnregisterBus] + post).listed
    ensures
      var u := Tallied(t, pre + [UnregisterBus] + post);
      u.held + u.lost == Tallied(t, pre).held
    decreases |post|
  {
    var ops := pre + [UnregisterBus] + post;
    if post == [] {
      RegisteredLosesNothing(t, pre);
      assert ops[..|ops| - 1] == pre;
    } else {
      OvertakenAreLost(t, pre, post[..|post| - 1]);
      assert ops[..|ops| - 1] == pre + [UnregisterBus] + post[..|post| - 1];
    }
  }
}
