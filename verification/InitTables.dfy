/** The argument and environment tables of init, filled in place from unknown boot options. */
module InitTables {
  import opened InitEnv
  import opened Optional

  const NUL: char := '\0'

  // ---------------------------------------------------------------- the option string

  /** The C string at `p`. */
  function CStr(s: seq<char>, p: nat): (r: string)
    requires p <= |s|
    ensures p + |r| <= |s| && (p + |r| < |s| ==> s[p + |r|] == NUL)
    ensures forall i :: 0 <= i < |r| ==> r[i] == s[p + i] && r[i] != NUL
    decreases |s| - p
  {
    if p == |s| || s[p] == NUL then [] else [s[p]] + CStr(s, p + 1)
  }

  lemma {:induction false} CStrIs(s: seq<char>, p: nat, t: string)
    requires p + |t| < |s| && s[p + |t|] == NUL && forall i :: 0 <= i < |t| ==> s[p + i] == t[i] && t[i] != NUL
    ensures CStr(s, p) == t
    decreases |t|
  {
    if t != [] {
      forall i | 0 <= i < |t| - 1 ensures s[p + 1 + i] == t[1..][i] { assert s[p + (i + 1)] == t[i + 1]; }
      CStrIs(s, p + 1, t[1..]);
      assert s[p + 0] == t[0];
    }
  }

  /** repair_env_string: parse_args split "name=value" or name="value" in place; the string at `param`
      becomes name=value again, and nothing outside the two strings changes. */
  method RepairEnvString(buf: array<char>, param: nat, val: Maybe<nat>)
    requires param <= buf.Length
    requires val.Just? ==>
      var n := |CStr(buf[..], param)|;
      && (val.value == param + n + 1 || val.value == param + n + 2)
      && val.value <= buf.Length && val.value + |CStr(buf[..], val.value)| < buf.Length
    modifies buf
    ensures val.Nothing? ==> buf[..] == old(buf[..])
    ensures val.Just? ==> CStr(buf[..], param) == old(CStr(buf[..], param)) + "=" + old(CStr(buf[..], val.value))
    ensures forall i :: 0 <= i < param ==> buf[i] == old(buf[i])
    ensures val.Just? ==>
      forall i :: val.value + |old(CStr(buf[..], val.value))| < i < buf.Length ==> buf[i] == old(buf[i])
  {
    if val.Just? {
      var len := StrLen(buf, param);
      if val.value == param + len + 1 { JoinPlain(buf, param, val.value); } else { JoinQuoted(buf, param, val.value); }
    }
  }

  /** name=value: the equals sign goes back where parse_args put a NUL. */
  method JoinPlain(buf: array<char>, param: nat, val: nat)
    requires param <= buf.Length && val == param + |CStr(buf[..], param)| + 1 <= buf.Length
    requires val + |CStr(buf[..], val)| < buf.Length
    modifies buf
    ensures CStr(buf[..], param) == old(CStr(buf[..], param)) + "=" + old(CStr(buf[..], val))
    ensures forall i :: 0 <= i < buf.Length && i != val - 1 ==> buf[i] == old(buf[i])
  {
    ghost var was := buf[..];
    buf[val - 1] := '=';
    WholeAgain(was, buf[..], param, val, 1);
  }

  /** name="value": the value moves over the opening quote as well. */
  method JoinQuoted(buf: array<char>, param: nat, val: nat)
    requires param <= buf.Length && val == param + |CStr(buf[..], param)| + 2 <= buf.Length
    requires val + |CStr(buf[..], val)| < buf.Length
    modifies buf
    ensures CStr(buf[..], param) == old(CStr(buf[..], param)) + "=" + old(CStr(buf[..], val))
    ensures forall i :: 0 <= i < buf.Length && (i < param || i > val + |old(CStr(buf[..], val))|) ==>
      buf[i] == old(buf[i])
  {
    hide CStr;
    ghost var was := buf[..];
    var size := StrLen(buf, val);
    buf[val - 2] := '=';
    MoveDown(buf, val, size + 1);
    ghost var now := buf[..];
    assert forall i :: val - 1 <= i < val + size ==> now[i] == was[i + 1];
    assert forall i :: param <= i < val - 2 ==> now[i] == was[i];
    WholeAgain(was, now, param, val, 2);
  }

  /** memmove of `n` characters by one to the left. */
  method MoveDown(buf: array<char>, at: nat, n: nat)
    requires 1 <= at && at + n <= buf.Length
    modifies buf
    ensures forall i :: 0 <= i < buf.Length ==>
      buf[i] == if at - 1 <= i < at - 1 + n then old(buf[i + 1]) else old(buf[i])
  {
    for k := 0 to n
      invariant forall i :: 0 <= i < buf.Length ==>
        buf[i] == if at - 1 <= i < at - 1 + k then old(buf[i + 1]) else old(buf[i])
    {
      buf[at - 1 + k] := buf[at + k];
    }
  }

  /** The equals sign is back and the value, `gap` places behind the name, has moved up to it. */
  lemma WholeAgain(was: seq<char>, now: seq<char>, param: nat, val: nat, gap: nat)
    requires |was| == |now| && param <= |was| && val == param + |CStr(was, param)| + gap && 1 <= gap
    requires val <= |was| && val + |CStr(was, val)| < |was| && now[val - gap] == '='
    requires forall i :: param <= i < val - gap ==> now[i] == was[i]
    requires forall i :: val - gap < i <= val - gap + 1 + |CStr(was, val)| ==> now[i] == was[i + gap - 1]
    ensures CStr(now, param) == CStr(was, param) + "=" + CStr(was, val)
  {
    hide CStr;
    var name, value := CStr(was, param), CStr(was, val);
    var t := name + "=" + value;
    forall i | 0 <= i < |t| ensures now[param + i] == t[i] && t[i] != NUL {
      if i > |name| { assert now[param + i] == was[val + (i - |name| - 1)] && t[i] == value[i - |name| - 1]; }
    }
    assert now[param + |t|] == was[val + |value|];
    CStrIs(now, param, t);
  }

  method StrLen(buf: array<char>, p: nat) returns (n: nat)
    requires p <= buf.Length
    ensures n == |CStr(buf[..], p)|
  {
    n := 0;
    ghost var s := CStr(buf[..], p);
    while p + n < buf.Length && buf[p + n] != NUL
      invariant p + n <= buf.Length && n <= |s|
      invariant n < |s| ==> buf[p + n] == s[n] && s[n] != NUL
    {
      n := n + 1;
    }
  }

  // ---------------------------------------------------------------- comparing names

  /** strncmp(a, b, n) == 0 */
  predicate StrnEq(a: string, b: string, n: nat)
    decreases n
  {
    n == 0 || (a == [] && b == []) || (a != [] && b != [] && a[0] == b[0] && StrnEq(a[1..], b[1..], n - 1))
  }

  lemma {:induction false} StrnEqPrefix(a: string, b: string, n: nat)
    requires n <= |a|
    ensures StrnEq(a, b, n) <==> n <= |b| && a[..n] == b[..n]
    decreases n
  {
    if n > 0 && b != [] {
      StrnEqPrefix(a[1..], b[1..], n - 1);
      if n <= |b| { PrefixSplit(a, b, n); }
    }
  }

  /** For any strings: they agree in their first `n` characters, or as far as they go. */
  lemma {:induction false} StrnEqExactly(a: string, b: string, n: nat)
    ensures StrnEq(a, b, n) <==> (if n <= |a| then a[..n] else a) == (if n <= |b| then b[..n] else b)
    decreases n
  {
    if n > 0 && a != [] && b != [] {
      StrnEqExactly(a[1..], b[1..], n - 1);
      assert (if n <= |a| then a[..n] else a) == [a[0]] + (if n - 1 <= |a[1..]| then a[1..][..n - 1] else a[1..]);
      assert (if n <= |b| then b[..n] else b) == [b[0]] + (if n - 1 <= |b[1..]| then b[1..][..n - 1] else b[1..]);
      SameHead(a[0], if n - 1 <= |a[1..]| then a[1..][..n - 1] else a[1..],
        b[0], if n - 1 <= |b[1..]| then b[1..][..n - 1] else b[1..]);
    }
  }

  lemma SameHead(x: char, a: string, y: char, b: string)
    ensures [x] + a == [y] + b <==> x == y && a == b
  {
    if [x] + a == [y] + b {
      assert ([x] + a)[0] == x && ([y] + b)[0] == y;
      assert ([x] + a)[1..] == a && ([y] + b)[1..] == b;
    }
  }

  lemma PrefixSplit(a: string, b: string, n: nat)
    requires 0 < n <= |a| && n <= |b|
    ensures a[..n] == b[..n] <==> a[0] == b[0] && a[1..][..n - 1] == b[1..][..n - 1]
  {
    var x, y := a[1..][..n - 1], b[1..][..n - 1];
    assert a[..n] == [a[0]] + x && b[..n] == [b[0]] + y;
    if a[..n] == b[..n] {
      assert a[0] == a[..n][0] && b[0] == b[..n][0];
      assert x == a[..n][1..] && y == b[..n][1..];
    }
  }

  function Text(v: Var): string { v.name + "=" + v.value }

  /** Names end at their first equals sign, so comparing one character more than the name compares names. */
  lemma SameNameExactly(v: Var, w: Var)
    requires '=' !in v.name && '=' !in w.name
    ensures StrnEq(Text(v), Text(w), |v.name| + 1) <==> v.name == w.name
  {
    var n := |v.name| + 1;
    StrnEqPrefix(Text(v), Text(w), n);
    assert forall i :: 0 <= i < |v.name| ==> Text(v)[i] == v.name[i] && v.name[i] in v.name;
    assert forall i :: 0 <= i < |w.name| ==> Text(w)[i] == w.name[i] && w.name[i] in w.name;
    assert Text(v)[|v.name|] == '=' && Text(w)[|w.name|] == '=';
    if StrnEq(Text(v), Text(w), n) {
      assert forall i :: 0 <= i < n ==> Text(v)[i] == Text(v)[..n][i] == Text(w)[..n][i] == Text(w)[i];
      assert |w.name| <= |v.name|;
      assert |v.name| <= |w.name|;
      assert forall i :: 0 <= i < |v.name| ==> v.name[i] == w.name[i];
    }
  }

  // ---------------------------------------------------------------- the tables

  datatype Slot = Null | Str(s: string)

  /** The environment, packed at the front of its table. */
  ghost predicate EnvTable(max: nat, t: seq<Slot>, env: seq<Var>) {
    && |t| == max + 2 && |env| <= max + 1
    && (forall i :: 0 <= i < |env| ==> t[i] == Str(Text(env[i])) && '=' !in env[i].name)
    && (forall i :: |env| <= i < |t| ==> t[i] == Null)
    && Distinct(Names(env))
  }

  /** The arguments since the last init=, and in the last usable slot what that option left there. */
  ghost predicate ArgTable(max: nat, t: seq<Slot>, args: seq<string>, stale: Slot) {
    && |t| == max + 2 && |args| <= max && max >= 2 && t[0].Str?
    && (forall i :: 0 < i <= |args| ==> t[i] == Str(args[i - 1]))
    && (forall i :: |args| < i < max ==> t[i] == Null)
    && (|args| < max ==> t[max] == stale)
    && (|args| == max ==> stale == Null)
    && t[max + 1] == Null
  }

  /** No slot is left for another argument. */
  predicate Full(max: nat, args: seq<string>, stale: Slot) {
    |args| == max || (|args| + 1 == max && stale.Str?)
  }

  /** The entries init is handed: those up to the first null. */
  function Handed(t: seq<Slot>): (r: seq<Slot>)
    ensures |r| <= |t| && r == t[..|r|] && (forall i :: 0 <= i < |r| ==> r[i].Str?) && (|r| < |t| ==> t[|r|] == Null)
  {
    if t == [] || t[0] == Null then [] else [t[0]] + Handed(t[1..])
  }

  /** Init is handed exactly the arguments after the last init=, unless every slot but the last has been
      filled again and the last still holds an argument from before that option. */
  lemma HandedExactly(max: nat, t: seq<Slot>, args: seq<string>, stale: Slot)
    requires ArgTable(max, t, args, stale)
    ensures Handed(t) == [t[0]] + Strs(args) <==> !(|args| + 1 == max && stale.Str?)
  {
    var r, want := Handed(t), [t[0]] + Strs(args);
    assert forall i :: 0 <= i < |r| ==> r[i] == t[i] && t[i] != Null;
    assert forall i :: 0 <= i <= |args| ==> t[i] == want[i];
    assert |r| > |args|;
    if |args| + 1 < max { assert t[|args| + 1] == Null; }
    if |r| == |args| + 1 { assert r == want; }
  }

  function Strs(args: seq<string>): (r: seq<Slot>)
    ensures |r| == |args| && forall i :: 0 <= i < |r| ==> r[i] == Str(args[i])
  {
    seq(|args|, i requires 0 <= i < |args| => Str(args[i]))
  }

  /** The environment loop stops at the name, or at the first null. */
  predicate StopsAt(t: seq<Slot>, v: Var, i: nat)
    requires i < |t|
  {
    t[i] == Null || StrnEq(Text(v), t[i].s, |v.name| + 1)
  }

  /** A slot stops the loop exactly when it holds the name. */
  lemma StopsExactly(max: nat, t: seq<Slot>, env: seq<Var>, v: Var, j: nat)
    requires EnvTable(max, t, env) && '=' !in v.name && j < |env|
    ensures StopsAt(t, v, j) <==> env[j].name == v.name
  {
    hide StrnEq, Text, Distinct;
    SameNameExactly(v, env[j]);
  }

  lemma StopIsFind(max: nat, t: seq<Slot>, env: seq<Var>, v: Var, i: nat)
    requires EnvTable(max, t, env) && '=' !in v.name && i < |t| && StopsAt(t, v, i)
    requires forall j :: 0 <= j < i ==> !StopsAt(t, v, j)
    ensures i == Find(env, v.name)
  {
    hide StrnEq, Text, Distinct, Find;
    var k := Find(env, v.name);
    assert StopsAt(t, v, k) by { if k < |env| { StopsExactly(max, t, env, v, k); } }
    if i < k { StopsExactly(max, t, env, v, i); }
  }

  lemma SetVarDistinct(env: seq<Var>, v: Var)
    requires Distinct(Names(env))
    ensures Distinct(Names(SetVar(env, v)))
  {
    hide SetVar, Names;
    SetVarNames(env, v);
  }

  lemma EnvStop(max: nat, t: seq<Slot>, env: seq<Var>, v: Var, i: nat)
    requires EnvTable(max, t, env) && '=' !in v.name && i < |t| && StopsAt(t, v, i)
    requires forall j :: 0 <= j < i ==> !StopsAt(t, v, j)
    ensures i == Find(env, v.name)
    ensures i <= max ==> EnvTable(max, t[i := Str(Text(v))], SetVar(env, v))
  {
    StopIsFind(max, t, env, v, i);
    hide StrnEq, StopsAt, Text, Distinct, Find, Names;
    SetVarDistinct(env, v);
  }

  /** The first null of the argument table. */
  lemma ArgStop(max: nat, t: seq<Slot>, args: seq<string>, stale: Slot, i: nat, s: string)
    requires ArgTable(max, t, args, stale) && i < |t| && t[i] == Null && forall j :: 0 <= j < i ==> t[j].Str?
    ensures i == max + 1 <==> Full(max, args, stale)
    ensures i <= max ==> ArgTable(max, t[i := Str(s)], args + [s], stale)
  {
    if |args| + 1 < max { assert t[|args| + 1] == Null; }
    assert forall j :: 0 <= j <= |args| ==> t[j].Str?;
  }

  /** An option as parse_args delivers it, with the verdicts of sysctl_is_alias and obsolete_checksetup. */
  datatype BootOption = BootOption(name: string, value: Maybe<string>, sysctl: bool, obsolete: bool)
  {
    function Whole(): string { if value.Just? then name + "=" + value.value else name }

    /** The option goes to init: it is no sysctl alias, bootloader identifier, old-style parameter or
        module parameter. */
    predicate ForInit() {
      !sysctl && !("BOOT_IMAGE=" <= Whole()) && !("kexec" <= Whole()) && !obsolete && '.' !in name
    }
  }

  /** What the command line brings: an unknown option, a string after "--", or init= (rdinit= alike). */
  datatype BootEvent = Unknown(o: BootOption) | AfterDashes(whole: string) | InitOption

  /** The assignment an event makes, if it makes one. */
  function VarOf(e: BootEvent): seq<Var> {
    if e.Unknown? && e.o.ForInit() && e.o.value.Just? then [Var(e.o.name, e.o.value.value)] else []
  }

  /** The argument it adds, or the init= it is. */
  function ArgOf(e: BootEvent): seq<ArgEvent> {
    match e
    case Unknown(o) => if o.ForInit() && o.value.Nothing? then [Arg(o.name)] else []
    case AfterDashes(s) => [Arg(s)]
    case InitOption => [Init]
  }

  /** Which options reach neither table: aliases of sysctls, what the boot loader adds, old-style parameters, and
      parameters of modules, told by a dot in their name. Of the others one with a value is a variable and one without
      is an argument. */
  lemma OptionGoes(o: BootOption)
    ensures var whole := if o.value.Just? then o.name + "=" + o.value.value else o.name;
      var nowhere := o.sysctl || o.obsolete || (exists i :: 0 <= i < |o.name| && o.name[i] == '.') ||
        (|whole| >= 11 && whole[..11] == "BOOT_IMAGE=") || (|whole| >= 5 && whole[..5] == "kexec");
      && VarOf(Unknown(o)) == (if !nowhere && o.value.Just? then [Var(o.name, o.value.value)] else [])
      && ArgOf(Unknown(o)) == (if !nowhere && o.value.Nothing? then [Arg(o.name)] else [])
  {
    assert |"BOOT_IMAGE="| == 11 && |"kexec"| == 5;
    assert '.' in o.name <==> exists i :: 0 <= i < |o.name| && o.name[i] == '.';
  }

  function VarsOf(es: seq<BootEvent>): seq<Var>
    decreases |es|
  {
    if es == [] then [] else VarsOf(es[..|es| - 1]) + VarOf(es[|es| - 1])
  }

  function ArgsOf(es: seq<BootEvent>): seq<ArgEvent>
    decreases |es|
  {
    if es == [] then [] else ArgsOf(es[..|es| - 1]) + ArgOf(es[|es| - 1])
  }

  lemma EventsStep(start: seq<Var>, es: seq<BootEvent>, k: nat)
    requires k < |es|
    ensures SetAll(start, VarsOf(es[..k + 1])) == SetAll(SetAll(start, VarsOf(es[..k])), VarOf(es[k]))
    ensures ArgsOf(es[..k + 1]) == ArgsOf(es[..k]) + ArgOf(es[k])
  {
    assert es[..k + 1][..k] == es[..k];
    var vs, w := VarsOf(es[..k]), VarOf(es[k]);
    if w == [] { assert vs + w == vs; }
    else { assert (vs + w)[..|vs|] == vs && w[..0] == []; }
  }

  /** What init= leaves in the last usable slot: an argument that stood there. */
  function StaleOf(max: nat, es: seq<ArgEvent>): Slot
    decreases |es|
  {
    if es == [] then Null
    else
      var rest := es[..|es| - 1];
      if es[|es| - 1].Init? && 0 < |Since(rest)| == max then Str(Since(rest)[max - 1]) else StaleOf(max, rest)
  }

  lemma StaleStep(max: nat, es: seq<ArgEvent>, e: ArgEvent)
    ensures StaleOf(max, es + [e]) ==
      if e.Init? && 0 < |Since(es)| == max then Str(Since(es)[max - 1]) else StaleOf(max, es)
    ensures Since(es + [e]) == if e.Init? then [] else Since(es) + [e.s]
  {
    assert (es + [e])[..|es|] == es;
  }

  /** What init starts with. */
  function Start(): seq<Var> { [Var("HOME", "/"), Var("TERM", "linux")] }

  /** The event finds no room: a new variable, or the one in the last usable slot, in a full table, or an argument
      when no slot is left. */
  predicate TooMany(max: nat, env: seq<Var>, args: seq<ArgEvent>, e: BootEvent) {
    if VarOf(e) != [] then |env| == max + 1 && Find(env, VarOf(e)[0].name) >= max
    else ArgOf(e) != [] && ArgOf(e)[0].Arg? && Full(max, Since(args), StaleOf(max, args))
  }

  /** Some event of the command line finds no room. */
  predicate Overflows(max: nat, es: seq<BootEvent>)
    decreases |es|
  {
    es != [] &&
    var rest := es[..|es| - 1];
    Overflows(max, rest) || TooMany(max, SetAll(Start(), VarsOf(rest)), ArgsOf(rest), es[|es| - 1])
  }

  class Tables {
    const max: nat   // MAX_INIT_ARGS and MAX_INIT_ENVS
    const argvInit: array<Slot>
    const envpInit: array<Slot>
    var panicLater: Maybe<string>
    var panicParam: string
    ghost var env: seq<Var>
    ghost var events: seq<ArgEvent>
    ghost var stale: Slot

    /** Until panic_later is set both tables are what they should be, and so end in a null. */
    ghost predicate Valid()
      reads this, argvInit, envpInit
    {
      && max >= 2 && argvInit != envpInit && argvInit.Length == max + 2 && envpInit.Length == max + 2
      && (panicLater.Nothing? ==>
            && EnvTable(max, envpInit[..], env) && ArgTable(max, argvInit[..], Since(events), stale)
            && stale == StaleOf(max, events))
    }

    constructor (limit: nat)
      requires limit >= 2
      ensures Valid() && fresh(argvInit) && fresh(envpInit) && max == limit && panicLater.Nothing?
      ensures env == Start() && events == [] && stale == Null
    {
      max := limit;
      argvInit := new Slot[limit + 2](i => if i == 0 then Str("init") else Null);
      envpInit := new Slot[limit + 2](i =>
        if i == 0 then Str("HOME=/") else if i == 1 then Str("TERM=linux") else Null);
      panicLater, panicParam := Nothing, "";
      env, events, stale := Start(), [], Null;
      new;
      assert Names(env)[0] == "HOME" && Names(env)[1] == "TERM" && "HOME"[0] != "TERM"[0];
      assert "HOME" + "=" + "/" == "HOME=/" && "TERM" + "=" + "linux" == "TERM=linux";
    }

    ghost predicate ArgsFull()
      reads this
    {
      Full(max, Since(events), stale)
    }

    /** set_init_arg, once the option string is whole again. */
    method SetInitArg(param: string)
      requires Valid()
      modifies this, argvInit
      ensures Valid() && env == old(env) && stale == old(stale)
      ensures old(panicLater.Just?) ==>
        panicLater == old(panicLater) && events == old(events) && argvInit[..] == old(argvInit[..])
      ensures old(panicLater.Nothing?) ==> (panicLater.Just? <==> old(ArgsFull()))
      ensures old(panicLater.Nothing?) ==> argvInit[max + 1] == Null
      ensures panicLater.Nothing? ==> events == old(events) + [Arg(param)]
    {
      if panicLater.Just? { return; }
      var i := 0;
      while argvInit[i] != Null
        invariant 0 <= i <= max && forall j :: 0 <= j < i ==> argvInit[j].Str?
        decreases max + 2 - i
      {
        if i == max {
          ArgStop(max, argvInit[..], Since(events), stale, max + 1, param);
          panicLater, panicParam := Just("init"), param;
          return;
        }
        i := i + 1;
      }
      ArgStop(max, argvInit[..], Since(events), stale, i, param);
      StoreArg(i, param);
    }

    /** Storing in the null the scan stopped at. */
    method StoreArg(i: nat, param: string)
      requires Valid() && panicLater.Nothing? && i <= max && argvInit[i] == Null
      requires ArgTable(max, argvInit[..][i := Str(param)], Since(events) + [param], stale)
      modifies this`events, argvInit
      ensures Valid() && events == old(events) + [Arg(param)] && argvInit[..] == old(argvInit[..])[i := Str(param)]
    {
      StaleStep(max, events, Arg(param));
      argvInit[i] := Str(param);
      events := events + [Arg(param)];
    }

    /** The environment branch of unknown_bootoption. Setting a variable that stands in the last usable
        slot counts as one too many, although it needs no room. */
    method SetEnv(v: Var)
      requires Valid() && panicLater.Nothing? && '=' !in v.name
      modifies this, envpInit
      ensures Valid() && events == old(events) && stale == old(stale)
      ensures panicLater.Just? <==> |old(env)| == max + 1 && Find(old(env), v.name) >= max
      ensures panicLater.Nothing? ==> env == SetVar(old(env), v)
    {
      var i := 0;
      while envpInit[i] != Null
        invariant 0 <= i <= max + 1 && forall j :: 0 <= j < i ==> !StopsAt(envpInit[..], v, j)
        invariant panicLater.Just? <==> i > max
        invariant unchanged(this`env) && unchanged(this`events) && unchanged(this`stale) && unchanged(envpInit)
        decreases max + 2 - i
      {
        if i == max { panicLater, panicParam := Just("env"), Text(v); }
        if StrnEq(Text(v), envpInit[i].s, |v.name| + 1) { break; }
        i := i + 1;
      }
      hide StrnEq, StopsAt, Text, Find, SetVar, EnvTable, ArgTable, StaleOf, Since;
      EnvStop(max, envpInit[..], env, v, i);
      envpInit[i] := Str(Text(v));
      if panicLater.Nothing? { env := SetVar(env, v); }
      assert envpInit[..] == old(envpInit[..])[i := Str(Text(v))];
    }

    /** The argument branch of unknown_bootoption: one too many goes into the last slot of all. */
    method SetArg(param: string)
      requires Valid() && panicLater.Nothing?
      modifies this, argvInit
      ensures Valid() && env == old(env) && stale == old(stale)
      ensures panicLater.Just? <==> old(ArgsFull())
      ensures panicLater.Nothing? ==> events == old(events) + [Arg(param)]
    {
      var i := 0;
      while argvInit[i] != Null
        invariant 0 <= i <= max + 1 && forall j :: 0 <= j < i ==> argvInit[j].Str?
        invariant panicLater.Just? <==> i > max
        invariant unchanged(this`env) && unchanged(this`events) && unchanged(this`stale) && unchanged(argvInit)
        decreases max + 2 - i
      {
        if i == max { panicLater, panicParam := Just("init"), param; }
        i := i + 1;
      }
      ArgStop(max, argvInit[..], Since(events), stale, i, param);
      if panicLater.Nothing? { StoreArg(i, param); } else { argvInit[i] := Str(param); }
    }

    /** unknown_bootoption */
    method UnknownBootoption(o: BootOption)
      requires Valid() && '=' !in o.name
      modifies this, argvInit, envpInit
      ensures Valid() && stale == old(stale)
      ensures !o.ForInit() || old(panicLater.Just?) ==>
        && panicLater == old(panicLater) && env == old(env) && events == old(events)
        && argvInit[..] == old(argvInit[..]) && envpInit[..] == old(envpInit[..])
      ensures o.ForInit() && old(panicLater.Nothing?) ==>
        (panicLater.Just? <==>
          if o.value.Just? then |old(env)| == max + 1 && Find(old(env), o.name) >= max else old(ArgsFull()))
      ensures o.ForInit() && panicLater.Nothing? ==>
        if o.value.Just? then env == SetVar(old(env), Var(o.name, o.value.value)) && events == old(events)
        else env == old(env) && events == old(events) + [Arg(o.name)]
    {
      if o.sysctl { return; }
      var param := o.Whole();
      if "BOOT_IMAGE=" <= param || "kexec" <= param { return; }
      if o.obsolete { return; }
      if '.' in o.name { return; }
      if panicLater.Just? { return; }
      if o.value.Just? { SetEnv(Var(o.name, o.value.value)); } else { SetArg(param); }
    }

    /** init_setup and rdinit_setup: the arguments so far are dropped, except one in the last usable slot. */
    method InitSetup()
      requires Valid()
      modifies this, argvInit
      ensures Valid() && env == old(env) && panicLater == old(panicLater)
      ensures events == old(events) + [Init] && stale == argvInit[max] == old(argvInit[max])
    {
      for i := 1 to max
        modifies argvInit
        invariant forall j :: 0 <= j < max + 2 ==> argvInit[j] == if 1 <= j < i then Null else old(argvInit[j])
      {
        argvInit[i] := Null;
      }
      StaleStep(max, events, Init);
      events := events + [Init];
      stale := argvInit[max];
    }

    /** One event, dispatched. */
    method Handle(e: BootEvent)
      requires Valid() && (e.Unknown? ==> '=' !in e.o.name)
      modifies this, argvInit, envpInit
      ensures Valid() && (panicLater.Just? <==> old(panicLater.Just?) || TooMany(max, old(env), old(events), e))
      ensures panicLater.Nothing? ==> env == SetAll(old(env), VarOf(e)) && events == old(events) + ArgOf(e)
    {
      assert VarOf(e) != [] ==> VarOf(e)[..0] == [];
      match e
      case Unknown(o) => UnknownBootoption(o);
      case AfterDashes(whole) => SetInitArg(whole);
      case InitOption => InitSetup();
    }

    /** The whole command line: it ends in panic_later exactly when some event finds no room. Otherwise the environment
        table holds all the assignments and the argument table what came after the last init=, and init is handed
        exactly that, unless so much came after the last init= that it runs into an argument from before it. */
    method Parse(es: seq<BootEvent>)
      requires Valid() && panicLater.Nothing? && env == Start() && events == []
      requires forall k :: 0 <= k < |es| && es[k].Unknown? ==> '=' !in es[k].o.name
      modifies this, argvInit, envpInit
      ensures Valid() && (panicLater.Just? <==> Overflows(max, es))
      ensures panicLater.Nothing? ==>
        && EnvTable(max, envpInit[..], SetAll(Start(), VarsOf(es)))
        && ArgTable(max, argvInit[..], Since(ArgsOf(es)), StaleOf(max, ArgsOf(es)))
      ensures panicLater.Nothing? ==>
        (Handed(argvInit[..]) == [argvInit[0]] + Strs(Since(ArgsOf(es))) <==>
          !(|Since(ArgsOf(es))| + 1 == max && StaleOf(max, ArgsOf(es)).Str?))
    {
      hide Find, TooMany, EnvTable, ArgTable, StaleOf, Since, Handed;
      for k := 0 to |es|
        invariant Valid() && (panicLater.Just? <==> Overflows(max, es[..k]))
        invariant panicLater.Nothing? ==> env == SetAll(Start(), VarsOf(es[..k])) && events == ArgsOf(es[..k])
      {
        EventsStep(Start(), es, k);
        assert es[..k + 1][..k] == es[..k];
        Handle(es[k]);
      }
      assert es[..|es|] == es;
      if panicLater.Nothing? { HandedExactly(max, argvInit[..], Since(events), stale); }
    }
  }

  // ---------------------------------------------------------------- command lines that show it

  lemma OneMore(max: nat, es: seq<BootEvent>, e: BootEvent)
    ensures Overflows(max, es + [e]) <==> Overflows(max, es) || TooMany(max, SetAll(Start(), VarsOf(es)), ArgsOf(es), e)
    ensures VarsOf(es + [e]) == VarsOf(es) + VarOf(e) && ArgsOf(es + [e]) == ArgsOf(es) + ArgOf(e)
  {
    assert (es + [e])[..|es|] == es;
  }

  /** What the kernel's own parser brings: names without an equals sign, and whatever stands behind "--" last. */
  ghost predicate CommandLine(es: seq<BootEvent>) {
    && (forall i, j :: 0 <= i < j < |es| && es[i].AfterDashes? ==> es[j].AfterDashes?)
    && (forall k :: 0 <= k < |es| && es[k].Unknown? ==> '=' !in es[k].o.name)
  }

  /** An option without a value that nobody else knows. */
  function Plain(): BootEvent { Unknown(BootOption("x", Nothing, false, false)) }

  lemma PlainGoes()
    ensures VarOf(Plain()) == [] && ArgOf(Plain()) == [Arg("x")]
  {
    assert Plain().o.Whole()[0] == 'x' && "BOOT_IMAGE="[0] == 'B' && "kexec"[0] == 'k';
  }

  /** `es`, then `n` arguments. */
  function Then(es: seq<BootEvent>, n: nat): seq<BootEvent> {
    if n == 0 then es else Then(es, n - 1) + [Plain()]
  }

  lemma {:induction false} ThenReal(es: seq<BootEvent>, n: nat)
    requires CommandLine(es) && forall e :: e in es ==> !e.AfterDashes?
    ensures CommandLine(Then(es, n)) && forall e :: e in Then(es, n) ==> !e.AfterDashes?
  {
    if n > 0 {
      ThenReal(es, n - 1);
      assert Plain().o.name == "x" && '=' !in "x";
    }
  }

  lemma {:induction false} ThenFits(max: nat, es: seq<BootEvent>, n: nat)
    requires !Overflows(max, es) && Since(ArgsOf(es)) == []
    requires n <= max && (n == max ==> StaleOf(max, ArgsOf(es)) == Null)
    ensures !Overflows(max, Then(es, n)) && |Since(ArgsOf(Then(es, n)))| == n
    ensures StaleOf(max, ArgsOf(Then(es, n))) == StaleOf(max, ArgsOf(es))
  {
    hide Overflows, VarsOf, ArgsOf, StaleOf, Since;
    if n > 0 {
      ThenFits(max, es, n - 1);
      var fs := Then(es, n - 1);
      PlainGoes();
      OneMore(max, fs, Plain());
      StaleStep(max, ArgsOf(fs), Arg("x"));
    }
  }

  lemma RefillReal(max: nat)
    requires max >= 1
    ensures CommandLine(Then(Then([], max) + [InitOption], max - 1))
  {
    ThenReal([], max);
    hide Then;
    ThenReal(Then([], max) + [InitOption], max - 1);
  }

  /** For every table size: as many arguments as fit, init=, and all but one of that again. No event finds no room, and
      init is handed one argument too many. */
  lemma StaleArgumentSurvives(max: nat) returns (es: seq<BootEvent>)
    requires max >= 2
    ensures CommandLine(es)
    ensures !Overflows(max, es) && |Since(ArgsOf(es))| + 1 == max && StaleOf(max, ArgsOf(es)).Str?
  {
    ThenFits(max, [], max);
    var fs := Then([], max);
    OneMore(max, fs, InitOption);
    StaleStep(max, ArgsOf(fs), Init);
    hide Overflows, ArgsOf, StaleOf, Since, CommandLine;
    ThenFits(max, fs + [InitOption], max - 1);
    RefillReal(max);
    es := Then(fs + [InitOption], max - 1);
  }

  function Long(n: nat): string { seq(n + 1, _ => 'x') }

  function Setting(n: nat): BootEvent { Unknown(BootOption(Long(n), Just("v"), false, false)) }

  function Settings(n: nat): seq<BootEvent> {
    if n == 0 then [] else Settings(n - 1) + [Setting(n - 1)]
  }

  lemma SettingGoes(n: nat)
    ensures VarOf(Setting(n)) == [Var(Long(n), "v")] && ArgOf(Setting(n)) == []
  {
    var o := Setting(n).o;
    assert o.Whole()[0] == 'x' && "BOOT_IMAGE="[0] == 'B' && "kexec"[0] == 'k';
  }

  /** The first two names, and then `n` long ones. */
  ghost predicate Filled(env: seq<Var>, n: nat) {
    && |env| == n + 2 && env[0].name == "HOME" && env[1].name == "TERM"
    && forall i :: 2 <= i < n + 2 ==> env[i].name == Long(i - 2)
  }

  lemma LongDiffers(n: nat, m: nat)
    ensures Long(n) != "HOME" && Long(n) != "TERM" && (Long(n) == Long(m) ==> n == m)
  {
    assert Long(n)[0] == 'x' && "HOME"[0] == 'H' && "TERM"[0] == 'T';
    assert |Long(n)| == n + 1 && |Long(m)| == m + 1;
  }

  lemma LongAt(env: seq<Var>, n: nat, m: nat)
    requires Filled(env, n) && m <= n
    ensures Find(env, Long(m)) == m + 2
  {
    hide Find, Long;
    if m < n { assert env[m + 2].name == Long(m); }
    forall i | 0 <= i < |env| && i != m + 2 ensures env[i].name != Long(m) {
      LongDiffers(m, if i < 2 then 0 else i - 2);
    }
  }

  lemma SetOne(env: seq<Var>, n: nat, v: Var)
    requires Filled(env, n) && v.name == Long(n)
    ensures Filled(SetVar(env, v), n + 1)
  {
    LongAt(env, n, n);
    hide Find, Long;
  }

  lemma SetAllLast(env: seq<Var>, vs: seq<Var>, v: Var)
    ensures SetAll(env, vs + [v]) == SetVar(SetAll(env, vs), v)
  {
    assert (vs + [v])[..|vs|] == vs;
  }

  lemma {:induction false} SettingsFit(max: nat, n: nat)
    requires n + 1 <= max
    ensures Filled(SetAll(Start(), VarsOf(Settings(n))), n) && !Overflows(max, Settings(n))
  {
    hide Overflows, VarsOf, SetAll, Filled, Settings;
    if n == 0 {
      SettingsNone(max);
    } else {
      SettingsFit(max, n - 1);
      SettingsStep(max, n - 1);
    }
  }

  lemma SettingsNone(max: nat)
    ensures Filled(SetAll(Start(), VarsOf(Settings(0))), 0) && !Overflows(max, Settings(0))
  {
  }

  lemma SettingsStep(max: nat, n: nat)
    requires n + 2 <= max && Filled(SetAll(Start(), VarsOf(Settings(n))), n) && !Overflows(max, Settings(n))
    ensures Filled(SetAll(Start(), VarsOf(Settings(n + 1))), n + 1) && !Overflows(max, Settings(n + 1))
  {
    hide Overflows, VarsOf, ArgsOf, SetAll, SetVar, Long, Setting, VarOf, ArgOf, Start, StaleOf;
    var fs, v := Settings(n), Var(Long(n), "v");
    SettingGoes(n);
    OneMore(max, fs, Setting(n));
    SetAllLast(Start(), VarsOf(fs), v);
    SetOne(SetAll(Start(), VarsOf(fs)), n, v);
  }

  lemma {:induction false} SettingsReal(n: nat, m: nat)
    ensures CommandLine(Settings(n) + [Setting(m)]) && forall e :: e in Settings(n) ==> e.Unknown?
  {
    if n > 0 { SettingsReal(n - 1, n - 1); }
  }

  /** For every table size: distinct variables until the table is full find room; setting the last of them again does
      not, although it needs none. */
  lemma SettingAgainPanics(max: nat)
    requires max >= 2
    ensures CommandLine(Settings(max - 1) + [Setting(max - 2)])
    ensures !Overflows(max, Settings(max - 1))
    ensures Long(max - 2) in Names(SetAll(Start(), VarsOf(Settings(max - 1))))
    ensures Overflows(max, Settings(max - 1) + [Setting(max - 2)])
  {
    hide Overflows, VarsOf, ArgsOf, SetAll, Long, Setting, Settings, VarOf, ArgOf, StaleOf, Start;
    SettingsReal(max - 1, max - 2);
    SettingsFit(max, max - 1);
    var env := SetAll(Start(), VarsOf(Settings(max - 1)));
    assert Names(env)[max] == Long(max - 2);
    OneMore(max, Settings(max - 1), Setting(max - 2));
    SettingGoes(max - 2);
    LongAt(env, max - 1, max - 2);
  }
}
