/** What boot options mean for the environment and the arguments of init: the reference the tables are
    proved against, and what it keeps over every run of options. */
module InitEnv {

  datatype Var = Var(name: string, value: string)

  /** Where a name stands, or the length. */
  function Find(env: seq<Var>, name: string): (i: nat)
    ensures i <= |env|
    ensures i < |env| ==> env[i].name == name
    ensures forall j :: 0 <= j < i ==> env[j].name != name
  {
    if env == [] || env[0].name == name then 0 else Find(env[1..], name) + 1
  }

  /** A variable keeps its place when it is set again; a new one goes to the end. */
  function SetVar(env: seq<Var>, v: Var): seq<Var> {
    var i := Find(env, v.name);
    if i < |env| then env[i := v] else env + [v]
  }

  function SetAll(env: seq<Var>, vs: seq<Var>): seq<Var>
    decreases |vs|
  {
    if vs == [] then env else SetVar(SetAll(env, vs[..|vs| - 1]), vs[|vs| - 1])
  }

  function Names(vs: seq<Var>): (r: seq<string>)
    ensures |r| == |vs| && forall i :: 0 <= i < |vs| ==> r[i] == vs[i].name
  {
    seq(|vs|, i requires 0 <= i < |vs| => vs[i].name)
  }

  ghost predicate Distinct(names: seq<string>) {
    forall i, j :: 0 <= i < j < |names| ==> names[i] != names[j]
  }

  /** Each name once, in the order of its first occurrence. */
  function Firsts(names: seq<string>): (r: seq<string>)
    ensures forall x :: x in r <==> x in names
    decreases |names|
  {
    if names == [] then []
    else
      var r := Firsts(names[..|names| - 1]);
      var last := names[|names| - 1];
      assert names == names[..|names| - 1] + [last];
      if last in r then r else r + [last]
  }

  lemma {:induction false} FirstsDistinct(names: seq<string>)
    ensures Distinct(Firsts(names))
    decreases |names|
  {
    if names != [] { FirstsDistinct(names[..|names| - 1]); }
  }

  /** The last value a name was given in `vs`, or the one it had. */
  function Latest(env: seq<Var>, vs: seq<Var>, name: string): string
    requires name in Names(env + vs)
    decreases |vs|
  {
    if vs == [] then
      assert env + vs == env;
      assert name in Names(env);
      env[Find(env, name)].value
    else
      var last := vs[|vs| - 1];
      assert env + vs == env + vs[..|vs| - 1] + [last];
      if last.name == name then last.value else
        assert name in Names(env + vs[..|vs| - 1]) by { InFront(env + vs[..|vs| - 1], last, name); }
        Latest(env, vs[..|vs| - 1], name)
  }

  lemma InFront(vs: seq<Var>, last: Var, name: string)
    requires name in Names(vs + [last]) && last.name != name
    ensures name in Names(vs)
  {
    var i :| 0 <= i < |vs| + 1 && Names(vs + [last])[i] == name;
    assert i < |vs| && Names(vs)[i] == name;
  }

  /** One assignment: the names gain the new one at the end, and only that name's value changes. */
  lemma SetVarNames(env: seq<Var>, v: Var)
    ensures Names(SetVar(env, v)) == if v.name in Names(env) then Names(env) else Names(env) + [v.name]
  {
    var i := Find(env, v.name);
    if i < |env| {
      assert Names(env)[i] == v.name;
      assert Names(env[i := v]) == Names(env);
    } else {
      assert v.name !in Names(env);
      assert Names(env + [v]) == Names(env) + [v.name];
    }
  }

  lemma FirstsLast(names: seq<string>, x: string)
    ensures Firsts(names + [x]) == if x in Firsts(names) then Firsts(names) else Firsts(names) + [x]
  {
    assert (names + [x])[..|names|] == names;
  }

  lemma NamesLast(vs: seq<Var>)
    requires vs != []
    ensures Names(vs) == Names(vs[..|vs| - 1]) + [vs[|vs| - 1].name]
  {
  }

  lemma {:induction false} NamesAre(env: seq<Var>, vs: seq<Var>)
    requires Names(env) == Firsts(Names(env))
    ensures Names(SetAll(env, vs)) == Firsts(Names(env) + Names(vs))
    decreases |vs|
  {
    if vs == [] {
      assert Names(env) + Names(vs) == Names(env);
    } else {
      var rest, last := vs[..|vs| - 1], vs[|vs| - 1];
      NamesAre(env, rest);
      SetVarNames(SetAll(env, rest), last);
      NamesLast(vs);
      assert Names(env) + Names(vs) == Names(env) + Names(rest) + [last.name];
      FirstsLast(Names(env) + Names(rest), last.name);
    }
  }

  lemma ValueAt(env: seq<Var>, i: nat)
    requires Distinct(Names(env)) && i < |env|
    ensures Find(env, env[i].name) == i
  {
    var k := Find(env, env[i].name);
    assert k <= i && Names(env)[k] == Names(env)[i];
  }

  lemma NamesOfBoth(env: seq<Var>, vs: seq<Var>)
    ensures Names(env + vs) == Names(env) + Names(vs)
  {
  }

  /** The names after any assignments are those that were there or were assigned, without repetition. */
  lemma SetAllNames(env: seq<Var>, vs: seq<Var>)
    requires Names(env) == Firsts(Names(env))
    ensures Distinct(Names(SetAll(env, vs)))
    ensures forall i :: 0 <= i < |SetAll(env, vs)| ==> SetAll(env, vs)[i].name in Names(env + vs)
  {
    hide SetAll, Firsts, Distinct;
    NamesAre(env, vs);
    FirstsDistinct(Names(env) + Names(vs));
    NamesOfBoth(env, vs);
    var e := SetAll(env, vs);
    forall i | 0 <= i < |e| ensures e[i].name in Names(env + vs) {
      assert e[i].name == Names(e)[i];
      assert Names(e)[i] in Firsts(Names(env) + Names(vs));
    }
  }

  /** Each entry has the latest value of its name. */
  lemma {:induction false} LatestValue(env: seq<Var>, vs: seq<Var>, i: nat)
    requires Names(env) == Firsts(Names(env)) && i < |SetAll(env, vs)| && SetAll(env, vs)[i].name in Names(env + vs)
    ensures SetAll(env, vs)[i].value == Latest(env, vs, SetAll(env, vs)[i].name)
    decreases |vs|
  {
    hide Firsts, Distinct, Find, Names;
    SetAllNames(env, vs);
    if vs == [] {
      ValueAt(env, i);
    } else {
      var rest, last := vs[..|vs| - 1], vs[|vs| - 1];
      SetAllNames(env, rest);
      var e := SetAll(env, rest);
      if i < |e| && i != Find(e, last.name) {
        if e[i].name == last.name { ValueAt(e, i); }
        LatestValue(env, rest, i);
      }
    }
  }

  /** After any assignments, from an environment without repeated names: one entry per name, in the
      order in which the names first appeared, each with the latest value. */
  lemma OneEntryPerName(env: seq<Var>, vs: seq<Var>)
    requires Names(env) == Firsts(Names(env))
    ensures Distinct(Names(SetAll(env, vs)))
    ensures Names(SetAll(env, vs)) == Firsts(Names(env) + Names(vs))
    ensures forall i :: 0 <= i < |SetAll(env, vs)| ==>
      SetAll(env, vs)[i].name in Names(env + vs) && SetAll(env, vs)[i].value == Latest(env, vs, SetAll(env, vs)[i].name)
  {
    hide SetAll, Firsts, Distinct, Names, Latest;
    NamesAre(env, vs);
    SetAllNames(env, vs);
    forall i | 0 <= i < |SetAll(env, vs)| ensures SetAll(env, vs)[i].value == Latest(env, vs, SetAll(env, vs)[i].name) {
      LatestValue(env, vs, i);
    }
  }

  // ---------------------------------------------------------------- arguments

  datatype ArgEvent = Arg(s: string) | Init

  /** The arguments after the last init= option. */
  function Since(es: seq<ArgEvent>): seq<string>
    decreases |es|
  {
    if es == [] then []
    else match es[|es| - 1]
      case Init => []
      case Arg(s) => Since(es[..|es| - 1]) + [s]
  }
}
