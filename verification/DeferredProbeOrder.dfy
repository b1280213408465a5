/** First come, first served: the two deferral lists are one queue. */
module DeferredProbeOrder {
  import opened ProbeLists
  import opened DeferredProbe
  import opened DeferredProbeSafety

  /** The two lists are one queue, the worker's end first. */
  function Queue(s: State): seq<Device> { s.active + s.pending }

  /** What one step can do to the queue. */
  datatype Change = Same | Joins(d: Device) | Goes(d: Device) | Served

  ghost predicate Changes(q: seq<Device>, ch: Change, q': seq<Device>) {
    match ch
    case Same => q' == q
    case Joins(d) => d !in q && q' == q + [d]
    case Goes(d) => q' == Without(q, d)
    case Served => q != [] && q' == q[1..]
  }

  lemma AddJoins(s: State, d: Device)
    ensures Changes(Queue(s), if s.Listed(d) then Same else Joins(d), AddTail(s, d).active + AddTail(s, d).pending)
  {
    if !s.Listed(d) { assert s.active + (s.pending + [d]) == Queue(s) + [d]; }
  }

  lemma ProbeQueue(c: Config, s: State, d: Device, m: Move) returns (ch: Change)
    requires Can(c, s, Probe(d, m))
    ensures Changes(Queue(s), ch, Queue(DoProbe(c, s, d, m)))
    ensures ch.Joins? ==> m.Add? && ch.d == d
    ensures ch.Goes? ==> m.Unlist? && ch.d == d
    ensures !ch.Served?
  {
    hide Next;
    ch := if m.Unlist? then Goes(d) else if m.Add? && !s.Listed(d) then Joins(d) else Same;
    if m.Unlist? { WithoutOfConcat(s.active, s.pending, d); }
    if m.Add? { AddJoins(s, d); }
  }

  lemma WorkQueue(c: Config, s: State, w: WorkerMove) returns (ch: Change)
    requires CanWork(s, w)
    ensures Changes(Queue(s), ch, Queue(DoWork(c, s, w)))
    ensures ch.Served? <==> w.Pop?
    ensures w.Pop? ==> DoWork(c, s, w).worker == Retrying(Queue(s)[0], c.DriversOf(Queue(s)[0]))
    ensures ch.Joins? ==> w.MatchCut? && ch.d == s.worker.d
    ensures !ch.Goes?
  {
    ch := if w.Pop? then Served else if w.MatchCut? && !s.Listed(s.worker.d) then Joins(s.worker.d) else Same;
    if w.Pop? { assert Queue(s)[1..] == s.active[1..] + s.pending; }
    if w.MatchCut? { AddJoins(s, s.worker.d); }
  }

  lemma TrigQueue(s: State, site: Site, k: TriggerMove)
    requires CanTrig(s, site, k)
    ensures Queue(DoTrig(s, site, k)) == Queue(s)
  {
    if k.Splice? { assert s.active + s.pending + [] == s.active + s.pending; }
  }

  lemma DeviceQueue(c: Config, s: State, t: Step) returns (ch: Change)
    requires Can(c, s, t) && (t.MatchMiss? || t.MatchDefer? || t.Release? || t.Kill? || t.Drop?)
    ensures Changes(Queue(s), ch, Queue(DoDevice(s, t)))
    ensures ch.Joins? ==> t.MatchDefer? && ch.d == t.miss.d
    ensures ch.Goes? ==> t.Drop? && ch.d == t.d
    ensures !ch.Served?
  {
    ch := if t.Drop? then Goes(t.d) else if t.MatchDefer? && !s.Listed(t.miss.d) then Joins(t.miss.d) else Same;
    if t.Drop? { WithoutOfConcat(s.active, s.pending, t.d); }
    if t.MatchDefer? { AddJoins(s, t.miss.d); }
  }

  /** Every step leaves the queue as it is, puts one device at its end, takes one device out from anywhere,
      or hands its head to the worker; a splice leaves it as it is. */
  lemma QueueStep(c: Config, s: State, t: Step) returns (ch: Change)
    requires Can(c, s, t)
    ensures Changes(Queue(s), ch, Queue(Do(c, s, t)))
    ensures t.Trig? ==> ch.Same?
    ensures ch.Served? <==> t == Work(Pop)
    ensures t == Work(Pop) ==> Do(c, s, t).worker == Retrying(Queue(s)[0], c.DriversOf(Queue(s)[0]))
    ensures ch.Goes? ==> t == Probe(ch.d, Unlist) || t == Drop(ch.d)
    ensures ch.Joins? ==>
      || t == Probe(ch.d, Add)
      || (t.MatchDefer? && t.miss.d == ch.d)
      || (t.Work? && t.w.MatchCut? && t.w.cut.d == ch.d)
  {
    hide Changes, DoProbe, DoWork, DoTrig, DoPause, DoEnds, DoDevice;
    ch := Same;
    match t
    case Probe(d, m) => ch := ProbeQueue(c, s, d, m);
    case Work(w) => ch := WorkQueue(c, s, w);
    case Trig(site, k) => TrigQueue(s, site, k); Unchanged(Queue(s));
    case MatchMiss(_, _, _) => ch := DeviceQueue(c, s, t);
    case MatchDefer(_) => ch := DeviceQueue(c, s, t);
    case Release(_) => ch := DeviceQueue(c, s, t);
    case Kill(_) => ch := DeviceQueue(c, s, t);
    case Drop(_) => ch := DeviceQueue(c, s, t);
    case _ => Unchanged(Queue(s));
  }

  lemma Unchanged(q: seq<Device>)
    ensures Changes(q, Same, q)
  {
  }

  ghost predicate Before(q: seq<Device>, d: Device, e: Device) {
    exists i, j :: 0 <= i < j < |q| && q[i] == d && q[j] == e
  }

  lemma ConcatBefore(a: seq<Device>, b: seq<Device>, d: Device, e: Device)
    requires d in a && e in b
    ensures Before(a + b, d, e)
  {
    var i :| 0 <= i < |a| && a[i] == d;
    var j :| 0 <= j < |b| && b[j] == e;
    assert (a + b)[i] == d && (a + b)[|a| + j] == e;
  }

  lemma WithoutBefore(q: seq<Device>, x: Device, d: Device, e: Device)
    requires Before(q, d, e) && d != x && e != x
    ensures Before(Without(q, x), d, e)
  {
    var i, j :| 0 <= i < j < |q| && q[i] == d && q[j] == e;
    var a, b := q[..j], q[j..];
    assert q == a + b && a[i] == d && b[0] == e;
    hide Before, Without;
    WithoutOfConcat(a, b, x);
    ConcatBefore(Without(a, x), Without(b, x), d, e);
  }

  lemma ChangeKeepsOrder(q: seq<Device>, ch: Change, q': seq<Device>, d: Device, e: Device)
    requires NoDup(q) && Changes(q, ch, q') && Before(q, d, e) && d in q' && e in q'
    ensures Before(q', d, e)
  {
    var i, j :| 0 <= i < j < |q| && q[i] == d && q[j] == e;
    match ch
    case Same =>
    case Joins(x) => assert q'[i] == d && q'[j] == e;
    case Goes(x) => WithoutBefore(q, x, d, e);
    case Served =>
      assert q[0] !in q[1..];
      assert q'[i - 1] == d && q'[j - 1] == e;
  }

  /** `d` is listed in every state the run goes through. */
  ghost predicate Stays(c: Config, s: State, ts: seq<Step>, d: Device)
    decreases |ts|
  {
    s.Listed(d) && (ts != [] && Can(c, s, ts[0]) ==> Stays(c, Do(c, s, ts[0]), ts[1..], d))
  }

  /** First come, first served: of two devices that stay listed, the one that was listed first stays ahead, through
      any triggers and whatever comes and goes. Only the head is ever handed to the worker. */
  lemma {:induction false} FirstComeFirstServed(c: Config, s: State, ts: seq<Step>, s': State, d: Device, e: Device)
    requires Inv(c, s) && Exec(c, s, ts, s') && Before(Queue(s), d, e) && Stays(c, s, ts, d) && Stays(c, s, ts, e)
    ensures Before(Queue(s'), d, e)
    decreases |ts|
  {
    hide Do, Changes, Before;
    if ts != [] {
      var t := ts[0];
      var u := Do(c, s, t);
      var ch := QueueStep(c, s, t);
      NoDupConcat(s.pending, s.active);
      NoDupConcat(s.active, s.pending);
      ChangeKeepsOrder(Queue(s), ch, Queue(u), d, e);
      InvStep(c, s, t);
      FirstComeFirstServed(c, u, ts[1..], s', d, e);
    }
  }
}
