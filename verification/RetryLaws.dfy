/**
 The six retry loops against any interfering writers: no update is lost, at most five updates are
 tried, the sleeps add up to 2^k - 1 seconds for k conflicts, and success is real.
 */
module RetryLaws {
  import opened Text
  import opened Types
  import opened Trees
  import opened Builders
  import opened Cluster
  import opened ClusterLaws
  import opened Retry

  // ----- What a loop is allowed to write -----

  /**
   Everything but the fields the loop means to write is as it was; Services and Ingresses are taken
   from no other controller and carry the reference to their resource afterwards.
   */
  ghost predicate OnlyIntended(t: Task, was: Object, now: Object) {
    match t
    case DeployTask(_, _) => now.(labels := was.labels, body := was.body) == was
    case ManagedTask(_, _, _, _, _) => now.(body := was.body) == was
    case _ =>
      && now.(controller := was.controller, body := was.body) == was
      && MayOwn(t.svc, was.controller) && now.controller == Some(OwnerOf(t.svc))
  }

  /** Stored ports answer declared ones: equal, except that a declared 0 may have become any node port. */
  ghost predicate PortsMatch(declared: seq<NetPort>, ports: seq<NetPort>) {
    && |ports| == |declared|
    && forall i :: 0 <= i < |declared| ==>
         && ports[i].(nodePort := declared[i].nodePort) == declared[i]
         && (declared[i].nodePort != 0 ==> ports[i] == declared[i])
  }

  ghost predicate NetMatches(defaults: Defaults, declared: NetSpec, net: NetSpec) {
    && (net.netType == declared.netType || net.netType == defaults.netType(declared.netType))
    && net.selector == declared.selector
    && PortsMatch(declared.ports, net.ports)
  }

  /** The object agrees with the loop's task on every field the loop compares, up to the server's defaulting. */
  ghost predicate Agrees(defaults: Defaults, t: Task, obj: Object) {
    match t
    case DeployTask(svc, deployment) =>
      obj.labels == CommonLabels(svc)
      && (obj.body == DeploymentBody(deployment) || obj.body == DeploymentBody(defaults.deployment(deployment)))
    case NetTask(svc, built) => obj.body.NetBody? && NetMatches(defaults, built.net, obj.body.net)
    case IngressTask(svc, ingress) =>
      obj.body == IngressBody(ingress) || obj.body == IngressBody(defaults.ingress(ingress))
    case ManagedTask(_, _, _, _, spec) => obj.body == ManagedBody(spec) || obj.body == ManagedBody(defaults.crd(spec))
  }

  /** A Service that has a cluster address keeps it. */
  ghost predicate KeepsAddress(was: Body, now: Body) {
    was.NetBody? && was.net.clusterIP != "" ==> now.NetBody? && now.net.clusterIP == was.net.clusterIP
  }

  /** Deployments are created without a controller reference, everything else with one. */
  function CreatedOwner(t: Task): Option<OwnerRef> {
    if t.DeployTask? then None else Some(OwnerOf(t.svc))
  }

  /**
   One request of a loop: only on its own key, and every write that took effect wrote what was meant
   over what was just there.
   */
  ghost predicate Disciplined(defaults: Defaults, t: Task, e: Event) {
    var k := KeyOf(t);
    match e.op
    case Get(key) => key == k && e.after == e.before
    case Create(key, _) =>
      key == k && (e.reply.Failed? ==> e.after == e.before)
      && (e.reply.Got? ==>
            && k !in e.before && e.after == e.before[k := e.reply.stored]
            && e.reply.stored.maker == e.who && e.reply.stored.obj.finalizers == {}
            && e.reply.stored.obj.controller == CreatedOwner(t)
            && Agrees(defaults, t, e.reply.stored.obj))
    case Update(key, _, _) =>
      key == k && (e.reply.Failed? ==> e.after == e.before)
      && (e.reply.Got? ==>
            && k in e.before && e.after == e.before[k := e.reply.stored]
            && e.reply.stored.maker == e.before[k].maker
            && OnlyIntended(t, e.before[k].obj, e.reply.stored.obj)
            && KeepsAddress(e.before[k].obj.body, e.reply.stored.obj.body)
            && Agrees(defaults, t, e.reply.stored.obj))
    case _ => false
  }

  ghost function Discipline(defaults: Defaults, t: Task): Event -> bool {
    (e: Event) => if e.who.Some? then Disciplined(defaults, t, e) else Foreign(e)
  }

  // ----- Carried and filled ports still match -----

  lemma {:induction false} CarryPortKeeps(p: NetPort, existing: seq<NetPort>)
    ensures var c := CarryPort(p, existing);
      c.(nodePort := p.nodePort) == p && (p.nodePort != 0 ==> c == p)
    decreases |existing|
  {
    if existing != [] {
      var e := existing[0];
      CarryPortKeeps(if p.port == e.port && p.name == e.name && p.nodePort == 0 then p.(nodePort := e.nodePort) else p,
                     existing[1..]);
    }
  }

  lemma CarriedPortsMatch(declared: seq<NetPort>, existing: seq<NetPort>)
    ensures PortsMatch(declared, CarryPorts(declared, existing))
  {
    forall i | 0 <= i < |declared| {
      CarryPortKeeps(declared[i], existing);
    }
  }

  lemma MatchRevised(defaults: Defaults, t: Task, existing: Object, obj: Object)
    requires Agrees(defaults, Revise(t, existing), obj)
    ensures Agrees(defaults, t, obj)
  {
    if t.NetTask? && existing.body.NetBody? && t.built.net.netType == NODE_PORT {
      CarriedPortsMatch(t.built.net.ports, existing.body.net.ports);
    }
  }

  lemma AdmittedNetMatches(defaults: Defaults, grant: Grant, net: NetSpec)
    ensures NetMatches(defaults, net, AdmitNet(defaults, grant, net))
  {}

  // ----- One attempt -----

  lemma FreshAgrees(defaults: Defaults, grant: Grant, t: Task, obj: Object)
    requires obj.labels == FreshObject(t).labels && obj.body == Admit(defaults, grant, FreshObject(t).body)
    ensures Agrees(defaults, t, obj)
  {
    hide CommonLabels;
    if t.NetTask? {
      AdmittedNetMatches(defaults, grant, t.built.net);
    }
  }

  lemma FreshHasNoFinalizers(t: Task)
    ensures FreshObject(t).finalizers == {} && FreshObject(t).controller == CreatedOwner(t)
  {}

  /** A Service task has taken over the cluster address of the object it is about to write. */
  ghost predicate SeesAddress(t: Task, existing: Object) {
    && (t.NetTask? && existing.body.NetBody? ==> t.built.net.clusterIP == existing.body.net.clusterIP)
    && (existing.body.NetBody? ==> t.NetTask?)
  }

  /** What a planned write contains, once admitted. */
  lemma WriteAgrees(defaults: Defaults, grant: Grant, t: Task, was: Object, obj: Object, now: Object)
    requires PlanFor(t, was) == Write(obj)
    requires now == obj.(deleting := was.deleting, uid := was.uid,
        body := KeepStatus(was.body, Admit(defaults, grant, obj.body)))
    requires SeesAddress(t, was)
    ensures obj.finalizers == was.finalizers
    ensures OnlyIntended(t, was, now) && Agrees(defaults, t, now) && KeepsAddress(was.body, now.body)
  {
    hide CommonLabels;
    if t.NetTask? {
      AdmittedNetMatches(defaults, grant, t.built.net);
      hide AdmitNet, NetMatches, NetDiffers;
    }
  }

  lemma PlanKeepsFinalizers(t: Task, was: Object, obj: Object)
    requires PlanFor(t, was) == Write(obj)
    ensures obj.finalizers == was.finalizers
  {
    hide CommonLabels, NetDiffers;
  }

  lemma DisciplineAllowsForeign(defaults: Defaults, t: Task)
    ensures forall e :: Foreign(e) ==> Discipline(defaults, t)(e)
  {}

  lemma ReadIsDisciplined(w: World, t: Task)
    requires WellFormed(w)
    ensures AllNew(w, Call(w, Get(KeyOf(t))).0, Discipline(w.setting.defaults, t))
  {
    hide Linked, Call, Awaited, Foreign;
    FailureIsQuiet(w, Get(KeyOf(t)));
    DisciplineAllowsForeign(w.setting.defaults, t);
    CallIs(w, Get(KeyOf(t)), Discipline(w.setting.defaults, t));
  }

  lemma CreateIsDisciplined(w: World, t: Task)
    ensures AllNew(w, Call(w, Create(KeyOf(t), FreshObject(t))).0, Discipline(w.setting.defaults, t))
  {
    hide Linked, Call, Awaited, Agrees, FreshObject, Admit, Foreign;
    var k, obj, grant := KeyOf(t), FreshObject(t), w.setting.env(w.clock, w.store).grant;
    var e := Call(w, Create(k, obj)).0.log[|Awaited(w).log|];
    CreateAddsFresh(w, k, obj);
    FreshHasNoFinalizers(t);
    FailureIsQuiet(w, Create(k, obj));
    if e.reply.Got? {
      FreshAgrees(w.setting.defaults, grant, t, e.reply.stored.obj);
    }
    DisciplineAllowsForeign(w.setting.defaults, t);
    CallIs(w, Create(k, obj), Discipline(w.setting.defaults, t));
  }

  lemma UpdateIsDisciplined(w: World, t: Task, existing: Stored, obj: Object)
    requires WellFormed(w) && Pinned(w, KeyOf(t), existing) && PlanFor(t, existing.obj) == Write(obj)
    requires SeesAddress(t, existing.obj)
    ensures AllNew(w, Call(w, Update(KeyOf(t), obj, Some(existing.version))).0, Discipline(w.setting.defaults, t))
  {
    hide Linked, Call, Awaited, Agrees, OnlyIntended, PlanFor, Admit, KeepStatus, SeesAddress, KeepsAddress, Foreign;
    var k, grant := KeyOf(t), w.setting.env(w.clock, w.store).grant;
    var op := Update(k, obj, Some(existing.version));
    var e := Call(w, op).0.log[|Awaited(w).log|];
    PlanKeepsFinalizers(t, existing.obj, obj);
    UpdateReplacesPinned(w, k, obj, existing);
    FailureIsQuiet(w, op);
    if e.reply.Got? {
      WriteAgrees(w.setting.defaults, grant, t, existing.obj, obj, e.reply.stored.obj);
    }
    DisciplineAllowsForeign(w.setting.defaults, t);
    CallIs(w, op, Discipline(w.setting.defaults, t));
  }

  lemma WidenDiscipline(a: World, b: World, defaults: Defaults, t: Task, existing: Object)
    requires AllNew(a, b, Discipline(defaults, Revise(t, existing)))
    ensures AllNew(a, b, Discipline(defaults, t))
  {
    hide Agrees, Foreign;
    forall i | |a.log| <= i < |b.log|
      ensures Discipline(defaults, t)(b.log[i])
    {
      var e := b.log[i];
      assert Discipline(defaults, Revise(t, existing))(e);
      if e.who.Some? && e.reply.Got? && Agrees(defaults, Revise(t, existing), e.reply.stored.obj) {
        MatchRevised(defaults, t, existing, e.reply.stored.obj);
      }
    }
  }

  lemma AttemptIsDisciplined(w: World, t: Task)
    requires WellFormed(w)
    ensures AllNew(w, Attempt(w, t).0, Discipline(w.setting.defaults, t))
  {
    hide Linked, Call, Awaited, Disciplined, Revise, PlanFor, FreshObject, KeyOf, SeesAddress;
    var p := Discipline(w.setting.defaults, t);
    var (w1, read) := Call(w, Get(KeyOf(t)));
    ReadIsDisciplined(w, t);
    GetPins(w, KeyOf(t));
    if read == Failed(NotFound) {
      CreateIsDisciplined(w1, t);
      AllNewTransitive(w, w1, Attempt(w, t).0, p);
    } else if read.Got? {
      var t1 := Revise(t, read.stored.obj);
      if PlanFor(t1, read.stored.obj).Write? {
        ReviseKeepsKey(t, read.stored.obj);
        UpdateIsDisciplined(w1, t1, read.stored, PlanFor(t1, read.stored.obj).obj);
        WidenDiscipline(w1, Attempt(w, t).0, w.setting.defaults, t, read.stored.obj);
        AllNewTransitive(w, w1, Attempt(w, t).0, p);
      }
    }
  }

  lemma ReviseKeepsKey(t: Task, existing: Object)
    requires Fits(KeyOf(t).kind, existing.body)
    ensures KeyOf(Revise(t, existing)) == KeyOf(t) && SeesAddress(Revise(t, existing), existing)
  {}

  // ----- The whole loop -----

  lemma AttemptRevises(w: World, t: Task)
    ensures Attempt(w, t).1 == t || exists existing :: Attempt(w, t).1 == Revise(t, existing)
  {
    hide Linked, Call, Revise, PlanFor, KeyOf, FreshObject;
  }

  /** One turn of the loop. */
  lemma LoopTurns(w: World, t: Task, i: nat, backoff: nat)
    ensures RetryLoop(w, t, i, backoff) ==
      if i >= MAX_RETRIES then (w, Stopped(Exhausted))
      else
        var (w1, t1, verdict) := Attempt(w, t);
        match verdict
        case Done(end) => (w1, end)
        case Again => RetryLoop(Sleep(w1, backoff), t1, i + 1, 2 * backoff)
  {
    hide Linked, Attempt;
  }

  /**
   No lost update: whatever others do, each write of the loop replaces only the intended fields of the
   version just before it.
   */
  lemma {:induction false} NoLostUpdate(w: World, t: Task, i: nat, backoff: nat)
    requires WellFormed(w)
    ensures AllNew(w, RetryLoop(w, t, i, backoff).0, Discipline(w.setting.defaults, t))
    decreases MAX_RETRIES - i
  {
    hide Linked, Attempt, Discipline, RetryLoop;
    LoopTurns(w, t, i, backoff);
    if i < MAX_RETRIES {
      var p := Discipline(w.setting.defaults, t);
      var (w1, t1, verdict) := Attempt(w, t);
      AttemptIsDisciplined(w, t);
      if verdict.Again? {
        var w2, last := Sleep(w1, backoff), RetryLoop(w, t, i, backoff).0;
        NoLostUpdate(w2, t1, i + 1, 2 * backoff);
        AttemptRevises(w, t);
        if existing :| t1 == Revise(t, existing) {
          WidenDiscipline(w2, last, w.setting.defaults, t, existing);
        }
        ExtendsTransitive(w1, w2, last);
        AllNewTransitive(w, w1, last, p);
      }
    }
  }

  // ----- Counting attempts and conflicts -----

  function Count(log: seq<Event>, p: Event -> bool): nat {
    if log == [] then 0 else Count(log[..|log| - 1], p) + (if p(log[|log| - 1]) then 1 else 0)
  }

  predicate IsUpdate(e: Event) {
    e.who.Some? && e.op.Update?
  }

  /** A conflict the loop was told about. */
  predicate IsConflict(e: Event) {
    IsUpdate(e) && e.reply == Failed(Conflict) && e.heard
  }

  lemma {:induction false} CountSkips(log: seq<Event>, n: nat, p: Event -> bool)
    requires n <= |log| && forall i :: n <= i < |log| ==> !p(log[i])
    ensures Count(log, p) == Count(log[..n], p)
  {
    if n < |log| {
      var front := log[..|log| - 1];
      CountSkips(front, n, p);
      assert front[..n] == log[..n];
    } else {
      assert log[..n] == log;
    }
  }

  lemma {:induction false} CallCounts(w: World, op: Op, p: Event -> bool)
    requires forall e :: p(e) ==> e.who.Some?
    ensures var w1 := Call(w, op).0;
      Count(w1.log, p) == Count(w.log, p) + if p(w1.log[|w1.log| - 1]) then 1 else 0
  {
    hide Linked;
    var waited, w1 := Awaited(w), Call(w, op).0;
    CountSkips(waited.log, |w.log|, p);
    assert waited.log[..|w.log|] == w.log;
    assert w1.log[..|w1.log| - 1] == waited.log;
    hide Linked, Call, Awaited;
  }

  lemma UpdatesAreUpdates()
    ensures forall e :: IsUpdate(e) <==> e.who.Some? && e.op.Update?
    ensures forall e :: IsConflict(e) <==> IsUpdate(e) && e.reply == Failed(Conflict) && e.heard
  {}

  lemma PlanNeverExhausted(t: Task, existing: Object)
    ensures PlanFor(t, existing) != Refuse(Exhausted)
  {}

  lemma {:induction false} AttemptCounts(w: World, t: Task)
    ensures var (w1, t1, verdict) := Attempt(w, t);
      && Count(w1.log, IsUpdate) <= Count(w.log, IsUpdate) + 1
      && Count(w1.log, IsConflict) == Count(w.log, IsConflict) + (if verdict.Again? then 1 else 0)
      && (verdict.Again? ==> Count(w1.log, IsUpdate) == Count(w.log, IsUpdate) + 1)
      && verdict != Done(Stopped(Exhausted))
  {
    hide Linked, Call, Revise, PlanFor, KeyOf, FreshObject, Count, Awaited, IsUpdate, IsConflict;
    UpdatesAreUpdates();
    var read := Get(KeyOf(t));
    var w1 := Call(w, read).0;
    CallCounts(w, read, IsUpdate);
    CallCounts(w, read, IsConflict);
    var create := Create(KeyOf(t), FreshObject(t));
    CallCounts(w1, create, IsUpdate);
    CallCounts(w1, create, IsConflict);
    CallErrors(w, read);
    CallErrors(w1, create);
    if Call(w, read).1.Got? {
      var existing := Call(w, read).1.stored;
      var t1 := Revise(t, existing.obj);
      if PlanFor(t1, existing.obj).Write? {
        var update := Update(KeyOf(t1), PlanFor(t1, existing.obj).obj, Some(existing.version));
        CallCounts(w1, update, IsUpdate);
        CallCounts(w1, update, IsConflict);
        CallErrors(w1, update);
      }
      PlanNeverExhausted(t1, existing.obj);
    }
  }

  function Pow2(n: nat): (p: nat)
    ensures p >= 1
  {
    if n == 0 then 1 else 2 * Pow2(n - 1)
  }

  lemma PowOfNone()
    ensures Pow2(0) == 1
  {}

  lemma SleepsAdd(backoff: nat, k: nat)
    ensures backoff + 2 * backoff * (Pow2(k) - 1) == backoff * (Pow2(k + 1) - 1)
  {
    var p := Pow2(k);
    assert Pow2(k + 1) == 2 * p;
    hide Pow2;
    assert 2 * backoff * (p - 1) == 2 * backoff * p - 2 * backoff;
    assert backoff * (2 * p - 1) == 2 * backoff * p - backoff;
  }

  /**
   From attempt `i` on, `k` conflicts cost backoff * (2^k - 1) seconds, and running out takes all the
   attempts left.
   */
  lemma {:induction false} LoopCosts(w: World, t: Task, i: nat, backoff: nat) returns (k: nat)
    requires i <= MAX_RETRIES
    ensures var (w', end) := RetryLoop(w, t, i, backoff);
      && Count(w'.log, IsConflict) == Count(w.log, IsConflict) + k
      && k <= MAX_RETRIES - i
      && Count(w'.log, IsUpdate) <= Count(w.log, IsUpdate) + MAX_RETRIES - i
      && w'.slept == w.slept + backoff * (Pow2(k) - 1)
      && (k == MAX_RETRIES - i <==> end == Stopped(Exhausted))
    decreases MAX_RETRIES - i
  {
    hide Linked, Attempt, Count, RetryLoop, Pow2;
    LoopTurns(w, t, i, backoff);
    assert Pow2(0) == 1 by { PowOfNone(); }
    k := 0;
    if i < MAX_RETRIES {
      AttemptCounts(w, t);
      var (w1, t1, verdict) := Attempt(w, t);
      if verdict.Again? {
        var rest := LoopCosts(Sleep(w1, backoff), t1, i + 1, 2 * backoff);
        k := rest + 1;
        SleepsAdd(backoff, rest);
      }
    }
  }

  /**
   At most five updates are tried; k conflicts sleep exactly 2^k - 1 seconds, never more than 31, and
   the loop gives up exactly after five.
   */
  lemma {:induction false} RetriesAreBounded(w: World, t: Task)
    ensures var (w', end) := Ensure(w, t);
      var k := Count(w'.log, IsConflict) - Count(w.log, IsConflict);
      && 0 <= k <= 5
      && Count(w'.log, IsUpdate) <= Count(w.log, IsUpdate) + 5
      && w'.slept - w.slept == Pow2(k) - 1 <= 31
      && (k == 5 <==> end == Stopped(Exhausted))
  {
    hide RetryLoop, Count;
    var k := LoopCosts(w, t, 0, 1);
    assert Pow2(5) == 32;
    PowMonotonic(k, 5);
  }

  lemma {:induction false} PowMonotonic(a: nat, b: nat)
    requires a <= b
    ensures Pow2(a) <= Pow2(b)
  {
    if a < b {
      PowMonotonic(a, b - 1);
    }
  }

  // ----- Success is real -----

  lemma KeepAgrees(defaults: Defaults, t: Task, existing: Object)
    requires PlanFor(t, existing) == Keep
    ensures Agrees(defaults, t, existing)
  {
    hide CommonLabels;
  }

  /** The attempt's write took effect and is what the loop wants. */
  lemma {:induction false} WriteSucceeds(w: World, t: Task, existing: Stored, obj: Object)
    requires WellFormed(w) && Pinned(w, KeyOf(t), existing) && SeesAddress(t, existing.obj)
    requires PlanFor(t, existing.obj) == Write(obj)
    ensures var (w', written) := Call(w, Update(KeyOf(t), obj, Some(existing.version)));
      written.Got? ==> KeyOf(t) in w'.store && Agrees(w.setting.defaults, t, w'.store[KeyOf(t)].obj)
  {
    hide Linked, Call, Awaited, Agrees, OnlyIntended, PlanFor, KeyOf, SeesAddress, KeepsAddress, Pinned, StoreFits;
    UpdateIsDisciplined(w, t, existing, obj);
    var w' := Call(w, Update(KeyOf(t), obj, Some(existing.version))).0;
    assert Discipline(w.setting.defaults, t)(w'.log[|w'.log| - 1]);
  }

  lemma CreateSucceeds(w: World, t: Task)
    ensures var (w', made) := Call(w, Create(KeyOf(t), FreshObject(t)));
      made.Got? ==> KeyOf(t) in w'.store && Agrees(w.setting.defaults, t, w'.store[KeyOf(t)].obj)
  {
    hide Linked, Call, Awaited, Agrees, FreshObject, KeyOf;
    CreateIsDisciplined(w, t);
    var w' := Call(w, Create(KeyOf(t), FreshObject(t))).0;
    assert Discipline(w.setting.defaults, t)(w'.log[|w'.log| - 1]);
  }

  lemma {:induction false} AttemptSucceeds(w: World, t: Task)
    requires WellFormed(w)
    ensures var (w1, _, verdict) := Attempt(w, t);
      verdict.Done? && !verdict.end.Stopped? ==>
        KeyOf(t) in w1.store && Agrees(w.setting.defaults, t, w1.store[KeyOf(t)].obj)
  {
    hide Linked, Call, Awaited, Agrees, OnlyIntended, Revise, PlanFor, FreshObject, KeyOf, SeesAddress, KeepsAddress,
      StoreFits, Pinned;
    var k, d := KeyOf(t), w.setting.defaults;
    var (w1, read) := Call(w, Get(k));
    GetPins(w, k);
    if read == Failed(NotFound) {
      CreateSucceeds(w1, t);
    } else if read.Got? {
      var existing, t1 := read.stored, Revise(t, read.stored.obj);
      ReviseKeepsKey(t, existing.obj);
      match PlanFor(t1, existing.obj) {
        case Keep =>
          KeepAgrees(d, t1, existing.obj);
          MatchRevised(d, t, existing.obj, existing.obj);
        case Refuse(_) =>
        case Write(obj) =>
          WriteSucceeds(w1, t1, existing, obj);
          var w2 := Attempt(w, t).0;
          if k in w2.store && Agrees(d, t1, w2.store[k].obj) {
            MatchRevised(d, t, existing.obj, w2.store[k].obj);
          }
      }
    }
  }

  /** When the loop reports success, the store holds the desired fields at that very moment. */
  lemma {:induction false} SuccessIsReal(w: World, t: Task, i: nat, backoff: nat)
    requires WellFormed(w)
    ensures var (w', end) := RetryLoop(w, t, i, backoff);
      !end.Stopped? ==> KeyOf(t) in w'.store && Agrees(w.setting.defaults, t, w'.store[KeyOf(t)].obj)
    decreases MAX_RETRIES - i
  {
    hide Linked, Attempt, Agrees, RetryLoop;
    LoopTurns(w, t, i, backoff);
    if i < MAX_RETRIES {
      var (w1, t1, verdict) := Attempt(w, t);
      AttemptSucceeds(w, t);
      if verdict.Again? {
        SuccessIsReal(Sleep(w1, backoff), t1, i + 1, 2 * backoff);
        AttemptRevises(w, t);
        var (w', end) := RetryLoop(w, t, i, backoff);
        if !end.Stopped? && t1 != t {
          var existing :| t1 == Revise(t, existing);
          MatchRevised(w.setting.defaults, t, existing, w'.store[KeyOf(t)].obj);
        }
      }
    }
  }
}
