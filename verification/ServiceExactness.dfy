/** The core Services: what reconcileServices writes, how many it creates, and what is left when it succeeds. */
module ServiceExactness {
  import opened Text
  import opened Types
  import opened Builders
  import opened BuilderLaws
  import opened Cluster
  import opened ClusterLaws
  import opened Retry
  import opened RetryLaws
  import opened Secrets
  import opened Credentials
  import opened Trace
  import opened Runtime
  import opened Reconciler
  import opened PassLaws

  function BuiltNets(svc: Service): seq<BuiltNet> {
    match ServicesOf(svc) case None => [] case Some(built) => built
  }

  // ----- What is written -----

  ghost predicate WritesBuilt(defaults: Defaults, svc: Service, e: Event) {
    exists b :: b in BuiltNets(svc) && Disciplined(defaults, NetTask(svc, b), e)
  }

  /** A write of the core Services: a built one brought about without losing an update, or an unwanted one deleted. */
  ghost predicate Intended(defaults: Defaults, svc: Service, e: Event) {
    match e.op
    case Get(_) => e.after == e.before
    case Delete(k) => k in NetScope(svc) && k.name !in NamesOf(BuiltNets(svc)) && DeleteEffect(e, k)
    case _ => WritesBuilt(defaults, svc, e)
  }

  ghost function Intention(defaults: Defaults, svc: Service): Event -> bool {
    (e: Event) => if e.who.Some? then Intended(defaults, svc, e) else Foreign(e)
  }

  lemma DisciplinedIsIntended(defaults: Defaults, svc: Service, b: BuiltNet, e: Event)
    requires b in BuiltNets(svc) && Disciplined(defaults, NetTask(svc, b), e)
    ensures Intended(defaults, svc, e)
  {
    hide BuiltNets, Agrees, OnlyIntended, KeepsAddress, NetScope;
  }

  lemma {:induction false} EnsureIsIntended(w: World, svc: Service, b: BuiltNet)
    requires WellFormed(w) && b in BuiltNets(svc)
    ensures AllNew(w, Ensure(w, NetTask(svc, b)).0, Intention(w.setting.defaults, svc))
  {
    var t, d := NetTask(svc, b), w.setting.defaults;
    NoLostUpdate(w, t, 0, 1);
    hide RetryLoop, BuiltNets, Foreign, Disciplined, Intended;
    var w' := Ensure(w, t).0;
    forall i | |w.log| <= i < |w'.log|
      ensures Intention(d, svc)(w'.log[i])
    {
      assert Discipline(d, t)(w'.log[i]);
      if w'.log[i].who.Some? {
        DisciplinedIsIntended(d, svc, b, w'.log[i]);
      }
    }
  }

  lemma {:induction false} EnsureServicesIsIntended(w: World, svc: Service, built: seq<BuiltNet>)
    requires WellFormed(w) && forall b :: b in built ==> b in BuiltNets(svc)
    ensures AllNew(w, EnsureServices(w, svc, built).0, Intention(w.setting.defaults, svc))
    decreases |built|
  {
    hide Linked, RetryLoop, Intention, BuiltNets;
    if built != [] {
      var (w1, end) := Ensure(w, NetTask(svc, built[0]));
      EnsureIsIntended(w, svc, built[0]);
      if end.UpToDate? || end.Updated? {
        EnsureServicesIsIntended(w1, svc, built[1..]);
        AllNewTransitive(w, w1, EnsureServices(w, svc, built).0, Intention(w.setting.defaults, svc));
      }
    }
  }

  lemma ForeignIsIntended(defaults: Defaults, svc: Service)
    ensures forall e :: Foreign(e) ==> Intention(defaults, svc)(e)
  {}

  lemma {:induction false} RemoveIsIntended(w: World, svc: Service, k: Key)
    requires k in NetScope(svc) && k.name !in NamesOf(BuiltNets(svc))
    ensures AllNew(w, RemoveIfPresent(w, k).0, Intention(w.setting.defaults, svc))
  {
    var p := Intention(w.setting.defaults, svc);
    FailureIsQuiet(w, Get(k));
    var (w1, read) := Call(w, Get(k));
    CallEffect(w1, Delete(k));
    ForeignIsIntended(w.setting.defaults, svc);
    hide Linked, Call, Awaited, Foreign, BuiltNets, NamesOf, NetScope, WritesBuilt;
    CallIs(w, Get(k), p);
    if read.Got? {
      CallIs(w1, Delete(k), p);
      AllNewTransitive(w, w1, RemoveIfPresent(w, k).0, p);
    }
  }

  lemma {:induction false} RemoveServicesIsIntended(w: World, svc: Service, names: seq<string>)
    requires forall i :: 0 <= i < |names| ==> NetKey(svc, names[i]) in NetScope(svc)
    ensures AllNew(w, RemoveServices(w, svc, names, NamesOf(BuiltNets(svc))).0, Intention(w.setting.defaults, svc))
    decreases |names|
  {
    hide Linked, RemoveIfPresent, Intention, BuiltNets, NamesOf, NetScope;
    if names != [] {
      if names[0] in NamesOf(BuiltNets(svc)) {
        RemoveServicesIsIntended(w, svc, names[1..]);
      } else {
        var (w1, o) := RemoveIfPresent(w, NetKey(svc, names[0]));
        RemoveIsIntended(w, svc, NetKey(svc, names[0]));
        if o.Ok? {
          RemoveServicesIsIntended(w1, svc, names[1..]);
          AllNewTransitive(w, w1, RemoveServices(w, svc, names, NamesOf(BuiltNets(svc))).0,
              Intention(w.setting.defaults, svc));
        }
      }
    }
  }

  /** In any surroundings, every write to the core Services is an intended one. */
  lemma {:induction false} ServicesAreIntended(w: World, svc: Service)
    requires WellFormed(w)
    ensures AllNew(w, ReconcileServices(w, svc).0, Intention(w.setting.defaults, svc))
  {
    hide Linked, EnsureServices, RemoveServices, ServicesOf, Intention;
    match ServicesOf(svc) {
      case None =>
        assert NamesOf(BuiltNets(svc)) == {};
        RemoveServicesIsIntended(w, svc, ServiceNames(svc));
      case Some(built) =>
        var (w1, o) := EnsureServices(w, svc, built);
        EnsureServicesIsIntended(w, svc, built);
        if o.Ok? {
          RemoveServicesIsIntended(w1, svc, ServiceNames(svc));
          AllNewTransitive(w, w1, ReconcileServices(w, svc).0, Intention(w.setting.defaults, svc));
        }
    }
  }

  // ----- How many are created -----

  predicate IsCreation(e: Event) {
    e.who.Some? && e.op.Create?
  }

  lemma {:induction false} AttemptCreates(w: World, t: Task)
    ensures var (w1, _, verdict) := Attempt(w, t);
      var n := Count(w1.log, IsCreation) - Count(w.log, IsCreation);
      0 <= n <= 1 && (n == 1 ==> verdict == Done(Created) || (verdict.Done? && verdict.end.Stopped?))
  {
    hide Linked, Call, Revise, PlanFor, KeyOf, FreshObject, Count, Awaited;
    var read := Get(KeyOf(t));
    var w1 := Call(w, read).0;
    CallCounts(w, read, IsCreation);
    CallCounts(w1, Create(KeyOf(t), FreshObject(t)), IsCreation);
    if Call(w, read).1.Got? {
      var existing := Call(w, read).1.stored;
      var t1 := Revise(t, existing.obj);
      if PlanFor(t1, existing.obj).Write? {
        CallCounts(w1, Update(KeyOf(t1), PlanFor(t1, existing.obj).obj, Some(existing.version)), IsCreation);
      }
    }
  }

  lemma {:induction false} LoopCreates(w: World, t: Task, i: nat, backoff: nat)
    ensures var (w', end) := RetryLoop(w, t, i, backoff);
      var n := Count(w'.log, IsCreation) - Count(w.log, IsCreation);
      0 <= n <= 1 && (n == 1 ==> end.Created? || end.Stopped?)
    decreases MAX_RETRIES - i
  {
    hide Linked, Attempt, Count, RetryLoop;
    LoopTurns(w, t, i, backoff);
    if i < MAX_RETRIES {
      AttemptCreates(w, t);
      var (w1, t1, verdict) := Attempt(w, t);
      if verdict.Again? {
        LoopCreates(Sleep(w1, backoff), t1, i + 1, 2 * backoff);
      }
    }
  }

  lemma {:induction false} EnsureCreatesOne(w: World, svc: Service, built: seq<BuiltNet>)
    ensures var (w', o) := EnsureServices(w, svc, built);
      var n := Count(w'.log, IsCreation) - Count(w.log, IsCreation);
      0 <= n <= 1 && (n == 1 ==> o.Err?)
    decreases |built|
  {
    hide Linked, RetryLoop, Count;
    if built != [] {
      LoopCreates(w, NetTask(svc, built[0]), 0, 1);
      EnsureCreatesOne(Ensure(w, NetTask(svc, built[0])).0, svc, built[1..]);
    }
  }

  lemma {:induction false} RemovingCreatesNone(w: World, svc: Service, names: seq<string>, keep: set<string>)
    ensures Count(RemoveServices(w, svc, names, keep).0.log, IsCreation) == Count(w.log, IsCreation)
    decreases |names|
  {
    hide Linked, Call, Awaited, Count;
    if names != [] {
      if names[0] in keep {
        RemovingCreatesNone(w, svc, names[1..], keep);
      } else {
        var k := NetKey(svc, names[0]);
        CallCounts(w, Get(k), IsCreation);
        CallCounts(Call(w, Get(k)).0, Delete(k), IsCreation);
        RemovingCreatesNone(RemoveIfPresent(w, k).0, svc, names[1..], keep);
      }
    }
  }

  /** Each call tries at most one creation, and a call that tries one does not succeed. */
  lemma {:induction false} AtMostOneIsCreated(w: World, svc: Service)
    ensures var (w', o) := ReconcileServices(w, svc);
      var n := Count(w'.log, IsCreation) - Count(w.log, IsCreation);
      0 <= n <= 1 && (n == 1 ==> o.Err?)
  {
    hide Linked, EnsureServices, RemoveServices, ServicesOf, Count;
    match ServicesOf(svc) {
      case None => RemovingCreatesNone(w, svc, ServiceNames(svc), {});
      case Some(built) =>
        EnsureCreatesOne(w, svc, built);
        RemovingCreatesNone(EnsureServices(w, svc, built).0, svc, ServiceNames(svc), NamesOf(built));
    }
  }

  // ----- What is left on success -----

  /** Other clients leave these objects alone. */
  ghost function Spares(keys: set<Key>): Event -> bool {
    (e: Event) => e.who.None? ==> forall k :: k in keys ==> SameAt(k, e.before, e.after)
  }

  lemma StandardStaysInScope(scope: set<Key>, e: Event, k: Key)
    requires Standard(scope, e) && k !in scope
    ensures SameAt(k, e.before, e.after)
  {
    hide Improves, Consistent, KeepsAddress;
  }

  /** Requests elsewhere, and clients that spare it, leave an object as it is. */
  lemma UntouchedElsewhere(a: World, b: World, scope: set<Key>, keys: set<Key>, k: Key)
    requires Extends(a, b) && AllNew(a, b, Proper(scope)) && AllNew(a, b, Spares(keys))
    requires k in keys && k !in scope
    ensures SameAt(k, a.store, b.store)
  {
    var inv := (s: Store) => SameAt(k, a.store, s);
    hide Standard, Foreign;
    forall i | |a.log| <= i < |b.log| && inv(b.log[i].before)
      ensures inv(b.log[i].after)
    {
      var e := b.log[i];
      assert Proper(scope)(e) && Spares(keys)(e);
      if e.who.Some? {
        StandardStaysInScope(scope, e, k);
      }
      assert SameAt(k, e.before, e.after);
    }
    hide Linked;
    Invariance(a, b, inv, |b.log| - |a.log|);
  }

  lemma SparedWithin(a: World, b: World, c: World, keys: set<Key>)
    requires Extends(a, b) && Extends(b, c) && AllNew(a, c, Spares(keys))
    ensures AllNew(a, b, Spares(keys)) && AllNew(b, c, Spares(keys))
  {
    hide Linked, Spares;
    assert forall i :: |a.log| <= i < |b.log| ==> c.log[i] == b.log[i];
  }

  ghost predicate Present(w: World, svc: Service, b: BuiltNet) {
    NetKey(svc, b.name) in w.store && Agrees(w.setting.defaults, NetTask(svc, b), w.store[NetKey(svc, b.name)].obj)
  }

  /** Gone, or on the way out and held back by a finalizer. */
  predicate Absent(w: World, k: Key) {
    k in w.store ==> w.store[k].obj.deleting
  }

  ghost predicate DistinctNames(built: seq<BuiltNet>) {
    forall i, j :: 0 <= i < j < |built| ==> built[i].name != built[j].name
  }

  lemma {:induction false} EnsuredArePresent(w: World, svc: Service, built: seq<BuiltNet>, keys: set<Key>)
    requires WellFormed(w) && DistinctNames(built)
    requires forall i :: 0 <= i < |built| ==> NetKey(svc, built[i].name) in keys
    requires AllNew(w, EnsureServices(w, svc, built).0, Spares(keys))
    ensures var (w', o) := EnsureServices(w, svc, built);
      o.Ok? ==> forall i :: 0 <= i < |built| ==> Present(w', svc, built[i])
    decreases |built|
  {
    hide Linked, RetryLoop, Proper, Spares, Agrees;
    if built != [] {
      var t := NetTask(svc, built[0]);
      var (w1, end) := Ensure(w, t);
      var (w', o) := EnsureServices(w, svc, built);
      if end.UpToDate? || end.Updated? {
        SuccessIsReal(w, t, 0, 1);
        SparedWithin(w, w1, w', keys);
        EnsuredArePresent(w1, svc, built[1..], keys);
        var scope := set i | 0 <= i < |built[1..]| :: NetKey(svc, built[1..][i].name);
        EnsureServicesIsProper(w1, svc, built[1..], scope);
        assert KeyOf(t) !in scope;
        UntouchedElsewhere(w1, w', scope, keys, KeyOf(t));
        if o.Ok? {
          forall i | 0 <= i < |built|
            ensures Present(w', svc, built[i])
          {
            assert i > 0 ==> built[i] == built[1..][i - 1];
          }
        }
      }
    }
  }

  lemma {:induction false} RemovedIsAbsent(w: World, k: Key)
    requires WellFormed(w)
    ensures var (w', o) := RemoveIfPresent(w, k);
      o.Ok? ==> Absent(w', k)
  {
    hide Awaited, Linked, Call;
    var (w1, read) := Call(w, Get(k));
    GetPins(w, k);
    CallEffect(w1, Delete(k));
  }

  lemma {:induction false} RemovedAreAbsent(w: World, svc: Service, names: seq<string>, keep: set<string>,
      keys: set<Key>)
    requires WellFormed(w) && forall i :: 0 <= i < |names| ==> NetKey(svc, names[i]) in keys
    requires forall i, j :: 0 <= i < j < |names| ==> names[i] != names[j]
    requires AllNew(w, RemoveServices(w, svc, names, keep).0, Spares(keys))
    ensures var (w', o) := RemoveServices(w, svc, names, keep);
      o.Ok? ==> forall i :: 0 <= i < |names| && names[i] !in keep ==> Absent(w', NetKey(svc, names[i]))
    decreases |names|
  {
    hide Linked, RemoveIfPresent, Proper, Spares;
    if names != [] {
      var k := NetKey(svc, names[0]);
      var w1 := if names[0] in keep then w else RemoveIfPresent(w, k).0;
      var (w', o) := RemoveServices(w, svc, names, keep);
      if names[0] in keep || RemoveIfPresent(w, k).1.Ok? {
        RemovedIsAbsent(w, k);
        ExtendsReflexive(w);
        SparedWithin(w, w1, w', keys);
        RemovedAreAbsent(w1, svc, names[1..], keep, keys);
        var scope := set i | 0 <= i < |names[1..]| :: NetKey(svc, names[1..][i]);
        RemoveServicesIsProper(w1, svc, names[1..], keep, scope);
        assert k !in scope;
        UntouchedElsewhere(w1, w', scope, keys, k);
        if o.Ok? {
          forall i | 0 <= i < |names| && names[i] !in keep
            ensures Absent(w', NetKey(svc, names[i]))
          {
            assert i > 0 ==> names[i] == names[1..][i - 1];
          }
        }
      }
    }
  }

  /** The Services under the two names are exactly the built ones, each with its type, selector and ports. */
  ghost predicate Exact(w: World, svc: Service) {
    && (forall i :: 0 <= i < |BuiltNets(svc)| ==> Present(w, svc, BuiltNets(svc)[i]))
    && (forall k :: k in NetScope(svc) && k.name !in NamesOf(BuiltNets(svc)) ==> Absent(w, k))
  }

  /** While nobody else touches the two Services, success means that exactly the built ones are there. */
  lemma {:induction false} SuccessIsExact(w: World, svc: Service)
    requires WellFormed(w) && AllNew(w, ReconcileServices(w, svc).0, Spares(NetScope(svc)))
    ensures ReconcileServices(w, svc).1.Ok? ==> Exact(ReconcileServices(w, svc).0, svc)
  {
    hide Linked, EnsureServices, RemoveServices, ServicesOf, Spares, Proper, Absent, Present;
    ServicesAreProper(svc);
    var names, built, keys := ServiceNames(svc), BuiltNets(svc), NetScope(svc);
    assert svc.name != svc.name + NODEPORT_SUFFIX by {
      assert |svc.name + NODEPORT_SUFFIX| > |svc.name|;
    }
    var w' := ReconcileServices(w, svc).0;
    if ServicesOf(svc).None? {
      RemovedAreAbsent(w, svc, names, {}, keys);
      assert NamesOf(built) == {};
    } else {
      var (w1, o) := EnsureServices(w, svc, built);
      ExtendsReflexive(w1);
      SparedWithin(w, w1, w', keys);
      EnsuredArePresent(w, svc, built, keys);
      if o.Ok? {
        RemovedAreAbsent(w1, svc, names, NamesOf(built), keys);
        KeptAreUntouched(w1, svc, built, keys);
      }
    }
    if ReconcileServices(w, svc).1.Ok? {
      forall k | k in keys && k.name !in NamesOf(built)
        ensures Absent(w', k)
      {
        assert k == NetKey(svc, names[0]) || k == NetKey(svc, names[1]);
      }
    }
  }

  lemma {:induction false} KeptAreUntouched(w: World, svc: Service, built: seq<BuiltNet>, keys: set<Key>)
    requires WellFormed(w) && forall i :: 0 <= i < |built| ==> NetKey(svc, built[i].name) in keys
    requires AllNew(w, RemoveServices(w, svc, ServiceNames(svc), NamesOf(built)).0, Spares(keys))
    ensures var w' := RemoveServices(w, svc, ServiceNames(svc), NamesOf(built)).0;
      forall i :: 0 <= i < |built| && Present(w, svc, built[i]) ==> Present(w', svc, built[i])
  {
    hide Linked, RemoveServices, Spares, Proper, Agrees;
    var names, keep := ServiceNames(svc), NamesOf(built);
    var w' := RemoveServices(w, svc, names, keep).0;
    var scope := set i | 0 <= i < |names| && names[i] !in keep :: NetKey(svc, names[i]);
    RemoveServicesIsProper(w, svc, names, keep, scope);
    forall i | 0 <= i < |built| && Present(w, svc, built[i])
      ensures Present(w', svc, built[i])
    {
      assert built[i].name in keep && NetKey(svc, built[i].name) !in scope;
      UntouchedElsewhere(w, w', scope, keys, NetKey(svc, built[i].name));
    }
  }
}
