/** With nobody else about: exactly when a turn of a loop, and a whole pass, writes nothing at all. */
module Silence {
  import opened Text
  import opened Types
  import opened Trees
  import opened Builders
  import opened BuilderLaws
  import opened Cluster
  import opened ClusterLaws
  import opened Retry
  import opened RetryLaws
  import opened Secrets
  import opened Runtime
  import opened Reconciler
  import opened PassLaws
  import opened ServiceExactness
  import opened FixedPoints
  import opened QuietChildren
  import opened Convergence

  // ----- One loop -----

  /** What the loop works on can be told apart. */
  ghost predicate Separable(t: Task) {
    t.NetTask? && t.built.net.netType == NODE_PORT ==> DistinctIn(t.built.net.ports)
  }

  /** The stored object is as it was built, but for node ports that were not asked for. */
  ghost predicate AsBuilt(t: Task, obj: Object) {
    match t
    case DeployTask(svc, deployment) => obj.body == DeploymentBody(deployment) && obj.labels == CommonLabels(svc)
    case NetTask(_, built) =>
      && obj.body.NetBody? && obj.body.net.netType == built.net.netType && obj.body.net.selector == built.net.selector
      && (if built.net.netType == "NodePort" then PortsMatch(built.net.ports, obj.body.net.ports)
          else obj.body.net.ports == built.net.ports)
    case IngressTask(_, ingress) => obj.body == IngressBody(ingress)
    case ManagedTask(_, _, _, _, spec) => obj.body == ManagedBody(spec)
  }

  lemma KeepsWhatIsBuilt(t: Task, obj: Object)
    requires Separable(t) && Fits(KeyOf(t).kind, obj.body)
    ensures var plan := PlanFor(Revise(t, obj), obj);
      if AsBuilt(t, obj) then plan.Keep? else if Ownable(t, obj) then plan.Write? else plan == Refuse(AlreadyOwned)
  {
    hide CommonLabels, CarryPorts, PortsMatch;
    if t.NetTask? && t.built.net.netType == NODE_PORT {
      var declared, ports := t.built.net.ports, obj.body.net.ports;
      CarriedPortsMatch(declared, ports);
      if PortsMatch(declared, ports) {
        CarryingIsStable(declared, ports);
      }
    }
  }

  /**
   Undisturbed, a loop over an object that is there writes nothing if and only if the object is as built;
   otherwise it writes once, or is refused where another controller owns a Service or an Ingress.
   */
  lemma {:induction false} SilentLoop(w: World, t: Task)
    requires WellFormed(w) && Quiet(w.setting) && KeyOf(t) in w.store && Separable(t)
    ensures var (w', end) := Ensure(w, t);
      var obj := w.store[KeyOf(t)].obj;
      && w'.store.Keys == w.store.Keys
      && (if AsBuilt(t, obj) then w'.store == w.store && end == UpToDate
          else if Ownable(t, obj) then w'.store != w.store && end == Updated
          else w'.store == w.store && end == Stopped(AlreadyOwned))
  {
    hide Linked, Call, RetryLoop, Attempt, AsBuilt, Revise, PlanFor, Ownable, Rewritten, Elsewhere;
    var k, obj := KeyOf(t), w.store[KeyOf(t)].obj;
    assert Fits(k.kind, obj.body);
    hide StoreFits, Fits;
    KeepsWhatIsBuilt(t, obj);
    QuietRead(w, k);
    AttemptOn(w, t);
    LoopTurns(w, t, 0, 1);
    if Ownable(t, obj) {
      QuietRewrite(w, t);
      if !AsBuilt(t, obj) {
        SameKeysElsewhere(w.store, Ensure(w, t).0.store, k);
      }
    }
  }

  lemma SameKeysElsewhere(was: Store, now: Store, k: Key)
    requires Elsewhere(was, now, {k}) && k in was && k in now
    ensures now.Keys == was.Keys
  {
    forall x
      ensures x in was <==> x in now
    {
      assert x != k ==> SameAt(x, was, now);
    }
  }

  /** The same for the typed resources that are reconciled without a loop. */
  lemma {:induction false} SilentSimple(w: World, svc: Service, crd: Crd, name: string, spec: Json)
    requires WellFormed(w) && Quiet(w.setting) && Key(Managed(crd), svc.namespace, name) in w.store
    ensures var (w', o) := ReconcileSimple(w, svc, crd, svc.namespace, name, spec);
      o.Ok? && (w'.store == w.store <==> w.store[Key(Managed(crd), svc.namespace, name)].obj.body == ManagedBody(spec))
  {
    hide Linked, Call, Rewritten;
    var k := Key(Managed(crd), svc.namespace, name);
    var stored, w1 := w.store[k], Call(w, Get(k)).0;
    QuietRead(w, k);
    QuietReadNext(w, k);
    if stored.obj.body != ManagedBody(spec) {
      assert stored.version < w.next;
      QuietUpdate(w1, k, stored.obj.(body := ManagedBody(spec)));
    }
  }

  // ----- Steps -----

  /** Nothing that is new in `b` is gone in `c`. */
  ghost predicate NoneVanishes(a: Store, b: Store, c: Store) {
    forall k :: k in b && k !in a ==> k in c
  }

  lemma NoneVanishesElsewhere(a: Store, b: Store, c: Store, first: set<Key>, second: set<Key>)
    requires Elsewhere(a, b, first) && Elsewhere(b, c, second) && first !! second
    ensures NoneVanishes(a, b, c)
  {
    forall k | k in b && k !in a
      ensures k in c
    {
      assert k in first by {
        assert k !in first ==> SameAt(k, a, b);
      }
      assert SameAt(k, b, c);
    }
  }

  /** Two steps together leave the store as it is exactly if each does: every write has a new version. */
  lemma TwoSteps(a: World, b: World, c: World)
    requires WellFormed(a) && Extends(a, b) && Extends(b, c) && NoneVanishes(a.store, b.store, c.store)
    ensures c.store == a.store <==> b.store == a.store && c.store == b.store
  {
    if c.store == a.store {
      forall k | k in b.store
        ensures k in a.store && a.store[k] == b.store[k]
      {
        assert k in c.store;
        assert c.store[k].version < a.next <= b.next;
      }
      forall k | k in a.store
        ensures k in b.store
      {
        assert a.store[k].version < a.next && k in c.store && c.store[k] == a.store[k];
      }
    }
  }

  lemma {:induction false} SilentRemove(w: World, k: Key)
    requires WellFormed(w) && Quiet(w.setting)
    ensures var (w', o) := RemoveIfPresent(w, k);
      o.Ok? && w'.store.Keys <= w.store.Keys && (w'.store == w.store <==> k !in w.store)
  {
    QuietRemove(w, k);
    QuietRead(w, k);
    QuietReadNext(w, k);
    var w1 := Call(w, Get(k)).0;
    QuietCall(w1, Delete(k));
    hide Call, Linked;
    assert k in w.store ==> w.store[k].version < w.next;
  }

  lemma {:induction false} LoudCreation(w: World, t: Task)
    requires WellFormed(w) && Quiet(w.setting) && KeyOf(t) !in w.store
    ensures Ensure(w, t).0.store != w.store && Ensure(w, t).1 == Created
  {
    QuietCreate(w, t);
    hide RetryLoop, KeyOf;
  }

  // ----- The children -----

  /** The object of the task is there, as built. */
  ghost predicate IsThere(store: Store, t: Task) {
    KeyOf(t) in store && AsBuilt(t, store[KeyOf(t)].obj)
  }

  /**
   Undisturbed, a loop whose object may be owned leaves the store as it is exactly if the object is there, as
   built.
   */
  lemma {:induction false} SilentEnsure(w: World, t: Task)
    requires WellFormed(w) && Quiet(w.setting) && Separable(t)
    requires KeyOf(t) in w.store ==> Ownable(t, w.store[KeyOf(t)].obj)
    ensures var (w', end) := Ensure(w, t);
      && !end.Stopped? && (w'.store == w.store <==> IsThere(w.store, t)) && (IsThere(w.store, t) ==> end == UpToDate)
      && (!end.Created? ==> w'.store.Keys == w.store.Keys)
  {
    hide RetryLoop, AsBuilt, Ownable, Quiet, StoreFits, Separable;
    if KeyOf(t) in w.store {
      SilentLoop(w, t);
    } else {
      LoudCreation(w, t);
    }
  }

  ghost predicate DeploymentIsThere(store: Store, svc: Service) {
    match DeploymentOf(svc)
    case Built(deployment) => IsThere(store, DeployTask(svc, deployment))
    case _ => DeploymentKey(svc) !in store
  }

  ghost predicate IngressIsThere(store: Store, svc: Service) {
    match IngressOf(svc)
    case Built(ingress) => IsThere(store, IngressTask(svc, ingress))
    case _ => IngressKey(svc) !in store
  }

  ghost predicate NetsAreThere(store: Store, svc: Service, built: seq<BuiltNet>) {
    forall i :: 0 <= i < |built| ==> IsThere(store, NetTask(svc, built[i]))
  }

  lemma {:induction false} SilentDeployment(w: World, svc: Service)
    requires WellFormed(w) && Quiet(w.setting) && !DeploymentOf(svc).Panicked?
    ensures var (w', o) := ReconcileDeployment(w, svc);
      o.Ok? && (w'.store == w.store <==> DeploymentIsThere(w.store, svc))
  {
    hide Linked, RetryLoop, RemoveIfPresent, DeploymentOf, Quiet, StoreFits, AsBuilt;
    match DeploymentOf(svc) {
      case NotNeeded => SilentRemove(w, DeploymentKey(svc));
      case Built(deployment) => SilentEnsure(w, DeployTask(svc, deployment));
    }
  }

  lemma {:induction false} SilentIngress(w: World, svc: Service)
    requires WellFormed(w) && Quiet(w.setting) && OwnableChildren(w.store, svc)
    ensures var (w', o) := ReconcileIngress(w, svc);
      o.Ok? && (w'.store == w.store <==> IngressIsThere(w.store, svc))
  {
    IngressNeverPanics(svc);
    IngressIsOwned(svc);
    hide Linked, RetryLoop, RemoveIfPresent, IngressOf, Quiet, StoreFits, AsBuilt, OwnedKeys;
    match IngressOf(svc) {
      case NotNeeded => SilentRemove(w, IngressKey(svc));
      case Built(ingress) => SilentEnsure(w, IngressTask(svc, ingress));
    }
  }

  lemma {:induction false} SilentEnsureServices(w: World, svc: Service, built: seq<BuiltNet>)
    requires WellFormed(w) && Quiet(w.setting) && Arranged(svc, built) && OwnableChildren(w.store, svc)
    ensures var (w', o) := EnsureServices(w, svc, built);
      && (w'.store == w.store <==> NetsAreThere(w.store, svc, built)) && (w'.store == w.store ==> o.Ok?)
    decreases |built|
  {
    hide Linked, RetryLoop, IsThere, Quiet, StoreFits, OwnableChildren;
    if built != [] {
      var t := NetTask(svc, built[0]);
      var (w1, end) := Ensure(w, t);
      var (w', o) := EnsureServices(w, svc, built);
      HeadIsSeparable(w, svc, built);
      SilentEnsure(w, t);
      assert NetsAreThere(w.store, svc, built) <==> IsThere(w.store, t) && NetsAreThere(w.store, svc, built[1..]) by {
        NetsSplit(w.store, svc, built);
      }
      ExtendsReflexive(w1);
      TwoSteps(w, w1, w');
      if w1.store == w.store {
        SilentEnsureServices(w1, svc, built[1..]);
      }
    }
  }

  /** Without an error no Service has been created, and none is ever removed. */
  lemma {:induction false} EnsuringKeepsKeys(w: World, svc: Service, built: seq<BuiltNet>)
    requires WellFormed(w) && Quiet(w.setting) && forall i :: 0 <= i < |built| ==> Separable(NetTask(svc, built[i]))
    ensures EnsureServices(w, svc, built).1.Ok? ==> EnsureServices(w, svc, built).0.store.Keys == w.store.Keys
    decreases |built|
  {
    hide Linked, RetryLoop, Quiet, StoreFits, Separable, AsBuilt, Ownable;
    if built != [] {
      var t := NetTask(svc, built[0]);
      if KeyOf(t) in w.store {
        SilentLoop(w, t);
        EnsuringKeepsKeys(Ensure(w, t).0, svc, built[1..]);
      } else {
        LoudCreation(w, t);
      }
    }
  }

  lemma ArrangedAreSeparable(svc: Service, built: seq<BuiltNet>)
    requires Arranged(svc, built)
    ensures forall i :: 0 <= i < |built| ==> Separable(NetTask(svc, built[i]))
  {
    hide OwnedKeys;
  }

  lemma HeadIsSeparable(w: World, svc: Service, built: seq<BuiltNet>)
    requires built != [] && Arranged(svc, built) && OwnableChildren(w.store, svc)
    ensures var t := NetTask(svc, built[0]);
      Separable(t) && (KeyOf(t) in w.store ==> Ownable(t, w.store[KeyOf(t)].obj)) && Arranged(svc, built[1..])
  {
    hide OwnedKeys, MayOwn;
    assert Steady(NetTask(svc, built[0])) && NetKey(svc, built[0].name) in OwnedKeys(svc);
  }

  lemma NetsSplit(store: Store, svc: Service, built: seq<BuiltNet>)
    requires built != []
    ensures NetsAreThere(store, svc, built) <==>
        IsThere(store, NetTask(svc, built[0])) && NetsAreThere(store, svc, built[1..])
  {
    hide IsThere;
    if IsThere(store, NetTask(svc, built[0])) && NetsAreThere(store, svc, built[1..]) {
      forall i | 0 <= i < |built|
        ensures IsThere(store, NetTask(svc, built[i]))
      {
        assert i > 0 ==> built[i] == built[1..][i - 1];
      }
    }
    if NetsAreThere(store, svc, built) {
      forall i | 0 <= i < |built[1..]|
        ensures IsThere(store, NetTask(svc, built[1..][i]))
      {
        assert built[1..][i] == built[i + 1];
      }
    }
  }

  lemma {:induction false} SilentRemovals(w: World, svc: Service, names: seq<string>, keep: set<string>)
    requires WellFormed(w) && Quiet(w.setting)
    ensures var (w', o) := RemoveServices(w, svc, names, keep);
      && o.Ok?
      && (w'.store == w.store <==> forall name :: name in names && name !in keep ==> NetKey(svc, name) !in w.store)
    decreases |names|
  {
    hide Linked, RemoveIfPresent, Quiet, StoreFits;
    if names != [] {
      if names[0] in keep {
        SilentRemovals(w, svc, names[1..], keep);
      } else {
        var w1, w' := RemoveIfPresent(w, NetKey(svc, names[0])).0, RemoveServices(w, svc, names, keep).0;
        SilentRemove(w, NetKey(svc, names[0]));
        SilentRemovals(w1, svc, names[1..], keep);
        TwoSteps(w, w1, w');
      }
    }
  }

  ghost predicate NoSpareNets(store: Store, svc: Service) {
    forall name :: name in ServiceNames(svc) && name !in NamesOf(BuiltNets(svc)) ==> NetKey(svc, name) !in store
  }

  lemma {:induction false} SilentServices(w: World, svc: Service)
    requires WellFormed(w) && Quiet(w.setting) && Regular(svc) && OwnableChildren(w.store, svc)
    ensures var (w', o) := ReconcileServices(w, svc);
      && (w'.store == w.store <==> NetsAreThere(w.store, svc, BuiltNets(svc)) && NoSpareNets(w.store, svc))
      && (w'.store == w.store ==> o.Ok?)
  {
    var built, w' := BuiltNets(svc), ReconcileServices(w, svc).0;
    var (w1, o) := EnsureServices(w, svc, built);
    RegularPorts(svc);
    BuiltAreArranged(svc);
    ServicesOfBuilt(w, svc);
    hide Linked, EnsureServices, RemoveServices, ReconcileServices, BuiltNets, NetsAreThere, Quiet, StoreFits, Regular,
      OwnableChildren, Arranged;
    SilentEnsureServices(w, svc, built);
    ArrangedAreSeparable(svc, built);
    EnsuringKeepsKeys(w, svc, built);
    ExtendsReflexive(w1);
    if o.Ok? {
      SilentRemovals(w1, svc, ServiceNames(svc), NamesOf(built));
    }
    TwoSteps(w, w1, w');
  }

  // ----- The pass -----

  /** Everything the resource asks for is there as built, and nothing else of its children. */
  ghost predicate AllAsBuilt(store: Store, svc: Service) {
    && DeploymentIsThere(store, svc) && IngressIsThere(store, svc)
    && NetsAreThere(store, svc, BuiltNets(svc)) && NoSpareNets(store, svc)
  }

  /** The three steps work on different children, so none undoes a creation of another. */
  lemma {:induction false} ChildrenDoNotVanish(w: World, svc: Service)
    requires WellFormed(w) && Quiet(w.setting) && Lawful(w.setting.defaults)
    requires Regular(svc) && OwnableChildren(w.store, svc)
    ensures var w1 := ReconcileDeployment(w, svc).0;
      var (w2, o2) := ReconcileServices(w1, svc);
      && ReconcileDeployment(w, svc).1.Ok? && OwnableChildren(w1.store, svc)
      && NoneVanishes(w.store, w1.store, ReconcileGeneric(w, svc).0.store)
      && (o2.Ok? ==> NoneVanishes(w1.store, w2.store, ReconcileGeneric(w, svc).0.store))
  {
    hide Linked, ReconcileDeployment, ReconcileServices, ReconcileIngress, Quiet, StoreFits, Regular, OwnableChildren,
      BuiltNets, DeploymentOf, Elsewhere, LeftOver, DeploymentSettled, NetsSettled, IngressSettled, Lawful,
      NoneVanishes, MissingNets, SameContents;
    var w1 := ReconcileDeployment(w, svc).0;
    var (w2, o2) := ReconcileServices(w1, svc);
    var w', scope := ReconcileGeneric(w, svc).0, NetScope(svc) + {IngressKey(svc)};
    QuietDeployment(w, svc);
    QuietServices(w1, svc);
    ElsewhereWidens(w1.store, w2.store, NetScope(svc), scope);
    if o2.Ok? {
      QuietIngress(w2, svc);
      NoneVanishesElsewhere(w1.store, w2.store, w'.store, NetScope(svc), {IngressKey(svc)});
      ElsewhereWidens(w2.store, w'.store, {IngressKey(svc)}, scope);
      ElsewhereTransitive(w1.store, w2.store, w'.store, scope);
    }
    NoneVanishesElsewhere(w.store, w1.store, w'.store, {DeploymentKey(svc)}, scope);
  }

  lemma {:induction false} SilentGeneric(w: World, svc: Service)
    requires WellFormed(w) && Quiet(w.setting) && Lawful(w.setting.defaults)
    requires Regular(svc) && OwnableChildren(w.store, svc)
    ensures var (w', o) := ReconcileGeneric(w, svc);
      (w'.store == w.store <==> AllAsBuilt(w.store, svc)) && (w'.store == w.store ==> o.Ok?)
  {
    assert !DeploymentOf(svc).Panicked?;
    hide Linked, ReconcileDeployment, ReconcileServices, ReconcileIngress, DeploymentIsThere, IngressIsThere,
      NetsAreThere, NoSpareNets, Quiet, StoreFits, Regular, OwnableChildren, BuiltNets, DeploymentOf, NoneVanishes,
      Lawful;
    var w1 := ReconcileDeployment(w, svc).0;
    var (w2, o2) := ReconcileServices(w1, svc);
    var w' := ReconcileGeneric(w, svc).0;
    SilentDeployment(w, svc);
    ChildrenDoNotVanish(w, svc);
    ExtendsReflexive(w2);
    if o2.Ok? {
      TwoSteps(w1, w2, w');
      ExtendsTransitive(w1, w2, w');
    }
    TwoSteps(w, w1, w');
    if w1.store == w.store {
      SilentServices(w1, svc);
      if w2.store == w1.store {
        SilentIngress(w2, svc);
      }
    }
  }

  lemma {:induction false} SilentStatus(w: World, k: Key)
    requires WellFormed(w) && Quiet(w.setting) && w.actor == k && k in w.store && w.store[k].obj.body.CustomBody?
    ensures WriteStatus(w, w.store[k]).0.store == w.store <==>
        Publishes(w.store[k].obj.body.status, w.store[k].obj.body.spec)
  {
    hide Linked, Call, DesiredStatus, Publishes;
    var body := w.store[k].obj.body;
    StatusPublishes(body.spec, body.status);
    StatusPublishes(body.spec, DesiredStatus(body.spec));
    assert w.store[k].version < w.next;
    QuietCall(w, UpdateStatus(k, DesiredStatus(body.spec), Some(w.store[k].version)));
  }

  lemma StatusKeepsKeys(w: World, stored: Stored)
    requires Quiet(w.setting) && stored.obj.body.CustomBody?
    ensures w.store.Keys <= WriteStatus(w, stored).0.store.Keys
  {
    hide Linked, DesiredStatus;
    QuietCall(w, UpdateStatus(w.actor, DesiredStatus(stored.obj.body.spec), Some(stored.version)));
    hide Call;
  }

  lemma {:induction false} SilentLive(w: World)
    requires Workable(w)
    ensures ReconcileLive(w, w.store[w.actor]).0.store == w.store <==>
      && AllAsBuilt(w.store, ServiceIn(w))
      && Publishes(w.store[w.actor].obj.body.status, w.store[w.actor].obj.body.spec)
  {
    var svc := ServiceIn(w);
    NotADatabase(svc);
    hide Linked, ReconcileGeneric, ReconcileDatabase, AllAsBuilt, Regular, OwnableChildren, WriteStatus, Publishes,
      Quiet, StoreFits, Lawful;
    var (w1, o) := ReconcileGeneric(w, svc);
    var w' := ReconcileLive(w, w.store[w.actor]).0;
    SilentGeneric(w, svc);
    ExtendsReflexive(w1);
    StatusKeepsKeys(w1, w.store[w.actor]);
    TwoSteps(w, w1, w');
    if w1.store == w.store {
      SilentStatus(w1, w.actor);
    }
  }

  lemma {:induction false} LoudAddition(w: World)
    requires Workable(w) && FINALIZER !in w.store[w.actor].obj.finalizers
    ensures AddFinalizer(w, w.store[w.actor]).0.store != w.store
  {
    QuietAddition(w);
    hide AddFinalizer, Workable, Elsewhere;
    var was := w.store[w.actor].obj.finalizers;
    assert FINALIZER in was + {FINALIZER};
  }

  /**
   Undisturbed, a pass leaves the store exactly as it is, versions included, if and only if the finalizer is
   there, every wanted child is stored as built, no other child is there, and the status is published. In
   particular a server that defaults any of them is written to in every pass.
   */
  lemma {:induction false} SilentPass(w: World)
    requires Workable(w)
    ensures var obj := w.store[w.actor].obj;
      Reconcile(w).0.store == w.store <==>
        FINALIZER in obj.finalizers && AllAsBuilt(w.store, ServiceIn(w)) && Publishes(obj.body.status, obj.body.spec)
  {
    hide Linked, Call, ReconcileLive, AddFinalizer, ReleaseService, AllAsBuilt, Publishes, Regular, OwnableChildren,
      Quiet, Lawful;
    var w1 := Call(w, Get(w.actor)).0;
    QuietRead(w, w.actor);
    if FINALIZER in w.store[w.actor].obj.finalizers {
      SilentLive(w1);
    } else {
      LoudAddition(w1);
    }
  }
}
