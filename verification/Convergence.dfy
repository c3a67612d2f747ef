/**
 Convergence: with nobody else about and a server that accepts everything, at most four passes take a
 live custom resource that is no database from any starting cluster to its desired state, and later
 passes leave the contents of the cluster alone.
 */
module Convergence {
  import opened Text
  import opened Types
  import opened Trees
  import opened Builders
  import opened BuilderLaws
  import opened Cluster
  import opened ClusterLaws
  import opened Retry
  import opened RetryLaws
  import opened Secrets
  import opened Runtime
  import opened Reconciler
  import opened PassLaws
  import opened ServiceExactness
  import opened FinalizerSafety
  import opened FixedPoints
  import opened QuietChildren

  // ----- The pass -----

  function ServiceIn(w: World): Service
    requires w.actor in w.store && w.store[w.actor].obj.body.CustomBody?
  {
    ServiceOf(w.actor, w.store[w.actor])
  }

  /** A live custom resource that is no database, nobody else about, no child that belongs to another controller. */
  ghost predicate Workable(w: World) {
    && WellFormed(w) && Quiet(w.setting) && Lawful(w.setting.defaults)
    && w.actor.kind == CustomResource && w.actor in w.store
    && w.store[w.actor].obj.body.CustomBody? && !w.store[w.actor].obj.deleting
    && Regular(ServiceIn(w)) && OwnableChildren(w.store, ServiceIn(w))
  }

  /** What is missing: the finalizer, and desired Services. */
  function Missing(w: World): nat
    requires w.actor in w.store && w.store[w.actor].obj.body.CustomBody?
  {
    (if FINALIZER in w.store[w.actor].obj.finalizers then 0 else 1)
        + MissingNets(w.store, ServiceIn(w), BuiltNets(ServiceIn(w)))
  }

  /** The cluster is as the custom resource wants it, and the status says so. */
  ghost predicate Converged(w: World)
    requires w.actor in w.store && w.store[w.actor].obj.body.CustomBody?
  {
    && FINALIZER in w.store[w.actor].obj.finalizers
    && ChildrenSettled(w.setting.defaults, w.store, ServiceIn(w))
    && Publishes(w.store[w.actor].obj.body.status, w.store[w.actor].obj.body.spec)
  }

  lemma QuietStatus(w: World, k: Key)
    requires Quiet(w.setting) && w.actor == k && k in w.store && w.store[k].obj.body.CustomBody?
    ensures var (w', o) := WriteStatus(w, w.store[k]);
      var was := w.store[k].obj;
      && o.Ok? && Elsewhere(w.store, w'.store, {k}) && k in w'.store
      && w'.store[k].obj == was.(body := was.body.(status := DesiredStatus(was.body.spec)))
      && w'.store[k].maker == w.store[k].maker
  {
    hide DesiredStatus;
    QuietCall(w, UpdateStatus(k, DesiredStatus(w.store[k].obj.body.spec), Some(w.store[k].version)));
    hide Call;
  }

  lemma QuietAddition(w: World)
    requires Workable(w)
    ensures var (w', o) := AddFinalizer(w, w.store[w.actor]);
      var was := w.store[w.actor].obj;
      && o.Ok? && Elsewhere(w.store, w'.store, {w.actor}) && w.actor in w'.store
      && w'.store[w.actor].obj == was.(finalizers := was.finalizers + {FINALIZER})
  {
    hide Regular, OwnableChildren, Linked;
    var was := w.store[w.actor];
    var obj := WithFinalizers(was.obj, was.obj.finalizers + {FINALIZER});
    QuietCall(w, Update(w.actor, obj, Some(was.version)));
    hide Call;
    CustomResourcesAreAdmittedAsTheyAre(w.setting.defaults, GrantOf(w), obj.body);
    hide Admit;
  }

  /** A change of the custom resource's finalizers or status leaves its children's standing as it was. */
  lemma OwnChangeFrame(w: World, w': World)
    requires Workable(w) && Extends(w, w') && Elsewhere(w.store, w'.store, {w.actor}) && w.actor in w'.store
    requires var was, now := w.store[w.actor].obj, w'.store[w.actor].obj;
      now.body.CustomBody? && now.body.spec == was.body.spec && now.uid == was.uid && !now.deleting
    ensures Workable(w') && ServiceIn(w') == ServiceIn(w)
    ensures ChildrenSettled(w.setting.defaults, w.store, ServiceIn(w)) <==>
        ChildrenSettled(w.setting.defaults, w'.store, ServiceIn(w))
    ensures MissingNets(w'.store, ServiceIn(w), BuiltNets(ServiceIn(w))) ==
        MissingNets(w.store, ServiceIn(w), BuiltNets(ServiceIn(w)))
    ensures LeftOver(w.store, w'.store, ServiceIn(w))
  {
    ResourceIsNoChild(w.actor, ServiceIn(w));
    hide Linked, Quiet, MayOwn, DeploymentSettled, NetsSettled, IngressSettled, BuiltNets, Regular, MissingNets,
      OwnedKeys, IsUnwanted, LeftOver;
    var svc, d := ServiceIn(w), w.setting.defaults;
    RegularPorts(svc);
    NetsFrame(d, w.store, w'.store, svc, {w.actor});
    ChildrenFrame(d, w.store, w'.store, svc, {w.actor});
    ElsewhereLeavesOver(w.store, w'.store, svc, {w.actor});
    OwnableFrame(w.store, w'.store, svc, w.actor);
  }

  lemma ResourceIsNoChild(k: Key, svc: Service)
    requires k.kind == CustomResource
    ensures k !in OwnedKeys(svc) && !IsUnwanted(svc, k)
  {
    hide BuiltNets, DeploymentOf, IngressOf;
  }

  lemma {:induction false} QuietLive(w: World)
    requires Workable(w) && FINALIZER in w.store[w.actor].obj.finalizers
    ensures var (w', o) := ReconcileLive(w, w.store[w.actor]);
      && Workable(w') && ServiceIn(w') == ServiceIn(w)
      && (if Missing(w) == 0 then o.Ok? && Converged(w') else o.Err? && Missing(w') == Missing(w) - 1)
      && LeftOver(w.store, w'.store, ServiceIn(w))
      && (Converged(w) ==> Missing(w) == 0 && SameContents(w.store, w'.store))
  {
    hide Linked, ReconcileGeneric, ReconcileDatabase, ChildrenSettled, BuiltNets, Regular, Quiet, SameContents,
      MissingNets, DesiredStatus, OwnableChildren, WriteStatus, StoreFits, LeftOver, Publishes;
    var svc, k := ServiceIn(w), w.actor;
    NotADatabase(svc);
    QuietGeneric(w, svc);
    var (w1, o1) := ReconcileGeneric(w, svc);
    assert SameAt(k, w.store, w1.store);
    if o1.Ok? {
      QuietStatus(w1, k);
      StatusPublishes(w.store[k].obj.body.spec, w.store[k].obj.body.status);
      StatusPublishes(w.store[k].obj.body.spec, DesiredStatus(w.store[k].obj.body.spec));
      var w2 := WriteStatus(w1, w.store[k]).0;
      OwnChangeFrame(w1, w2);
      LeftOverTransitive(w.store, w1.store, w2.store, svc);
      if Converged(w) {
        SameButOne(w1.store, w2.store, k);
        SameContentsTransitive(w.store, w1.store, w2.store);
      }
    }
  }

  lemma NotADatabase(svc: Service)
    requires Regular(svc)
    ensures svc.spec.serviceType != DATABASE
  {}

  /**
   One pass: it adds the finalizer, or creates one missing Service, or else converges; once converged
   it changes no contents. Children that are not needed are deleted, or left as they are for now.
   */
  lemma {:induction false} QuietPass(w: World)
    requires Workable(w)
    ensures var (w', o) := Reconcile(w);
      && Workable(w') && ServiceIn(w') == ServiceIn(w)
      && (if Missing(w) == 0 then o.Ok? && Converged(w') else Missing(w') == Missing(w) - 1)
      && LeftOver(w.store, w'.store, ServiceIn(w))
      && (Converged(w) ==> Missing(w) == 0 && SameContents(w.store, w'.store))
  {
    hide Linked, ReconcileLive, AddFinalizer, ReleaseService, SameContents, ChildrenSettled, BuiltNets, MissingNets,
      DesiredStatus, Regular, OwnableChildren, Quiet, Call, LeftOver;
    var w1 := Call(w, Get(w.actor)).0;
    QuietRead(w, w.actor);
    if FINALIZER in w.store[w.actor].obj.finalizers {
      QuietLive(w1);
    } else {
      QuietAddition(w1);
      OwnChangeFrame(w1, AddFinalizer(w1, w.store[w.actor]).0);
    }
  }

  function Passes(w: World, n: nat): World
    decreases n
  {
    if n == 0 then w else Passes(Reconcile(w).0, n - 1)
  }

  lemma AtMostThreeMissing(w: World)
    requires Workable(w)
    ensures Missing(w) <= 3
  {
    var svc := ServiceIn(w);
    RegularPorts(svc);
    BuiltAreArranged(svc);
    MissingAtMost(w.store, svc, BuiltNets(svc));
  }

  lemma {:induction false} MissingAtMost(store: Store, svc: Service, built: seq<BuiltNet>)
    ensures MissingNets(store, svc, built) <= |built|
    decreases |built|
  {
    if built != [] {
      MissingAtMost(store, svc, built[1..]);
    }
  }

  /** Once converged, always converged, and no later pass changes any contents. */
  lemma {:induction false} StaysConverged(w: World, n: nat)
    requires Workable(w) && Converged(w)
    ensures var w' := Passes(w, n);
      Workable(w') && Converged(w') && ServiceIn(w') == ServiceIn(w) && SameContents(w.store, w'.store)
    decreases n
  {
    hide Linked, Reconcile, StoreFits, Quiet, Lawful, Regular, OwnableChildren, ServiceIn, Converged, SameContents,
      Missing;
    SameContentsReflexive(w.store);
    if n > 0 {
      QuietPass(w);
      var w1 := Reconcile(w).0;
      StaysConverged(w1, n - 1);
      SameContentsTransitive(w.store, w1.store, Passes(w1, n - 1).store);
    }
  }

  /**
   Convergence: from any starting cluster, as many passes as things are missing and one more, and never
   more than four.
   */
  lemma {:induction false} Converges(w: World, n: nat)
    requires Workable(w) && n > Missing(w)
    ensures var w' := Passes(w, n);
      Workable(w') && Converged(w') && ServiceIn(w') == ServiceIn(w) && LeftOver(w.store, w'.store, ServiceIn(w))
    decreases n
  {
    hide Linked, Reconcile, StoreFits, Quiet, Lawful, Regular, OwnableChildren, ServiceIn, Converged, SameContents,
      Missing, LeftOver;
    QuietPass(w);
    var w1, w' := Reconcile(w).0, Passes(w, n);
    if Missing(w) == 0 {
      StaysConverged(w1, n - 1);
      ContentsLeaveOver(w1.store, w'.store, ServiceIn(w));
    } else {
      Converges(w1, n - 1);
    }
    LeftOverTransitive(w.store, w1.store, w'.store, ServiceIn(w));
  }

  lemma ContentsLeaveOver(was: Store, now: Store, svc: Service)
    requires SameContents(was, now)
    ensures LeftOver(was, now, svc)
  {
    hide IsUnwanted;
  }

  /** Every child that is not needed has been deleted. */
  ghost predicate UnwantedDeleted(was: Store, now: Store, svc: Service) {
    forall k :: IsUnwanted(svc, k) ==> DeletedAt(k, was, now)
  }

  lemma ConvergedHasDeleted(was: Store, w: World, svc: Service)
    requires w.actor in w.store && w.store[w.actor].obj.body.CustomBody? && ServiceIn(w) == svc
    requires Converged(w) && LeftOver(was, w.store, svc)
    ensures UnwantedDeleted(was, w.store, svc)
  {
    hide DeploymentOf, IngressOf, IsSpareNet, Settled, AllSettled, BuiltNets, DesiredStatus;
    forall k | IsUnwanted(svc, k)
      ensures DeletedAt(k, was, w.store)
    {
      assert Dismissed(w.store, k);
      assert SameContent(k, was, w.store) || DeletedAt(k, was, w.store);
    }
  }

  /**
   Four passes are enough: everything needed is as desired, what is not needed is gone, or marked for
   deletion where a finalizer holds it, and all later passes leave the contents of the cluster as the
   fourth did.
   */
  lemma {:induction false} FourPassesSuffice(w: World, n: nat, later: nat)
    requires Workable(w) && 4 <= n <= later
    ensures var w', w'' := Passes(w, n), Passes(w, later);
      && Workable(w') && Converged(w') && ServiceIn(w') == ServiceIn(w)
      && UnwantedDeleted(w.store, w'.store, ServiceIn(w))
      && Workable(w'') && Converged(w'') && SameContents(w'.store, w''.store)
  {
    hide Linked, Reconcile, StoreFits, Quiet, Lawful, Regular, OwnableChildren, ServiceIn, Converged, SameContents,
      Missing, Passes, LeftOver, UnwantedDeleted;
    AtMostThreeMissing(w);
    Converges(w, n);
    ConvergedHasDeleted(w.store, Passes(w, n), ServiceIn(w));
    StaysConverged(Passes(w, n), later - n);
    PassesAdd(w, n, later - n);
  }

  lemma {:induction false} PassesAdd(w: World, n: nat, m: nat)
    ensures Passes(Passes(w, n), m) == Passes(w, n + m)
    decreases n
  {
    hide Linked, Reconcile;
    if n > 0 {
      PassesAdd(Reconcile(w).0, n - 1, m);
    }
  }

  // ----- Deletion -----

  lemma QuietDelete(w: World, k: Key)
    requires Quiet(w.setting)
    ensures var (w', o) := DeleteIfPresent(w, k);
      o.Ok? && Deleted(w.store, w'.store, {k})
  {
    QuietCall(w, Delete(k));
    hide Call;
  }

  lemma DeletedJoins(a: Store, b: Store, c: Store, k: Key, keys: set<Key>)
    requires Deleted(a, b, {k}) && Deleted(b, c, keys)
    ensures Deleted(a, c, {k} + keys)
  {
    forall x | x !in {k} + keys
      ensures SameAt(x, a, c)
    {
      assert SameAt(x, a, b) && SameAt(x, b, c);
    }
    forall x | x in {k} + keys
      ensures DeletedAt(x, a, c)
    {
      assert x != k ==> SameAt(x, a, b);
      assert x !in keys ==> SameAt(x, b, c);
    }
  }

  lemma {:induction false} QuietDeleteAll(w: World, ks: seq<Key>)
    requires Quiet(w.setting)
    ensures var (w', o) := DeleteAll(w, ks);
      o.Ok? && Deleted(w.store, w'.store, set k | k in ks)
    decreases |ks|
  {
    hide Linked, DeleteIfPresent, Quiet, Deleted;
    if ks == [] {
      NothingIsDeleted(w.store);
      assert (set k: Key | k in ks) == {};
    } else {
      var w1 := DeleteIfPresent(w, ks[0]).0;
      QuietDelete(w, ks[0]);
      QuietDeleteAll(w1, ks[1..]);
      assert (set k | k in ks) == {ks[0]} + (set k | k in ks[1..]);
      DeletedJoins(w.store, w1.store, DeleteAll(w, ks).0.store, ks[0], set k | k in ks[1..]);
    }
  }

  lemma NothingIsDeleted(store: Store)
    ensures Deleted(store, store, {})
  {}

  /**
   Undisturbed, one pass for a resource that is being deleted takes the controller's finalizer off it, and
   the resource goes if it had no other. It removes those of its three children that no finalizer holds;
   the others stay, marked for deletion, and nothing else changes.
   */
  lemma {:induction false} QuietRelease(w: World)
    requires WellFormed(w) && Quiet(w.setting) && w.actor.kind == CustomResource && w.actor in w.store
    requires var obj := w.store[w.actor].obj; obj.body.CustomBody? && obj.deleting && FINALIZER in obj.finalizers
    ensures var (w', o) := Reconcile(w);
      && o.Ok? && Stripped(w.store, w'.store, w.actor)
      && Deleted(w.store - {w.actor}, w'.store - {w.actor}, set k | k in BaseChildren(ServiceIn(w)))
  {
    hide Linked, Call, DeleteAll, Quiet, StoreFits, Deleted;
    var key, stored, svc := w.actor, w.store[w.actor], ServiceIn(w);
    var w1 := Call(w, Get(key)).0;
    QuietRead(w, key);
    QuietDeleteAll(w1, BaseChildren(svc));
    var w2 := FinalizeService(w1, svc).0;
    DeletedBeside(w1.store, w2.store, (set k | k in BaseChildren(svc)), key);
    QuietStrip(w2, stored);
    var w' := Reconcile(w).0;
    ElsewhereBeside(w2.store, w'.store, key);
  }

  lemma ElsewhereBeside(was: Store, now: Store, k: Key)
    requires Elsewhere(was, now, {k})
    ensures now - {k} == was - {k}
  {
    forall x | x != k
      ensures SameAt(x, was, now)
    {}
  }

  /** The resource has lost the controller's finalizer, and is gone if it had no other. */
  ghost predicate Stripped(was: Store, now: Store, k: Key)
    requires k in was
  {
    var left := was[k].obj.finalizers - {FINALIZER};
    if left == {} then k !in now
    else k in now && now[k].obj == was[k].obj.(finalizers := left) && now[k].maker == was[k].maker
  }

  lemma DeletedBeside(was: Store, now: Store, keys: set<Key>, k: Key)
    requires Deleted(was, now, keys) && k !in keys
    ensures SameAt(k, was, now) && Deleted(was - {k}, now - {k}, keys)
  {
    forall x | x !in keys
      ensures SameAt(x, was - {k}, now - {k})
    {
      assert SameAt(x, was, now);
    }
  }

  lemma QuietStrip(w: World, stored: Stored)
    requires WellFormed(w) && Quiet(w.setting) && w.actor.kind == CustomResource && w.actor in w.store
    requires w.store[w.actor] == stored && stored.obj.body.CustomBody? && stored.obj.deleting
    ensures var (w', written) := Call(w,
        Update(w.actor, WithFinalizers(stored.obj, stored.obj.finalizers - {FINALIZER}), Some(stored.version)));
      && written.Got? && Stripped(w.store, w'.store, w.actor) && Elsewhere(w.store, w'.store, {w.actor})
  {
    hide Linked, StoreFits, Admit;
    var obj := WithFinalizers(stored.obj, stored.obj.finalizers - {FINALIZER});
    CustomResourcesAreAdmittedAsTheyAre(w.setting.defaults, GrantOf(w), obj.body);
    QuietCall(w, Update(w.actor, obj, Some(stored.version)));
    hide Call, Quiet;
  }

  const HELD_NAME := "web"

  /**
   A resource that is being deleted, and its Deployment, made by the controller, under a finalizer of
   somebody else.
   */
  function HeldWorld(spec: ServiceSpec, deployment: DeploymentSpec): World {
    var resource, child := Key(CustomResource, "default", HELD_NAME), Key(DeploymentKind, "default", HELD_NAME);
    var store := map[
      resource := Stored(Object(map[], None, {FINALIZER}, true, 1, CustomBody(spec, ServiceStatus("", []))), 1, None),
      child := Stored(Object(map[], None, {"foregroundDeletion"}, false, 2, DeploymentBody(deployment)), 2,
          Some(resource))];
    World(StillSetting(), resource, store, 3, 0, 0, 0, [])
  }

  lemma StillIsQuiet()
    ensures Quiet(StillSetting())
  {}

  lemma HeldIsThere(spec: ServiceSpec, deployment: DeploymentSpec)
    ensures var w, child := HeldWorld(spec, deployment), Key(DeploymentKind, "default", HELD_NAME);
      && WellFormed(w) && Safe(w.store) && w.actor in w.store && child in w.store && child != w.actor
      && w.store[w.actor].obj == Object(map[], None, {FINALIZER}, true, 1, CustomBody(spec, ServiceStatus("", [])))
      && w.store[child].maker == Some(w.actor) && w.store[child].obj.finalizers == {"foregroundDeletion"}
  {
    hide StillSetting;
  }

  /**
   That every child is gone with its resource is false: the finalizer of somebody else keeps the
   Deployment, marked for deletion, although nobody interferes.
   */
  lemma {:induction false} HeldChildOutlives(spec: ServiceSpec, deployment: DeploymentSpec)
    ensures var w := HeldWorld(spec, deployment);
      var w', child := Reconcile(w).0, Key(DeploymentKind, "default", HELD_NAME);
      && WellFormed(w) && Safe(w.store) && w.actor !in w'.store
      && child in w'.store && w'.store[child].maker == Some(w.actor) && IsHeld(w'.store[child].obj)
  {
    hide Linked, Reconcile, StillSetting;
    var w, child := HeldWorld(spec, deployment), Key(DeploymentKind, "default", HELD_NAME);
    assert Quiet(w.setting) by { StillIsQuiet(); }
    HeldIsThere(spec, deployment);
    assert child == BaseChildren(ServiceIn(w))[0];
    hide HeldWorld, StoreFits, Safe, Quiet;
    QuietRelease(w);
    assert w.store[w.actor].obj.finalizers - {FINALIZER} == {};
    assert DeletedAt(child, w.store - {w.actor}, Reconcile(w).0.store - {w.actor});
  }

  // ----- Panics -----

  /**
   While its Deployment cannot be built, every pass for a live resource ends in the panic and asks for
   nothing but its read.
   */
  lemma PanicStopsEveryPass(w: World)
    requires WellFormed(w)
    ensures var (w1, read) := ReadFirst(w);
      read.Got? && read.stored.obj.body.CustomBody? && !read.stored.obj.deleting
          && FINALIZER in read.stored.obj.finalizers ==>
        var svc := ServiceOf(w.actor, read.stored);
        svc.spec.serviceType != DATABASE && DeploymentOf(svc).Panicked? ==> Reconcile(w) == (w1, Err(Panicking))
  {
    hide Linked, Call, DeploymentOf, ReconcileServices, ReconcileIngress, WriteStatus;
  }

  // ----- What is written although nothing changes -----

  /**
   The base Service is built without a type. Once the server has given it one, every pass writes it
   again, with the contents it already has; only a server without a default type leaves it unwritten.
   */
  lemma BaseServiceIsRewritten(defaults: Defaults, t: Task, obj: Object)
    requires t.NetTask? && t.built.net.netType == "" && Steady(t) && Lawful(defaults)
    requires Fixed(defaults, t, obj) && obj.body.NetBody? && obj.body.net.netType == defaults.netType("")
    ensures PlanFor(Revise(t, obj), obj).Write? <==> defaults.netType("") != ""
  {
    var o := PlanFor(Revise(t, obj), obj);
    if o.Write? {
      var grant := Grant("10.0.0.1", (i: nat) => 30000);
      assert Rewritten(defaults, grant, obj, o.obj) == obj;
    }
  }
}
