/** The requests of a reconcile pass, under any interference and any faults. */
module PassLaws {
  import opened Text
  import opened Types
  import opened Builders
  import opened BuilderLaws
  import opened Cluster
  import opened ClusterLaws
  import opened Retry
  import opened Secrets
  import opened Trace
  import opened Runtime
  import opened RuntimeLaws
  import opened Reconciler

  /** The two core Services a custom resource can have. */
  function NetScope(svc: Service): set<Key> {
    {NetKey(svc, svc.name), NetKey(svc, svc.name + NODEPORT_SUFFIX)}
  }

  /** The keys that the path without database may write. */
  function GenericScope(svc: Service): set<Key> {
    {DeploymentKey(svc), IngressKey(svc)} + NetScope(svc)
  }

  lemma RemoveIsProper(w: World, k: Key, scope: set<Key>)
    requires k in scope && IsDeletable(k.kind)
    ensures AllNew(w, RemoveIfPresent(w, k).0, Proper(scope))
  {
    hide Linked, Call, Awaited, Proper;
    var (w1, read) := Call(w, Get(k));
    ProperRead(w, k, scope);
    if read.Got? {
      ProperDelete(w1, k, scope);
      AllNewTransitive(w, w1, RemoveIfPresent(w, k).0, Proper(scope));
    }
  }

  /**
   Removing a child that is not needed succeeds if the read finds nothing, or the deletion after it goes
   through; a child that has vanished between the two is an error. Finalizing, which does not read first,
   forgives one that is not there.
   */
  lemma RemovalSucceeds(w: World, k: Key)
    ensures var (w1, read) := Call(w, Get(k));
      RemoveIfPresent(w, k).1.Ok? <==> read == Failed(NotFound) || (read.Got? && Call(w1, Delete(k)).1.Got?)
    ensures DeleteIfPresent(w, k).1.Ok? <==> Call(w, Delete(k)).1.Got? || Call(w, Delete(k)).1 == Failed(NotFound)
  {
    hide Linked, Call;
  }

  lemma {:induction false} DeploymentIsProper(w: World, svc: Service)
    requires WellFormed(w)
    ensures AllNew(w, ReconcileDeployment(w, svc).0, Proper({DeploymentKey(svc)}))
  {
    hide Linked, RemoveIfPresent, RetryLoop, DeploymentOf, Proper;
    RemoveIsProper(w, DeploymentKey(svc), {DeploymentKey(svc)});
    if DeploymentOf(svc).Built? {
      ProperEnsure(w, DeployTask(svc, DeploymentOf(svc).value));
    }
  }

  lemma {:induction false} IngressIsProper(w: World, svc: Service)
    requires WellFormed(w)
    ensures AllNew(w, ReconcileIngress(w, svc).0, Proper({IngressKey(svc)}))
  {
    hide Linked, RemoveIfPresent, RetryLoop, IngressOf, Proper;
    RemoveIsProper(w, IngressKey(svc), {IngressKey(svc)});
    if IngressOf(svc).Built? {
      ProperEnsure(w, IngressTask(svc, IngressOf(svc).value));
    }
  }

  lemma {:induction false} EnsureServicesIsProper(w: World, svc: Service, built: seq<BuiltNet>, scope: set<Key>)
    requires WellFormed(w) && forall i :: 0 <= i < |built| ==> NetKey(svc, built[i].name) in scope
    ensures AllNew(w, EnsureServices(w, svc, built).0, Proper(scope))
    decreases |built|
  {
    hide Linked, RetryLoop, Proper;
    if built != [] {
      var t := NetTask(svc, built[0]);
      var (w1, end) := Ensure(w, t);
      ProperEnsure(w, t);
      ProperWidens(w, w1, {KeyOf(t)}, scope);
      if end.UpToDate? || end.Updated? {
        EnsureServicesIsProper(w1, svc, built[1..], scope);
        AllNewTransitive(w, w1, EnsureServices(w, svc, built).0, Proper(scope));
      }
    }
  }

  lemma {:induction false} RemoveServicesIsProper(w: World, svc: Service, names: seq<string>, keep: set<string>,
      scope: set<Key>)
    requires forall i :: 0 <= i < |names| && names[i] !in keep ==> NetKey(svc, names[i]) in scope
    ensures AllNew(w, RemoveServices(w, svc, names, keep).0, Proper(scope))
    decreases |names|
  {
    hide Linked, RemoveIfPresent, Proper;
    if names != [] {
      if names[0] in keep {
        RemoveServicesIsProper(w, svc, names[1..], keep, scope);
      } else {
        var (w1, o) := RemoveIfPresent(w, NetKey(svc, names[0]));
        RemoveIsProper(w, NetKey(svc, names[0]), scope);
        if o.Ok? {
          RemoveServicesIsProper(w1, svc, names[1..], keep, scope);
          AllNewTransitive(w, w1, RemoveServices(w, svc, names, keep).0, Proper(scope));
        }
      }
    }
  }

  /** Reconciling the core Services touches these two names and nothing else. */
  lemma {:induction false} ServicesAreProperRequests(w: World, svc: Service)
    requires WellFormed(w)
    ensures AllNew(w, ReconcileServices(w, svc).0, Proper(NetScope(svc)))
  {
    hide Linked, EnsureServices, RemoveServices, ServicesOf, Proper;
    var scope := NetScope(svc);
    ServicesAreProper(svc);
    match ServicesOf(svc) {
      case None => RemoveServicesIsProper(w, svc, ServiceNames(svc), {}, scope);
      case Some(built) =>
        var (w1, o) := EnsureServices(w, svc, built);
        EnsureServicesIsProper(w, svc, built, scope);
        if o.Ok? {
          RemoveServicesIsProper(w1, svc, ServiceNames(svc), NamesOf(built), scope);
          AllNewTransitive(w, w1, ReconcileServices(w, svc).0, Proper(scope));
        }
    }
  }

  lemma {:induction false} GenericIsProper(w: World, svc: Service)
    requires WellFormed(w)
    ensures AllNew(w, ReconcileGeneric(w, svc).0, Proper(GenericScope(svc)))
  {
    hide Linked, ReconcileDeployment, ReconcileServices, ReconcileIngress, Proper;
    var p := Proper(GenericScope(svc));
    var (w1, o1) := ReconcileDeployment(w, svc);
    DeploymentIsProper(w, svc);
    ProperWidens(w, w1, {DeploymentKey(svc)}, GenericScope(svc));
    if o1.Ok? {
      var (w2, o2) := ReconcileServices(w1, svc);
      ServicesAreProperRequests(w1, svc);
      ProperWidens(w1, w2, NetScope(svc), GenericScope(svc));
      AllNewTransitive(w, w1, w2, p);
      if o2.Ok? {
        IngressIsProper(w2, svc);
        ProperWidens(w2, ReconcileGeneric(w, svc).0, {IngressKey(svc)}, GenericScope(svc));
        AllNewTransitive(w, w2, ReconcileGeneric(w, svc).0, p);
      }
    }
  }

  /** The keys that a pass may write for its children. */
  function ChildScope(w: World, svc: Service): set<Key> {
    if svc.spec.serviceType == DATABASE then DatabaseScope(w, svc) else GenericScope(svc)
  }

  lemma {:induction false} ChildrenAreProper(w: World, svc: Service)
    requires WellFormed(w)
    ensures AllNew(w, ReconcileChildren(w, svc).0, Proper(ChildScope(w, svc)))
  {
    hide Linked, ReconcileDatabase, ReconcileGeneric, Proper, DatabaseScope, GenericScope;
    if svc.spec.serviceType == DATABASE {
      DatabaseIsProper(w, svc);
    } else {
      GenericIsProper(w, svc);
    }
  }

  lemma {:induction false} DeleteAllIsProper(w: World, ks: seq<Key>, scope: set<Key>)
    requires forall i :: 0 <= i < |ks| ==> ks[i] in scope && IsDeletable(ks[i].kind)
    ensures AllNew(w, DeleteAll(w, ks).0, Proper(scope))
    decreases |ks|
  {
    hide Linked, DeleteIfPresent, Proper;
    if ks != [] {
      var (w1, o) := DeleteIfPresent(w, ks[0]);
      assert AllNew(w, w1, Proper(scope)) by { DeleteIsProper(w, ks[0], scope); }
      if o.Ok? {
        DeleteAllIsProper(w1, ks[1..], scope);
        AllNewTransitive(w, w1, DeleteAll(w, ks).0, Proper(scope));
      }
    }
  }

  lemma DeleteIsProper(w: World, k: Key, scope: set<Key>)
    requires k in scope && IsDeletable(k.kind)
    ensures AllNew(w, DeleteIfPresent(w, k).0, Proper(scope))
  {
    hide Linked, Call, Awaited, Proper;
    ProperDelete(w, k, scope);
  }

  // ----- Deleting the children -----

  /** Requests that do nothing but delete. */
  ghost predicate IsDeletion(e: Event) {
    if e.who.Some? then e.op.Delete? && DeleteEffect(e, e.op.key) else Foreign(e)
  }

  lemma ForeignIsDeletion()
    ensures forall e :: Foreign(e) ==> IsDeletion(e)
  {}

  lemma DeleteIsDeletion(w: World, k: Key)
    ensures AllNew(w, Call(w, Delete(k)).0, IsDeletion)
  {
    CallEffect(w, Delete(k));
    ForeignIsDeletion();
    hide Call, Awaited, Linked, Foreign;
    CallIs(w, Delete(k), IsDeletion);
  }

  lemma {:induction false} DeleteAllIsDeletion(w: World, ks: seq<Key>)
    ensures AllNew(w, DeleteAll(w, ks).0, IsDeletion)
    decreases |ks|
  {
    hide Linked, Call, Awaited, IsDeletion;
    if ks != [] {
      var (w1, o) := DeleteIfPresent(w, ks[0]);
      DeleteIsDeletion(w, ks[0]);
      if o.Ok? {
        DeleteAllIsDeletion(w1, ks[1..]);
        AllNewTransitive(w, w1, DeleteAll(w, ks).0, IsDeletion);
      }
    }
  }

  // ----- The status -----

  /**
   The status says that the service is ready, and lists an https address for every host of a public
   service, in order; otherwise it lists none.
   */
  predicate Publishes(status: ServiceStatus, spec: ServiceSpec) {
    var config := spec.config;
    && status.deploymentStatus == "Ready"
    && |status.urls| == (if config.public then |config.hosts| else 0)
    && forall i :: 0 <= i < |status.urls| ==> status.urls[i] == "https://" + config.hosts[i].host
  }

  lemma StatusPublishes(spec: ServiceSpec, status: ServiceStatus)
    ensures Publishes(status, spec) <==> status == DesiredStatus(spec)
  {
    if Publishes(status, spec) {
      assert status.urls == StatusUrls(spec.config);
    }
  }

  // ----- The whole pass -----

  /** The world after the read that a pass begins with, and what it delivered. */
  function ReadFirst(w: World): (World, Reply) {
    Call(w, Get(w.actor))
  }

  /** The children that a pass may touch, given the resource it has read. */
  function PassScope(w: World, stored: Stored): set<Key>
    requires stored.obj.body.CustomBody?
  {
    var svc := ServiceOf(w.actor, stored);
    ChildScope(w, svc) + (set k | k in BaseChildren(svc))
  }

  /**
   A write of the custom resource itself: over the very version the pass has read, of its finalizer or
   of its status.
   */
  ghost predicate OwnWrite(actor: Key, stored: Stored, e: Event) {
    && (e.op.Update? || e.op.UpdateStatus?) && e.op.key == actor && stored.obj.body.CustomBody?
    && (e.reply.Failed? ==> e.after == e.before)
    && (e.reply.Got? ==>
          && actor in e.before && e.before[actor] == stored
          && (e.after == e.before[actor := e.reply.stored] || e.after == e.before - {actor})
          && e.reply.stored.maker == stored.maker
          && (|| e.reply.stored.obj == stored.obj.(finalizers := stored.obj.finalizers + {FINALIZER})
              || e.reply.stored.obj == stored.obj.(finalizers := stored.obj.finalizers - {FINALIZER})
              || e.reply.stored.obj ==
                    stored.obj.(body := stored.obj.body.(status := DesiredStatus(stored.obj.body.spec)))))
  }

  ghost function OwnWrites(actor: Key, stored: Stored): Event -> bool {
    (e: Event) => if e.who.Some? then OwnWrite(actor, stored, e) else Foreign(e)
  }

  /** What a pass for `actor` asks for once it has read `stored`. */
  ghost function PassRequests(actor: Key, stored: Stored, scope: set<Key>): Event -> bool {
    (e: Event) => if e.who.Some? then Standard(scope, e) || OwnWrite(actor, stored, e) else Foreign(e)
  }

  lemma ForeignAmongOwnWrites(actor: Key, stored: Stored)
    ensures forall e :: Foreign(e) ==> OwnWrites(actor, stored)(e)
  {}

  lemma FinalizerWriteIsOwn(w: World, stored: Stored, finalizers: set<string>)
    requires WellFormed(w) && Pinned(w, w.actor, stored) && stored.obj.body.CustomBody?
    requires finalizers == stored.obj.finalizers + {FINALIZER} || finalizers == stored.obj.finalizers - {FINALIZER}
    ensures AllNew(w, Call(w, Update(w.actor, WithFinalizers(stored.obj, finalizers), Some(stored.version))).0,
        OwnWrites(w.actor, stored))
  {
    hide Call, Awaited, Linked, Foreign, DesiredStatus, Pinned;
    FinalizersReplacePinned(w, w.actor, finalizers, stored);
    ForeignAmongOwnWrites(w.actor, stored);
    CallIs(w, Update(w.actor, WithFinalizers(stored.obj, finalizers), Some(stored.version)),
        OwnWrites(w.actor, stored));
  }

  lemma StatusWriteIsOwn(w: World, stored: Stored)
    requires WellFormed(w) && Pinned(w, w.actor, stored) && stored.obj.body.CustomBody?
    ensures AllNew(w, Call(w, UpdateStatus(w.actor, DesiredStatus(stored.obj.body.spec), Some(stored.version))).0,
        OwnWrites(w.actor, stored))
  {
    hide Call, Awaited, Linked, Foreign, DesiredStatus, Pinned;
    var status := DesiredStatus(stored.obj.body.spec);
    var op := UpdateStatus(w.actor, status, Some(stored.version));
    FailureIsQuiet(w, op);
    StatusReplacesPinned(w, w.actor, status, stored);
    ForeignAmongOwnWrites(w.actor, stored);
    CallIs(w, op, OwnWrites(w.actor, stored));
  }

  lemma RequestsAmongPass(a: World, b: World, actor: Key, stored: Stored, small: set<Key>, scope: set<Key>)
    requires small <= scope
    requires AllNew(a, b, Proper(small)) || AllNew(a, b, OwnWrites(actor, stored))
    ensures AllNew(a, b, PassRequests(actor, stored, scope))
  {
    if AllNew(a, b, Proper(small)) {
      ProperWidens(a, b, small, scope);
    }
    hide Standard, OwnWrite, Foreign;
    forall i | |a.log| <= i < |b.log|
      ensures PassRequests(actor, stored, scope)(b.log[i])
    {
      assert Proper(scope)(b.log[i]) || OwnWrites(actor, stored)(b.log[i]);
    }
  }

  lemma {:induction false} ReleaseRequests(w: World, stored: Stored)
    requires WellFormed(w) && Pinned(w, w.actor, stored) && stored.obj.body.CustomBody?
    ensures AllNew(w, ReleaseService(w, stored).0, PassRequests(w.actor, stored, PassScope(w, stored)))
  {
    hide Linked, Call, DeleteAll, Proper, OwnWrites, PassRequests, Pinned, ChildScope;
    var svc := ServiceOf(w.actor, stored);
    var small := set k | k in BaseChildren(svc);
    var (w1, o) := FinalizeService(w, svc);
    DeleteAllIsProper(w, BaseChildren(svc), small);
    RequestsAmongPass(w, w1, w.actor, stored, small, PassScope(w, stored));
    if o.Ok? {
      var w' := ReleaseService(w, stored).0;
      PinnedStays(w, w1, w.actor, stored);
      FinalizerWriteIsOwn(w1, stored, stored.obj.finalizers - {FINALIZER});
      RequestsAmongPass(w1, w', w.actor, stored, {}, PassScope(w, stored));
      AllNewTransitive(w, w1, w', PassRequests(w.actor, stored, PassScope(w, stored)));
    }
  }

  lemma {:induction false} LiveRequests(w: World, stored: Stored)
    requires WellFormed(w) && Pinned(w, w.actor, stored) && stored.obj.body.CustomBody?
    ensures AllNew(w, ReconcileLive(w, stored).0, PassRequests(w.actor, stored, PassScope(w, stored)))
  {
    hide Linked, Call, ReconcileChildren, Proper, OwnWrites, PassRequests, Pinned, ChildScope, DesiredStatus;
    var svc := ServiceOf(w.actor, stored);
    var (w1, o) := ReconcileChildren(w, svc);
    ChildrenAreProper(w, svc);
    RequestsAmongPass(w, w1, w.actor, stored, ChildScope(w, svc), PassScope(w, stored));
    var w' := ReconcileLive(w, stored).0;
    if o.Ok? && w' != w1 {
      PinnedStays(w, w1, w.actor, stored);
      StatusWriteIsOwn(w1, stored);
      RequestsAmongPass(w1, w', w.actor, stored, {}, PassScope(w, stored));
      AllNewTransitive(w, w1, w', PassRequests(w.actor, stored, PassScope(w, stored)));
    }
  }

  /**
   Everything a pass asks for after its read, under any interference: disciplined requests for its own
   children, and writes of its own resource over the very version it has read.
   */
  lemma {:induction false} ReadRequests(w: World, stored: Stored)
    requires WellFormed(w) && Pinned(w, w.actor, stored) && stored.obj.body.CustomBody?
    ensures AllNew(w, ReconcileRead(w, stored).0, PassRequests(w.actor, stored, PassScope(w, stored)))
  {
    hide Linked, Call, ReconcileLive, ReleaseService, OwnWrites, PassRequests, Pinned, PassScope;
    if stored.obj.deleting {
      if FINALIZER in stored.obj.finalizers {
        ReleaseRequests(w, stored);
      }
    } else if FINALIZER !in stored.obj.finalizers {
      FinalizerWriteIsOwn(w, stored, stored.obj.finalizers + {FINALIZER});
      RequestsAmongPass(w, AddFinalizer(w, stored).0, w.actor, stored, {}, PassScope(w, stored));
    } else {
      LiveRequests(w, stored);
    }
  }
}
