/**
 What every write of a core Service stores, over passes and runs: the node ports that the spec of the
 pass declares, and the reference to the custom resource, which is what removes a NodePort Service that
 finalizing leaves behind.
 */
module ServiceWrites {
  import opened Text
  import opened Types
  import opened Builders
  import opened Cluster
  import opened ClusterLaws
  import opened Retry
  import opened RetryLaws
  import opened Secrets
  import opened Credentials
  import opened Trace
  import opened Runtime
  import opened RuntimeLaws
  import opened Reconciler
  import opened PassLaws
  import opened ServiceExactness
  import opened Runs

  /** The object has every node port that the built Service declares. */
  predicate HasExplicitPorts(b: BuiltNet, obj: Object) {
    && obj.body.NetBody? && |obj.body.net.ports| == |b.net.ports|
    && forall i :: 0 <= i < |b.net.ports| && b.net.ports[i].nodePort != 0 ==> obj.body.net.ports[i] == b.net.ports[i]
  }

  /** A creation or update of a core Service by the controller that took effect. */
  predicate IsServiceWrite(e: Event) {
    e.who.Some? && (e.op.Create? || e.op.Update?) && e.op.key.kind == NetKind && e.reply.Got?
  }

  ghost predicate StoresBuilt(svc: Service, b: BuiltNet, e: Event) {
    var k := e.op.key;
    && NetKey(svc, b.name) == k && k in e.after
    && HasExplicitPorts(b, e.after[k].obj)
    && e.after[k].obj.controller == Some(OwnerOf(svc))
    && (k in e.before ==> MayOwn(svc, e.before[k].obj.controller))
  }

  /**
   Every effective write of a core Service is one of a Service built from this spec: it stores each
   declared node port and the controller reference, and takes the Service from no other controller.
   */
  ghost predicate Honours(svc: Service, e: Event) {
    IsServiceWrite(e) ==> exists b :: b in BuiltNets(svc) && StoresBuilt(svc, b, e)
  }

  ghost function Honouring(svc: Service): Event -> bool {
    (e: Event) => Honours(svc, e)
  }

  predicate NoServiceWrite(e: Event) {
    !IsServiceWrite(e)
  }

  // ----- One call -----

  lemma DisciplinedStoresBuilt(defaults: Defaults, svc: Service, b: BuiltNet, e: Event)
    requires Disciplined(defaults, NetTask(svc, b), e) && IsServiceWrite(e)
    ensures StoresBuilt(svc, b, e)
  {}

  lemma IntendedHonours(defaults: Defaults, svc: Service, e: Event)
    requires Intended(defaults, svc, e)
    ensures Honours(svc, e)
  {
    hide Disciplined, BuiltNets, StoresBuilt;
    if IsServiceWrite(e) {
      var b :| b in BuiltNets(svc) && Disciplined(defaults, NetTask(svc, b), e);
      DisciplinedStoresBuilt(defaults, svc, b, e);
    }
  }

  /** Whatever others do during the call, every effective write of reconcileServices honours the spec. */
  lemma {:induction false} ServicesHonour(w: World, svc: Service)
    requires WellFormed(w)
    ensures AllNew(w, ReconcileServices(w, svc).0, Honouring(svc))
  {
    ServicesAreIntended(w, svc);
    hide ReconcileServices, Intended, Honours, Foreign;
    var w' := ReconcileServices(w, svc).0;
    forall i | |w.log| <= i < |w'.log|
      ensures Honours(svc, w'.log[i])
    {
      assert Intention(w.setting.defaults, svc)(w'.log[i]);
      if w'.log[i].who.Some? {
        IntendedHonours(w.setting.defaults, svc, w'.log[i]);
      } else {
        NoWriteHonours(svc, w'.log[i]);
      }
    }
  }

  lemma NoWriteHonours(svc: Service, e: Event)
    requires NoServiceWrite(e)
    ensures Honours(svc, e)
  {}

  // ----- Requests that write no Service -----

  lemma QuietHonours(a: World, b: World, svc: Service)
    requires AllNew(a, b, NoServiceWrite)
    ensures AllNew(a, b, Honouring(svc))
  {
    hide IsServiceWrite, Honours;
    forall i | |a.log| <= i < |b.log|
      ensures Honours(svc, b.log[i])
    {
      assert NoServiceWrite(b.log[i]);
      NoWriteHonours(svc, b.log[i]);
    }
  }

  lemma RequestsElsewhere(a: World, b: World, scope: set<Key>)
    requires AllNew(a, b, Proper(scope)) && forall k :: k in scope ==> k.kind != NetKind
    ensures AllNew(a, b, NoServiceWrite)
  {
    hide Foreign, CreateEffect, UpdateEffect, DeleteEffect;
    forall i | |a.log| <= i < |b.log|
      ensures NoServiceWrite(b.log[i])
    {
      assert Proper(scope)(b.log[i]);
    }
  }

  lemma OwnWritesAreNone(a: World, b: World, actor: Key, stored: Stored)
    requires AllNew(a, b, OwnWrites(actor, stored)) && actor.kind == CustomResource
    ensures AllNew(a, b, NoServiceWrite)
  {
    hide Foreign, DesiredStatus;
    forall i | |a.log| <= i < |b.log|
      ensures NoServiceWrite(b.log[i])
    {
      assert OwnWrites(actor, stored)(b.log[i]);
    }
  }

  lemma DeletionsAreNone(a: World, b: World)
    requires AllNew(a, b, IsDeletion)
    ensures AllNew(a, b, NoServiceWrite)
  {
    hide Foreign, DeleteEffect;
    forall i | |a.log| <= i < |b.log|
      ensures NoServiceWrite(b.log[i])
    {
      assert IsDeletion(b.log[i]);
    }
  }

  // ----- The children -----

  lemma GenericHonours(w: World, svc: Service)
    requires WellFormed(w)
    ensures AllNew(w, ReconcileGeneric(w, svc).0, Honouring(svc))
  {
    hide Linked, ReconcileDeployment, ReconcileServices, ReconcileIngress, Proper, Honouring;
    var p, w' := Honouring(svc), ReconcileGeneric(w, svc).0;
    var (w1, o1) := ReconcileDeployment(w, svc);
    DeploymentIsProper(w, svc);
    RequestsElsewhere(w, w1, {DeploymentKey(svc)});
    QuietHonours(w, w1, svc);
    if o1.Ok? {
      var (w2, o2) := ReconcileServices(w1, svc);
      ServicesHonour(w1, svc);
      AllNewTransitive(w, w1, w2, p);
      if o2.Ok? {
        IngressIsProper(w2, svc);
        RequestsElsewhere(w2, w', {IngressKey(svc)});
        QuietHonours(w2, w', svc);
        AllNewTransitive(w, w2, w', p);
      }
    }
  }

  lemma ChildrenHonour(w: World, svc: Service)
    requires WellFormed(w)
    ensures AllNew(w, ReconcileChildren(w, svc).0, Honouring(svc))
  {
    hide Linked, ReconcileDatabase, ReconcileGeneric, Proper, Honouring;
    if svc.spec.serviceType == DATABASE {
      DatabaseIsProper(w, svc);
      RequestsElsewhere(w, ReconcileChildren(w, svc).0, DatabaseScope(w, svc));
      QuietHonours(w, ReconcileChildren(w, svc).0, svc);
    } else {
      GenericHonours(w, svc);
    }
  }

  // ----- Passes -----

  lemma ReleaseHonours(w: World, stored: Stored)
    requires WellFormed(w) && Pinned(w, w.actor, stored) && stored.obj.body.CustomBody?
    requires w.actor.kind == CustomResource
    ensures AllNew(w, ReleaseService(w, stored).0, NoServiceWrite)
  {
    hide Linked, Call, DeleteAll, IsDeletion, OwnWrites, Pinned, NoServiceWrite;
    var svc := ServiceOf(w.actor, stored);
    var (w1, o) := FinalizeService(w, svc);
    DeleteAllIsDeletion(w, BaseChildren(svc));
    DeletionsAreNone(w, w1);
    if o.Ok? {
      var w' := ReleaseService(w, stored).0;
      PinnedStays(w, w1, w.actor, stored);
      FinalizerWriteIsOwn(w1, stored, stored.obj.finalizers - {FINALIZER});
      OwnWritesAreNone(w1, w', w.actor, stored);
      AllNewTransitive(w, w1, w', NoServiceWrite);
    }
  }

  lemma LiveHonours(w: World, stored: Stored)
    requires WellFormed(w) && Pinned(w, w.actor, stored) && stored.obj.body.CustomBody?
    requires w.actor.kind == CustomResource
    ensures AllNew(w, ReconcileLive(w, stored).0, Honouring(ServiceOf(w.actor, stored)))
  {
    hide Linked, Call, ReconcileChildren, OwnWrites, Pinned, Honouring, DesiredStatus;
    var svc := ServiceOf(w.actor, stored);
    var (w1, o) := ReconcileChildren(w, svc);
    var w' := ReconcileLive(w, stored).0;
    ChildrenHonour(w, svc);
    if o.Ok? && w' != w1 {
      PinnedStays(w, w1, w.actor, stored);
      StatusWriteIsOwn(w1, stored);
      OwnWritesAreNone(w1, w', w.actor, stored);
      QuietHonours(w1, w', svc);
      AllNewTransitive(w, w1, w', Honouring(svc));
    }
  }

  lemma ReadHonours(w: World, stored: Stored)
    requires WellFormed(w) && Pinned(w, w.actor, stored) && stored.obj.body.CustomBody?
    requires w.actor.kind == CustomResource
    ensures AllNew(w, ReconcileRead(w, stored).0, Honouring(ServiceOf(w.actor, stored)))
  {
    hide Linked, Call, ReconcileLive, ReleaseService, OwnWrites, Pinned, Honouring, NoServiceWrite;
    var svc, w' := ServiceOf(w.actor, stored), ReconcileRead(w, stored).0;
    if stored.obj.deleting {
      if FINALIZER in stored.obj.finalizers {
        ReleaseHonours(w, stored);
        QuietHonours(w, w', svc);
      }
    } else if FINALIZER !in stored.obj.finalizers {
      FinalizerWriteIsOwn(w, stored, stored.obj.finalizers + {FINALIZER});
      OwnWritesAreNone(w, w', w.actor, stored);
      QuietHonours(w, w', svc);
    } else {
      LiveHonours(w, stored);
    }
  }

  /** The spec of a pass is the one it has read first; without one it writes no Service. */
  ghost predicate PassHonours(w: World, e: Event) {
    var read := ReadFirst(w).1;
    if read.Got? && read.stored.obj.body.CustomBody? then Honours(ServiceOf(w.actor, read.stored), e)
        else NoServiceWrite(e)
  }

  ghost function PassHonouring(w: World): Event -> bool {
    (e: Event) => PassHonours(w, e)
  }

  lemma {:induction false} PassIsHonouring(w: World)
    requires WellFormed(w) && w.actor.kind == CustomResource
    ensures AllNew(w, Reconcile(w).0, PassHonouring(w))
  {
    hide Linked, Call, ReconcileRead, Proper, Pinned, Honours, IsServiceWrite;
    var (w1, read) := ReadFirst(w);
    var w' := Reconcile(w).0;
    GetPins(w, w.actor);
    ProperRead(w, w.actor, {});
    RequestsElsewhere(w, w1, {});
    if read.Got? && read.stored.obj.body.CustomBody? {
      var svc := ServiceOf(w.actor, read.stored);
      QuietHonours(w, w1, svc);
      ReadHonours(w1, read.stored);
      AllNewTransitive(w, w1, w', Honouring(svc));
      forall i | |w.log| <= i < |w'.log|
        ensures PassHonours(w, w'.log[i])
      {
        assert Honouring(svc)(w'.log[i]);
      }
    } else {
      assert forall i :: |w.log| <= i < |w'.log| ==> NoServiceWrite(w'.log[i]);
    }
  }

  // ----- Runs -----

  /** Every pass of the run honours the spec that it reads. */
  ghost predicate RunHonours(w: World, cs: seq<Key>)
    decreases |cs|
  {
    cs != [] ==>
      && AllNew(w.(actor := cs[0]), Pass(w, cs[0]), PassHonouring(w.(actor := cs[0])))
      && RunHonours(Pass(w, cs[0]), cs[1..])
  }

  /**
   Over any run, under any interference and any faults: what takes effect under the key of a core Service
   stores every node port that the spec of that pass declares, whatever was there before.
   */
  lemma {:induction false} ExplicitPortWins(w: World, cs: seq<Key>)
    requires WellFormed(w) && forall i :: 0 <= i < |cs| ==> cs[i].kind == CustomResource
    ensures RunHonours(w, cs)
    decreases |cs|
  {
    hide Linked, Reconcile, PassHonouring;
    if cs != [] {
      PassIsHonouring(w.(actor := cs[0]));
      ExplicitPortWins(Pass(w, cs[0]), cs[1..]);
    }
  }

  // ----- The controller reference -----

  /** If the controller made it, it carries the reference to the resource it was made for. */
  ghost function CarriesReference(k: Key): Store -> bool {
    (s: Store) => k in s && s[k].maker.Some? ==>
      && s[k].obj.controller.Some? && s[k].obj.controller.value.kind == OWNER_KIND
      && s[k].obj.controller.value.name == s[k].maker.value.name
  }

  lemma StandardKeepsReference(scope: set<Key>, e: Event, svc: Service, k: Key)
    requires Standard(scope, e) && Honours(svc, e) && e.who.Some? && e.who.value.name == svc.name && k.kind == NetKind
    ensures Preserves(CarriesReference(k))(e)
  {
    hide Improves, Consistent, KeepsAddress, HasExplicitPorts, BuiltNets;
  }

  lemma PassKeepsReference(w: World, k: Key)
    requires WellFormed(w) && w.actor.kind == CustomResource && k.kind == NetKind
    requires AllNew(w, Reconcile(w).0, Spared(k))
    ensures AllNew(w, Reconcile(w).0, Preserves(CarriesReference(k)))
  {
    hide Call, Awaited, Pinned, ReconcileRead, Standard, OwnWrite, Foreign, PassScope, Honours, IsServiceWrite,
      CarriesReference;
    var (w1, read) := ReadFirst(w);
    var w' := Reconcile(w).0;
    GetPins(w, w.actor);
    ProperRead(w, w.actor, {});
    PassIsHonouring(w);
    if read.Got? && read.stored.obj.body.CustomBody? {
      ReadRequests(w1, read.stored);
    }
    forall i | |w.log| <= i < |w'.log|
      ensures Preserves(CarriesReference(k))(w'.log[i])
    {
      var e := w'.log[i];
      assert Spared(k)(e) && PassHonouring(w)(e);
      if e.who.None? {
        SameKeepsReference(e, k);
      } else if i < |w1.log| {
        assert Proper({})(w1.log[i]) && w1.log[i] == e;
        ReadKeepsReference(e, k);
      } else {
        var scope := PassScope(w1, read.stored);
        assert PassRequests(w.actor, read.stored, scope)(e);
        if Standard(scope, e) {
          StandardKeepsReference(scope, e, ServiceOf(w.actor, read.stored), k);
        } else {
          OwnWriteElsewhere(w.actor, read.stored, e, k);
          SameKeepsReference(e, k);
        }
      }
    }
  }

  lemma SameKeepsReference(e: Event, k: Key)
    requires SameAt(k, e.before, e.after)
    ensures Preserves(CarriesReference(k))(e)
  {}

  lemma ReadKeepsReference(e: Event, k: Key)
    requires Standard({}, e)
    ensures Preserves(CarriesReference(k))(e)
  {}

  /**
   Over any run, a core Service that the controller made, in particular the NodePort Service that
   finalizing leaves behind, carries the reference to its custom resource, while others leave it alone.
   */
  lemma {:induction false} ReferenceIsKept(w: World, cs: seq<Key>, k: Key)
    requires WellFormed(w) && CarriesReference(k)(w.store)
    requires k.kind == NetKind && forall i :: 0 <= i < |cs| ==> cs[i].kind == CustomResource
    requires AllNew(w, Run(w, cs), Spared(k))
    ensures AllNew(w, Run(w, cs), Around(CarriesReference(k))) && CarriesReference(k)(Run(w, cs).store)
    decreases |cs|
  {
    hide Linked, Reconcile, Spared, CarriesReference;
    if cs != [] {
      var w0, w1, w' := w.(actor := cs[0]), Pass(w, cs[0]), Run(w, cs);
      assert forall i :: |w.log| <= i < |w1.log| ==> w1.log[i] == w'.log[i];
      assert AllNew(w0, w1, Spared(k));
      PassKeepsReference(w0, k);
      Preserved(w0, w1, CarriesReference(k));
      ReferenceIsKept(w1, cs[1..], k);
    }
  }
}
