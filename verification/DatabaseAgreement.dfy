/**
 The agreement of target and source over whole database passes and runs: in every state of every run,
 wherever calls fail, a latched MongoDB or ClickHouse target holds the password of its source.
 */
module DatabaseAgreement {
  import opened Text
  import opened Types
  import opened Trees
  import opened Cluster
  import opened ClusterLaws
  import opened Retry
  import opened Secrets
  import opened Trace
  import opened Operator
  import opened Runtime
  import opened RuntimeLaws
  import opened Reconciler
  import opened PassLaws
  import opened ServiceExactness
  import opened Runs
  import opened CredentialAgreement

  /** No rendered resource brings credentials of another flavour to the same target. */
  ghost predicate OnlyCopies(f: Flavor, xs: seq<Rendered>) {
    forall i :: 0 <= i < |xs| && xs[i].RenderedManaged? && HasCredentials(xs[i].crd) ==> FlavorOf(xs[i].crd) == f
  }

  /** Both secrets as they matter here: they agree, and the source is complete. */
  ghost predicate InOrder(w: World, f: Flavor, svc: Service) {
    Agreement(f, svc)(w.store) && SourceHasBoth(w, f, svc)
  }

  /** The state of the secrets is carried from `a` to `b`, through every event between them. */
  ghost predicate CarriesOrder(a: World, b: World, f: Flavor, svc: Service) {
    AllNew(a, b, Around(Agreement(f, svc))) && InOrder(b, f, svc)
  }

  lemma CarriesTransitive(a: World, b: World, c: World, f: Flavor, svc: Service)
    requires Extends(a, b) && Extends(b, c) && CarriesOrder(a, b, f, svc) && CarriesOrder(b, c, f, svc)
    ensures CarriesOrder(a, c, f, svc)
  {
    hide Linked, Around, Agreement, InOrder;
    AllNewTransitive(a, b, c, Around(Agreement(f, svc)));
  }

  lemma ElsewhereCarries(a: World, b: World, scope: set<Key>, f: Flavor, svc: Service)
    requires Extends(a, b) && AllNew(a, b, Proper(scope)) && AllNew(a, b, BothSpared(f, svc)) && InOrder(a, f, svc)
    requires TargetKey(svc) !in scope && GeneratedKey(f, svc) !in scope && IsGenerated(f)
    ensures CarriesOrder(a, b, f, svc)
  {
    hide Linked, Proper, Around, BothSpared, SecretsAgree, TargetKey, SourceName;
    var source := Readable(a.store[GeneratedKey(f, svc)]);
    assert AgreementWith(f, svc, source)(a.store);
    ElsewhereAgrees(a, b, scope, f, svc, source);
    WithoutSource(a, b, f, svc, source);
    assert AgreementWith(f, svc, source)(b.store);
  }

  // ----- One rendered object -----

  lemma CopyCarries(w: World, f: Flavor, svc: Service, crd: Crd, k: Key)
    requires WellFormed(w) && IsGenerated(f) && TargetKey(svc) != GeneratedKey(f, svc)
    requires HasCredentials(crd) && FlavorOf(crd) == f
    requires InOrder(w, f, svc) && AllNew(w, CopyAfterwards(w, svc, crd, k).0, BothSpared(f, svc))
    ensures CarriesOrder(w, CopyAfterwards(w, svc, crd, k).0, f, svc)
  {
    hide Linked, Call, CopyCredentials, Proper, BothSpared, Around, Agreement, SourceHasBoth;
    var w' := CopyAfterwards(w, svc, crd, k).0;
    if svc.spec.kubernetesSecret != "" {
      var (w1, read) := Call(w, Get(k));
      ExtendsReflexive(w1);
      BothSparedWithin(w, w1, w', f, svc);
      ProperRead(w, k, {});
      ElsewhereCarries(w, w1, {}, f, svc);
      if read.Got? {
        CopyAgrees(w1, f, svc);
        CarriesTransitive(w, w1, w', f, svc);
      }
    }
  }

  lemma ClusterCarries(w: World, f: Flavor, svc: Service, crd: Crd, namespace: string, name: string, spec: Json)
    requires WellFormed(w) && IsGenerated(f) && TargetKey(svc) != GeneratedKey(f, svc)
    requires HasCredentials(crd) && FlavorOf(crd) == f && InOrder(w, f, svc)
    requires AllNew(w, ReconcileCluster(w, svc, crd, namespace, name, spec).0, BothSpared(f, svc))
    ensures CarriesOrder(w, ReconcileCluster(w, svc, crd, namespace, name, spec).0, f, svc)
  {
    hide Linked, RetryLoop, CopyAfterwards, Proper, BothSpared, Around, Agreement, SourceHasBoth, DesiredSpec,
      HasCredentials;
    var w' := ReconcileCluster(w, svc, crd, namespace, name, spec).0;
    if namespace == svc.namespace {
      var t := ManagedTask(svc, crd, namespace, name, DesiredSpec(crd, spec));
      var (w1, end) := Ensure(w, t);
      ExtendsReflexive(w1);
      BothSparedWithin(w, w1, w', f, svc);
      ProperEnsure(w, t);
      ElsewhereCarries(w, w1, {KeyOf(t)}, f, svc);
      if end.UpToDate? || end.Updated? {
        CopyCarries(w1, f, svc, crd, KeyOf(t));
        CarriesTransitive(w, w1, w', f, svc);
      }
    }
  }

  lemma RenderedCarries(w: World, f: Flavor, svc: Service, x: Rendered)
    requires WellFormed(w) && IsGenerated(f) && TargetKey(svc) != GeneratedKey(f, svc)
    requires x.RenderedManaged? && HasCredentials(x.crd) ==> FlavorOf(x.crd) == f
    requires InOrder(w, f, svc) && AllNew(w, ReconcileRendered(w, svc, x).0, BothSpared(f, svc))
    ensures CarriesOrder(w, ReconcileRendered(w, svc, x).0, f, svc)
  {
    hide Linked, ReconcileJob, ReconcileCluster, ReconcileSimple, ReconcileUntyped, Proper, BothSpared, Around,
      Agreement, SourceHasBoth, HasCredentials, FlavorOf;
    var w', scope := ReconcileRendered(w, svc, x).0, {RenderedKey(x)};
    match x {
      case RenderedJob(namespace, name, containers) =>
        JobIsProper(w, svc, namespace, name, containers, scope);
        ElsewhereCarries(w, w', scope, f, svc);
      case RenderedManaged(crd, namespace, name, spec) =>
        if HasCredentials(crd) {
          ClusterCarries(w, f, svc, crd, namespace, name, spec);
        } else {
          SimpleIsProper(w, svc, crd, namespace, name, spec, scope);
          ElsewhereCarries(w, w', scope, f, svc);
        }
      case RenderedUntyped(_, _, _, content) =>
        UntypedIsProper(w, svc, RenderedKey(x), content, scope);
        ElsewhereCarries(w, w', scope, f, svc);
    }
  }

  lemma {:induction false} ObjectsCarry(w: World, f: Flavor, svc: Service, xs: seq<Rendered>)
    requires WellFormed(w) && IsGenerated(f) && TargetKey(svc) != GeneratedKey(f, svc) && OnlyCopies(f, xs)
    requires InOrder(w, f, svc) && AllNew(w, ReconcileObjects(w, svc, xs).0, BothSpared(f, svc))
    ensures CarriesOrder(w, ReconcileObjects(w, svc, xs).0, f, svc)
    decreases |xs|
  {
    hide Linked, ReconcileRendered, BothSpared, Around, Agreement, SourceHasBoth, TargetKey, GeneratedKey,
      HasCredentials, FlavorOf;
    if xs != [] {
      var (w1, o) := ReconcileRendered(w, svc, xs[0]);
      var w' := ReconcileObjects(w, svc, xs).0;
      ExtendsReflexive(w1);
      BothSparedWithin(w, w1, w', f, svc);
      RenderedCarries(w, f, svc, xs[0]);
      if o.Ok? {
        ObjectsCarry(w1, f, svc, xs[1..]);
        CarriesTransitive(w, w1, w', f, svc);
      }
    }
  }

  // ----- The database pass -----

  function TypeOf(f: Flavor): string {
    if f.Mongo? then MONGODB_TYPE else CLICKHOUSE_TYPE
  }

  /** The service is a database of this flavour, and what it renders brings no other credentials. */
  ghost predicate IsDatabaseOf(w: World, f: Flavor, svc: Service) {
    && IsGenerated(f) && svc.spec.config.database.databaseType == TypeOf(f)
    && (w.setting.render(svc).Some? ==> OnlyCopies(f, w.setting.render(svc).value))
  }

  lemma OperatorAgrees(w: World, f: Flavor, svc: Service, databaseType: string)
    requires WellFormed(w) && IsGenerated(f) && TargetKey(svc) != GeneratedKey(f, svc) && Agreement(f, svc)(w.store)
    requires AllNew(w, EnsureOperator(w, databaseType).0, BothSpared(f, svc))
    ensures var w' := EnsureOperator(w, databaseType).0;
      AllNew(w, w', Around(Agreement(f, svc))) && Agreement(f, svc)(w'.store)
  {
    OperatorIsProper(w, databaseType);
    KeysAgree(w, EnsureOperator(w, databaseType).0, OperatorScope(databaseType, w.setting.podNamespace), f,
              TargetKey(svc), GeneratedKey(f, svc));
  }

  /** Requests for other objects keep the agreement, whatever the source holds. */
  lemma KeysAgree(a: World, b: World, scope: set<Key>, f: Flavor, target: Key, source: Key)
    requires Extends(a, b) && AllNew(a, b, Proper(scope)) && AllNew(a, b, SparedBoth(target, source))
    requires target !in scope && source !in scope && AgreementAt(f, target, source)(a.store)
    ensures AllNew(a, b, Around(AgreementAt(f, target, source))) && AgreementAt(f, target, source)(b.store)
  {
    hide Foreign, Linked, SecretsAgree, Standard;
    forall i | |a.log| <= i < |b.log|
      ensures Preserves(AgreementAt(f, target, source))(b.log[i])
    {
      var e := b.log[i];
      assert Proper(scope)(e) && SparedBoth(target, source)(e);
      if e.who.Some? {
        StandardStaysInScope(scope, e, target);
        StandardStaysInScope(scope, e, source);
      }
      SameKeysAgree(f, target, source, e);
    }
    Preserved(a, b, AgreementAt(f, target, source));
  }

  lemma SameKeysAgree(f: Flavor, target: Key, source: Key, e: Event)
    requires SameAt(target, e.before, e.after) && SameAt(source, e.before, e.after)
    ensures Preserves(AgreementAt(f, target, source))(e)
  {
    hide Agreed, Readable;
  }

  /** A database pass keeps the agreement in every state, wherever it fails. */
  lemma {:induction false} DatabaseAgrees(w: World, f: Flavor, svc: Service)
    requires WellFormed(w) && IsDatabaseOf(w, f, svc) && TargetKey(svc) != GeneratedKey(f, svc)
    requires Agreement(f, svc)(w.store) && AllNew(w, ReconcileDatabase(w, svc).0, BothSpared(f, svc))
    ensures var w' := ReconcileDatabase(w, svc).0;
      AllNew(w, w', Around(Agreement(f, svc))) && Agreement(f, svc)(w'.store)
  {
    hide Linked, EnsureOperator, EnsureSource, EnsureRedis, ReconcileObjects, BothSpared, Around, Agreement,
      SourceHasBoth, TargetKey, GeneratedKey, OnlyCopies;
    var p, w' := Around(Agreement(f, svc)), ReconcileDatabase(w, svc).0;
    var (w1, o1) := EnsureOperator(w, svc.spec.config.database.databaseType);
    if w.setting.podNamespace != "" {
      var (w2, o2) := EnsureSecrets(w1, svc);
      ExtendsReflexive(w1);
      ExtendsReflexive(w2);
      if o1.Ok? {
        ExtendsTransitive(w1, w2, w');
      }
      BothSparedWithin(w, w1, w', f, svc);
      OperatorAgrees(w, f, svc, svc.spec.config.database.databaseType);
      if o1.Ok? {
        BothSparedWithin(w1, w2, w', f, svc);
        assert (w2, o2) == EnsureSource(w1, f, svc);
        EnsureAgrees(w1, f, svc);
        AllNewTransitive(w, w1, w2, p);
        if o2.Ok? && w.setting.render(svc).Some? {
          ObjectsCarry(w2, f, svc, w.setting.render(svc).value);
          AllNewTransitive(w, w2, w', p);
        }
      }
    }
  }

  // ----- Passes -----

  /** The pass is one for the service that owns the two secrets, or it writes neither of them. */
  ghost predicate PassRespects(w: World, f: Flavor, target: Key, source: Key) {
    var (w1, read) := ReadFirst(w);
    read.Got? && read.stored.obj.body.CustomBody? ==>
      var svc := ServiceOf(w.actor, read.stored);
      || (target !in ChildScope(w1, svc) && source !in ChildScope(w1, svc))
      || (svc.spec.serviceType == DATABASE && IsDatabaseOf(w, f, svc) && target == TargetKey(svc)
            && source == GeneratedKey(f, svc))
  }

  lemma SparedBothWithin(a: World, b: World, c: World, target: Key, source: Key)
    requires Extends(a, b) && Extends(b, c) && AllNew(a, c, SparedBoth(target, source))
    ensures AllNew(a, b, SparedBoth(target, source)) && AllNew(b, c, SparedBoth(target, source))
  {
    hide Linked, SparedBoth;
    assert forall i :: |a.log| <= i < |b.log| ==> c.log[i] == b.log[i];
  }

  lemma OwnWritesAgree(a: World, b: World, actor: Key, stored: Stored, f: Flavor, target: Key, source: Key)
    requires Extends(a, b) && AllNew(a, b, OwnWrites(actor, stored)) && AllNew(a, b, SparedBoth(target, source))
    requires target != actor && source != actor && AgreementAt(f, target, source)(a.store)
    ensures AllNew(a, b, Around(AgreementAt(f, target, source))) && AgreementAt(f, target, source)(b.store)
  {
    hide Foreign, Linked, SecretsAgree, OwnWrite;
    forall i | |a.log| <= i < |b.log|
      ensures Preserves(AgreementAt(f, target, source))(b.log[i])
    {
      var e := b.log[i];
      assert OwnWrites(actor, stored)(e) && SparedBoth(target, source)(e);
      if e.who.Some? {
        OwnWriteElsewhere(actor, stored, e, target);
        OwnWriteElsewhere(actor, stored, e, source);
      }
      SameKeysAgree(f, target, source, e);
    }
    Preserved(a, b, AgreementAt(f, target, source));
  }

  lemma ChildrenAgree(w: World, svc: Service, f: Flavor, target: Key, source: Key)
    requires WellFormed(w) && target != source && AgreementAt(f, target, source)(w.store)
    requires AllNew(w, ReconcileChildren(w, svc).0, SparedBoth(target, source))
    requires
      || (target !in ChildScope(w, svc) && source !in ChildScope(w, svc))
      || (svc.spec.serviceType == DATABASE && IsDatabaseOf(w, f, svc) && target == TargetKey(svc)
            && source == GeneratedKey(f, svc))
    ensures var w' := ReconcileChildren(w, svc).0;
      AllNew(w, w', Around(AgreementAt(f, target, source))) && AgreementAt(f, target, source)(w'.store)
  {
    hide Linked, ReconcileDatabase, ReconcileGeneric, SparedBoth, Around, AgreementAt, TargetKey, GeneratedKey,
      IsDatabaseOf, Proper;
    if target !in ChildScope(w, svc) && source !in ChildScope(w, svc) {
      ChildrenAreProper(w, svc);
      KeysAgree(w, ReconcileChildren(w, svc).0, ChildScope(w, svc), f, target, source);
    } else {
      DatabaseAgrees(w, f, svc);
    }
  }

  lemma LiveAgrees(w: World, stored: Stored, f: Flavor, target: Key, source: Key)
    requires WellFormed(w) && Pinned(w, w.actor, stored) && stored.obj.body.CustomBody?
    requires target != source && target != w.actor && source != w.actor && AgreementAt(f, target, source)(w.store)
    requires AllNew(w, ReconcileLive(w, stored).0, SparedBoth(target, source))
    requires var svc := ServiceOf(w.actor, stored);
      || (target !in ChildScope(w, svc) && source !in ChildScope(w, svc))
      || (svc.spec.serviceType == DATABASE && IsDatabaseOf(w, f, svc) && target == TargetKey(svc)
            && source == GeneratedKey(f, svc))
    ensures var w' := ReconcileLive(w, stored).0;
      AllNew(w, w', Around(AgreementAt(f, target, source))) && AgreementAt(f, target, source)(w'.store)
  {
    hide Linked, Call, ReconcileChildren, SparedBoth, Around, AgreementAt, TargetKey, GeneratedKey, IsDatabaseOf,
      OwnWrites, Pinned, DesiredStatus, ChildScope;
    var svc, w' := ServiceOf(w.actor, stored), ReconcileLive(w, stored).0;
    var (w1, o) := ReconcileChildren(w, svc);
    ExtendsReflexive(w1);
    SparedBothWithin(w, w1, w', target, source);
    ChildrenAgree(w, svc, f, target, source);
    if o.Ok? && w' != w1 {
      PinnedStays(w, w1, w.actor, stored);
      StatusWriteIsOwn(w1, stored);
      OwnWritesAgree(w1, w', w.actor, stored, f, target, source);
      AllNewTransitive(w, w1, w', Around(AgreementAt(f, target, source)));
    }
  }

  lemma ReleaseAgrees(w: World, stored: Stored, f: Flavor, target: Key, source: Key)
    requires WellFormed(w) && Pinned(w, w.actor, stored) && stored.obj.body.CustomBody?
    requires target.kind == SecretKind && source.kind == SecretKind && target != w.actor && source != w.actor
    requires AgreementAt(f, target, source)(w.store)
    requires AllNew(w, ReleaseService(w, stored).0, SparedBoth(target, source))
    ensures var w' := ReleaseService(w, stored).0;
      AllNew(w, w', Around(AgreementAt(f, target, source))) && AgreementAt(f, target, source)(w'.store)
  {
    hide Linked, Call, DeleteAll, SparedBoth, Around, AgreementAt, OwnWrites, Proper, Pinned;
    var svc, w' := ServiceOf(w.actor, stored), ReleaseService(w, stored).0;
    var scope := set k | k in BaseChildren(svc);
    var (w1, o) := FinalizeService(w, svc);
    ExtendsReflexive(w1);
    SparedBothWithin(w, w1, w', target, source);
    DeleteAllIsProper(w, BaseChildren(svc), scope);
    KeysAgree(w, w1, scope, f, target, source);
    if o.Ok? {
      PinnedStays(w, w1, w.actor, stored);
      FinalizerWriteIsOwn(w1, stored, stored.obj.finalizers - {FINALIZER});
      OwnWritesAgree(w1, w', w.actor, stored, f, target, source);
      AllNewTransitive(w, w1, w', Around(AgreementAt(f, target, source)));
    }
  }

  lemma {:induction false} PassAgrees(w: World, f: Flavor, target: Key, source: Key)
    requires WellFormed(w) && w.actor.kind == CustomResource && PassRespects(w, f, target, source)
    requires target.kind == SecretKind && source.kind == SecretKind && target != source
    requires AgreementAt(f, target, source)(w.store) && AllNew(w, Reconcile(w).0, SparedBoth(target, source))
    ensures var w' := Reconcile(w).0;
      AllNew(w, w', Around(AgreementAt(f, target, source))) && AgreementAt(f, target, source)(w'.store)
  {
    hide Linked, Call, ReconcileLive, ReleaseService, SparedBoth, Around, AgreementAt, TargetKey, GeneratedKey,
      OwnWrites, Proper, Pinned, ChildScope, OnlyCopies;
    var (w1, read) := ReadFirst(w);
    var w' := Reconcile(w).0;
    GetPins(w, w.actor);
    ExtendsReflexive(w1);
    SparedBothWithin(w, w1, w', target, source);
    ProperRead(w, w.actor, {});
    KeysAgree(w, w1, {}, f, target, source);
    if read.Got? && read.stored.obj.body.CustomBody? {
      var stored := read.stored;
      if stored.obj.deleting {
        if FINALIZER in stored.obj.finalizers {
          ReleaseAgrees(w1, stored, f, target, source);
        }
      } else if FINALIZER !in stored.obj.finalizers {
        FinalizerWriteIsOwn(w1, stored, stored.obj.finalizers + {FINALIZER});
        OwnWritesAgree(w1, w', w.actor, stored, f, target, source);
      } else {
        LiveAgrees(w1, stored, f, target, source);
      }
      AllNewTransitive(w, w1, w', Around(AgreementAt(f, target, source)));
    }
  }

  // ----- Runs -----

  ghost predicate RunRespects(w: World, cs: seq<Key>, f: Flavor, target: Key, source: Key)
    decreases |cs|
  {
    cs != [] ==>
      PassRespects(w.(actor := cs[0]), f, target, source) && RunRespects(Pass(w, cs[0]), cs[1..], f, target, source)
  }

  /**
   Over any run of passes and with faults anywhere, as long as nobody else writes the two secrets and
   only the service they belong to does among the resources that are reconciled: a latched target holds
   the password of its source.
   */
  lemma {:induction false} LatchedPasswordIsTheSources(w: World, cs: seq<Key>, f: Flavor, target: Key, source: Key)
    requires WellFormed(w) && AgreementAt(f, target, source)(w.store)
    requires target.kind == SecretKind && source.kind == SecretKind && target != source
    requires forall i :: 0 <= i < |cs| ==> cs[i].kind == CustomResource
    requires RunRespects(w, cs, f, target, source) && AllNew(w, Run(w, cs), SparedBoth(target, source))
    ensures AllNew(w, Run(w, cs), Around(AgreementAt(f, target, source)))
    ensures AgreementAt(f, target, source)(Run(w, cs).store)
    decreases |cs|
  {
    hide Linked, Reconcile, SparedBoth, Around, AgreementAt, PassRespects;
    if cs != [] {
      var w0, w1, w' := w.(actor := cs[0]), Pass(w, cs[0]), Run(w, cs);
      assert forall i :: |w.log| <= i < |w1.log| ==> w1.log[i] == w'.log[i];
      assert AllNew(w0, w1, SparedBoth(target, source));
      PassAgrees(w0, f, target, source);
      LatchedPasswordIsTheSources(w1, cs[1..], f, target, source);
    }
  }
}
