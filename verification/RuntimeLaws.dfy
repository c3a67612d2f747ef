/** The requests of the database path, under any interference and any faults. */
module RuntimeLaws {
  import opened Text
  import opened Types
  import opened Trees
  import opened Cluster
  import opened ClusterLaws
  import opened Retry
  import opened Secrets
  import opened Trace
  import opened SecretLaws
  import opened Operator
  import opened Runtime

  lemma {:induction false} CopyAfterwardsIsProper(w: World, svc: Service, crd: Crd, k: Key, scope: set<Key>)
    requires WellFormed(w) && TargetKey(svc) in scope
    ensures AllNew(w, CopyAfterwards(w, svc, crd, k).0, Proper(scope))
  {
    hide Linked, Call, Awaited, Proper, CopyCredentials;
    if svc.spec.kubernetesSecret != "" {
      if crd.Postgresql? {
        CopyIsProper(w, FlavorOf(crd), svc, scope);
      } else {
        var (w1, read) := Call(w, Get(k));
        ProperRead(w, k, scope);
        if read.Got? {
          CopyIsProper(w1, FlavorOf(crd), svc, scope);
          AllNewTransitive(w, w1, CopyAfterwards(w, svc, crd, k).0, Proper(scope));
        }
      }
    }
  }

  lemma {:induction false} ClusterIsProper(w: World, svc: Service, crd: Crd, namespace: string, name: string,
      spec: Json, scope: set<Key>)
    requires WellFormed(w) && TargetKey(svc) in scope && Key(Managed(crd), namespace, name) in scope
    ensures AllNew(w, ReconcileCluster(w, svc, crd, namespace, name, spec).0, Proper(scope))
  {
    hide Linked, RetryLoop, CopyAfterwards, Proper, DesiredSpec;
    if namespace == svc.namespace {
      var t := ManagedTask(svc, crd, namespace, name, DesiredSpec(crd, spec));
      var (w1, end) := Ensure(w, t);
      ProperEnsure(w, t);
      ProperWidens(w, w1, {KeyOf(t)}, scope);
      if end.UpToDate? || end.Updated? {
        CopyAfterwardsIsProper(w1, svc, crd, KeyOf(t), scope);
        AllNewTransitive(w, w1, ReconcileCluster(w, svc, crd, namespace, name, spec).0, Proper(scope));
      }
    }
  }

  lemma {:induction false} SimpleIsProper(w: World, svc: Service, crd: Crd, namespace: string, name: string,
      spec: Json, scope: set<Key>)
    requires WellFormed(w) && Key(Managed(crd), namespace, name) in scope
    ensures AllNew(w, ReconcileSimple(w, svc, crd, namespace, name, spec).0, Proper(scope))
  {
    hide Linked, Call, Awaited, Proper;
    var k := Key(Managed(crd), namespace, name);
    if namespace == svc.namespace {
      var (w1, read) := Call(w, Get(k));
      ProperRead(w, k, scope);
      GetPins(w, k);
      var w' := ReconcileSimple(w, svc, crd, namespace, name, spec).0;
      if read == Failed(NotFound) {
        ProperCreate(w1, k, NewObject(map[], Some(OwnerOf(svc)), ManagedBody(spec)), scope);
        AllNewTransitive(w, w1, w', Proper(scope));
      } else if read.Got? && read.stored.obj.body != ManagedBody(spec) {
        ProperUpdate(w1, k, read.stored.obj.(body := ManagedBody(spec)), read.stored, scope);
        AllNewTransitive(w, w1, w', Proper(scope));
      }
    }
  }

  lemma {:induction false} AwaitGoneIsProper(w: World, k: Key, retries: nat, scope: set<Key>)
    ensures AllNew(w, AwaitGone(w, k, retries), Proper(scope))
    decreases DELETE_RETRIES - retries
  {
    hide Linked, Call, Awaited, Proper;
    if retries < DELETE_RETRIES {
      ProperRead(w, k, scope);
      var (w1, read) := Call(w, Get(k));
      if read != Failed(NotFound) {
        AwaitGoneIsProper(Sleep(w1, 1), k, retries + 1, scope);
        ExtendsTransitive(w1, Sleep(w1, 1), AwaitGone(w, k, retries));
        AllNewTransitive(w, w1, AwaitGone(w, k, retries), Proper(scope));
      }
    }
  }

  lemma ReplaceJobIsProper(w: World, svc: Service, k: Key, containers: Json, scope: set<Key>)
    requires k in scope && k.kind == JobKind
    ensures AllNew(w, ReplaceJob(w, svc, k, containers).0, Proper(scope))
  {
    hide Linked, Call, Awaited, Proper, AwaitGone;
    var (w1, gone) := Call(w, Delete(k));
    ProperDelete(w, k, scope);
    if gone.Got? {
      var w2 := AwaitGone(w1, k, 0);
      AwaitGoneIsProper(w1, k, 0, scope);
      AllNewTransitive(w, w1, w2, Proper(scope));
      ProperCreate(w2, k, NewJob(svc, containers), scope);
      AllNewTransitive(w, w2, ReplaceJob(w, svc, k, containers).0, Proper(scope));
    }
  }

  lemma {:induction false} JobIsProper(w: World, svc: Service, namespace: string, name: string, containers: Json,
      scope: set<Key>)
    requires Key(JobKind, namespace, name) in scope
    ensures AllNew(w, ReconcileJob(w, svc, namespace, name, containers).0, Proper(scope))
  {
    hide Linked, Call, Awaited, Proper, ReplaceJob, JobIsStale;
    var k := Key(JobKind, namespace, name);
    if namespace == svc.namespace {
      var (w1, read) := Call(w, Get(k));
      ProperRead(w, k, scope);
      var w' := ReconcileJob(w, svc, namespace, name, containers).0;
      if read == Failed(NotFound) {
        ProperCreate(w1, k, NewJob(svc, containers), scope);
        AllNewTransitive(w, w1, w', Proper(scope));
      } else if read.Got? && JobIsStale(read.stored.obj.body, containers) {
        ReplaceJobIsProper(w1, svc, k, containers, scope);
        AllNewTransitive(w, w1, w', Proper(scope));
      }
    }
  }

  lemma {:induction false} UntypedIsProper(w: World, svc: Service, k: Key, content: Fields, scope: set<Key>)
    requires WellFormed(w) && k in scope && k.kind.Untyped?
    ensures AllNew(w, ReconcileUntyped(w, svc, k, content).0, Proper(scope))
  {
    hide Linked, Call, Awaited, Proper, Compared, UpdatedUnstructured, WithOwner, ControllerIn, SeenContent, AsStated;
    var (w1, read) := Call(w, Get(k));
    ProperRead(w, k, scope);
    GetPins(w, k);
    var w' := ReconcileUntyped(w, svc, k, content).0;
    if read == Failed(NotFound) {
      ProperCreate(w1, k, NewUntyped(WithOwner(content, svc)), scope);
    } else if read.Got? {
      var updated := UpdatedUnstructured(SeenContent(read.stored.obj), content);
      ProperUpdate(w1, k, AsStated(read.stored.obj.(body := UntypedBody(WithOwner(updated, svc)))), read.stored, scope);
    }
    if w' != w1 {
      AllNewTransitive(w, w1, w', Proper(scope));
    }
  }

  /** One rendered object is reconciled by requests for it and for the target secret only. */
  lemma {:induction false} RenderedIsProper(w: World, svc: Service, x: Rendered, scope: set<Key>)
    requires WellFormed(w) && TargetKey(svc) in scope && RenderedKey(x) in scope
    ensures AllNew(w, ReconcileRendered(w, svc, x).0, Proper(scope))
  {
    hide Linked, Proper, ReconcileJob, ReconcileCluster, ReconcileSimple, ReconcileUntyped;
    match x {
      case RenderedJob(namespace, name, containers) => JobIsProper(w, svc, namespace, name, containers, scope);
      case RenderedManaged(crd, namespace, name, spec) =>
        if HasCredentials(crd) {
          ClusterIsProper(w, svc, crd, namespace, name, spec, scope);
        } else {
          SimpleIsProper(w, svc, crd, namespace, name, spec, scope);
        }
      case RenderedUntyped(_, _, _, content) => UntypedIsProper(w, svc, RenderedKey(x), content, scope);
    }
  }

  function RenderedKeys(xs: seq<Rendered>): set<Key> {
    set x | x in xs :: RenderedKey(x)
  }

  lemma {:induction false} ObjectsAreProper(w: World, svc: Service, xs: seq<Rendered>, scope: set<Key>)
    requires WellFormed(w) && TargetKey(svc) in scope && RenderedKeys(xs) <= scope
    ensures AllNew(w, ReconcileObjects(w, svc, xs).0, Proper(scope))
    decreases |xs|
  {
    hide Linked, Proper, ReconcileRendered;
    if xs != [] {
      assert RenderedKey(xs[0]) in RenderedKeys(xs);
      var (w1, o) := ReconcileRendered(w, svc, xs[0]);
      RenderedIsProper(w, svc, xs[0], scope);
      if o.Ok? {
        ObjectsAreProper(w1, svc, xs[1..], scope);
        AllNewTransitive(w, w1, ReconcileObjects(w, svc, xs).0, Proper(scope));
      }
    }
  }

  lemma {:induction false} SecretsAreProper(w: World, svc: Service, scope: set<Key>)
    requires WellFormed(w) && TargetKey(svc) in scope
    requires GeneratedKey(Mongo, svc) in scope && GeneratedKey(ClickHouse, svc) in scope
    ensures AllNew(w, EnsureSecrets(w, svc).0, Proper(scope))
  {
    hide Linked, Proper, EnsureRedis, EnsureSource;
    RedisIsProper(w, svc, scope);
    EnsureSourceIsProper(w, Mongo, svc, scope);
    EnsureSourceIsProper(w, ClickHouse, svc, scope);
  }

  lemma CreateIfAbsentIsProper(w: World, k: Key, spec: Json, scope: set<Key>)
    requires k in scope && k.kind.Managed?
    ensures AllNew(w, CreateIfAbsent(w, k, spec).0, Proper(scope))
  {
    hide Linked, Call, Awaited, Proper;
    ProperCreate(w, k, NewObject(map[], None, ManagedBody(spec)), scope);
  }

  /** The two objects of an operator installation. */
  function OperatorScope(databaseType: string, namespace: string): set<Key> {
    if NeedsOperator(databaseType) then OperatorKeys(databaseType, namespace) else {}
  }

  lemma OperatorIsProper(w: World, databaseType: string)
    requires WellFormed(w)
    ensures AllNew(w, EnsureOperator(w, databaseType).0, Proper(OperatorScope(databaseType, w.setting.podNamespace)))
  {
    hide Linked, CreateIfAbsent, Proper, RepositorySpec, ReleaseSpec;
    if NeedsOperator(databaseType) && w.setting.discovery(databaseType, w.clock).NotInstalled? {
      var namespace := w.setting.podNamespace;
      var scope, k1, k2 := OperatorScope(databaseType, namespace), RepositoryKey(databaseType, namespace),
          ReleaseKey(databaseType, namespace);
      var (w1, o) := CreateIfAbsent(w, k1, RepositorySpec(databaseType));
      CreateIfAbsentIsProper(w, k1, RepositorySpec(databaseType), scope);
      if o.Ok? {
        CreateIfAbsentIsProper(w1, k2, ReleaseSpec(databaseType, namespace), scope);
        AllNewTransitive(w, w1, EnsureOperator(w, databaseType).0, Proper(scope));
      }
    }
  }

  /**
   The keys a database service may write: rendered objects, three secrets, and the objects that install
   its operator.
   */
  function DatabaseScope(w: World, svc: Service): set<Key> {
    {TargetKey(svc), GeneratedKey(Mongo, svc), GeneratedKey(ClickHouse, svc)}
    + OperatorScope(svc.spec.config.database.databaseType, w.setting.podNamespace)
    + match w.setting.render(svc) case None => {} case Some(xs) => RenderedKeys(xs)
  }

  lemma {:induction false} DatabaseIsProper(w: World, svc: Service)
    requires WellFormed(w)
    ensures AllNew(w, ReconcileDatabase(w, svc).0, Proper(DatabaseScope(w, svc)))
  {
    hide Linked, Proper, EnsureOperator, EnsureSecrets, ReconcileObjects, TargetKey, GeneratedKey, RenderedKeys,
      OperatorScope;
    var scope, databaseType := DatabaseScope(w, svc), svc.spec.config.database.databaseType;
    var (w1, o1) := EnsureOperator(w, databaseType);
    OperatorIsProper(w, databaseType);
    ProperWidens(w, w1, OperatorScope(databaseType, w.setting.podNamespace), scope);
    if w.setting.podNamespace != "" && o1.Ok? {
      var (w2, o2) := EnsureSecrets(w1, svc);
      SecretsAreProper(w1, svc, scope);
      AllNewTransitive(w, w1, w2, Proper(scope));
      if o2.Ok? && w.setting.render(svc).Some? {
        ObjectsAreProper(w2, svc, w.setting.render(svc).value, scope);
        AllNewTransitive(w, w2, ReconcileDatabase(w, svc).0, Proper(scope));
      }
    }
  }
}
