/** Reconciling the objects rendered from a database definition, one after the other. */
module Runtime {
  import opened Text
  import opened Types
  import opened Trees
  import opened Cluster
  import opened Retry
  import opened Secrets
  import opened Operator

  const DELETE_RETRIES := 10
  const SERVER_ID_BASE := "serverIDBase"

  function RenderedKey(x: Rendered): Key {
    match x
    case RenderedJob(namespace, name, _) => Key(JobKind, namespace, name)
    case RenderedManaged(crd, namespace, name, _) => Key(Managed(crd), namespace, name)
    case RenderedUntyped(gvk, namespace, name, _) => Key(Untyped(gvk), namespace, name)
  }

  function Replied(r: (World, Reply)): (World, Outcome) {
    (r.0, if r.1.Got? then Ok else Err(r.1.error))
  }

  // ----- Typed custom resources with a retry loop: Postgresql, MySQLCluster, ClickHouseInstallation -----

  predicate HasCredentials(crd: Crd) {
    crd.Postgresql? || crd.MySQLCluster? || crd.ClickHouseInstallation?
  }

  function FlavorOf(crd: Crd): Flavor {
    match crd case MySQLCluster => MySQL case ClickHouseInstallation => ClickHouse case _ => Postgres
  }

  /** MySQL clusters always get the same server id base. */
  function DesiredSpec(crd: Crd, spec: Json): Json {
    if crd.MySQLCluster? && spec.Tree? then Tree(spec.fields[SERVER_ID_BASE := Number(100)]) else spec
  }

  function CopyAfterwards(w: World, svc: Service, crd: Crd, k: Key): (r: (World, Outcome))
    ensures Extends(w, r.0)
  {
    hide Call, CopyCredentials, Extends;
    ExtendsReflexive(w);
    if svc.spec.kubernetesSecret == "" then (w, Ok)
    else if crd.Postgresql? then CopyCredentials(w, FlavorOf(crd), svc)
    else
      var (w1, read) := Call(w, Get(k));
      if read.Failed? then (w1, Err(read.error))
      else
        var r := CopyCredentials(w1, FlavorOf(crd), svc);
        ExtendsTransitive(w, w1, r.0);
        r
  }

  function ReconcileCluster(w: World, svc: Service, crd: Crd, namespace: string, name: string,
      spec: Json): (r: (World, Outcome))
    ensures Extends(w, r.0)
  {
    hide RetryLoop, CopyAfterwards, Extends;
    ExtendsReflexive(w);
    if namespace != svc.namespace then (w, Err(CrossNamespace))
    else
      var t := ManagedTask(svc, crd, namespace, name, DesiredSpec(crd, spec));
      var (w1, end) := Ensure(w, t);
      match end
      case Created => (w1, Ok)
      case Stopped(error) => (w1, Err(error))
      case _ =>
        var r := CopyAfterwards(w1, svc, crd, KeyOf(t));
        ExtendsTransitive(w, w1, r.0);
        r
  }

  // ----- Typed custom resources without: HelmRelease, HelmRepository, BackupPolicy -----

  function ReconcileSimple(w: World, svc: Service, crd: Crd, namespace: string, name: string,
      spec: Json): (r: (World, Outcome))
    ensures Extends(w, r.0)
  {
    hide Call, Extends;
    ExtendsReflexive(w);
    var k := Key(Managed(crd), namespace, name);
    if namespace != svc.namespace then (w, Err(CrossNamespace))
    else
      var (w1, read) := Call(w, Get(k));
      match read
      case Failed(error) =>
        if error != NotFound then (w1, Err(error))
        else
          var made := Call(w1, Create(k, NewObject(map[], Some(OwnerOf(svc)), ManagedBody(spec))));
          ExtendsTransitive(w, w1, made.0);
          Replied(made)
      case Got(stored) =>
        if stored.obj.body == ManagedBody(spec) then (w1, Ok)
        else
          var written := Call(w1, Update(k, stored.obj.(body := ManagedBody(spec)), Some(stored.version)));
          ExtendsTransitive(w, w1, written.0);
          Replied(written)
  }

  // ----- Jobs -----

  /** Waits for a deleted Job to go: up to ten reads, one second apart; any answer but NotFound keeps waiting. */
  function AwaitGone(w: World, k: Key, retries: nat): (r: World)
    ensures Extends(w, r)
    decreases DELETE_RETRIES - retries
  {
    hide Call, Extends, Sleep;
    ExtendsReflexive(w);
    if retries >= DELETE_RETRIES then w
    else
      var (w1, read) := Call(w, Get(k));
      if read == Failed(NotFound) then w1
      else
        var r := AwaitGone(Sleep(w1, 1), k, retries + 1);
        ExtendsTransitive(w, w1, Sleep(w1, 1));
        ExtendsTransitive(w, Sleep(w1, 1), r);
        r
  }

  function NewJob(svc: Service, containers: Json): Object {
    NewObject(map[], Some(OwnerOf(svc)), JobBody(containers, false))
  }

  function ReplaceJob(w: World, svc: Service, k: Key, containers: Json): (r: (World, Outcome))
    ensures Extends(w, r.0)
  {
    hide Call, Extends, AwaitGone;
    var (w1, gone) := Call(w, Delete(k));
    if gone.Failed? then (w1, Err(gone.error))
    else
      var w2 := AwaitGone(w1, k, 0);
      var made := Call(w2, Create(k, NewJob(svc, containers)));
      ExtendsTransitive(w, w1, w2);
      ExtendsTransitive(w, w2, made.0);
      Replied(made)
  }

  /** An unfinished Job with other containers than the desired ones. */
  predicate JobIsStale(body: Body, containers: Json) {
    body.JobBody? && !body.finished && body.containers != containers
  }

  function ReconcileJob(w: World, svc: Service, namespace: string, name: string,
      containers: Json): (r: (World, Outcome))
    ensures Extends(w, r.0)
  {
    hide Call, Extends, ReplaceJob;
    ExtendsReflexive(w);
    var k := Key(JobKind, namespace, name);
    if namespace != svc.namespace then (w, Err(CrossNamespace))
    else
      var (w1, read) := Call(w, Get(k));
      match read
      case Failed(error) =>
        if error != NotFound then (w1, Err(error))
        else
          var made := Call(w1, Create(k, NewJob(svc, containers)));
          ExtendsTransitive(w, w1, made.0);
          Replied(made)
      case Got(stored) =>
        if JobIsStale(stored.obj.body, containers) then
          var r := ReplaceJob(w1, svc, k, containers);
          ExtendsTransitive(w, w1, r.0);
          r
        else (w1, Ok)
  }

  // ----- Anything else, handled as an unstructured tree -----

  /** The controller reference as it appears in an unstructured object's metadata. */
  function OwnerTree(svc: Service): Json {
    Tree(map["kind" := Str(OWNER_KIND), "name" := Str(svc.name), "uid" := Number(svc.uid),
             "controller" := Bool(true), "blockOwnerDeletion" := Bool(true)])
  }

  /** Owners are the same when kind and name agree. */
  predicate RefersTo(owner: Json, svc: Service) {
    owner.Tree? && TextAt(owner.fields, "kind") == OWNER_KIND && TextAt(owner.fields, "name") == svc.name
  }

  /** The first reference to the custom resource is replaced; if there is none, it is added at the end. */
  function Upsert(owners: seq<Json>, svc: Service): seq<Json> {
    if owners == [] then [OwnerTree(svc)]
    else if RefersTo(owners[0], svc) then [OwnerTree(svc)] + owners[1..]
    else [owners[0]] + Upsert(owners[1..], svc)
  }

  /** SetControllerReference on a tree; the caller has checked that no other controller is stated there. */
  function WithOwner(content: Fields, svc: Service): Fields {
    content[METADATA := Tree(MetadataOf(content)[OWNER_REFERENCES := Array(Upsert(OwnersIn(content), svc))])]
  }

  /** What a read delivers: the stored tree, to which the server adds the time of a pending deletion. */
  function SeenContent(obj: Object): Fields {
    var content := if obj.body.UntypedBody? then obj.body.content else map[];
    if obj.deleting then content[METADATA := Tree(MetadataOf(content)[DELETION_TIME := Str("")])] else content
  }

  function NewUntyped(content: Fields): Object {
    AsStated(NewObject(map[], None, UntypedBody(content)))
  }

  /**
   The update writes the rendering's metadata: of what is stored, only the server-managed fields are
   carried over, so the stored finalizers and owners count for nothing.
   */
  function ReconcileUntyped(w: World, svc: Service, k: Key, content: Fields): (r: (World, Outcome))
    ensures Extends(w, r.0)
  {
    hide Call, Extends, Compared, UpdatedUnstructured, WithOwner, ControllerIn, SeenContent, AsStated;
    var (w1, read) := Call(w, Get(k));
    match read
    case Failed(error) =>
      if error != NotFound then (w1, Err(error))
      else if k.namespace != svc.namespace then (w1, Err(CrossNamespace))
      else if !MayOwn(svc, ControllerIn(content)) then (w1, Err(AlreadyOwned))
      else
        var made := Call(w1, Create(k, NewUntyped(WithOwner(content, svc))));
        ExtendsTransitive(w, w1, made.0);
        Replied(made)
    case Got(stored) =>
      var existing := SeenContent(stored.obj);
      if Compared(content) == Compared(existing) then (w1, Ok)
      else if k.namespace != svc.namespace then (w1, Err(CrossNamespace))
      else
        var updated := UpdatedUnstructured(existing, content);
        if !MayOwn(svc, ControllerIn(updated)) then (w1, Err(AlreadyOwned))
        else
          var obj := AsStated(stored.obj.(body := UntypedBody(WithOwner(updated, svc))));
          var written := Call(w1, Update(k, obj, Some(stored.version)));
          ExtendsTransitive(w, w1, written.0);
          Replied(written)
  }

  // ----- The loop -----

  function ReconcileRendered(w: World, svc: Service, x: Rendered): (r: (World, Outcome))
    ensures Extends(w, r.0)
  {
    hide Extends, ReconcileJob, ReconcileCluster, ReconcileSimple, ReconcileUntyped;
    match x
    case RenderedJob(namespace, name, containers) => ReconcileJob(w, svc, namespace, name, containers)
    case RenderedManaged(crd, namespace, name, spec) =>
      if HasCredentials(crd) then ReconcileCluster(w, svc, crd, namespace, name, spec)
      else ReconcileSimple(w, svc, crd, namespace, name, spec)
    case RenderedUntyped(_, _, _, content) => ReconcileUntyped(w, svc, RenderedKey(x), content)
  }

  /** reconcileRuntimeObjects: stops at the first failure. */
  function ReconcileObjects(w: World, svc: Service, xs: seq<Rendered>): (r: (World, Outcome))
    ensures Extends(w, r.0)
    decreases |xs|
  {
    hide Extends, ReconcileRendered;
    ExtendsReflexive(w);
    if xs == [] then (w, Ok)
    else
      var (w1, o) := ReconcileRendered(w, svc, xs[0]);
      if o.Err? then (w1, o)
      else
        var r := ReconcileObjects(w1, svc, xs[1..]);
        ExtendsTransitive(w, w1, r.0);
        r
  }

  // ----- reconcileDatabase -----

  const REDIS_TYPE := "redis"
  const MONGODB_TYPE := "mongodb"

  function EnsureSecrets(w: World, svc: Service): (r: (World, Outcome))
    ensures Extends(w, r.0)
  {
    hide Extends, EnsureRedis, EnsureSource;
    ExtendsReflexive(w);
    var databaseType := svc.spec.config.database.databaseType;
    if databaseType == REDIS_TYPE then
      if svc.spec.kubernetesSecret != "" then EnsureRedis(w, svc) else (w, Ok)
    else if databaseType == MONGODB_TYPE then EnsureSource(w, Mongo, svc)
    else if databaseType == CLICKHOUSE_TYPE then EnsureSource(w, ClickHouse, svc)
    else (w, Ok)
  }

  function ReconcileDatabase(w: World, svc: Service): (r: (World, Outcome))
    ensures Extends(w, r.0)
  {
    hide Extends, EnsureOperator, EnsureSecrets, ReconcileObjects;
    ExtendsReflexive(w);
    if w.setting.podNamespace == "" then (w, Err(NoNamespace))
    else
      var (w1, o1) := EnsureOperator(w, svc.spec.config.database.databaseType);
      if o1.Err? then (w1, o1)
      else
        var (w2, o2) := EnsureSecrets(w1, svc);
        ExtendsTransitive(w, w1, w2);
        if o2.Err? then (w2, o2)
        else
          match w.setting.render(svc)
          case None => (w2, Err(NotRendered))
          case Some(xs) =>
            var r := ReconcileObjects(w2, svc, xs);
            ExtendsTransitive(w, w2, r.0);
            r
  }
}
