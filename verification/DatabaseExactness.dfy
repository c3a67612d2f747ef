/** What a database pass has achieved when it succeeds, while others leave its objects alone. */
module DatabaseExactness {
  import opened Text
  import opened Types
  import opened Trees
  import opened Cluster
  import opened ClusterLaws
  import opened Retry
  import opened RetryLaws
  import opened Secrets
  import opened Credentials
  import opened Trace
  import opened SecretLaws
  import opened ServiceExactness
  import opened Operator
  import opened Runtime
  import opened RuntimeLaws
  import opened RuntimeExactness
  import opened CredentialAgreement
  import opened CopyExactness
  import opened Reconciler
  import opened PassLaws
  import opened FinalizerSafety
  import opened Ready

  // ----- The copy after a resource that is there -----

  lemma AttemptIsProper(w: World, t: Task)
    requires WellFormed(w)
    ensures AllNew(w, Attempt(w, t).0, Proper({KeyOf(t)}))
  {
    AttemptIsDisciplined(w, t);
    hide Attempt, Disciplined, Standard, Foreign;
    var w' := Attempt(w, t).0;
    forall i | |w.log| <= i < |w'.log|
      ensures Proper({KeyOf(t)})(w'.log[i])
    {
      assert Discipline(w.setting.defaults, t)(w'.log[i]);
      if w'.log[i].who.Some? {
        DisciplineIsStandard(w.setting.defaults, t, w'.log[i]);
      }
    }
  }

  lemma {:induction false} PresentIsNotCreated(w: World, t: Task, keys: set<Key>)
    requires WellFormed(w) && KeyOf(t) in keys && KeyOf(t) in w.store && AllNew(w, Attempt(w, t).0, Spares(keys))
    ensures Attempt(w, t).2 != Done(Created)
  {
    hide Linked, Call, Pinned, Spares, Revise, PlanFor, FreshObject, KeyOf, StoreFits;
    var w1 := Call(w, Get(KeyOf(t))).0;
    GetPins(w, KeyOf(t));
    AttemptContinues(w, t);
    SparedWithin(w, w1, Attempt(w, t).0, keys);
    ReadIsSpared(w, KeyOf(t), keys);
  }

  lemma AttemptContinues(w: World, t: Task)
    ensures Extends(Call(w, Get(KeyOf(t))).0, Attempt(w, t).0)
  {
    hide Linked, Call, Revise, PlanFor, FreshObject, KeyOf;
    ExtendsReflexive(Call(w, Get(KeyOf(t))).0);
  }

  /** A typed resource that is there is not created again, while others leave it alone. */
  lemma {:induction false} LoopFindsPresent(w: World, t: Task, i: nat, backoff: nat, keys: set<Key>)
    requires WellFormed(w) && t.ManagedTask? && KeyOf(t) in keys && KeyOf(t) in w.store
    requires AllNew(w, RetryLoop(w, t, i, backoff).0, Spares(keys))
    ensures !RetryLoop(w, t, i, backoff).1.Created?
    decreases MAX_RETRIES - i
  {
    hide Linked, Attempt, RetryLoop, Spares, Proper, StoreFits;
    LoopTurns(w, t, i, backoff);
    if i < MAX_RETRIES {
      var (w1, t1, verdict) := Attempt(w, t);
      var w2, w' := Sleep(w1, backoff), RetryLoop(w, t, i, backoff).0;
      ExtendsReflexive(w1);
      if verdict.Again? {
        ExtendsTransitive(w1, w2, w');
      }
      SparedWithin(w, w1, w', keys);
      PresentIsNotCreated(w, t, keys);
      AttemptIsProper(w, t);
      StaysPresent(w, w1, {KeyOf(t)}, keys, KeyOf(t));
      if verdict.Again? {
        AttemptKeepsManaged(w, t);
        LoopFindsPresent(w2, t1, i + 1, 2 * backoff, keys);
      }
    }
  }

  lemma AttemptKeepsManaged(w: World, t: Task)
    requires t.ManagedTask?
    ensures Attempt(w, t).1 == t
  {
    hide Linked, Call, PlanFor, FreshObject;
  }

  /**
   After a PostgreSQL, MySQL or ClickHouse resource that was there already, success means that a copy of the
   right flavour was made from some state between, if the service names a target.
   */
  lemma {:induction false} RenderedCopies(w: World, svc: Service, x: Rendered, f: Flavor) returns (w0: World)
    requires WellFormed(w) && x.RenderedManaged? && svc.spec.kubernetesSecret != ""
    requires || (x.crd.Postgresql? && f.Postgres?) || (x.crd.MySQLCluster? && f.MySQL?)
             || (x.crd.ClickHouseInstallation? && f.ClickHouse?)
    requires RenderedKey(x) in w.store
    requires AllNew(w, ReconcileRendered(w, svc, x).0, Spares({TargetKey(svc), RenderedKey(x)}))
    ensures var (w', o) := ReconcileRendered(w, svc, x);
      Extends(w, w0) && (o.Ok? ==> Extends(w0, w') && CopyLeaves(w0, f, svc, w.store, w'.store))
  {
    hide Linked, ReconcileCluster, Spares, CopyLeaves, TargetKey, StoreFits;
    w0 := ClusterCopies(w, svc, x.crd, x.namespace, x.name, x.spec);
  }

  lemma {:induction false} ClusterCopies(w: World, svc: Service, crd: Crd, namespace: string, name: string, spec: Json)
    returns (w0: World)
    requires WellFormed(w) && HasCredentials(crd) && svc.spec.kubernetesSecret != ""
    requires Key(Managed(crd), namespace, name) in w.store
    requires AllNew(w, ReconcileCluster(w, svc, crd, namespace, name, spec).0,
        Spares({TargetKey(svc), Key(Managed(crd), namespace, name)}))
    ensures var (w', o) := ReconcileCluster(w, svc, crd, namespace, name, spec);
      Extends(w, w0) && (o.Ok? ==> Extends(w0, w') && CopyLeaves(w0, FlavorOf(crd), svc, w.store, w'.store))
  {
    hide Linked, Call, Awaited, RetryLoop, CopyCredentials, Spares, Proper, DesiredSpec, CopyLeaves, StoreFits,
      TargetKey;
    var k, t := Key(Managed(crd), namespace, name), TargetKey(svc);
    var keys := {t, k};
    var (w', o) := ReconcileCluster(w, svc, crd, namespace, name, spec);
    w0 := w;
    ExtendsReflexive(w);
    if o.Ok? {
      var task := ManagedTask(svc, crd, namespace, name, DesiredSpec(crd, spec));
      var (w1, end) := Ensure(w, task);
      ExtendsReflexive(w1);
      SparedWithin(w, w1, w', keys);
      LoopFindsPresent(w, task, 0, 1, keys);
      ProperEnsure(w, task);
      TargetIsTyped(svc);
      UntouchedElsewhere(w, w1, {k}, keys, t);
      w0 := if crd.Postgresql? then w1 else Call(w1, Get(k)).0;
      ProperRead(w1, k, {});
      ExtendsTransitive(w, w1, w0);
      AfterwardsCopies(w1, svc, crd, k);
      SparedWithin(w1, w0, w', keys);
      UntouchedElsewhere(w1, w0, {}, keys, t);
      SparesFewer(w0, w', {t}, keys);
      CopySucceeds(w0, FlavorOf(crd), svc);
      CopyLeavesFrame(w0, FlavorOf(crd), svc, w.store, w0.store, w'.store);
    }
  }

  lemma TargetIsTyped(svc: Service)
    ensures TargetKey(svc).kind == SecretKind
  {}

  /** Without error, what comes after the loop is the copy. */
  lemma AfterwardsCopies(w: World, svc: Service, crd: Crd, k: Key)
    requires svc.spec.kubernetesSecret != ""
    ensures var w0 := if crd.Postgresql? then w else Call(w, Get(k)).0;
      CopyAfterwards(w, svc, crd, k).1.Ok? ==>
        CopyAfterwards(w, svc, crd, k) == CopyCredentials(w0, FlavorOf(crd), svc)
  {
    hide Linked, Call, CopyCredentials;
  }

  lemma CopyLeavesFrame(w: World, f: Flavor, svc: Service, was: Store, same: Store, now: Store)
    requires SameAt(TargetKey(svc), was, same) && CopyLeaves(w, f, svc, same, now)
    ensures CopyLeaves(w, f, svc, was, now)
  {
    hide AwaitSecret, Call, SourceName, FilledAt, Latched, TargetKey, IsDatabase, IsSource;
    var database, k :| IsDatabase(f, svc, database) && IsSource(f, svc, database, k)
      && CopyLeavesFrom(w, f, svc, database, k, same, now);
    assert CopyLeavesFrom(w, f, svc, database, k, was, now);
  }

  // ----- Entries stay -----

  /** No entry of a secret is lost, while others leave it alone. */
  lemma EntryStays(a: World, b: World, scope: set<Key>, keys: set<Key>, k: Key, name: string)
    requires Extends(a, b) && AllNew(a, b, Proper(scope)) && AllNew(a, b, Spares(keys))
    requires k in keys && k.kind == SecretKind && k in a.store && name in Readable(a.store[k])
    ensures k in b.store && name in Readable(b.store[k])
  {
    var inv := (s: Store) => k in s && name in Readable(s[k]);
    hide Consistent, KeepsAddress, Foreign, Linked, Readable;
    forall i | |a.log| <= i < |b.log| && inv(b.log[i].before)
      ensures inv(b.log[i].after)
    {
      assert Proper(scope)(b.log[i]) && Spares(keys)(b.log[i]);
      assert b.log[i].who.None? ==> SameAt(k, b.log[i].before, b.log[i].after);
    }
    Invariance(a, b, inv, |b.log| - |a.log|);
  }

  ghost predicate CompleteIn(w: World, f: Flavor, svc: Service) {
    GeneratedKey(f, svc) in w.store && IsComplete(f, Readable(w.store[GeneratedKey(f, svc)]))
  }

  lemma CompleteStays(a: World, b: World, scope: set<Key>, keys: set<Key>, f: Flavor, svc: Service)
    requires Extends(a, b) && AllNew(a, b, Proper(scope)) && AllNew(a, b, Spares(keys))
    requires GeneratedKey(f, svc) in keys && CompleteIn(a, f, svc)
    ensures CompleteIn(b, f, svc)
  {
    hide Linked, Proper, Spares, SourceName, Readable;
    var k := GeneratedKey(f, svc);
    forall name | name in Readable(a.store[k])
      ensures k in b.store && name in Readable(b.store[k])
    {
      EntryStays(a, b, scope, keys, k, name);
    }
  }

  /** Whatever the target is called, ensuring a generated source without error leaves it complete. */
  lemma {:induction false} EnsuringCompletes(w: World, f: Flavor, svc: Service)
    requires WellFormed(w) && IsGenerated(f)
    requires AllNew(w, EnsureSource(w, f, svc).0, Spares({GeneratedKey(f, svc)}))
    ensures EnsureSource(w, f, svc).1.Ok? ==> CompleteIn(EnsureSource(w, f, svc).0, f, svc)
  {
    hide Linked, Call, Awaited, CreateSource, RepairSource, CopyIfWanted, HasBoth, DataOf, SourceName, TargetKey,
      Spares, Pinned, Proper, IsComplete, StoreFits;
    var k, keys := GeneratedKey(f, svc), {GeneratedKey(f, svc)};
    var (w1, read) := Call(w, Get(k));
    var (w', o) := EnsureSource(w, f, svc);
    GetPins(w, k);
    if o.Ok? {
      EnsureContinues(w, f, svc);
      SparedWithin(w, w1, w', keys);
      if read.Got? {
        CompleteHasBoth(f, read.stored);
      }
      if read.Failed? || !HasBoth(f, DataOf(read.stored)) {
        var w2 := if read.Failed? then CreateSource(w1, f, svc).0 else RepairSource(w1, f, svc, read.stored).0;
        if read.Failed? {
          CreatedHasBoth(w1, f, svc);
        } else {
          RepairedHasBoth(w1, f, svc, read.stored);
        }
        CompleteHasBoth(f, w2.store[k]);
        SparedWithin(w1, w2, w', keys);
        CopyIfWantedIsProper(w2, f, svc, {TargetKey(svc)});
        CompleteStays(w2, w', {TargetKey(svc)}, keys, f, svc);
      }
    }
  }

  // ----- The pass over the database -----

  /** The secrets that the type of the database calls for. */
  ghost predicate SecretsServed(w: World, svc: Service) {
    match svc.spec.config.database.databaseType
    case "mongodb" => CompleteIn(w, Mongo, svc) && IsSource(Mongo, svc, "", GeneratedKey(Mongo, svc))
    case "clickhouse" => CompleteIn(w, ClickHouse, svc) && IsSource(ClickHouse, svc, "", GeneratedKey(ClickHouse, svc))
    case "redis" =>
      svc.spec.kubernetesSecret != "" ==>
        TargetKey(svc) in w.store && "DATABASE_PASSWORD" in Readable(w.store[TargetKey(svc)])
    case _ => true
  }

  /** The name of the operator's repository and release. */
  function OperatorOf(databaseType: string): Option<string> {
    match databaseType
    case "mysql" => Some("moco-operator")
    case "clickhouse" => Some("clickhouse-operator")
    case _ => None
  }

  /** Repository and release are there. */
  ghost predicate OperatorIsThere(w: World, databaseType: string) {
    var namespace := w.setting.podNamespace;
    match OperatorOf(databaseType)
    case None => true
    case Some(name) =>
      Key(Managed(HelmRepository), namespace, name) in w.store && Key(Managed(HelmRelease), namespace, name) in w.store
  }

  /** Every rendered object is achieved, or has completed its deletion since `w`. */
  ghost predicate RenderedServed(w: World, w': World, xs: seq<Rendered>) {
    forall i :: 0 <= i < |xs| ==> AchievedIn(w', xs[i]) || CompletedIn(w, w', xs[i])
  }

  /**
   The database is served: its objects are rendered and achieved, its secrets are there, and so is its operator
   if discovery did not find it.
   */
  ghost predicate Served(w: World, w': World, svc: Service) {
    var databaseType := svc.spec.config.database.databaseType;
    && w.setting.podNamespace != ""
    && w.setting.render(svc).Some? && RenderedServed(w, w', w.setting.render(svc).value)
    && SecretsServed(w', svc)
    && (OperatorOf(databaseType).Some? ==>
          && w.setting.discovery(databaseType, w.clock) != Undiscoverable
          && (w.setting.discovery(databaseType, w.clock) == NotInstalled ==> OperatorIsThere(w', databaseType)))
  }

  /** The keys of the secrets, and of the operator's objects. */
  function PreludeScope(w: World, svc: Service): set<Key> {
    {TargetKey(svc), GeneratedKey(Mongo, svc), GeneratedKey(ClickHouse, svc)}
    + OperatorScope(svc.spec.config.database.databaseType, w.setting.podNamespace)
  }

  lemma PreludeIsTyped(w: World, svc: Service)
    ensures forall k :: k in PreludeScope(w, svc) ==> k.kind == SecretKind || k.kind.Managed?
    ensures PreludeScope(w, svc) <= DatabaseScope(w, svc)
  {}

  lemma {:induction false} SecretsSucceed(w: World, svc: Service, keys: set<Key>)
    requires WellFormed(w) && {TargetKey(svc), GeneratedKey(Mongo, svc), GeneratedKey(ClickHouse, svc)} <= keys
    requires AllNew(w, EnsureSecrets(w, svc).0, Spares(keys))
    ensures EnsureSecrets(w, svc).1.Ok? ==> SecretsServed(EnsureSecrets(w, svc).0, svc)
  {
    SourceIsNamed(Mongo, svc, "", GeneratedKey(Mongo, svc));
    SourceIsNamed(ClickHouse, svc, "", GeneratedKey(ClickHouse, svc));
    hide Linked, EnsureRedis, EnsureSource, Spares, CompleteIn, StoreFits, SourceName, IsSource;
    var databaseType, w' := svc.spec.config.database.databaseType, EnsureSecrets(w, svc).0;
    if databaseType == "mongodb" {
      SparesFewer(w, w', {GeneratedKey(Mongo, svc)}, keys);
      EnsuringCompletes(w, Mongo, svc);
    } else if databaseType == "clickhouse" {
      SparesFewer(w, w', {GeneratedKey(ClickHouse, svc)}, keys);
      EnsuringCompletes(w, ClickHouse, svc);
    } else if databaseType == "redis" {
      RedisSuccess(w, svc);
    }
  }

  lemma {:induction false} SecretsStay(a: World, b: World, scope: set<Key>, keys: set<Key>, svc: Service)
    requires Extends(a, b) && AllNew(a, b, Proper(scope)) && AllNew(a, b, Spares(keys))
    requires {TargetKey(svc), GeneratedKey(Mongo, svc), GeneratedKey(ClickHouse, svc)} <= keys
    requires SecretsServed(a, svc)
    ensures SecretsServed(b, svc)
  {
    hide Linked, Proper, Spares, CompleteIn, SourceName, Readable, IsSource;
    var databaseType := svc.spec.config.database.databaseType;
    if databaseType == "mongodb" {
      CompleteStays(a, b, scope, keys, Mongo, svc);
    } else if databaseType == "clickhouse" {
      CompleteStays(a, b, scope, keys, ClickHouse, svc);
    } else if databaseType == "redis" && svc.spec.kubernetesSecret != "" {
      EntryStays(a, b, scope, keys, TargetKey(svc), "DATABASE_PASSWORD");
    }
  }

  lemma {:induction false} OperatorSucceeds(w: World, databaseType: string, keys: set<Key>)
    requires WellFormed(w) && OperatorScope(databaseType, w.setting.podNamespace) <= keys
    requires AllNew(w, EnsureOperator(w, databaseType).0, Spares(keys))
    ensures EnsureOperator(w, databaseType).1.Ok? && OperatorOf(databaseType).Some? ==>
      && w.setting.discovery(databaseType, w.clock) != Undiscoverable
      && (w.setting.discovery(databaseType, w.clock) == NotInstalled ==>
            OperatorIsThere(EnsureOperator(w, databaseType).0, databaseType))
  {
    hide Linked, InstallOperator, Spares, StoreFits;
    if OperatorOf(databaseType).Some? && w.setting.discovery(databaseType, w.clock) == NotInstalled {
      SparesFewer(w, InstallOperator(w, databaseType).0, OperatorKeys(databaseType, w.setting.podNamespace), keys);
      InstallationIsTolerant(w, databaseType);
    }
  }

  lemma OperatorStays(a: World, b: World, scope: set<Key>, keys: set<Key>, databaseType: string)
    requires Extends(a, b) && AllNew(a, b, Proper(scope)) && AllNew(a, b, Spares(keys))
    requires OperatorScope(databaseType, a.setting.podNamespace) <= keys && OperatorIsThere(a, databaseType)
    ensures OperatorIsThere(b, databaseType)
  {
    hide Linked, Proper, Spares;
    if OperatorOf(databaseType).Some? {
      var namespace, name := a.setting.podNamespace, OperatorOf(databaseType).value;
      StaysPresent(a, b, scope, keys, Key(Managed(HelmRepository), namespace, name));
      StaysPresent(a, b, scope, keys, Key(Managed(HelmRelease), namespace, name));
    }
  }

  /** Objects that the steps before do not touch are served as seen from the beginning. */
  lemma ServedFromStart(w: World, w2: World, w': World, xs: seq<Rendered>, scope: set<Key>, keys: set<Key>)
    requires Extends(w, w2) && AllNew(w, w2, Proper(scope)) && AllNew(w, w2, Spares(keys))
    requires RenderedKeys(xs) <= keys && forall k :: k in scope ==> !k.kind.Untyped?
    requires RenderedServed(w2, w', xs)
    ensures RenderedServed(w, w', xs)
  {
    hide Linked, Proper, Spares, AchievedIn;
    forall i | 0 <= i < |xs|
      ensures AchievedIn(w', xs[i]) || CompletedIn(w, w', xs[i])
    {
      if xs[i].RenderedUntyped? {
        assert RenderedKey(xs[i]) in RenderedKeys(xs);
        UntouchedElsewhere(w, w2, scope, keys, RenderedKey(xs[i]));
      }
    }
  }

  /** What comes before the objects: the operator and the secrets. */
  function Prelude(w: World, svc: Service): (World, Outcome) {
    var (w1, o) := EnsureOperator(w, svc.spec.config.database.databaseType);
    if o.Err? then (w1, o) else EnsureSecrets(w1, svc)
  }

  lemma {:induction false} PreludeSucceeds(w: World, svc: Service, keys: set<Key>)
    requires WellFormed(w) && PreludeScope(w, svc) <= keys && AllNew(w, Prelude(w, svc).0, Spares(keys))
    ensures var (w', o) := Prelude(w, svc);
      var databaseType := svc.spec.config.database.databaseType;
      && Extends(w, w') && AllNew(w, w', Proper(PreludeScope(w, svc)))
      && (o.Ok? ==> SecretsServed(w', svc))
      && (o.Ok? && OperatorOf(databaseType).Some? ==>
            && w.setting.discovery(databaseType, w.clock) != Undiscoverable
            && (w.setting.discovery(databaseType, w.clock) == NotInstalled ==> OperatorIsThere(w', databaseType)))
  {
    hide Linked, EnsureOperator, EnsureSecrets, Proper, Spares, SecretsServed, OperatorIsThere, TargetKey, GeneratedKey,
      OperatorScope, StoreFits, OperatorOf;
    var databaseType, scope, w' := svc.spec.config.database.databaseType, PreludeScope(w, svc), Prelude(w, svc).0;
    var (w1, o1) := EnsureOperator(w, databaseType);
    ExtendsReflexive(w1);
    OperatorIsProper(w, databaseType);
    ProperWidens(w, w1, OperatorScope(databaseType, w.setting.podNamespace), scope);
    if o1.Ok? {
      ExtendsTransitive(w, w1, w');
      SecretsAreProper(w1, svc, scope);
      AllNewTransitive(w, w1, w', Proper(scope));
    }
    SparedWithin(w, w1, w', keys);
    OperatorSucceeds(w, databaseType, keys);
    if o1.Ok? {
      SecretsSucceed(w1, svc, keys);
      if OperatorIsThere(w1, databaseType) {
        OperatorStays(w1, w', scope, keys, databaseType);
      }
    }
  }

  /** The pass is the prelude, and then the objects. */
  lemma DatabaseSplits(w: World, svc: Service)
    ensures ReconcileDatabase(w, svc).1.Ok? ==>
      && w.setting.podNamespace != "" && Prelude(w, svc).1.Ok? && w.setting.render(svc).Some?
      && ReconcileDatabase(w, svc) == ReconcileObjects(Prelude(w, svc).0, svc, w.setting.render(svc).value)
  {
    hide Linked, EnsureOperator, EnsureSecrets, ReconcileObjects;
  }

  /**
   A database pass without error has served the database, if its definition renders each object once and
   others leave alone what the pass may write.
   */
  lemma {:induction false} DatabaseSucceeds(w: World, svc: Service)
    requires WellFormed(w) && AllNew(w, ReconcileDatabase(w, svc).0, Spares(DatabaseScope(w, svc)))
    requires w.setting.render(svc).Some? ==> DistinctKeys(w.setting.render(svc).value)
    ensures ReconcileDatabase(w, svc).1.Ok? ==> Served(w, ReconcileDatabase(w, svc).0, svc)
  {
    DatabaseSplits(w, svc);
    PreludeIsTyped(w, svc);
    hide Linked, ReconcileObjects, Proper, Spares, SecretsServed, OperatorIsThere, Prelude, ReconcileDatabase,
      StoreFits, TargetKey, GeneratedKey, OperatorScope, OperatorOf, RenderedKeys, AchievedIn, CompletedIn,
      DistinctKeys;
    if ReconcileDatabase(w, svc).1.Ok? {
      var keys, xs, w' := DatabaseScope(w, svc), w.setting.render(svc).value, ReconcileDatabase(w, svc).0;
      var w2, databaseType := Prelude(w, svc).0, svc.spec.config.database.databaseType;
      var scope := RenderedKeys(xs) + {TargetKey(svc)};
      PreludeExtends(w, svc);
      SparedWithin(w, w2, w', keys);
      PreludeSucceeds(w, svc, keys);
      SuccessAchievesAll(w2, svc, xs, keys);
      ServedFromStart(w, w2, w', xs, PreludeScope(w, svc), keys);
      ObjectsAreProper(w2, svc, xs, scope);
      SecretsStay(w2, w', scope, keys, svc);
      if OperatorIsThere(w2, databaseType) {
        OperatorStays(w2, w', scope, keys, databaseType);
      }
    }
  }

  lemma PreludeExtends(w: World, svc: Service)
    ensures Extends(w, Prelude(w, svc).0)
  {
    hide Linked, EnsureOperator, EnsureSecrets;
    var (w1, o) := EnsureOperator(w, svc.spec.config.database.databaseType);
    if o.Ok? {
      ExtendsTransitive(w, w1, EnsureSecrets(w1, svc).0);
    }
  }

  // ----- The whole pass -----

  /** What is served stays so while its keys are untouched. */
  lemma ServedFrame(w: World, a: World, b: World, svc: Service)
    requires a.setting == w.setting && b.setting == w.setting && Served(w, a, svc)
    requires forall k :: k in DatabaseScope(w, svc) ==> SameAt(k, a.store, b.store)
    ensures Served(w, b, svc)
  {
    var xs, databaseType := w.setting.render(svc).value, svc.spec.config.database.databaseType;
    ScopeHolds(w, svc);
    hide Achieved, Readable, IsComplete, SourceName, DatabaseScope, TargetKey, IsSource;
    forall i | 0 <= i < |xs|
      ensures AchievedIn(b, xs[i]) || CompletedIn(w, b, xs[i])
    {
      assert RenderedKey(xs[i]) in RenderedKeys(xs);
      assert SameAt(RenderedKey(xs[i]), a.store, b.store);
    }
    hide AchievedIn, CompletedIn, RenderedKeys;
    assert SecretsServed(b, svc) by {
      assert SameAt(TargetKey(svc), a.store, b.store) && SameAt(GeneratedKey(Mongo, svc), a.store, b.store)
          && SameAt(GeneratedKey(ClickHouse, svc), a.store, b.store);
    }
    if OperatorOf(databaseType).Some? && OperatorIsThere(a, databaseType) {
      var namespace, name := w.setting.podNamespace, OperatorOf(databaseType).value;
      assert SameAt(Key(Managed(HelmRepository), namespace, name), a.store, b.store);
      assert SameAt(Key(Managed(HelmRelease), namespace, name), a.store, b.store);
    }
  }

  lemma ScopeHolds(w: World, svc: Service)
    requires w.setting.render(svc).Some?
    ensures var scope, databaseType := DatabaseScope(w, svc), svc.spec.config.database.databaseType;
      && TargetKey(svc) in scope && GeneratedKey(Mongo, svc) in scope && GeneratedKey(ClickHouse, svc) in scope
      && RenderedKeys(w.setting.render(svc).value) <= scope
      && (OperatorOf(databaseType).Some? ==>
            var namespace, name := w.setting.podNamespace, OperatorOf(databaseType).value;
            && Key(Managed(HelmRepository), namespace, name) in scope
            && Key(Managed(HelmRelease), namespace, name) in scope)
  {
    hide SourceName, RenderedKeys;
  }

  lemma {:induction false} StatusTouchesNothingElse(w: World, stored: Stored, keys: set<Key>, k: Key)
    requires WellFormed(w) && Pinned(w, w.actor, stored) && stored.obj.body.CustomBody? && k != w.actor && k in keys
    requires AllNew(w, WriteStatus(w, stored).0, Spares(keys))
    ensures SameAt(k, w.store, WriteStatus(w, stored).0.store)
  {
    hide Linked, Call, Spares, OwnWrites, DesiredStatus, Pinned;
    if WriteStatus(w, stored).0 != w {
      StatusWriteIsOwn(w, stored);
      OwnWritesElsewhere(w, WriteStatus(w, stored).0, stored, keys, k);
    }
  }

  /** A live pass for a database that ends without error has served it, and published its status. */
  lemma {:induction false} DatabasePassSucceeds(w: World)
    requires WellFormed(w) && w.actor.kind == CustomResource
    requires var (w1, read) := ReadFirst(w);
      IsLive(read) && read.stored.obj.body.CustomBody? ==>
        var svc := ServiceOf(w.actor, read.stored);
        && AllNew(w, Reconcile(w).0, Spares(DatabaseScope(w1, svc)))
        && (w.setting.render(svc).Some? ==> DistinctKeys(w.setting.render(svc).value))
    ensures var (w1, read) := ReadFirst(w);
      var (w', o) := Reconcile(w);
      IsLive(read) && o.Ok? ==>
        && read.stored.obj.body.CustomBody?
        && var svc := ServiceOf(w.actor, read.stored);
           svc.spec.serviceType == "database" ==> Served(w1, w', svc)
  {
    LiveRead(w);
    hide Linked, Call, Pinned, ReconcileDatabase, ReconcileGeneric, WriteStatus, Spares, Served, DistinctKeys,
      StoreFits, Reconcile, DatabaseScope;
    var (w1, read) := ReadFirst(w);
    var (w', o) := Reconcile(w);
    GetPins(w, w.actor);
    if IsLive(read) && o.Ok? {
      var svc := ServiceOf(w.actor, read.stored);
      if svc.spec.serviceType == "database" {
        var keys, w2 := DatabaseScope(w1, svc), ReconcileDatabase(w1, svc).0;
        ExtendsTransitive(w1, w2, w');
        SparedWithin(w, w1, w', keys);
        SparedWithin(w1, w2, w', keys);
        DatabaseSucceeds(w1, svc);
        PinnedStays(w1, w2, w.actor, read.stored);
        ScopeIsNoResource(w1, svc);
        forall k | k in keys
          ensures SameAt(k, w2.store, w'.store)
        {
          StatusTouchesNothingElse(w2, read.stored, keys, k);
        }
        ServedFrame(w1, w2, w', svc);
      }
    }
  }

  lemma ScopeIsNoResource(w: World, svc: Service)
    ensures forall k :: k in DatabaseScope(w, svc) ==> k.kind != CustomResource
  {}
}
