/** What a copy of database credentials leaves in the target when it succeeds. */
module CopyExactness {
  import opened Text
  import opened Types
  import opened Trees
  import opened Cluster
  import opened ClusterLaws
  import opened Retry
  import opened RetryLaws
  import opened Secrets
  import opened Credentials
  import opened Trace
  import opened SecretLaws
  import opened ServiceExactness
  import opened Runtime
  import opened RuntimeLaws
  import opened CredentialAgreement

  // ----- The target in full -----

  predicate Has(d: SecretData, k: string, value: string) {
    k in d && d[k] == value
  }

  /** An entry of the source is taken over where the source has it; otherwise the target keeps its own. */
  predicate Takes(d: SecretData, k: string, source: SecretData, from: string, was: SecretData) {
    if from in source then Has(d, k, source[from]) else (k in d <==> k in was) && (k in was ==> d[k] == was[k])
  }

  /** The URL of a target; how it is put together, and that it reads back, is the concern of `Urls`. */
  function UrlOf(d: SecretData, scheme: string, host: string, port: string, tail: string): string {
    Render(scheme, Entry(d, "DATABASE_USERNAME"), Entry(d, "DATABASE_PASSWORD"), host, port, tail)
  }

  predicate HasPlace(d: SecretData, host: string, port: string, database: string) {
    Has(d, "DATABASE_HOST", host) && Has(d, "DATABASE_PORT", port) && Has(d, "DATABASE_DEFAULT_DB_NAME", database)
  }

  /** What an application finds in a target, which held `was`, after it has been filled from this source. */
  predicate Holds(f: Flavor, svc: Service, database: string, source: SecretData, was: SecretData, d: SecretData) {
    var name := svc.name + "." + svc.namespace;
    match f
    case Postgres =>
      && Takes(d, "DATABASE_USERNAME", source, "username", was)
      && Takes(d, "DATABASE_PASSWORD", source, "password", was)
      && HasPlace(d, name, "5432", database)
      && Has(d, "DATABASE_URL", UrlOf(d, "postgresql", name, "5432", "/" + database + "?sslmode=disable"))
    case MySQL =>
      && Has(d, "DATABASE_USERNAME", "moco-writable")
      && Takes(d, "DATABASE_PASSWORD", source, "WRITABLE_PASSWORD", was)
      && HasPlace(d, "moco-" + name, "3306", "moco")
      && Has(d, "DATABASE_URL", UrlOf(d, "mysql", "moco-" + name, "3306", "/moco"))
    case Mongo =>
      && Has(d, "DATABASE_USERNAME", "root")
      && Takes(d, "DATABASE_PASSWORD", source, "mongodb-root-password", was)
      && HasPlace(d, name, "27017", "admin")
      && Has(d, "DATABASE_URL", UrlOf(d, "mongodb", name, "27017", "/admin?ssl=false"))
    case ClickHouse =>
      && Has(d, "DATABASE_USERNAME", "default")
      && Takes(d, "DATABASE_PASSWORD", source, "password", was)
      && HasPlace(d, "clickhouse-" + name, "9000", "default") && Has(d, "DATABASE_HTTP_PORT", "8123")
      && Has(d, "DATABASE_URL", UrlOf(d, "clickhouse", "clickhouse-" + name, "9000", "/default"))
      && Has(d, "DATABASE_HTTP_URL", UrlOf(d, "http", "clickhouse-" + name, "8123", "/default"))
  }

  lemma NamesInFull(svc: Service)
    ensures "moco-" + svc.name + "." + svc.namespace == "moco-" + (svc.name + "." + svc.namespace)
    ensures "clickhouse-" + svc.name + "." + svc.namespace == "clickhouse-" + (svc.name + "." + svc.namespace)
  {}

  lemma FilledHolds(f: Flavor, target: SecretData, source: SecretData, svc: Service, database: string)
    ensures Holds(f, svc, database, source, target, FillTarget(f, target, source, svc, database))
  {
    UrlInFull(f, target, source, svc, database);
    NamesInFull(svc);
    hide Render;
  }

  /** The entries that are none of a target's own are still there. */
  predicate KeepsOthers(was: SecretData, now: SecretData) {
    forall k :: k in was && !IsTargetEntry(k) ==> Has(now, k, was[k])
  }

  // ----- Filling -----

  /** The object holds a secret that has been filled from this source. */
  predicate FilledAt(f: Flavor, svc: Service, database: string, source: SecretData, was: SecretData, store: Store) {
    && TargetKey(svc) in store
    && Holds(f, svc, database, source, was, Readable(store[TargetKey(svc)]))
    && KeepsOthers(was, Readable(store[TargetKey(svc)]))
  }

  lemma FilledSecretIsFilled(f: Flavor, svc: Service, database: string, source: SecretData, was: SecretData,
      store: Store)
    requires TargetKey(svc) in store
    requires store[TargetKey(svc)].obj.body == SecretBody(Some(FillTarget(f, was, source, svc, database)))
    ensures FilledAt(f, svc, database, source, was, store)
  {
    FilledHolds(f, was, source, svc, database);
    forall k | k in was && !IsTargetEntry(k)
      ensures Has(FillTarget(f, was, source, svc, database), k, was[k])
    {
      FillKeepsOthers(f, was, source, svc, database, k);
    }
    hide FillTarget, Holds, IsTargetEntry;
  }

  /**
   Filling without error: for PostgreSQL a target that could not be read is left alone, a latched one is only
   read, and any other, or a new one, holds the credentials.
   */
  lemma {:induction false} FillingSucceeds(w: World, f: Flavor, svc: Service, database: string, source: SecretData)
    requires WellFormed(w)
    ensures var (w1, read) := Call(w, Get(TargetKey(svc)));
      var (w', o) := FillFrom(w, f, svc, database, source);
      o.Ok? ==>
        if read.Failed? && f.Postgres? then w' == w1
        else if read.Got? && Latched(Readable(read.stored)) then w' == w1
        else FilledAt(f, svc, database, source, if read.Got? then Readable(read.stored) else map[], w'.store)
  {
    hide Linked, Call, Awaited, FillTarget, Latched, Pinned, Admit, FilledAt;
    var k := TargetKey(svc);
    var (w1, read) := Call(w, Get(k));
    var w' := FillFrom(w, f, svc, database, source).0;
    GetPins(w, k);
    hide StoreFits;
    if FillFrom(w, f, svc, database, source).1.Ok? && w' != w1 {
      var grant := w.setting.env(w1.clock, w1.store).grant;
      var was := if read.Got? then Readable(read.stored) else map[];
      var body := SecretBody(Some(FillTarget(f, was, source, svc, database)));
      SecretsAreAdmittedAsTheyAre(w.setting.defaults, grant, body);
      if read.Failed? {
        CreateAddsFresh(w1, k, NewObject(map[], None, body));
      } else {
        UpdateReplacesPinned(w1, k, WithData(read.stored.obj, FillTarget(f, was, source, svc, database)), read.stored);
      }
      assert k in w'.store && w'.store[k].obj.body == body;
      FilledSecretIsFilled(f, svc, database, source, was, w'.store);
    }
  }

  // ----- Copying -----

  /** What is there stays there, unless it is of a kind that may be deleted or is unstructured. */
  lemma StaysPresent(a: World, b: World, scope: set<Key>, keys: set<Key>, k: Key)
    requires Extends(a, b) && AllNew(a, b, Proper(scope)) && AllNew(a, b, Spares(keys))
    requires k in keys && !IsDeletable(k.kind) && !k.kind.Untyped? && k in a.store
    ensures k in b.store
  {
    var inv := (s: Store) => k in s;
    hide Improves, Consistent, KeepsAddress, Foreign, Linked;
    forall i | |a.log| <= i < |b.log| && inv(b.log[i].before)
      ensures inv(b.log[i].after)
    {
      assert Proper(scope)(b.log[i]) && Spares(keys)(b.log[i]);
      assert b.log[i].who.None? ==> SameAt(k, b.log[i].before, b.log[i].after);
    }
    Invariance(a, b, inv, |b.log| - |a.log|);
  }

  /**
   The target before and after a copy. A latched one is as it was, and so is one that could not be read when
   the database is PostgreSQL; any other, or a new one, holds the credentials of the source.
   */
  ghost predicate Copied(f: Flavor, svc: Service, database: string, source: SecretData, read: Reply, was: Store,
      now: Store)
  {
    var k := TargetKey(svc);
    if (read.Failed? && f.Postgres?) || (k in was && Latched(Readable(was[k])))
    then SameAt(k, was, now) && (k in was ==> read != Failed(NotFound))
    else FilledAt(f, svc, database, source, DataAt(was, k), now)
  }

  /** The database of the service: for PostgreSQL the configured one, or the usual name. */
  predicate IsDatabase(f: Flavor, svc: Service, database: string) {
    match f
    case Postgres =>
      && svc.spec.config.database.config.Some?
      && var name := svc.spec.config.database.config.value.defaultDatabaseName;
         database == if name == "" then "primarydb" else name
    case _ => database == ""
  }

  /** Where the credentials come from: the secret of the database's own operator, or the generated one. */
  predicate IsSource(f: Flavor, svc: Service, database: string, k: Key) {
    && k.kind == SecretKind && k.namespace == svc.namespace
    && match f
       case Postgres => k.name == database + "." + svc.name + ".credentials.postgresql.acid.zalan.do"
       case MySQL => k.name == "moco-" + svc.name
       case Mongo => k.name == svc.spec.serviceRef + "-mongo-secret"
       case ClickHouse => k.name == svc.spec.serviceRef + "-clickhouse-secret"
  }

  /**
   What a copy that begins in `w` makes of the target of this name, from the source that it finds within ten
   reads.
   */
  ghost predicate CopyLeaves(w: World, f: Flavor, svc: Service, was: Store, now: Store) {
    exists database, k ::
      && IsDatabase(f, svc, database) && IsSource(f, svc, database, k)
      && CopyLeavesFrom(w, f, svc, database, k, was, now)
  }

  ghost predicate CopyLeavesFrom(w: World, f: Flavor, svc: Service, database: string, k: Key, was: Store, now: Store) {
    var (w1, source) := AwaitSecret(w, k, 0);
    && source.Got? && k in w1.store && w1.store[k] == source.stored
    && Copied(f, svc, database, Readable(source.stored), Call(w1, Get(TargetKey(svc))).1, was, now)
  }

  lemma SourceIsNamed(f: Flavor, svc: Service, database: string, k: Key)
    requires CopyDatabase(f, svc) == Some(database)
    ensures IsDatabase(f, svc, database)
    ensures IsSource(f, svc, database, k) <==> k == SecretKey(svc.namespace, SourceName(f, svc, database))
  {}

  /** Filling, seen from the stores, while others leave the target alone. */
  lemma {:induction false} FillingCopies(w: World, f: Flavor, svc: Service, database: string, source: SecretData,
      was: Store)
    requires WellFormed(w) && SameAt(TargetKey(svc), was, w.store)
    requires AllNew(w, FillFrom(w, f, svc, database, source).0, Spares({TargetKey(svc)}))
    ensures var (w', o) := FillFrom(w, f, svc, database, source);
      o.Ok? ==> Copied(f, svc, database, source, Call(w, Get(TargetKey(svc))).1, was, w'.store)
  {
    hide Linked, Call, Awaited, FilledAt, Pinned, Spares, StoreFits, Latched, TargetKey, Proper, FillFrom, Extends;
    var k := TargetKey(svc);
    var (w1, read) := Call(w, Get(k));
    var (w', o) := FillFrom(w, f, svc, database, source);
    FillingSucceeds(w, f, svc, database, source);
    GetPins(w, k);
    ProperRead(w, k, {});
    FillContinues(w, f, svc, database, source);
    SparedWithin(w, w1, w', {k});
    UntouchedElsewhere(w, w1, {}, {k}, k);
    if o.Ok? && read.Failed? && !f.Postgres? {
      MissesNothing(w, f, svc, database, source);
    }
  }

  lemma FillContinues(w: World, f: Flavor, svc: Service, database: string, source: SecretData)
    ensures Extends(Call(w, Get(TargetKey(svc))).0, FillFrom(w, f, svc, database, source).0)
  {
    hide Linked, Call, FillTarget, Latched, TargetKey;
    ExtendsReflexive(Call(w, Get(TargetKey(svc))).0);
  }

  /** For the other databases a target that cannot be read is one that is not there. */
  lemma MissesNothing(w: World, f: Flavor, svc: Service, database: string, source: SecretData)
    requires FillFrom(w, f, svc, database, source).1.Ok? && !f.Postgres?
    ensures var read := Call(w, Get(TargetKey(svc))).1; read.Failed? ==> read == Failed(NotFound)
  {
    hide Linked, Call, FillTarget;
  }

  /** A copy without error, while others leave the target alone. */
  lemma {:induction false} CopySucceeds(w: World, f: Flavor, svc: Service)
    requires WellFormed(w) && AllNew(w, CopyCredentials(w, f, svc).0, Spares({TargetKey(svc)}))
    ensures CopyCredentials(w, f, svc).1.Ok? ==> CopyLeaves(w, f, svc, w.store, CopyCredentials(w, f, svc).0.store)
  {
    hide Linked, AwaitSecret, FillFrom, SourceName, Copied, Spares, Proper, StoreFits, IsDatabase, IsSource;
    var database, t := CopyDatabase(f, svc), TargetKey(svc);
    if database.Some? {
      var k := SecretKey(svc.namespace, SourceName(f, svc, database.value));
      var (w1, source) := AwaitSecret(w, k, 0);
      AwaitIsProper(w, k, 0, {});
      AwaitDelivers(w, k, 0);
      if source.Got? {
        var w' := CopyCredentials(w, f, svc).0;
        SparedWithin(w, w1, w', {t});
        UntouchedElsewhere(w, w1, {}, {t}, t);
        FillingCopies(w1, f, svc, database.value, Readable(source.stored), w.store);
        SourceIsNamed(f, svc, database.value, k);
      }
    }
  }

  // ----- After ensuring a source -----

  /** Both generated values are in the data of the source. */
  predicate IsComplete(f: Flavor, d: SecretData) {
    if f.Mongo? then "mongodb-root-password" in d && "mongodb-replica-set-key" in d
    else "password" in d && "backup-password" in d
  }

  lemma CompleteHasBoth(f: Flavor, s: Stored)
    ensures HasBoth(f, DataOf(s)) <==> IsComplete(f, Readable(s))
  {}

  /** A source that is complete is only read, and the target is left alone. */
  lemma CompleteIsLeftAlone(w: World, f: Flavor, svc: Service)
    ensures var (w1, read) := Call(w, Get(GeneratedKey(f, svc)));
      read.Got? && IsComplete(f, Readable(read.stored)) ==> EnsureSource(w, f, svc) == (w1, Ok)
  {
    hide Linked, Call, SourceName;
    var read := Call(w, Get(GeneratedKey(f, svc))).1;
    if read.Got? {
      CompleteHasBoth(f, read.stored);
    }
  }

  /** A copy for a generated source, which stays complete and is the one that is copied from. */
  lemma {:induction false} GeneratedCopySucceeds(w: World, f: Flavor, svc: Service, was: Store)
    requires WellFormed(w) && IsGenerated(f) && TargetKey(svc) != GeneratedKey(f, svc) && SourceHasBoth(w, f, svc)
    requires SameAt(TargetKey(svc), was, w.store)
    requires AllNew(w, CopyCredentials(w, f, svc).0, Spares({TargetKey(svc), GeneratedKey(f, svc)}))
    ensures var (w', o) := CopyCredentials(w, f, svc);
      && SameAt(GeneratedKey(f, svc), w.store, w'.store)
      && (o.Ok? ==> ServedBy(f, svc, was, w'.store))
  {
    hide Linked, CopyCredentials, SourceName, FilledAt, Spares, Proper, StoreFits, AwaitSecret, Latched;
    var k, t := GeneratedKey(f, svc), TargetKey(svc);
    var (w', o) := CopyCredentials(w, f, svc);
    CopyIsProper(w, f, svc, {t});
    UntouchedElsewhere(w, w', {t}, {t, k}, k);
    SparesFewer(w, w', {t}, {t, k});
    CopySucceeds(w, f, svc);
    if o.Ok? {
      SourceAsFound(w, f, svc);
      var database, source :| IsDatabase(f, svc, database) && IsSource(f, svc, database, source)
        && CopyLeavesFrom(w, f, svc, database, source, w.store, w'.store);
      SourceIsNamed(f, svc, "", source);
      hide Copied;
    }
  }

  lemma SparesFewer(a: World, b: World, small: set<Key>, large: set<Key>)
    requires small <= large && AllNew(a, b, Spares(large))
    ensures AllNew(a, b, Spares(small))
  {
    forall i | |a.log| <= i < |b.log|
      ensures Spares(small)(b.log[i])
    {
      assert Spares(large)(b.log[i]);
    }
  }

  /** The wait finds the source as it is when nobody else writes it. */
  lemma {:induction false} SourceAsFound(w: World, f: Flavor, svc: Service)
    requires WellFormed(w) && IsGenerated(f) && CopyCredentials(w, f, svc).1.Ok?
    requires AllNew(w, CopyCredentials(w, f, svc).0, Spares({TargetKey(svc), GeneratedKey(f, svc)}))
    ensures var (w1, source) := AwaitSecret(w, GeneratedKey(f, svc), 0);
      source.Got? && GeneratedKey(f, svc) in w.store && w.store[GeneratedKey(f, svc)] == source.stored
  {
    hide Linked, AwaitSecret, FillFrom, SourceName, Spares, Proper, StoreFits, TargetKey;
    var k, keys := GeneratedKey(f, svc), {TargetKey(svc), GeneratedKey(f, svc)};
    var w1 := AwaitSecret(w, k, 0).0;
    AwaitDelivers(w, k, 0);
    AwaitIsProper(w, k, 0, {});
    SparedWithin(w, w1, CopyCredentials(w, f, svc).0, keys);
    UntouchedElsewhere(w, w1, {}, keys, k);
  }

  /** The target after a copy from the generated source that is there; a latched one is as it was. */
  ghost predicate ServedBy(f: Flavor, svc: Service, was: Store, now: Store) {
    var k := TargetKey(svc);
    if k in was && Latched(Readable(was[k])) then SameAt(k, was, now)
    else FilledAt(f, svc, "", DataAt(now, GeneratedKey(f, svc)), DataAt(was, k), now)
  }

  /**
   Ensuring a generated source without error, while others leave source and target alone: the source is
   complete, and if it was not before, it belongs to the resource, and a target that the service names holds
   its credentials.
   */
  lemma {:induction false} EnsuringCopies(w: World, f: Flavor, svc: Service)
    requires WellFormed(w) && IsGenerated(f) && TargetKey(svc) != GeneratedKey(f, svc)
    requires AllNew(w, EnsureSource(w, f, svc).0, Spares({TargetKey(svc), GeneratedKey(f, svc)}))
    ensures var (w', o) := EnsureSource(w, f, svc);
      var k := GeneratedKey(f, svc);
      o.Ok? ==>
        && k in w'.store && IsComplete(f, Readable(w'.store[k]))
        && ((k in w.store && IsComplete(f, Readable(w.store[k]))) || SourceIsOwned(w', f, svc))
        && (if svc.spec.kubernetesSecret == "" || (k in w.store && IsComplete(f, Readable(w.store[k])))
            then SameAt(TargetKey(svc), w.store, w'.store) else ServedBy(f, svc, w.store, w'.store))
  {
    hide Linked, Call, Awaited, CreateSource, RepairSource, CopyCredentials, HasBoth, DataOf, SourceName, TargetKey,
      Spares, Pinned, Proper, IsComplete, ServedBy, StoreFits;
    var k, t, keys := GeneratedKey(f, svc), TargetKey(svc), {TargetKey(svc), GeneratedKey(f, svc)};
    var (w1, read) := Call(w, Get(k));
    var (w', o) := EnsureSource(w, f, svc);
    ProperRead(w, k, {});
    GetPins(w, k);
    if o.Ok? {
      EnsureContinues(w, f, svc);
      SparedWithin(w, w1, w', keys);
      UntouchedElsewhere(w, w1, {}, keys, k);
      UntouchedElsewhere(w, w1, {}, keys, t);
      if read.Got? {
        CompleteHasBoth(f, read.stored);
      }
      if read.Failed? || !HasBoth(f, DataOf(read.stored)) {
        var w2 := if read.Failed? then CreateSource(w1, f, svc).0 else RepairSource(w1, f, svc, read.stored).0;
        if read.Failed? {
          CreateSourceIsProper(w1, f, svc, {k});
          CreatedHasBoth(w1, f, svc);
        } else {
          RepairIsProper(w1, f, svc, read.stored, {k});
          RepairedHasBoth(w1, f, svc, read.stored);
        }
        CompleteHasBoth(f, w2.store[k]);
        ExtendsReflexive(w2);
        SparedWithin(w1, w2, w', keys);
        UntouchedElsewhere(w1, w2, {k}, keys, t);
        if svc.spec.kubernetesSecret != "" {
          GeneratedCopySucceeds(w2, f, svc, w.store);
        }
      }
    }
  }

  lemma EnsureContinues(w: World, f: Flavor, svc: Service)
    ensures Extends(Call(w, Get(GeneratedKey(f, svc))).0, EnsureSource(w, f, svc).0)
  {
    hide Linked, Call, CreateSource, RepairSource, CopyIfWanted, HasBoth, DataOf, SourceName;
    var (w1, read) := Call(w, Get(GeneratedKey(f, svc)));
    ExtendsReflexive(w1);
    if read.Failed? || !HasBoth(f, DataOf(read.stored)) {
      var (w2, o) := if read.Failed? then CreateSource(w1, f, svc) else RepairSource(w1, f, svc, read.stored);
      if o.Ok? {
        ExtendsTransitive(w1, w2, CopyIfWanted(w2, f, svc).0);
      }
    }
  }

  // ----- Redis -----

  /** What a filled Redis secret holds. */
  predicate HoldsRedis(svc: Service, d: SecretData) {
    var host := svc.name + "-headless." + svc.namespace;
    && Has(d, "DATABASE_USERNAME", "default") && Has(d, "DATABASE_HOST", host) && Has(d, "DATABASE_PORT", "6379")
    && "DATABASE_PASSWORD" in d && Has(d, "DATABASE_URL", UrlOf(d, "redis", host, "6379", ""))
  }

  /**
   Ensuring the Redis secret without error: with a password it is only read, a new one holds a password and
   nothing else, and one that lacked a password holds all entries. The passwords have 32 characters.
   */
  lemma {:induction false} RedisSucceeds(w: World, svc: Service)
    requires WellFormed(w)
    ensures var (w1, read) := Call(w, Get(TargetKey(svc)));
      var (w', o) := EnsureRedis(w, svc);
      o.Ok? ==>
        if read.Got? && "DATABASE_PASSWORD" in Readable(read.stored) then w' == w1
        else
          && TargetKey(svc) in w'.store
          && var d := Readable(w'.store[TargetKey(svc)]);
             && "DATABASE_PASSWORD" in d && |d["DATABASE_PASSWORD"]| == 32
             && (if read.Failed? then d.Keys == {"DATABASE_PASSWORD"}
                 else HoldsRedis(svc, d) && KeepsOthers(Readable(read.stored), d))
  {
    hide Linked, Call, Awaited, Pinned, StoreFits, RedisData, HoldsRedis, IsTargetEntry, Draw, Readable, TargetKey;
    var k := TargetKey(svc);
    var (w1, read) := Call(w, Get(k));
    var (w', o) := EnsureRedis(w, svc);
    GetPins(w, k);
    var (w2, password) := Draw(w1);
    if o.Ok? && password.Some? && !(read.Got? && PASSWORD in Readable(read.stored)) {
      DrawnLength(w1);
      if read.Failed? {
        SecretIsCreated(w2, k, map[PASSWORD := password.value]);
      } else {
        RedisDataHolds(Readable(read.stored), password.value, svc);
        PinnedStays(w1, w2, k, read.stored);
        TargetIsSecret(svc);
        SecretIsWritten(w2, k, read.stored, RedisData(Readable(read.stored), password.value, svc));
      }
    }
  }

  lemma TargetIsSecret(svc: Service)
    ensures TargetKey(svc).kind == SecretKind
  {}

  lemma RedisDataHolds(data: SecretData, password: string, svc: Service)
    ensures var d := RedisData(data, password, svc);
      HoldsRedis(svc, d) && KeepsOthers(data, d) && Has(d, "DATABASE_PASSWORD", password)
  {
    hide Render;
  }

  lemma SecretIsCreated(w: World, k: Key, data: SecretData)
    ensures var (w', made) := Call(w, Create(k, NewObject(map[], None, SecretBody(Some(data)))));
      made.Got? ==> k in w'.store && Readable(w'.store[k]) == data
  {
    hide Linked, Call, Awaited, Admit;
    SecretsAreAdmittedAsTheyAre(w.setting.defaults, w.setting.env(w.clock, w.store).grant, SecretBody(Some(data)));
    CreateAddsFresh(w, k, NewObject(map[], None, SecretBody(Some(data))));
    AdmissionKeepsForm(w.setting.defaults, w.setting.env(w.clock, w.store).grant, SecretBody(Some(data)));
  }

  lemma SecretIsWritten(w: World, k: Key, stored: Stored, data: SecretData)
    requires WellFormed(w) && Pinned(w, k, stored) && k.kind == SecretKind
    ensures var (w', written) := Call(w, Update(k, WithData(stored.obj, data), Some(stored.version)));
      written.Got? ==> k in w'.store && Readable(w'.store[k]) == data
  {
    hide Linked, Call, Awaited, Admit, Pinned, StoreFits;
    SecretsAreAdmittedAsTheyAre(w.setting.defaults, w.setting.env(w.clock, w.store).grant, SecretBody(Some(data)));
    UpdateReplacesPinned(w, k, WithData(stored.obj, data), stored);
  }

  lemma DrawnLength(w: World)
    ensures Draw(w).1.Some? ==> |Draw(w).1.value| == 32
  {}
}
