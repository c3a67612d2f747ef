/**
 The generated credentials of MongoDB and ClickHouse: when ensuring them panics, what success leaves
 behind, and why a latched target holds the password of its source.
 */
module CredentialAgreement {
  import opened Text
  import opened Types
  import opened Password
  import opened Cluster
  import opened ClusterLaws
  import opened Retry
  import opened RetryLaws
  import opened Secrets
  import opened Credentials
  import opened Trace
  import opened SecretLaws
  import opened ServiceExactness
  import opened Runs

  predicate IsGenerated(f: Flavor) {
    f.Mongo? || f.ClickHouse?
  }

  // ----- Panics -----

  lemma {:induction false} AwaitNeverPanics(w: World, k: Key, retries: nat)
    ensures AwaitSecret(w, k, retries).1 != Failed(Panicking)
    decreases SECRET_RETRIES - retries
  {
    hide Linked, Call, Extends, StoreFits, WellFormed;
    if retries < SECRET_RETRIES {
      CallErrors(w, Get(k));
      AwaitNeverPanics(Sleep(Call(w, Get(k)).0, 2), k, retries + 1);
    }
  }

  lemma {:induction false} FillNeverPanics(w: World, f: Flavor, svc: Service, database: string, source: SecretData)
    ensures FillFrom(w, f, svc, database, source).1 != Err(Panicking)
  {
    hide Linked, Call, FillTarget;
    var k := TargetKey(svc);
    var (w1, read) := Call(w, Get(k));
    CallErrors(w, Get(k));
    CallErrors(w1, Create(k, NewObject(map[], None, SecretBody(Some(FillTarget(f, map[], source, svc, database))))));
    if read.Got? {
      CallErrors(w1, Update(k, WithData(read.stored.obj, FillTarget(f, Readable(read.stored), source, svc, database)),
          Some(read.stored.version)));
    }
  }

  /** Copying panics exactly for PostgreSQL without a database configuration. */
  lemma {:induction false} CopyPanicsExactly(w: World, f: Flavor, svc: Service)
    ensures CopyCredentials(w, f, svc).1 == Err(Panicking) <==> f.Postgres? && svc.spec.config.database.config.None?
  {
    hide Linked, AwaitSecret, FillFrom, SourceName;
    if CopyDatabase(f, svc).Some? {
      var database := CopyDatabase(f, svc).value;
      var k := SecretKey(svc.namespace, SourceName(f, svc, database));
      AwaitNeverPanics(w, k, 0);
      var (w1, source) := AwaitSecret(w, k, 0);
      if source.Got? {
        FillNeverPanics(w1, f, svc, database, Readable(source.stored));
      }
    }
  }

  lemma NoCallPanics()
    ensures forall w, op :: Call(w, op).1 != Failed(Panicking)
  {
    forall w, op
      ensures Call(w, op).1 != Failed(Panicking)
    {
      CallErrors(w, op);
    }
  }

  lemma CreateNeverPanics(w: World, f: Flavor, svc: Service)
    ensures CreateSource(w, f, svc).1 != Err(Panicking)
  {
    hide Linked, Call, Draw;
    NoCallPanics();
  }

  lemma AddingPanicsExactly(w: World, data: Option<SecretData>, k: string)
    ensures AddMissing(w, data, k).1 == Err(Panicking) <==> data.None? && !w.setting.randomFails(w.draws)
    ensures AddMissing(w, data, k).1.Ok? ==> AddMissing(w, data, k).2.Some?
  {
    hide Linked, Generate;
  }

  lemma {:induction false} RepairPanicsExactly(w: World, f: Flavor, svc: Service, stored: Stored)
    ensures RepairSource(w, f, svc, stored).1 == Err(Panicking) <==>
        DataOf(stored).None? && !w.setting.randomFails(w.draws)
  {
    hide Linked, Call, AddMissing, DataOf, MainKey, SecondKey;
    var (w1, _, d1) := AddMissing(w, DataOf(stored), MainKey(f));
    AddingPanicsExactly(w, DataOf(stored), MainKey(f));
    AddingPanicsExactly(w1, d1, SecondKey(f));
    NoCallPanics();
  }

  /** Ensuring a generated secret panics exactly when it exists without any data map and randomness is available. */
  lemma {:induction false} EnsurePanicsExactly(w: World, f: Flavor, svc: Service)
    requires IsGenerated(f)
    ensures var (w1, read) := Call(w, Get(GeneratedKey(f, svc)));
      EnsureSource(w, f, svc).1 == Err(Panicking) <==>
        read.Got? && DataOf(read.stored).None? && !w1.setting.randomFails(w1.draws)
  {
    hide Linked, Call, CreateSource, RepairSource, CopyCredentials, DataOf, SourceName;
    var (w1, read) := Call(w, Get(GeneratedKey(f, svc)));
    CallErrors(w, Get(GeneratedKey(f, svc)));
    forall w2
      ensures CopyIfWanted(w2, f, svc).1 != Err(Panicking)
    {
      CopyPanicsExactly(w2, f, svc);
    }
    if read.Failed? {
      CreateNeverPanics(w1, f, svc);
    } else {
      RepairPanicsExactly(w1, f, svc, read.stored);
    }
  }

  /** The Redis secret is checked for a nil map: ensuring it never panics. */
  lemma {:induction false} RedisNeverPanics(w: World, svc: Service)
    ensures EnsureRedis(w, svc).1 != Err(Panicking)
  {
    hide Linked, Call, Draw, RedisData;
    NoCallPanics();
  }

  /**
   Success leaves a password in the Redis secret. A URL is there only if the secret existed before and
   had one already or lacked a password: one that the controller creates itself never gets a URL.
   */
  lemma {:induction false} RedisSuccess(w: World, svc: Service)
    requires WellFormed(w)
    ensures var (_, read) := Call(w, Get(TargetKey(svc)));
      var (w', o) := EnsureRedis(w, svc);
      o.Ok? ==>
        && TargetKey(svc) in w'.store && PASSWORD in Readable(w'.store[TargetKey(svc)])
        && (URL in Readable(w'.store[TargetKey(svc)]) <==>
              read.Got? && (URL in Readable(read.stored) || PASSWORD !in Readable(read.stored)))
  {
    hide Linked, Call, Awaited, Draw, Pinned, StoreFits, Render;
    var k := TargetKey(svc);
    var (w1, read) := Call(w, Get(k));
    GetPins(w, k);
    var (w2, password) := Draw(w1);
    if password.Some? {
      if read.Failed? {
        CreateAddsFresh(w2, k, NewObject(map[], None, SecretBody(Some(map[PASSWORD := password.value]))));
      } else {
        PinnedStays(w1, w2, k, read.stored);
        UpdateReplacesPinned(w2, k, WithData(read.stored.obj, RedisData(Readable(read.stored), password.value, svc)),
            read.stored);
      }
    }
  }

  // ----- The password of a latched target is that of its source -----

  /** The data of a secret; one that is not there has none. */
  function DataAt(store: Store, k: Key): SecretData {
    if k in store then Readable(store[k]) else map[]
  }

  predicate Agreed(f: Flavor, target: SecretData, source: SecretData) {
    Latched(target) ==> MainKey(f) in source && target[PASSWORD] == source[MainKey(f)]
  }

  /**
   Filling an unlatched target makes it agree with its source exactly when the source has the
   password, or the target has none of its own that would be latched instead.
   */
  lemma FillAgrees(f: Flavor, target: SecretData, source: SecretData, svc: Service)
    requires IsGenerated(f) && !Latched(target)
    ensures Agreed(f, FillTarget(f, target, source, svc, ""), source) <==> MainKey(f) in source || PASSWORD !in target
  {
    hide Render;
  }

  predicate SecretsAgree(f: Flavor, target: Key, source: Key, s: Store) {
    Agreed(f, DataAt(s, target), DataAt(s, source))
  }

  ghost function AgreementAt(f: Flavor, target: Key, source: Key): Store -> bool {
    (s: Store) => SecretsAgree(f, target, source, s)
  }

  ghost function Agreement(f: Flavor, svc: Service): Store -> bool {
    AgreementAt(f, TargetKey(svc), GeneratedKey(f, svc))
  }

  /** Nobody else writes the two secrets, and no database definition renders them. */
  ghost function SparedBoth(target: Key, source: Key): Event -> bool {
    (e: Event) =>
      && (e.who.None? ==> SameAt(target, e.before, e.after) && SameAt(source, e.before, e.after))
      && !WritesRendered(e, target) && !WritesRendered(e, source)
  }

  ghost function BothSpared(f: Flavor, svc: Service): Event -> bool {
    SparedBoth(TargetKey(svc), GeneratedKey(f, svc))
  }

  lemma BothSparedWithin(a: World, b: World, c: World, f: Flavor, svc: Service)
    requires Extends(a, b) && Extends(b, c) && AllNew(a, c, BothSpared(f, svc))
    ensures AllNew(a, b, BothSpared(f, svc)) && AllNew(b, c, BothSpared(f, svc))
  {
    hide Linked, BothSpared;
    assert forall i :: |a.log| <= i < |b.log| ==> c.log[i] == b.log[i];
  }

  lemma SourceWriteAgrees(f: Flavor, svc: Service, e: Event)
    requires IsGenerated(f) && TargetKey(svc) != GeneratedKey(f, svc)
    requires Standard({GeneratedKey(f, svc)}, e)
    ensures Preserves(Agreement(f, svc))(e)
  {
    hide Consistent, KeepsAddress, Readable, Latched, SourceName;
    var k := GeneratedKey(f, svc);
    if e.op.Update? && e.reply.Got? {
      assert Keeps(Readable(e.before[k]), Readable(e.reply.stored), MainKey(f));
    }
  }

  /** Requests for the source secret only, and for nothing at all, keep the agreement. */
  lemma {:induction false} SourceStretchAgrees(a: World, b: World, f: Flavor, svc: Service, scope: set<Key>)
    requires IsGenerated(f) && TargetKey(svc) != GeneratedKey(f, svc) && scope <= {GeneratedKey(f, svc)}
    requires Extends(a, b) && AllNew(a, b, Proper(scope)) && AllNew(a, b, BothSpared(f, svc))
    requires Agreement(f, svc)(a.store)
    ensures AllNew(a, b, Around(Agreement(f, svc))) && Agreement(f, svc)(b.store)
  {
    ProperWidens(a, b, scope, {GeneratedKey(f, svc)});
    hide Standard, Foreign, Linked, Agreed, Readable, SourceName;
    forall i | |a.log| <= i < |b.log|
      ensures Preserves(Agreement(f, svc))(b.log[i])
    {
      assert Proper({GeneratedKey(f, svc)})(b.log[i]) && BothSpared(f, svc)(b.log[i]);
      if b.log[i].who.Some? {
        SourceWriteAgrees(f, svc, b.log[i]);
      }
    }
    Preserved(a, b, Agreement(f, svc));
  }

  predicate SourceIs(f: Flavor, svc: Service, source: SecretData, s: Store) {
    GeneratedKey(f, svc) in s && Readable(s[GeneratedKey(f, svc)]) == source
  }

  /** The agreement, with the data of the source known. */
  ghost function AgreementWith(f: Flavor, svc: Service, source: SecretData): Store -> bool {
    (s: Store) => SecretsAgree(f, TargetKey(svc), GeneratedKey(f, svc), s) && SourceIs(f, svc, source, s)
  }

  /** Reads keep both, and so does a call whose own request does. */
  lemma {:induction false} CallAgrees(w: World, op: Op, f: Flavor, svc: Service, source: SecretData)
    requires AllNew(w, Call(w, op).0, BothSpared(f, svc)) && AgreementWith(f, svc, source)(w.store)
    requires Preserves(AgreementWith(f, svc, source))(Call(w, op).0.log[|Awaited(w).log|])
    ensures AllNew(w, Call(w, op).0, Around(AgreementWith(f, svc, source)))
        && AgreementWith(f, svc, source)(Call(w, op).0.store)
  {
    var p := (e: Event) => BothSpared(f, svc)(e) ==> Preserves(AgreementWith(f, svc, source))(e);
    ForeignAgrees(f, svc, source);
    hide Call, Awaited, Foreign, Preserves, BothSpared, Linked;
    CallIs(w, op, p);
    forall i | |w.log| <= i < |Call(w, op).0.log|
      ensures Preserves(AgreementWith(f, svc, source))(Call(w, op).0.log[i])
    {
      assert p(Call(w, op).0.log[i]) && BothSpared(f, svc)(Call(w, op).0.log[i]);
    }
    Preserved(w, Call(w, op).0, AgreementWith(f, svc, source));
  }

  lemma ForeignAgrees(f: Flavor, svc: Service, source: SecretData)
    ensures forall e :: Foreign(e) && BothSpared(f, svc)(e) ==> Preserves(AgreementWith(f, svc, source))(e)
  {
    hide Agreed, Readable, SourceName;
  }

  lemma TargetWriteAgrees(f: Flavor, svc: Service, source: SecretData, e: Event)
    requires IsGenerated(f) && TargetKey(svc) != GeneratedKey(f, svc) && MainKey(f) in source
    requires e.reply.Failed? ==> e.after == e.before
    requires e.reply.Got? ==>
      && e.after == e.before[TargetKey(svc) := e.reply.stored]
      && !Latched(DataAt(e.before, TargetKey(svc)))
      && e.reply.stored.obj.body == SecretBody(Some(FillTarget(f, DataAt(e.before, TargetKey(svc)), source, svc, "")))
    ensures Preserves(AgreementWith(f, svc, source))(e)
  {
    hide SourceName, FillTarget, Latched;
    if e.reply.Got? {
      FillAgrees(f, DataAt(e.before, TargetKey(svc)), source, svc);
    }
    hide MainKey, IsGenerated;
  }

  lemma {:induction false} FillFromAgrees(w: World, f: Flavor, svc: Service, source: SecretData)
    requires WellFormed(w) && IsGenerated(f) && TargetKey(svc) != GeneratedKey(f, svc) && MainKey(f) in source
    requires AgreementWith(f, svc, source)(w.store) && AllNew(w, FillFrom(w, f, svc, "", source).0, BothSpared(f, svc))
    ensures var w' := FillFrom(w, f, svc, "", source).0;
      AllNew(w, w', Around(AgreementWith(f, svc, source))) && AgreementWith(f, svc, source)(w'.store)
  {
    hide Linked, Call, Awaited, FillTarget, Latched, AgreementWith, Pinned, BothSpared, Around, IsGenerated,
      GeneratedKey, StoreFits;
    var k := TargetKey(svc);
    var (w1, read) := Call(w, Get(k));
    var w' := FillFrom(w, f, svc, "", source).0;
    ExtendsReflexive(w1);
    BothSparedWithin(w, w1, w', f, svc);
    FailureIsQuiet(w, Get(k));
    CallAgrees(w, Get(k), f, svc, source);
    GetPins(w, k);
    if read == Failed(NotFound) && !f.Postgres? {
      var newSecret := NewObject(map[], None, SecretBody(Some(FillTarget(f, map[], source, svc, ""))));
      FailureIsQuiet(w1, Create(k, newSecret));
      CreateAddsFresh(w1, k, newSecret);
      assert !Latched(map[]) by { NothingIsNotLatched(); }
      TargetWriteAgrees(f, svc, source, Call(w1, Create(k, newSecret)).0.log[|Awaited(w1).log|]);
      CallAgrees(w1, Create(k, newSecret), f, svc, source);
      AllNewTransitive(w, w1, w', Around(AgreementWith(f, svc, source)));
    } else if read.Got? && !Latched(Readable(read.stored)) {
      var filled := WithData(read.stored.obj, FillTarget(f, Readable(read.stored), source, svc, ""));
      var op := Update(k, filled, Some(read.stored.version));
      FailureIsQuiet(w1, op);
      UpdateReplacesPinned(w1, k, filled, read.stored);
      TargetWriteAgrees(f, svc, source, Call(w1, op).0.log[|Awaited(w1).log|]);
      CallAgrees(w1, op, f, svc, source);
      AllNewTransitive(w, w1, w', Around(AgreementWith(f, svc, source)));
    }
  }

  lemma NothingIsNotLatched()
    ensures !Latched(map[])
  {}

  /** Requests for other objects keep the agreement and the source. */
  lemma ElsewhereAgrees(a: World, b: World, scope: set<Key>, f: Flavor, svc: Service, source: SecretData)
    requires Extends(a, b) && AllNew(a, b, Proper(scope)) && AllNew(a, b, BothSpared(f, svc))
    requires TargetKey(svc) !in scope && GeneratedKey(f, svc) !in scope && AgreementWith(f, svc, source)(a.store)
    ensures AllNew(a, b, Around(AgreementWith(f, svc, source))) && AgreementWith(f, svc, source)(b.store)
  {
    ForeignAgrees(f, svc, source);
    hide Foreign, Linked, SecretsAgree, SourceIs, BothSpared, Standard, TargetKey, GeneratedKey;
    forall i | |a.log| <= i < |b.log|
      ensures Preserves(AgreementWith(f, svc, source))(b.log[i])
    {
      var e := b.log[i];
      assert Proper(scope)(e) && BothSpared(f, svc)(e);
      if e.who.Some? {
        StandardStaysInScope(scope, e, TargetKey(svc));
        StandardStaysInScope(scope, e, GeneratedKey(f, svc));
        SameSecretsAgree(f, svc, source, e);
      }
    }
    Preserved(a, b, AgreementWith(f, svc, source));
  }

  lemma SameSecretsAgree(f: Flavor, svc: Service, source: SecretData, e: Event)
    requires SameAt(TargetKey(svc), e.before, e.after) && SameAt(GeneratedKey(f, svc), e.before, e.after)
    ensures Preserves(AgreementWith(f, svc, source))(e)
  {
    hide Agreed, Readable, SourceName;
  }

  lemma {:induction false} AwaitDelivers(w: World, k: Key, retries: nat)
    requires WellFormed(w)
    ensures var (w', read) := AwaitSecret(w, k, retries);
      read.Got? ==> k in w'.store && w'.store[k] == read.stored
    decreases SECRET_RETRIES - retries
  {
    hide Linked, Call, Awaited, StoreFits, Fits, Pinned;
    if retries < SECRET_RETRIES {
      GetPins(w, k);
      AwaitDelivers(Sleep(Call(w, Get(k)).0, 2), k, retries + 1);
    }
  }

  lemma WithoutSource(a: World, b: World, f: Flavor, svc: Service, source: SecretData)
    requires AllNew(a, b, Around(AgreementWith(f, svc, source)))
    ensures AllNew(a, b, Around(Agreement(f, svc)))
  {
    hide SecretsAgree, SourceIs;
    forall i | |a.log| <= i < |b.log|
      ensures Around(Agreement(f, svc))(b.log[i])
    {
      assert Around(AgreementWith(f, svc, source))(b.log[i]);
    }
  }

  ghost predicate SourceHasBoth(w: World, f: Flavor, svc: Service) {
    GeneratedKey(f, svc) in w.store && HasBoth(f, DataOf(w.store[GeneratedKey(f, svc)]))
  }

  /** A copy made while the source has its password keeps the agreement, wherever it fails. */
  lemma {:induction false} CopyAgrees(w: World, f: Flavor, svc: Service)
    requires WellFormed(w) && IsGenerated(f) && TargetKey(svc) != GeneratedKey(f, svc) && SourceHasBoth(w, f, svc)
    requires Agreement(f, svc)(w.store) && AllNew(w, CopyCredentials(w, f, svc).0, BothSpared(f, svc))
    ensures var w' := CopyCredentials(w, f, svc).0;
      && AllNew(w, w', Around(Agreement(f, svc))) && Agreement(f, svc)(w'.store) && SourceHasBoth(w', f, svc)
  {
    hide Linked, AwaitSecret, FillFrom, SourceName, SecretsAgree, BothSpared, Around, TargetKey;
    var k, source := GeneratedKey(f, svc), Readable(w.store[GeneratedKey(f, svc)]);
    var w' := CopyCredentials(w, f, svc).0;
    var (w1, read) := AwaitSecret(w, k, 0);
    ExtendsReflexive(w1);
    BothSparedWithin(w, w1, w', f, svc);
    AwaitIsProper(w, k, 0, {});
    ElsewhereAgrees(w, w1, {}, f, svc, source);
    AwaitDelivers(w, k, 0);
    if read.Got? {
      FillFromAgrees(w1, f, svc, source);
      AllNewTransitive(w, w1, w', Around(AgreementWith(f, svc, source)));
    }
    WithoutSource(w, w', f, svc, source);
    assert AgreementWith(f, svc, source)(w'.store);
  }

  lemma {:induction false} CopyIfWantedAgrees(w: World, f: Flavor, svc: Service)
    requires WellFormed(w) && IsGenerated(f) && TargetKey(svc) != GeneratedKey(f, svc) && SourceHasBoth(w, f, svc)
    requires Agreement(f, svc)(w.store) && AllNew(w, CopyIfWanted(w, f, svc).0, BothSpared(f, svc))
    ensures var w' := CopyIfWanted(w, f, svc).0;
      && AllNew(w, w', Around(Agreement(f, svc))) && Agreement(f, svc)(w'.store) && SourceHasBoth(w', f, svc)
  {
    hide Linked, CopyCredentials, TargetKey, GeneratedKey, SecretsAgree, BothSpared, Around, HasBoth;
    if svc.spec.kubernetesSecret != "" {
      CopyAgrees(w, f, svc);
    }
  }

  /** The source carries the controller reference to the custom resource. */
  ghost predicate SourceIsOwned(w: World, f: Flavor, svc: Service) {
    GeneratedKey(f, svc) in w.store && w.store[GeneratedKey(f, svc)].obj.controller == Some(OwnerOf(svc))
  }

  lemma {:induction false} CreatedHasBoth(w: World, f: Flavor, svc: Service)
    ensures CreateSource(w, f, svc).1.Ok? ==>
      SourceHasBoth(CreateSource(w, f, svc).0, f, svc) && SourceIsOwned(CreateSource(w, f, svc).0, f, svc)
  {
    hide Linked, Call, Awaited, Draw, SourceName, AsStated, AdmitNet;
    var w1 := Draw(w).0;
    var w2 := Draw(w1).0;
    if Draw(w).1.Some? && Draw(w1).1.Some? {
      var data := map[MainKey(f) := Draw(w).1.value, SecondKey(f) := Draw(w1).1.value];
      CreateAddsFresh(w2, GeneratedKey(f, svc), NewObject(map[], Some(OwnerOf(svc)), SecretBody(Some(data))));
    }
  }

  lemma {:induction false} RepairedHasBoth(w: World, f: Flavor, svc: Service, stored: Stored)
    requires WellFormed(w) && IsGenerated(f) && Pinned(w, GeneratedKey(f, svc), stored) && stored.obj.body.SecretBody?
    ensures RepairSource(w, f, svc, stored).1.Ok? ==>
      && SourceHasBoth(RepairSource(w, f, svc, stored).0, f, svc)
      && SourceIsOwned(RepairSource(w, f, svc, stored).0, f, svc)
  {
    hide Linked, Call, Awaited, AddMissing, SourceName, Improves, DataOf;
    var (w1, o1, d1) := AddMissing(w, DataOf(stored), MainKey(f));
    AddMissingImproves(w, DataOf(stored), MainKey(f));
    if o1.Ok? {
      var (w2, o2, d2) := AddMissing(w1, d1, SecondKey(f));
      AddMissingImproves(w1, d1, SecondKey(f));
      if o2.Ok? && MayOwn(svc, stored.obj.controller) {
        RepairWrites(w2, f, svc, stored, d1, d2);
      }
    }
  }

  lemma {:induction false} RepairWrites(w: World, f: Flavor, svc: Service, stored: Stored, d1: Option<SecretData>,
      d2: Option<SecretData>)
    requires WellFormed(w) && IsGenerated(f) && Pinned(w, GeneratedKey(f, svc), stored) && stored.obj.body.SecretBody?
    requires d1.Some? && d2.Some? && MainKey(f) in d1.value && SecondKey(f) in d2.value && Improves(d1.value, d2.value)
    ensures var (w', written) := Call(w,
        Update(GeneratedKey(f, svc), Adopt(svc, stored.obj.(body := SecretBody(d2))), Some(stored.version)));
      written.Got? ==> SourceHasBoth(w', f, svc) && SourceIsOwned(w', f, svc)
  {
    hide Linked, Call, Awaited, SourceName, Consistent, StoreFits, Pinned;
    assert Keeps(d1.value, d2.value, MainKey(f));
    UpdateReplacesPinned(w, GeneratedKey(f, svc), Adopt(svc, stored.obj.(body := SecretBody(d2))), stored);
  }

  /**
   Ensuring the source keeps the agreement in every state, wherever it fails; success leaves both
   generated keys in the source.
   */
  lemma {:induction false} EnsureAgrees(w: World, f: Flavor, svc: Service)
    requires WellFormed(w) && IsGenerated(f) && TargetKey(svc) != GeneratedKey(f, svc)
    requires Agreement(f, svc)(w.store) && AllNew(w, EnsureSource(w, f, svc).0, BothSpared(f, svc))
    ensures var (w', o) := EnsureSource(w, f, svc);
      && AllNew(w, w', Around(Agreement(f, svc))) && Agreement(f, svc)(w'.store)
      && (o.Ok? ==> SourceHasBoth(w', f, svc))
  {
    hide Linked, Call, Awaited, CreateSource, RepairSource, CopyIfWanted, HasBoth, DataOf, SourceName, TargetKey,
      SecretsAgree, BothSpared, Around, Pinned;
    var k, p := GeneratedKey(f, svc), Around(Agreement(f, svc));
    var (w1, read) := Call(w, Get(k));
    var w' := EnsureSource(w, f, svc).0;
    ProperRead(w, k, {});
    GetPins(w, k);
    ExtendsReflexive(w1);
    var (w2, o) := if read.Failed? then CreateSource(w1, f, svc) else RepairSource(w1, f, svc, read.stored);
    var goesOn := read == Failed(NotFound) || (read.Got? && !HasBoth(f, DataOf(read.stored)));
    ExtendsReflexive(w2);
    if goesOn {
      ExtendsTransitive(w1, w2, w');
    }
    BothSparedWithin(w, w1, w', f, svc);
    SourceStretchAgrees(w, w1, f, svc, {});
    if goesOn {
      BothSparedWithin(w1, w2, w', f, svc);
      if read.Failed? {
        CreateSourceIsProper(w1, f, svc, {k});
        CreatedHasBoth(w1, f, svc);
      } else {
        RepairIsProper(w1, f, svc, read.stored, {k});
        RepairedHasBoth(w1, f, svc, read.stored);
      }
      SourceStretchAgrees(w1, w2, f, svc, {k});
      AllNewTransitive(w, w1, w2, p);
      if o.Ok? {
        CopyIfWantedAgrees(w2, f, svc);
        AllNewTransitive(w, w2, w', p);
      }
    }
  }
}
