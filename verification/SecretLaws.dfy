/** The requests of the credential functions, under any interference and any faults. */
module SecretLaws {
  import opened Text
  import opened Types
  import opened Password
  import opened Cluster
  import opened ClusterLaws
  import opened Retry
  import opened RetryLaws
  import opened Secrets
  import opened Credentials
  import opened Trace

  lemma {:induction false} AwaitIsProper(w: World, k: Key, retries: nat, scope: set<Key>)
    ensures AllNew(w, AwaitSecret(w, k, retries).0, Proper(scope))
    decreases SECRET_RETRIES - retries
  {
    hide Linked, Call, Awaited, Proper;
    if retries < SECRET_RETRIES {
      ProperRead(w, k, scope);
      var w1 := Call(w, Get(k)).0;
      if Call(w, Get(k)).1 == Failed(NotFound) {
        AwaitIsProper(Sleep(w1, 2), k, retries + 1, scope);
        ExtendsTransitive(w1, Sleep(w1, 2), AwaitSecret(w, k, retries).0);
        AllNewTransitive(w, w1, AwaitSecret(w, k, retries).0, Proper(scope));
      }
    }
  }

  lemma FillFromIsProper(w: World, f: Flavor, svc: Service, database: string, source: SecretData, scope: set<Key>)
    requires WellFormed(w) && TargetKey(svc) in scope
    ensures AllNew(w, FillFrom(w, f, svc, database, source).0, Proper(scope))
  {
    hide Linked, Call, Awaited, Proper, FillTarget, Improves, Consistent, Latched;
    var k := TargetKey(svc);
    var (w1, read) := Call(w, Get(k));
    ProperRead(w, k, scope);
    GetPins(w, k);
    var w' := FillFrom(w, f, svc, database, source).0;
    if read == Failed(NotFound) && !f.Postgres? {
      FillIsConsistent(f, map[], source, svc, database);
      ProperCreate(w1, k, NewObject(map[], None, SecretBody(Some(FillTarget(f, map[], source, svc, database)))), scope);
      AllNewTransitive(w, w1, w', Proper(scope));
    } else if read.Got? && !Latched(Readable(read.stored)) {
      var data := Readable(read.stored);
      FillImproves(f, data, source, svc, database);
      ProperUpdate(w1, k, WithData(read.stored.obj, FillTarget(f, data, source, svc, database)), read.stored, scope);
      AllNewTransitive(w, w1, w', Proper(scope));
    }
  }

  lemma {:induction false} CopyIsProper(w: World, f: Flavor, svc: Service, scope: set<Key>)
    requires WellFormed(w) && TargetKey(svc) in scope
    ensures AllNew(w, CopyCredentials(w, f, svc).0, Proper(scope))
  {
    hide Linked, AwaitSecret, FillFrom, SourceName;
    var database := CopyDatabase(f, svc);
    if database.Some? {
      var k := SecretKey(svc.namespace, SourceName(f, svc, database.value));
      var (w1, source) := AwaitSecret(w, k, 0);
      AwaitIsProper(w, k, 0, scope);
      if source.Got? {
        FillFromIsProper(w1, f, svc, database.value, Readable(source.stored), scope);
        AllNewTransitive(w, w1, CopyCredentials(w, f, svc).0, Proper(scope));
      }
    }
  }

  lemma {:induction false} CreateSourceIsProper(w: World, f: Flavor, svc: Service, scope: set<Key>)
    requires WellFormed(w) && GeneratedKey(f, svc) in scope
    ensures AllNew(w, CreateSource(w, f, svc).0, Proper(scope))
  {
    hide Linked, Call, Awaited, Proper, RandomBytes, Generate;
    var (w1, main) := Draw(w);
    if main.Some? {
      var (w2, second) := Draw(w1);
      if second.Some? {
        var data := map[MainKey(f) := main.value, SecondKey(f) := second.value];
        assert !Latched(data);
        ProperCreate(w2, GeneratedKey(f, svc), NewObject(map[], Some(OwnerOf(svc)), SecretBody(Some(data))), scope);
      }
    }
  }

  lemma AddMissingImproves(w: World, data: Option<SecretData>, k: string)
    requires !IsTargetEntry(k)
    ensures var (_, o, d) := AddMissing(w, data, k);
      o.Ok? ==> data.Some? && d.Some? && k in d.value && Improves(data.value, d.value)
  {
    hide Draw, Improves;
    if data.Some? {
      if k in data.value {
        assert Improves(data.value, data.value) by { ImprovesReflexive(data.value); }
      } else if Draw(w).1.Some? {
        AddedKeyImproves(data.value, k, Draw(w).1.value);
      }
    }
  }

  lemma ImprovesReflexive(d: SecretData)
    ensures Improves(d, d)
  {}

  lemma {:induction false} RepairIsProper(w: World, f: Flavor, svc: Service, stored: Stored, scope: set<Key>)
    requires WellFormed(w) && GeneratedKey(f, svc) in scope && stored.obj.body.SecretBody?
    requires Pinned(w, GeneratedKey(f, svc), stored)
    ensures AllNew(w, RepairSource(w, f, svc, stored).0, Proper(scope))
  {
    hide Linked, Call, Awaited, Proper, Improves, AddMissing, SourceName, DataOf;
    var (w1, o1, d1) := AddMissing(w, DataOf(stored), MainKey(f));
    AddMissingImproves(w, DataOf(stored), MainKey(f));
    if o1.Ok? {
      var (w2, o2, d2) := AddMissing(w1, d1, SecondKey(f));
      AddMissingImproves(w1, d1, SecondKey(f));
      if o2.Ok? && MayOwn(svc, stored.obj.controller) {
        ImprovesTransitive(DataOf(stored).value, d1.value, d2.value);
        var repaired := Adopt(svc, stored.obj.(body := SecretBody(d2)));
        ProperUpdate(w2, GeneratedKey(f, svc), repaired, stored, scope);
      }
    }
  }

  lemma {:induction false} CopyIfWantedIsProper(w: World, f: Flavor, svc: Service, scope: set<Key>)
    requires WellFormed(w) && TargetKey(svc) in scope
    ensures AllNew(w, CopyIfWanted(w, f, svc).0, Proper(scope))
  {
    hide Linked, CopyCredentials;
    CopyIsProper(w, f, svc, scope);
  }

  lemma {:induction false} EnsureSourceIsProper(w: World, f: Flavor, svc: Service, scope: set<Key>)
    requires WellFormed(w) && TargetKey(svc) in scope && GeneratedKey(f, svc) in scope
    ensures AllNew(w, EnsureSource(w, f, svc).0, Proper(scope))
  {
    hide Linked, Call, Awaited, Proper, CreateSource, RepairSource, CopyIfWanted, HasBoth, DataOf, SourceName;
    var k := GeneratedKey(f, svc);
    var (w1, read) := Call(w, Get(k));
    ProperRead(w, k, scope);
    GetPins(w, k);
    if read == Failed(NotFound) || (read.Got? && !HasBoth(f, DataOf(read.stored))) {
      var (w2, o) := if read.Failed? then CreateSource(w1, f, svc) else RepairSource(w1, f, svc, read.stored);
      if read.Failed? {
        CreateSourceIsProper(w1, f, svc, scope);
      } else {
        RepairIsProper(w1, f, svc, read.stored, scope);
      }
      AllNewTransitive(w, w1, w2, Proper(scope));
      if o.Ok? {
        CopyIfWantedIsProper(w2, f, svc, scope);
        AllNewTransitive(w, w2, EnsureSource(w, f, svc).0, Proper(scope));
      }
    }
  }

  lemma {:induction false} RedisIsProper(w: World, svc: Service, scope: set<Key>)
    requires WellFormed(w) && TargetKey(svc) in scope
    ensures AllNew(w, EnsureRedis(w, svc).0, Proper(scope))
  {
    hide Linked, Call, Awaited, Proper, Draw, RedisData, Improves, Consistent;
    var k := TargetKey(svc);
    var (w1, read) := Call(w, Get(k));
    ProperRead(w, k, scope);
    GetPins(w, k);
    var (w2, password) := Draw(w1);
    if password.Some? {
      if read == Failed(NotFound) {
        var data := map[PASSWORD := password.value];
        assert Consistent(data) by { UnlatchedIsConsistent(data); }
        ProperCreate(w2, k, NewObject(map[], None, SecretBody(Some(data))), scope);
      } else if read.Got? && PASSWORD !in Readable(read.stored) {
        RedisImproves(Readable(read.stored), password.value, svc);
        ProperUpdate(w2, k, WithData(read.stored.obj, RedisData(Readable(read.stored), password.value, svc)),
            read.stored, scope);
      }
    }
    AllNewThrough(w, w1, w2, EnsureRedis(w, svc).0, Proper(scope));
  }

  lemma UnlatchedIsConsistent(d: SecretData)
    requires !Latched(d)
    ensures Consistent(d)
  {}

  /** A draw between two calls leaves no trace. */
  lemma AllNewThrough(a: World, b: World, c: World, d: World, p: Event -> bool)
    requires Extends(a, b) && Extends(b, c) && b.log == c.log
    requires d == b || d == c || (Extends(c, d) && AllNew(c, d, p))
    requires AllNew(a, b, p)
    ensures AllNew(a, d, p)
  {
    if d != b && d != c {
      AllNewTransitive(a, c, d, p);
    }
  }

  // ----- Waiting for a source -----

  predicate IsRead(e: Event) {
    e.who.Some? && e.op.Get?
  }

  /**
   The wait asks at most ten times and sleeps two seconds after each miss; it ends with NotFound
   exactly if all attempts were misses.
   */
  lemma {:induction false} AwaitIsBounded(w: World, k: Key, retries: nat) returns (misses: nat)
    requires retries <= 10
    ensures var (w', read) := AwaitSecret(w, k, retries);
      && misses <= 10 - retries
      && w'.slept == w.slept + 2 * misses
      && (read == Failed(NotFound) <==> misses == 10 - retries)
      && Count(w'.log, IsRead) == Count(w.log, IsRead) + misses + (if read == Failed(NotFound) then 0 else 1)
    decreases SECRET_RETRIES - retries
  {
    hide Linked, Call, Awaited, Count, StoreFits, Extends;
    misses := 0;
    if retries < SECRET_RETRIES {
      CallCounts(w, Get(k), IsRead);
      var (w1, read) := Call(w, Get(k));
      if read == Failed(NotFound) {
        var rest := AwaitIsBounded(Sleep(w1, 2), k, retries + 1);
        misses := rest + 1;
      }
    }
  }

  // ----- The connection URLs in full -----

  lemma TailsInFull()
    ensures "/" + "moco" + "" == "/moco" && "/" + "admin" + "?ssl=false" == "/admin?ssl=false"
        && "/" + "default" + "" == "/default"
  {}

  lemma FilledUrlIs(f: Flavor, target: SecretData, source: SecretData, svc: Service, database: string)
    ensures var d := FillTarget(f, target, source, svc, database);
      && d[URL] == Render(Scheme(f), Entry(d, USERNAME), Entry(d, PASSWORD), HostOf(f, svc), PortOf(f), "/"
            + DatabaseOf(f, database) + Query(f))
      && (f.ClickHouse? ==>
            d[HTTP_URL] == Render("http", Entry(d, USERNAME), Entry(d, PASSWORD), HostOf(f, svc), "8123", "/default"))
      && Entry(d, USERNAME) == Entry(WithLogin(f, target, source), USERNAME)
  {
    hide Render, WithLogin, HostOf, PortOf, DatabaseOf, Query, Scheme;
    var d, t := FillTarget(f, target, source, svc, database), WithLogin(f, target, source);
    assert Entry(d, USERNAME) == Entry(t, USERNAME) && Entry(d, PASSWORD) == Entry(t, PASSWORD);
  }

  /** What an application finds in a filled target, flavour by flavour. */
  lemma UrlInFull(f: Flavor, target: SecretData, source: SecretData, svc: Service, database: string)
    ensures var d := FillTarget(f, target, source, svc, database);
      var password, host := Entry(d, PASSWORD), svc.name + "." + svc.namespace;
      match f
      case Postgres => d[URL] ==
          Render("postgresql", Entry(d, USERNAME), password, host, "5432", "/" + database + "?sslmode=disable")
      case MySQL => d[URL] == Render("mysql", "moco-writable", password, "moco-" + host, "3306", "/moco")
      case Mongo => d[URL] == Render("mongodb", "root", password, host, "27017", "/admin?ssl=false")
      case ClickHouse =>
        && d[URL] == Render("clickhouse", "default", password, "clickhouse-" + host, "9000", "/default")
        && d[HTTP_URL] == Render("http", "default", password, "clickhouse-" + host, "8123", "/default")
  {
    FilledUrlIs(f, target, source, svc, database);
    TailsInFull();
    hide Render, FillTarget;
    assert "moco-" + svc.name + "." + svc.namespace == "moco-" + (svc.name + "." + svc.namespace);
    assert "clickhouse-" + svc.name + "." + svc.namespace == "clickhouse-" + (svc.name + "." + svc.namespace);
  }
}
