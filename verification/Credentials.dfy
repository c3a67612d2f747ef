/**
 What one write may do to the data of a secret: generated values are written once, a latched target
 is never changed, and a latched URL is the rendering of its own entries.
 */
module Credentials {
  import opened Text
  import opened Types
  import opened Cluster
  import opened Secrets

  // ----- What one write may do to a secret -----

  predicate IsTargetEntry(k: string) {
    k == USERNAME || k == PASSWORD || k == URL || k == HTTP_URL || k == DB_NAME || k == PORT || k == HTTP_PORT
        || k == HOST
  }

  /** The URL of a database, rendered from the entries beside it. */
  function OwnUrl(f: Flavor, d: SecretData): string {
    Render(Scheme(f), Entry(d, USERNAME), Entry(d, PASSWORD), Entry(d, HOST), Entry(d, PORT),
           "/" + Entry(d, DB_NAME) + Query(f))
  }

  /** ClickHouse has a second one, for its HTTP interface. */
  function OwnHttpUrl(d: SecretData): string {
    Render("http", Entry(d, USERNAME), Entry(d, PASSWORD), Entry(d, HOST), Entry(d, HTTP_PORT), "/" + Entry(d, DB_NAME))
  }

  /** The secret renders itself: its URL, and for ClickHouse the second one too. */
  predicate RendersItself(f: Flavor, d: SecretData)
    requires URL in d
  {
    d[URL] == OwnUrl(f, d) && (f.ClickHouse? ==> HTTP_URL in d && d[HTTP_URL] == OwnHttpUrl(d))
  }

  function OwnRedisUrl(d: SecretData): string {
    Render("redis", Entry(d, USERNAME), Entry(d, PASSWORD), Entry(d, HOST), Entry(d, PORT), "")
  }

  /** Once latched, the URLs render the secret's own user, password, host, port and database. */
  ghost predicate Consistent(d: SecretData) {
    Latched(d) ==> d[URL] == OwnRedisUrl(d) || exists f :: RendersItself(f, d)
  }

  ghost predicate Keeps(d: SecretData, d': SecretData, k: string) {
    k in d ==> k in d' && d'[k] == d[k]
  }

  /**
   No entry is lost, and none changes but a target's own; those are never changed either once the secret is
   latched.
   */
  ghost predicate Improves(d: SecretData, d': SecretData) {
    && (forall k :: k in d ==> k in d')
    && (forall k :: !IsTargetEntry(k) ==> Keeps(d, d', k))
    && (Latched(d) ==> forall k :: Keeps(d, d', k))
    && (Consistent(d) ==> Consistent(d'))
  }

  // ----- The data -----

  lemma WithLoginKeeps(f: Flavor, target: SecretData, source: SecretData)
    ensures forall k :: k != USERNAME && k != PASSWORD ==> (k in WithLogin(f, target, source) <==> k in target)
    ensures forall k :: k != USERNAME && k != PASSWORD ==> Keeps(target, WithLogin(f, target, source), k)
  {}

  lemma FillKeepsOthers(f: Flavor, target: SecretData, source: SecretData, svc: Service, database: string, k: string)
    requires !IsTargetEntry(k)
    ensures Keeps(target, FillTarget(f, target, source, svc, database), k)
  {
    WithLoginKeeps(f, target, source);
    hide WithLogin, Render, Entry;
    assert Keeps(target, WithLogin(f, target, source), k);
  }

  lemma FillIsConsistent(f: Flavor, target: SecretData, source: SecretData, svc: Service, database: string)
    ensures var d := FillTarget(f, target, source, svc, database);
      URL in d && RendersItself(f, d) && Consistent(d)
  {
    hide WithLogin, Render;
    var t, d := WithLogin(f, target, source), FillTarget(f, target, source, svc, database);
    assert Entry(d, USERNAME) == Entry(t, USERNAME) && Entry(d, PASSWORD) == Entry(t, PASSWORD);
    assert Entry(d, HOST) == HostOf(f, svc) && Entry(d, PORT) == PortOf(f)
        && Entry(d, DB_NAME) == DatabaseOf(f, database);
    assert f.ClickHouse? ==> Entry(d, HTTP_PORT) == "8123" && "/" + DatabaseOf(f, database) == "/default";
  }

  lemma FillLosesNothing(f: Flavor, target: SecretData, source: SecretData, svc: Service, database: string)
    ensures forall k :: k in target ==> k in FillTarget(f, target, source, svc, database)
  {
    hide Render, Entry;
  }

  lemma FillImproves(f: Flavor, target: SecretData, source: SecretData, svc: Service, database: string)
    requires !Latched(target)
    ensures Improves(target, FillTarget(f, target, source, svc, database))
  {
    FillLosesNothing(f, target, source, svc, database);
    hide FillTarget, Consistent, Keeps;
    FillIsConsistent(f, target, source, svc, database);
    forall k | !IsTargetEntry(k) {
      FillKeepsOthers(f, target, source, svc, database, k);
    }
  }

  lemma RedisImproves(data: SecretData, password: string, svc: Service)
    requires PASSWORD !in data
    ensures Improves(data, RedisData(data, password, svc))
  {
    hide Render;
    var d := RedisData(data, password, svc);
    assert d[URL] == OwnRedisUrl(d);
  }

  /** A secret without entries of a target, or with no more of them than before, stays consistent. */
  lemma AddedKeyImproves(d: SecretData, k: string, value: string)
    requires k !in d && !IsTargetEntry(k)
    ensures Improves(d, d[k := value])
  {
    var d' := d[k := value];
    forall x | IsTargetEntry(x)
      ensures Entry(d', x) == Entry(d, x) && (x in d' <==> x in d)
    {}
    SameEntriesRender(d, d');
    hide Consistent, IsTargetEntry, Entry;
  }

  /** Whether a secret is consistent depends on its entries of a target only. */
  lemma SameEntriesRender(d: SecretData, d': SecretData)
    requires forall x :: IsTargetEntry(x) ==> Entry(d', x) == Entry(d, x) && (x in d' <==> x in d)
    ensures Consistent(d) ==> Consistent(d')
  {
    assert forall f :: OwnUrl(f, d') == OwnUrl(f, d);
    assert OwnHttpUrl(d') == OwnHttpUrl(d) && OwnRedisUrl(d') == OwnRedisUrl(d);
    assert Entry(d', URL) == Entry(d, URL) && Entry(d', HTTP_URL) == Entry(d, HTTP_URL);
    hide IsTargetEntry, Render, OwnUrl, OwnHttpUrl, OwnRedisUrl;
    if Latched(d) && exists f :: RendersItself(f, d) {
      var f :| RendersItself(f, d);
      assert RendersItself(f, d');
    }
  }

  lemma ImprovesTransitive(a: SecretData, b: SecretData, c: SecretData)
    requires Improves(a, b) && Improves(b, c)
    ensures Improves(a, c)
  {
    hide Consistent;
    if Latched(a) {
      assert Keeps(a, b, USERNAME) && Keeps(a, b, PASSWORD) && Keeps(a, b, URL);
    }
    forall k | Latched(a) || !IsTargetEntry(k)
      ensures Keeps(a, c, k)
    {
      assert Keeps(a, b, k) && Keeps(b, c, k);
    }
  }
}
