/** Connection URLs, read back by the authority rules of section 3.2 of RFC 3986. */
module Urls {
  import opened Text
  import opened Types
  import opened Password
  import opened Cluster
  import opened Secrets
  import opened CredentialAgreement

  datatype Authority = Authority(username: string, password: string, host: string, port: string)

  /** The longest prefix without a stop. */
  function Until(s: string, stop: char -> bool): (t: string)
    ensures t <= s && All(t, (c: char) => !stop(c))
    ensures |t| < |s| ==> stop(s[|t|])
  {
    if s == [] || stop(s[0]) then [] else [s[0]] + Until(s[1..], stop)
  }

  function After(s: string, n: nat): string {
    if n < |s| then s[n + 1..] else ""
  }

  /** The authority ends at a slash, a question mark, a number sign, or the end of the URL. */
  predicate EndsAuthority(c: char) {
    c == '/' || c == '?' || c == '#'
  }

  /** Splits "login@host:port" into its four parts; a login is required. */
  function SplitAuthority(authority: string): Option<Authority> {
    var userinfo := Until(authority, (c: char) => c == '@');
    if userinfo == authority then None
    else
      var hostport := After(authority, |userinfo|);
      var username := Until(userinfo, (c: char) => c == ':');
      var host := Until(hostport, (c: char) => c == ':');
      Some(Authority(username, After(userinfo, |username|), host, After(hostport, |host|)))
  }

  function SplitUrl(url: string): Option<Authority> {
    var scheme := Until(url, (c: char) => c == ':');
    if "://" <= url[|scheme|..] then SplitAuthority(Until(url[|scheme| + 3..], EndsAuthority)) else None
  }

  lemma {:induction false} UntilIs(s: string, rest: string, stop: char -> bool)
    requires All(s, (c: char) => !stop(c)) && (rest != [] ==> stop(rest[0]))
    ensures Until(s + rest, stop) == s
  {
    if s == [] {
      assert s + rest == rest;
    } else {
      assert !stop(s[0]);
      assert forall i :: 0 <= i < |s[1..]| ==> s[1..][i] == s[i + 1] && !stop(s[i + 1]);
      UntilIs(s[1..], rest, stop);
      assert (s + rest)[1..] == s[1..] + rest;
    }
  }

  /** What a user name, a host or a port of this program is made of. */
  predicate IsPlain(c: char) {
    c != ':' && c != '@' && !EndsAuthority(c)
  }

  /** A password that does not end the user information or the authority; colons are fine. */
  predicate IsInnocent(c: char) {
    c != '@' && !EndsAuthority(c)
  }

  lemma AuthoritySplits(username: string, password: string, host: string, port: string)
    requires All(username, IsPlain) && All(host, IsPlain) && All(password, IsInnocent)
    ensures SplitAuthority(Secrets.Authority(username, password, host, port)) ==
        Some(Authority(username, password, host, port))
  {
    var userinfo, hostport := username + (":" + password), host + (":" + port);
    var authority := Secrets.Authority(username, password, host, port);
    assert authority == userinfo + ("@" + hostport);
    UntilIs(userinfo, "@" + hostport, (c: char) => c == '@');
    assert |userinfo| < |authority| && authority[|userinfo| + 1..] == hostport;
    UntilIs(username, ":" + password, (c: char) => c == ':');
    UntilIs(host, ":" + port, (c: char) => c == ':');
    hide Until, Secrets.Authority;
    assert userinfo[|username| + 1..] == password && hostport[|host| + 1..] == port;
  }

  lemma SplitRendered(scheme: string, username: string, password: string, host: string, port: string, tail: string)
    requires All(scheme, (c: char) => c != ':')
    ensures var authority := Secrets.Authority(username, password, host, port);
      SplitUrl(Render(scheme, username, password, host, port, tail)) ==
          SplitAuthority(Until(authority + tail, EndsAuthority))
  {
    var authority := Secrets.Authority(username, password, host, port);
    var url := Render(scheme, username, password, host, port, tail);
    assert url == scheme + ("://" + (authority + tail));
    UntilIs(scheme, "://" + (authority + tail), (c: char) => c == ':');
    hide Until, Secrets.Authority, SplitAuthority, Render;
    assert url[|scheme|..] == "://" + (authority + tail);
    assert url[|scheme| + 3..] == authority + tail;
  }

  /** A rendered URL can be read back exactly when the password holds none of '@', '/', '?' and '#'. */
  lemma {:induction false} UrlReadsBack(scheme: string, username: string, password: string, host: string, port: string,
      tail: string)
    requires All(scheme, (c: char) => c != ':') && All(username, IsPlain) && All(host, IsPlain) && All(port, IsPlain)
    requires tail == "" || tail[0] == '/'
    ensures SplitUrl(Render(scheme, username, password, host, port, tail)) ==
        Some(Authority(username, password, host, port))
      <==> All(password, IsInnocent)
  {
    var authority := Secrets.Authority(username, password, host, port);
    SplitRendered(scheme, username, password, host, port, tail);
    if All(password, IsInnocent) {
      AuthorityIsInside(username, password, host, port);
      UntilIs(authority, tail, EndsAuthority);
      AuthoritySplits(username, password, host, port);
    }
    var seen := Until(authority + tail, EndsAuthority);
    hide Until, Render, Secrets.Authority, SplitAuthority, EndsAuthority;
    if SplitAuthority(seen) == Some(Authority(username, password, host, port)) {
      ReadPasswordIsInnocent(username, password, host, port, tail, seen);
    }
  }

  lemma AuthorityIsInside(username: string, password: string, host: string, port: string)
    requires All(username, IsPlain) && All(host, IsPlain) && All(port, IsPlain) && All(password, IsInnocent)
    ensures All(Secrets.Authority(username, password, host, port), (c: char) => !EndsAuthority(c))
  {
    var a := Secrets.Authority(username, password, host, port);
    var n, m, h := |username|, |username| + 1 + |password|, |username| + |password| + |host| + 2;
    forall i | 0 <= i < |a|
      ensures !EndsAuthority(a[i])
    {
      if i < n {
        assert a[i] == username[i];
      } else if n < i < m {
        assert a[i] == password[i - n - 1];
      } else if m < i < h {
        assert a[i] == host[i - m - 1];
      } else if h < i {
        assert a[i] == port[i - h - 1];
      }
    }
  }

  lemma ReadPasswordIsInnocent(username: string, password: string, host: string, port: string, tail: string,
      seen: string)
    requires seen == Until(Secrets.Authority(username, password, host, port) + tail, EndsAuthority)
    requires SplitAuthority(seen) == Some(Authority(username, password, host, port))
    ensures All(password, IsInnocent)
  {
    var whole := Secrets.Authority(username, password, host, port) + tail;
    var userinfo := Until(seen, (c: char) => c == '@');
    var n := |username|;
    hide Until;
    assert seen <= whole && userinfo <= seen;
    forall i | 0 <= i < |password|
      ensures IsInnocent(password[i])
    {
      assert password[i] == whole[n + 1 + i];
      assert |userinfo| >= n + 1 + |password|;
      assert userinfo[n + 1 + i] == seen[n + 1 + i] == whole[n + 1 + i];
    }
  }

  // ----- The URLs of this program -----

  /** Letters, digits, '-', '.' and '_': Kubernetes names, and the alphabet of generated passwords. */
  predicate IsNameChar(c: char) {
    'a' <= c <= 'z' || 'A' <= c <= 'Z' || '0' <= c <= '9' || c == '-' || c == '.' || c == '_'
  }

  lemma NamesArePlain(s: string)
    requires All(s, IsNameChar)
    ensures All(s, IsPlain) && All(s, IsInnocent)
  {}

  lemma NamesJoin(a: string, b: string)
    requires All(a, IsNameChar) && All(b, IsNameChar)
    ensures All(a + b, IsNameChar)
  {}

  lemma GeneratedAreNames(password: string)
    requires All(password, (c: char) => Value(c).Some?)
    ensures All(password, IsNameChar)
  {}

  predicate LegalNames(svc: Service) {
    && (forall i :: 0 <= i < |svc.name| ==> IsNameChar(svc.name[i]))
    && (forall i :: 0 <= i < |svc.namespace| ==> IsNameChar(svc.namespace[i]))
  }

  lemma HostIsName(f: Flavor, svc: Service)
    requires LegalNames(svc)
    ensures All(HostOf(f, svc), IsNameChar) && All(svc.name + "-headless." + svc.namespace, IsNameChar)
  {
    NamesJoin("moco-", svc.name);
    NamesJoin("clickhouse-", svc.name);
    NamesJoin(svc.name, ".");
    NamesJoin("moco-" + svc.name, ".");
    NamesJoin("clickhouse-" + svc.name, ".");
    NamesJoin(svc.name, "-headless.");
    NamesJoin(svc.name + ".", svc.namespace);
    NamesJoin("moco-" + svc.name + ".", svc.namespace);
    NamesJoin("clickhouse-" + svc.name + ".", svc.namespace);
    NamesJoin(svc.name + "-headless.", svc.namespace);
  }

  /** The URL of a secret reads back as the secret's own user name, password, host and port. */
  ghost predicate ReadsBack(d: SecretData, url: string, port: string) {
    && USERNAME in d && PASSWORD in d && HOST in d && port in d && url in d
    && SplitUrl(d[url]) == Some(Authority(d[USERNAME], d[PASSWORD], d[HOST], d[port]))
  }

  lemma FixedTexts(f: Flavor)
    requires IsGenerated(f)
    ensures All(Scheme(f), (c: char) => c != ':') && All("http", (c: char) => c != ':')
        && All("redis", (c: char) => c != ':')
    ensures All("root", IsNameChar) && All("default", IsNameChar)
    ensures All(PortOf(f), IsNameChar) && All("8123", IsNameChar) && All("6379", IsNameChar)
  {}

  function UserOf(f: Flavor): string {
    if f.Mongo? then "root" else "default"
  }

  lemma FilledEntries(f: Flavor, target: SecretData, source: SecretData, svc: Service)
    requires IsGenerated(f) && MainKey(f) in source
    ensures var d := FillTarget(f, target, source, svc, "");
      && USERNAME in d && PASSWORD in d && HOST in d && PORT in d && URL in d
      && d[USERNAME] == UserOf(f) && d[PASSWORD] == source[MainKey(f)] && d[HOST] == HostOf(f, svc)
            && d[PORT] == PortOf(f)
      && d[URL] == Render(Scheme(f), d[USERNAME], d[PASSWORD], d[HOST], d[PORT], "/" + (DatabaseOf(f, "") + Query(f)))
      && (f.ClickHouse? ==>
            && HTTP_PORT in d && HTTP_URL in d && d[HTTP_PORT] == "8123"
            && d[HTTP_URL] == Render("http", d[USERNAME], d[PASSWORD], d[HOST], d[HTTP_PORT], "/default"))
  {
    hide Render, HostOf, PortOf, Scheme, DatabaseOf, Query;
    var t := WithLogin(f, target, source);
    assert t[USERNAME] == UserOf(f) && t[PASSWORD] == source[MainKey(f)];
    hide WithLogin;
    assert "/" + DatabaseOf(f, "") + Query(f) == "/" + (DatabaseOf(f, "") + Query(f));
  }

  lemma RenderedNamesReadBack(scheme: string, username: string, password: string, host: string, port: string,
      tail: string)
    requires All(scheme, (c: char) => c != ':') && All(username, IsNameChar) && All(host, IsNameChar)
    requires All(port, IsNameChar)
    requires All(password, (c: char) => Value(c).Some?) && (tail == "" || tail[0] == '/')
    ensures SplitUrl(Render(scheme, username, password, host, port, tail)) ==
        Some(Authority(username, password, host, port))
  {
    GeneratedAreNames(password);
    NamesArePlain(password);
    NamesArePlain(username);
    NamesArePlain(host);
    NamesArePlain(port);
    hide IsNameChar, Value, Render;
    UrlReadsBack(scheme, username, password, host, port, tail);
  }

  /** A target filled from a source with a generated password: MongoDB's and both of ClickHouse's URLs read back. */
  lemma FilledUrlReadsBack(f: Flavor, target: SecretData, source: SecretData, svc: Service)
    requires IsGenerated(f) && LegalNames(svc)
    requires MainKey(f) in source && All(source[MainKey(f)], (c: char) => Value(c).Some?)
    ensures var d := FillTarget(f, target, source, svc, "");
      ReadsBack(d, URL, PORT) && (f.ClickHouse? ==> ReadsBack(d, HTTP_URL, HTTP_PORT))
  {
    FixedTexts(f);
    HostIsName(f, svc);
    FilledEntries(f, target, source, svc);
    hide FillTarget, SplitUrl, Render, HostOf, PortOf, Scheme, Query, DatabaseOf, IsNameChar, Value;
    var password, host := source[MainKey(f)], HostOf(f, svc);
    RenderedNamesReadBack(Scheme(f), UserOf(f), password, host, PortOf(f), "/" + (DatabaseOf(f, "") + Query(f)));
    RenderedNamesReadBack("http", UserOf(f), password, host, "8123", "/default");
  }

  function RedisHost(svc: Service): string {
    svc.name + "-headless." + svc.namespace
  }

  lemma RedisEntries(data: SecretData, password: string, svc: Service)
    ensures var d := RedisData(data, password, svc);
      && USERNAME in d && PASSWORD in d && HOST in d && PORT in d && URL in d
      && d[USERNAME] == "default" && d[PASSWORD] == password && d[HOST] == RedisHost(svc) && d[PORT] == "6379"
      && d[URL] == Render("redis", "default", password, RedisHost(svc), "6379", "")
  {
    hide Render;
  }

  /** The Redis URL reads back, for a generated password. */
  lemma {:induction false} RedisUrlReadsBack(data: SecretData, password: string, svc: Service)
    requires LegalNames(svc) && All(password, (c: char) => Value(c).Some?)
    ensures ReadsBack(RedisData(data, password, svc), URL, PORT)
  {
    FixedTexts(Mongo);
    HostIsName(Mongo, svc);
    RedisEntries(data, password, svc);
    hide SplitUrl, Render, IsNameChar, Value, RedisData;
    RenderedNamesReadBack("redis", "default", password, RedisHost(svc), "6379", "");
  }
}
