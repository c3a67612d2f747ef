/** Installing the operator of a database through Helm, when discovery does not find its resource type. */
module Operator {
  import opened Text
  import opened Types
  import opened Trees
  import opened Cluster
  import opened Secrets

  const MYSQL_TYPE := "mysql"
  const CLICKHOUSE_TYPE := "clickhouse"

  /** MySQL and ClickHouse are run by operators that the program installs itself. */
  predicate NeedsOperator(databaseType: string) {
    databaseType == MYSQL_TYPE || databaseType == CLICKHOUSE_TYPE
  }

  function OperatorName(databaseType: string): string {
    if databaseType == MYSQL_TYPE then "moco-operator" else "clickhouse-operator"
  }

  function ChartOf(databaseType: string): string {
    if databaseType == MYSQL_TYPE then "moco" else "altinity-clickhouse-operator"
  }

  function ChartVersion(databaseType: string): string {
    if databaseType == MYSQL_TYPE then "0.17.0" else "0.25.0"
  }

  function RepositoryUrl(databaseType: string): string {
    if databaseType == MYSQL_TYPE then "https://cybozu-go.github.io/moco/"
    else "https://docs.altinity.com/clickhouse-operator/"
  }

  /** One hour in nanoseconds. */
  const INTERVAL := Number(3600000000000)

  function RepositorySpec(databaseType: string): Json {
    Tree(map["url" := Str(RepositoryUrl(databaseType)), "interval" := INTERVAL])
  }

  /** The release's spec; its values are constant and not spelled out. */
  function ReleaseSpec(databaseType: string, namespace: string): Json {
    var source := Tree(map["kind" := Str("HelmRepository"), "name" := Str(OperatorName(databaseType)),
                           "namespace" := Str(namespace)]);
    var chart := Tree(map["chart" := Str(ChartOf(databaseType)), "version" := Str(ChartVersion(databaseType)),
                          "sourceRef" := source]);
    Tree(map["interval" := INTERVAL, "chart" := Tree(map["spec" := chart])])
  }

  function RepositoryKey(databaseType: string, namespace: string): Key {
    Key(Managed(HelmRepository), namespace, OperatorName(databaseType))
  }

  function ReleaseKey(databaseType: string, namespace: string): Key {
    Key(Managed(HelmRelease), namespace, OperatorName(databaseType))
  }

  function OperatorKeys(databaseType: string, namespace: string): set<Key> {
    {RepositoryKey(databaseType, namespace), ReleaseKey(databaseType, namespace)}
  }

  /** A creation that does not mind that the object is there already. */
  function CreateIfAbsent(w: World, k: Key, spec: Json): (r: (World, Outcome))
    ensures Extends(w, r.0)
  {
    hide Call, Extends;
    var (w1, made) := Call(w, Create(k, NewObject(map[], None, ManagedBody(spec))));
    (w1, if made.Failed? && made.error != AlreadyExists then Err(made.error) else Ok)
  }

  /** installMySQLOperator and installClickHouseOperator. */
  function InstallOperator(w: World, databaseType: string): (r: (World, Outcome))
    ensures Extends(w, r.0)
  {
    hide CreateIfAbsent, Extends;
    var namespace := w.setting.podNamespace;
    var (w1, o) := CreateIfAbsent(w, RepositoryKey(databaseType, namespace), RepositorySpec(databaseType));
    if o.Err? then (w1, o)
    else
      var r := CreateIfAbsent(w1, ReleaseKey(databaseType, namespace), ReleaseSpec(databaseType, namespace));
      ExtendsTransitive(w, w1, r.0);
      r
  }

  /** EnsureOperatorInstalled, for the databases that have an operator. */
  function EnsureOperator(w: World, databaseType: string): (r: (World, Outcome))
    ensures Extends(w, r.0)
  {
    hide InstallOperator, Extends;
    ExtendsReflexive(w);
    if !NeedsOperator(databaseType) then (w, Ok)
    else
      match w.setting.discovery(databaseType, w.clock)
      case Installed => (w, Ok)
      case Undiscoverable => (w, Err(NoOperator))
      case NotInstalled => InstallOperator(w, databaseType)
  }
}
