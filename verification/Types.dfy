/** The Service custom resource and the Kubernetes objects that are built from it. */
module Types {
  import opened Text

  type Labels = map<string, string>

  // ----- The custom resource -----

  datatype PortSpec = PortSpec(port: int, nodePort: Option<int>, protocol: Option<string>)
  datatype HostSpec = HostSpec(host: string, path: string, port: Option<int>)
  datatype VolumeSpec = VolumeSpec(name: string, mountPath: string)
  datatype VariableMountSpec = VariableMountSpec(name: string, path: string)
  datatype InitContainerSpec = InitContainerSpec(image: string, command: string)

  /** How often a probe runs, how long it may take and how often it may fail, where given. */
  datatype ProbeTimes = ProbeTimes(failureThreshold: Option<int>, periodSeconds: Option<int>,
      timeoutSeconds: Option<int>)

  datatype HealthCheckSpec = HealthCheckSpec(
    checkType: string,
    path: string,
    port: Option<int>,
    command: string,
    startup: ProbeTimes,
    health: ProbeTimes)

  datatype DatabaseConfig = DatabaseConfig(defaultDatabaseName: string)
  datatype DatabaseSpec = DatabaseSpec(databaseType: string, config: Option<DatabaseConfig>)

  datatype ServiceConfig = ServiceConfig(
    hosts: seq<HostSpec>,
    ports: seq<PortSpec>,
    replicas: Option<int>,
    runCommand: Option<string>,
    public: bool,
    image: string,
    database: DatabaseSpec,
    volumes: seq<VolumeSpec>,
    variableMounts: seq<VariableMountSpec>,
    initContainers: seq<InitContainerSpec>,
    healthCheck: Option<HealthCheckSpec>)

  datatype ServiceSpec = ServiceSpec(
    name: string,
    serviceType: string,
    provider: string,
    framework: string,
    kubernetesSecret: string,
    config: ServiceConfig,
    envVars: seq<string>,
    imagePullSecrets: seq<string>,
    deploymentRef: string,
    serviceRef: string,
    teamRef: string,
    projectRef: string,
    environmentRef: string)

  datatype ServiceStatus = ServiceStatus(deploymentStatus: string, urls: seq<string>)

  /** A custom resource as a reconcile pass has read it. */
  datatype Service = Service(namespace: string, name: string, uid: nat, spec: ServiceSpec)

  // ----- The children -----

  datatype Mount = Mount(name: string, path: string, subPath: string)
  datatype Volume = ClaimVolume(name: string, claim: string) | SecretVolume(name: string, secret: string, item: string)

  datatype ProbeAction = HttpGet(path: string, port: int) | Exec(argv: seq<string>)
  datatype Probe = Probe(action: ProbeAction, failureThreshold: int, periodSeconds: int, timeoutSeconds: int)

  datatype Container = Container(
    name: string,
    image: string,
    ports: seq<int>,
    envSecret: string,
    env: seq<string>,
    mounts: seq<Mount>,
    command: seq<string>,
    args: seq<string>,
    liveness: Option<Probe>,
    readiness: Option<Probe>,
    startup: Option<Probe>)

  datatype DeploymentSpec = DeploymentSpec(
    replicas: int,
    recreate: bool,
    selector: Labels,
    podLabels: Labels,
    imagePullSecrets: seq<string>,
    initContainers: seq<Container>,
    container: Container,
    volumes: seq<Volume>)

  datatype NetPort = NetPort(name: string, protocol: string, port: int, targetPort: int, nodePort: int)

  /** A core Service's spec; `netType` is empty, ClusterIP or NodePort. */
  datatype NetSpec = NetSpec(netType: string, selector: Labels, ports: seq<NetPort>, clusterIP: string)

  datatype Rule = Rule(host: string, path: string, backendName: string, backendPort: int)
  datatype IngressSpec = IngressSpec(class_: string, tlsHosts: seq<string>, tlsSecret: string, rules: seq<Rule>)

  /** What a builder returns: an object, its "not needed" error, or the panic of the command parser. */
  datatype Built<+T> = NotNeeded | Panicked | Built(value: T)
}
