/** Translating the custom resource into Deployment, core Services and Ingress. */
module Builders {
  import opened Text
  import opened Types
  import opened Command

  const NODE_PORT := "NodePort"
  const NODEPORT_SUFFIX := "-nodeport"
  const TCP := "TCP"

  // ----- Labels -----

  function SelectorLabels(svc: Service): Labels {
    map["app.kubernetes.io/name" := svc.name,
        "app.kubernetes.io/instance" := svc.name,
        "app.kubernetes.io/managed-by" := "unbind-operator"]
  }

  function CommonLabels(svc: Service): Labels {
    var refs := map["unbind-team" := svc.spec.teamRef,
                    "unbind-project" := svc.spec.projectRef,
                    "unbind-service" := svc.spec.serviceRef,
                    "unbind-environment" := svc.spec.environmentRef,
                    "unbind-deployment" := svc.spec.deploymentRef];
    SelectorLabels(svc) + refs
    + (if svc.spec.provider != "" then map["unbind-provider" := svc.spec.provider] else map[])
    + (if svc.spec.framework != "" then map["unbind-framework" := svc.spec.framework] else map[])
  }

  // ----- Deployment -----

  function ClaimMount(v: VolumeSpec): Mount {
    Mount(v.name, v.mountPath, "")
  }

  function ClaimOf(v: VolumeSpec): Volume {
    ClaimVolume(v.name, v.name)
  }

  function VariableVolumeName(i: nat): string {
    "var-mount-" + Decimal(i)
  }

  function Mounts(svc: Service): seq<Mount> {
    var c := svc.spec.config;
    seq(|c.volumes|, i requires 0 <= i < |c.volumes| => ClaimMount(c.volumes[i]))
    + seq(|c.variableMounts|, i requires 0 <= i < |c.variableMounts| =>
        Mount(VariableVolumeName(i), c.variableMounts[i].path, c.variableMounts[i].name))
  }

  function Volumes(svc: Service): seq<Volume> {
    var c := svc.spec.config;
    seq(|c.volumes|, i requires 0 <= i < |c.volumes| => ClaimOf(c.volumes[i]))
    + seq(|c.variableMounts|, i requires 0 <= i < |c.variableMounts| =>
        SecretVolume(VariableVolumeName(i), svc.spec.kubernetesSecret, c.variableMounts[i].name))
  }

  /** Command and arguments of a container: a shell vector stays whole, any other is split after its head. */
  function Split(parsed: seq<string>): (seq<string>, seq<string>) {
    if |parsed| >= 3 && parsed[0] == "/bin/sh" && parsed[1] == "-c" then (parsed, [])
    else if |parsed| > 0 then ([parsed[0]], parsed[1..])
    else ([], [])
  }

  function WithCommand(c: Container, cmd: string): Option<Container> {
    if cmd == "" then Some(c)
    else match ParseCommand(cmd)
      case None => None
      case Some(parsed) => Some(c.(command := Split(parsed).0, args := Split(parsed).1))
  }

  function MainContainer(svc: Service): Container {
    var c := svc.spec.config;
    Container(svc.name, c.image, seq(|c.ports|, i requires 0 <= i < |c.ports| => c.ports[i].port),
              svc.spec.kubernetesSecret, svc.spec.envVars, Mounts(svc), [], [], None, None, None)
  }

  const HTTP_CHECK := "http"
  const EXEC_CHECK := "exec"

  /** What a probe does; there is none for an unknown type, a check over http without any port, or an empty command. */
  function ProbeActionOf(c: ServiceConfig, h: HealthCheckSpec): Built<ProbeAction> {
    if h.checkType == HTTP_CHECK then
      if h.port.None? && c.ports == [] then NotNeeded
      else Built(HttpGet(if h.path != "" then h.path else "/health",
                         if h.port.Some? then h.port.value else c.ports[0].port))
    else if h.checkType == EXEC_CHECK then
      if h.command == "" then NotNeeded
      else match ParseCommand(h.command)
        case None => Panicked
        case Some(argv) => if argv == [] then NotNeeded else Built(Exec(argv))
    else NotNeeded
  }

  function OrElse(given: Option<int>, fallback: int): int {
    match given case Some(value) => value case None => fallback
  }

  function ProbeOf(action: ProbeAction, times: ProbeTimes, failures: int, period: int, timeout: int): Probe {
    Probe(action, OrElse(times.failureThreshold, failures), OrElse(times.periodSeconds, period),
          OrElse(times.timeoutSeconds, timeout))
  }

  /** The container with the three probes of the health check; None when its command makes the parser panic. */
  function WithProbes(container: Container, c: ServiceConfig): Option<Container> {
    match c.healthCheck
    case None => Some(container)
    case Some(h) =>
      match ProbeActionOf(c, h)
      case NotNeeded => Some(container)
      case Panicked => None
      case Built(action) =>
        var probe := ProbeOf(action, h.health, 3, 10, 5);
        Some(container.(liveness := Some(probe), readiness := Some(probe),
                        startup := Some(ProbeOf(action, h.startup, 30, 3, 5))))
  }

  function InitContainer(svc: Service, i: nat, ic: InitContainerSpec): Option<Container> {
    WithCommand(Container(svc.name + "-init-" + Decimal(i), ic.image, [], svc.spec.kubernetesSecret,
                          svc.spec.envVars, Mounts(svc), [], [], None, None, None),
                ic.command)
  }

  function InitContainers(svc: Service, ics: seq<InitContainerSpec>): Option<seq<Container>> {
    if ics == [] then Some([])
    else
      match InitContainers(svc, ics[..|ics| - 1])
      case None => None
      case Some(front) =>
        match InitContainer(svc, |ics| - 1, ics[|ics| - 1])
        case None => None
        case Some(last) => Some(front + [last])
  }

  function DeploymentOf(svc: Service): Built<DeploymentSpec> {
    var c := svc.spec.config;
    if c.image == "" then NotNeeded
    else
      match WithProbes(MainContainer(svc), c)
      case None => Panicked
      case Some(probed) =>
        match WithCommand(probed, if c.runCommand.Some? then c.runCommand.value else "")
        case None => Panicked
        case Some(container) =>
          match InitContainers(svc, c.initContainers)
          case None => Panicked
          case Some(inits) =>
            Built(DeploymentSpec(if c.replicas.Some? then c.replicas.value else 1, |c.volumes| > 0,
                                 SelectorLabels(svc), CommonLabels(svc), svc.spec.imagePullSecrets,
                                 inits, container, Volumes(svc)))
  }

  method ApplyCommand(c: Container, cmd: string) returns (r: Option<Container>)
    ensures r == WithCommand(c, cmd)
  {
    if cmd == "" {
      return Some(c);
    }
    var parsed := Parse(cmd);
    if parsed.None? {
      return None;
    }
    var command, args: seq<string> := [], [];
    if |parsed.value| >= 3 && parsed.value[0] == "/bin/sh" && parsed.value[1] == "-c" {
      command := parsed.value;
    } else if |parsed.value| > 0 {
      command, args := [parsed.value[0]], parsed.value[1..];
    }
    return Some(c.(command := command, args := args));
  }

  method BuildVolumes(svc: Service) returns (mounts: seq<Mount>, volumes: seq<Volume>)
    ensures mounts == Mounts(svc) && volumes == Volumes(svc)
  {
    var c := svc.spec.config;
    mounts, volumes := [], [];
    for i := 0 to |c.volumes|
      invariant |mounts| == |volumes| == i
      invariant forall j :: 0 <= j < i ==> mounts[j] == ClaimMount(c.volumes[j]) && volumes[j] == ClaimOf(c.volumes[j])
    {
      mounts, volumes := mounts + [ClaimMount(c.volumes[i])], volumes + [ClaimOf(c.volumes[i])];
    }
    var n := |c.volumes|;
    for i := 0 to |c.variableMounts|
      invariant |mounts| == |volumes| == n + i
      invariant forall j :: 0 <= j < n ==> mounts[j] == ClaimMount(c.volumes[j]) && volumes[j] == ClaimOf(c.volumes[j])
      invariant forall j :: n <= j < n + i ==>
        && mounts[j] == Mount(VariableVolumeName(j - n), c.variableMounts[j - n].path, c.variableMounts[j - n].name)
        && volumes[j] == SecretVolume(VariableVolumeName(j - n), svc.spec.kubernetesSecret,
              c.variableMounts[j - n].name)
    {
      var vm := c.variableMounts[i];
      mounts := mounts + [Mount(VariableVolumeName(i), vm.path, vm.name)];
      volumes := volumes + [SecretVolume(VariableVolumeName(i), svc.spec.kubernetesSecret, vm.name)];
    }
  }

  method BuildInitContainers(svc: Service, mounts: seq<Mount>) returns (inits: Option<seq<Container>>)
    requires mounts == Mounts(svc)
    ensures inits == InitContainers(svc, svc.spec.config.initContainers)
  {
    hide Mounts, WithCommand;
    var ics := svc.spec.config.initContainers;
    inits := Some([]);
    for i := 0 to |ics|
      invariant inits == InitContainers(svc, ics[..i])
    {
      assert ics[..i + 1][..i] == ics[..i];
      if inits.Some? {
        var init := Container(svc.name + "-init-" + Decimal(i), ics[i].image, [], svc.spec.kubernetesSecret,
                              svc.spec.envVars, mounts, [], [], None, None, None);
        var r := ApplyCommand(init, ics[i].command);
        inits := if r.Some? then Some(inits.value + [r.value]) else None;
      }
    }
    assert ics[..|ics|] == ics;
  }

  /** buildProbe. */
  method BuildProbe(c: ServiceConfig, h: HealthCheckSpec, failureThreshold: int, periodSeconds: int,
      timeoutSeconds: int)
    returns (r: Built<Probe>)
    ensures r == match ProbeActionOf(c, h)
                 case NotNeeded => NotNeeded
                 case Panicked => Panicked
                 case Built(action) => Built(Probe(action, failureThreshold, periodSeconds, timeoutSeconds))
  {
    if h.checkType == HTTP_CHECK {
      if h.port.None? && |c.ports| == 0 {
        return NotNeeded;
      }
      var port := 0;
      if h.port.Some? {
        port := h.port.value;
      } else if |c.ports| > 0 {
        port := c.ports[0].port;
      }
      var path := "/health";
      if h.path != "" {
        path := h.path;
      }
      return Built(Probe(HttpGet(path, port), failureThreshold, periodSeconds, timeoutSeconds));
    }
    if h.checkType == EXEC_CHECK {
      if h.command == "" {
        return NotNeeded;
      }
      var command := Parse(h.command);
      if command.None? {
        return Panicked;
      }
      if |command.value| == 0 {
        return NotNeeded;
      }
      return Built(Probe(Exec(command.value), failureThreshold, periodSeconds, timeoutSeconds));
    }
    return NotNeeded;
  }

  function Given(probe: Built<Probe>): Option<Probe> {
    if probe.Built? then Some(probe.value) else None
  }

  /** buildLivenessProbe, buildReadinessProbe and buildStartupProbe, one after the other. */
  method AddProbes(container: Container, c: ServiceConfig) returns (r: Option<Container>)
    requires container.liveness.None? && container.readiness.None? && container.startup.None?
    ensures r == WithProbes(container, c)
  {
    if c.healthCheck.None? {
      return Some(container);
    }
    hide ParseCommand, ProbeActionOf;
    var h := c.healthCheck.value;
    var health, startup := h.health, h.startup;
    var liveness := BuildProbe(c, h, OrElse(health.failureThreshold, 3), OrElse(health.periodSeconds, 10),
        OrElse(health.timeoutSeconds, 5));
    if liveness.Panicked? {
      return None;
    }
    var readiness := BuildProbe(c, h, OrElse(health.failureThreshold, 3), OrElse(health.periodSeconds, 10),
        OrElse(health.timeoutSeconds, 5));
    if readiness.Panicked? {
      return None;
    }
    var startupProbe := BuildProbe(c, h, OrElse(startup.failureThreshold, 30), OrElse(startup.periodSeconds, 3),
        OrElse(startup.timeoutSeconds, 5));
    if startupProbe.Panicked? {
      return None;
    }
    return Some(container.(liveness := Given(liveness), readiness := Given(readiness), startup := Given(startupProbe)));
  }

  method BuildDeployment(svc: Service) returns (r: Built<DeploymentSpec>)
    ensures r == DeploymentOf(svc)
  {
    hide Mounts, Volumes, WithProbes, WithCommand, InitContainers, CommonLabels;
    var c := svc.spec.config;
    if c.image == "" {
      return NotNeeded;
    }
    var ports: seq<int> := [];
    for i := 0 to |c.ports|
      invariant ports == seq(i, j requires 0 <= j < i => c.ports[j].port)
    {
      ports := ports + [c.ports[i].port];
    }
    var mounts, volumes := BuildVolumes(svc);
    var container := Container(svc.name, c.image, ports, svc.spec.kubernetesSecret, svc.spec.envVars,
                               mounts, [], [], None, None, None);
    assert container == MainContainer(svc);
    var probed := AddProbes(container, c);
    if probed.None? {
      return Panicked;
    }
    var withCommand := ApplyCommand(probed.value, if c.runCommand.Some? then c.runCommand.value else "");
    if withCommand.None? {
      return Panicked;
    }
    var inits := BuildInitContainers(svc, mounts);
    if inits.None? {
      return Panicked;
    }
    return Built(DeploymentSpec(if c.replicas.Some? then c.replicas.value else 1, |c.volumes| > 0,
                                SelectorLabels(svc), CommonLabels(svc), svc.spec.imagePullSecrets,
                                inits.value, withCommand.value, volumes));
  }

  // ----- Core Services -----

  /** A core Service under construction: its name, labels and spec. */
  datatype BuiltNet = BuiltNet(name: string, labels: Labels, net: NetSpec)

  function ProtocolOf(p: PortSpec): string {
    if p.protocol.Some? then p.protocol.value else TCP
  }

  function PortName(specName: string, p: PortSpec): string {
    Lower(specName + "-" + Decimal(p.port) + "-" + ProtocolOf(p))
  }

  function NetPortOf(specName: string, p: PortSpec): NetPort {
    NetPort(PortName(specName, p), ProtocolOf(p), p.port, p.port, if p.nodePort.Some? then p.nodePort.value else 0)
  }

  /** The rendered ports that do, or do not, ask for a node port. */
  function PortsWhere(specName: string, ports: seq<PortSpec>, asksNodePort: bool): seq<NetPort> {
    if ports == [] then []
    else
      var last := ports[|ports| - 1];
      PortsWhere(specName, ports[..|ports| - 1], asksNodePort)
      + (if last.nodePort.Some? == asksNodePort then [NetPortOf(specName, last)] else [])
  }

  function NodePortService(svc: Service, ports: seq<NetPort>): BuiltNet {
    BuiltNet(svc.name + NODEPORT_SUFFIX, CommonLabels(svc), NetSpec(NODE_PORT, SelectorLabels(svc), ports, ""))
  }

  function BaseService(svc: Service, ports: seq<NetPort>): BuiltNet {
    BuiltNet(svc.name, CommonLabels(svc), NetSpec("", SelectorLabels(svc), ports, ""))
  }

  /** BuildServices; None is ErrServiceNotNeeded. */
  function ServicesOf(svc: Service): Option<seq<BuiltNet>> {
    var ports := svc.spec.config.ports;
    if |ports| < 1 then None
    else
      var nodePorts, clusterPorts := PortsWhere(svc.spec.name, ports, true), PortsWhere(svc.spec.name, ports, false);
      Some((if nodePorts == [] then [] else [NodePortService(svc, nodePorts)])
           + (if clusterPorts == [] then [] else [BaseService(svc, clusterPorts)]))
  }

  method BuildServices(svc: Service) returns (r: Option<seq<BuiltNet>>)
    ensures r == ServicesOf(svc)
  {
    hide CommonLabels, SelectorLabels, PortName;
    var ports := svc.spec.config.ports;
    if |ports| < 1 {
      return None;
    }
    var nodePortPorts, clusterIPPorts: seq<NetPort> := [], [];
    for i := 0 to |ports|
      invariant nodePortPorts == PortsWhere(svc.spec.name, ports[..i], true)
      invariant clusterIPPorts == PortsWhere(svc.spec.name, ports[..i], false)
    {
      assert ports[..i + 1][..i] == ports[..i];
      var port := ports[i];
      var protocol := TCP;
      if port.protocol.Some? {
        protocol := port.protocol.value;
      }
      var servicePort := NetPort(PortName(svc.spec.name, port), protocol, port.port, port.port, 0);
      if port.nodePort.Some? {
        servicePort := servicePort.(nodePort := port.nodePort.value);
        nodePortPorts := nodePortPorts + [servicePort];
      } else {
        clusterIPPorts := clusterIPPorts + [servicePort];
      }
    }
    assert ports[..|ports|] == ports;
    var services: seq<BuiltNet> := [];
    if |nodePortPorts| > 0 {
      var nodePortService := BuiltNet(svc.name, CommonLabels(svc),
          NetSpec(NODE_PORT, SelectorLabels(svc), nodePortPorts, ""));
      nodePortService := nodePortService.(name := nodePortService.name + NODEPORT_SUFFIX);
      services := services + [nodePortService];
    }
    if |clusterIPPorts| > 0 {
      services := services
          + [BuiltNet(svc.name, CommonLabels(svc), NetSpec("", SelectorLabels(svc), clusterIPPorts, ""))];
    }
    assert services == ServicesOf(svc).value;
    return Some(services);
  }

  // ----- Ingress -----

  function BackendPort(c: ServiceConfig, h: HostSpec): int
    requires |c.ports| > 0
  {
    if h.port.Some? then h.port.value else c.ports[0].port
  }

  function RuleOf(svc: Service, h: HostSpec): Rule
    requires |svc.spec.config.ports| > 0
  {
    Rule(h.host, if h.path != "" then h.path else "/", svc.name, BackendPort(svc.spec.config, h))
  }

  predicate IngressNeeded(c: ServiceConfig) {
    |c.hosts| > 0 && |c.ports| > 0 && c.public
  }

  function IngressOf(svc: Service): Built<IngressSpec> {
    var c := svc.spec.config;
    if !IngressNeeded(c) then NotNeeded
    else Built(IngressSpec("nginx", seq(|c.hosts|, i requires 0 <= i < |c.hosts| => c.hosts[i].host),
                           Lower(svc.name) + "-tls-secret",
                           seq(|c.hosts|, i requires 0 <= i < |c.hosts| => RuleOf(svc, c.hosts[i]))))
  }

  method BuildIngress(svc: Service) returns (r: Built<IngressSpec>)
    ensures r == IngressOf(svc)
  {
    var c := svc.spec.config;
    if |c.hosts| < 1 || |c.ports| < 1 || !c.public {
      return NotNeeded;
    }
    var ingressRules := new Rule[|c.hosts|];
    var tlsHosts := new string[|c.hosts|];
    for i := 0 to |c.hosts|
      invariant forall j :: 0 <= j < i ==> ingressRules[j] == RuleOf(svc, c.hosts[j]) && tlsHosts[j] == c.hosts[j].host
    {
      var host := c.hosts[i];
      var port := c.ports[0].port;
      if host.port.Some? {
        port := host.port.value;
      }
      var path := "/";
      if host.path != "" {
        path := host.path;
      }
      ingressRules[i] := Rule(host.host, path, svc.name, port);
      tlsHosts[i] := host.host;
    }
    assert tlsHosts[..] == IngressOf(svc).value.tlsHosts && ingressRules[..] == IngressOf(svc).value.rules;
    return Built(IngressSpec("nginx", tlsHosts[..], Lower(svc.name) + "-tls-secret", ingressRules[..]));
  }

  // ----- Status -----

  function StatusUrls(c: ServiceConfig): seq<string> {
    if |c.hosts| > 0 && c.public
    then seq(|c.hosts|, i requires 0 <= i < |c.hosts| => "https://" + c.hosts[i].host)
    else []
  }
}
