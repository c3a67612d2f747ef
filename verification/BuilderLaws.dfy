/** Claims that cross the builders: ports are neither lost nor duplicated, and backends resolve. */
module BuilderLaws {
  import opened Text
  import opened Types
  import opened Command
  import opened CommandLaws
  import opened Builders

  // ----- The port partition -----

  /** Takes from `yes` or `no` in turn, as the mask says. */
  function Weave<T>(mask: seq<bool>, yes: seq<T>, no: seq<T>): seq<T>
    decreases |mask|
  {
    if mask == [] then []
    else
      var n := |mask| - 1;
      if mask[n] then
        if yes == [] then [] else Weave(mask[..n], yes[..|yes| - 1], no) + [yes[|yes| - 1]]
      else
        if no == [] then [] else Weave(mask[..n], yes, no[..|no| - 1]) + [no[|no| - 1]]
  }

  function Rendered(specName: string, ports: seq<PortSpec>): seq<NetPort> {
    seq(|ports|, i requires 0 <= i < |ports| => NetPortOf(specName, ports[i]))
  }

  function AsksNodePort(ports: seq<PortSpec>): seq<bool> {
    seq(|ports|, i requires 0 <= i < |ports| => ports[i].nodePort.Some?)
  }

  /** A Service port as a declared one asks for it: the same number inside and outside, TCP if nothing is said. */
  predicate Renders(specName: string, p: PortSpec, n: NetPort) {
    && n.port == p.port && n.targetPort == p.port
    && n.protocol == (match p.protocol case Some(protocol) => protocol case None => "TCP")
    && n.nodePort == (match p.nodePort case Some(nodePort) => nodePort case None => 0)
    && n.name == Lower(specName + "-" + Decimal(n.port) + "-" + n.protocol)
  }

  lemma WeaveSnoc<T>(mask: seq<bool>, yes: seq<T>, no: seq<T>, asks: bool, last: T)
    ensures Weave(mask + [asks], if asks then yes + [last] else yes, if asks then no else no + [last]) ==
        Weave(mask, yes, no) + [last]
  {
    assert (mask + [asks])[..|mask|] == mask;
    assert (yes + [last])[..|yes|] == yes && (no + [last])[..|no|] == no;
  }

  lemma PortsWhereSnoc(specName: string, ports: seq<PortSpec>)
    requires ports != []
    ensures var n := |ports| - 1;
      var asks, last := ports[n].nodePort.Some?, NetPortOf(specName, ports[n]);
      && PortsWhere(specName, ports, asks) == PortsWhere(specName, ports[..n], asks) + [last]
      && PortsWhere(specName, ports, !asks) == PortsWhere(specName, ports[..n], !asks)
  {}

  lemma RenderedSnoc(specName: string, ports: seq<PortSpec>)
    requires ports != []
    ensures var n := |ports| - 1;
      && AsksNodePort(ports) == AsksNodePort(ports[..n]) + [ports[n].nodePort.Some?]
      && Rendered(specName, ports) == Rendered(specName, ports[..n]) + [NetPortOf(specName, ports[n])]
  {}

  /** The two port lists, woven along who asked for a node port, are the declared ports in order. */
  lemma {:induction false} PortsArePartitioned(specName: string, ports: seq<PortSpec>)
    ensures var yes, no := PortsWhere(specName, ports, true), PortsWhere(specName, ports, false);
      var all := Weave(AsksNodePort(ports), yes, no);
      && |yes| + |no| == |all| == |ports|
      && forall i :: 0 <= i < |ports| ==> Renders(specName, ports[i], all[i])
  {
    WovenIsRendered(specName, ports);
  }

  lemma {:induction false} WovenIsRendered(specName: string, ports: seq<PortSpec>)
    ensures var yes, no := PortsWhere(specName, ports, true), PortsWhere(specName, ports, false);
      && Weave(AsksNodePort(ports), yes, no) == Rendered(specName, ports)
      && |yes| + |no| == |ports|
    decreases |ports|
  {
    if ports == [] {
      assert Weave<NetPort>([], [], []) == [];
    } else {
      hide NetPortOf, Weave, PortsWhere, Rendered, AsksNodePort;
      var n := |ports| - 1;
      var asks, last := ports[n].nodePort.Some?, NetPortOf(specName, ports[n]);
      var yes, no := PortsWhere(specName, ports[..n], true), PortsWhere(specName, ports[..n], false);
      WovenIsRendered(specName, ports[..n]);
      WeaveSnoc(AsksNodePort(ports[..n]), yes, no, asks, last);
      PortsWhereSnoc(specName, ports);
      RenderedSnoc(specName, ports);
    }
  }

  /** What is known of one port of a partition: it renders a declared port of the right sort. */
  lemma {:induction false} PortsWhereSound(specName: string, ports: seq<PortSpec>, asks: bool, i: nat) returns (j: nat)
    requires i < |PortsWhere(specName, ports, asks)|
    ensures i <= j < |ports| && ports[j].nodePort.Some? == asks
    ensures PortsWhere(specName, ports, asks)[i] == NetPortOf(specName, ports[j])
    decreases |ports|
  {
    hide NetPortOf;
    var n := |ports| - 1;
    if i < |PortsWhere(specName, ports[..n], asks)| {
      j := PortsWhereSound(specName, ports[..n], asks, i);
    } else {
      j := n;
      PortsWhereShort(specName, ports[..n], asks);
    }
  }

  lemma {:induction false} PortsWhereShort(specName: string, ports: seq<PortSpec>, asks: bool)
    ensures |PortsWhere(specName, ports, asks)| <= |ports|
    decreases |ports|
  {
    if ports != [] {
      PortsWhereShort(specName, ports[..|ports| - 1], asks);
    }
  }

  lemma {:induction false} PortsWhereComplete(specName: string, ports: seq<PortSpec>, j: nat)
    requires j < |ports|
    ensures NetPortOf(specName, ports[j]) in PortsWhere(specName, ports, ports[j].nodePort.Some?)
    decreases |ports|
  {
    hide NetPortOf;
    var n := |ports| - 1;
    if j < n {
      PortsWhereComplete(specName, ports[..n], j);
    }
  }

  // ----- The Services -----

  /**
   BuildServices declines exactly when no port is declared; otherwise it builds one or two non-empty,
   distinctly named Services.
   */
  lemma ServicesAreProper(svc: Service)
    ensures ServicesOf(svc).None? <==> svc.spec.config.ports == []
    ensures ServicesOf(svc).Some? ==>
      var built := ServicesOf(svc).value;
      && 1 <= |built| <= 2
      && (forall i :: 0 <= i < |built| ==> built[i].net.ports != [])
      && (forall i :: 0 <= i < |built| ==> built[i].name in [svc.name, svc.name + NODEPORT_SUFFIX])
      && (forall i :: 0 <= i < |built| ==> (built[i].name == svc.name <==> built[i].net.netType != NODE_PORT))
      && (|built| == 2 ==> built[0].name == svc.name + NODEPORT_SUFFIX && built[1].name == svc.name)
  {
    var ports := svc.spec.config.ports;
    PortsArePartitioned(svc.spec.name, ports);
    hide CommonLabels, SelectorLabels, PortsWhere;
    assert svc.name + NODEPORT_SUFFIX != svc.name by {
      assert |svc.name + NODEPORT_SUFFIX| > |svc.name|;
    }
  }

  /**
   No two declared ports agree on number and on protocol up to case, among those with a node port or among
   those without.
   */
  ghost predicate DistinctAmong(ports: seq<PortSpec>, asks: bool) {
    forall i, j :: 0 <= i < j < |ports| && ports[i].nodePort.Some? == asks == ports[j].nodePort.Some? ==>
      !(ports[i].port == ports[j].port && Lower(ProtocolOf(ports[i])) == Lower(ProtocolOf(ports[j])))
  }

  lemma PortNameInjective(specName: string, p: PortSpec, q: PortSpec)
    ensures PortName(specName, p) == PortName(specName, q) <==>
      p.port == q.port && Lower(ProtocolOf(p)) == Lower(ProtocolOf(q))
  {
    PortNameSplits(specName, p);
    PortNameSplits(specName, q);
    hide PortName, Lower, Decimal;
    var prefix := Lower(specName + "-");
    var a, b := Decimal(p.port) + ("-" + Lower(ProtocolOf(p))), Decimal(q.port) + ("-" + Lower(ProtocolOf(q)));
    if PortName(specName, p) == PortName(specName, q) {
      assert (prefix + a)[|prefix|..] == a && (prefix + b)[|prefix|..] == b;
      DecimalDashInjective(p.port, q.port, Lower(ProtocolOf(p)), Lower(ProtocolOf(q)));
    }
  }

  lemma PortNameSplits(specName: string, p: PortSpec)
    ensures PortName(specName, p) == Lower(specName + "-") + (Decimal(p.port) + ("-" + Lower(ProtocolOf(p))))
  {
    var number, protocol := Decimal(p.port), ProtocolOf(p);
    LowerDecimal(p.port);
    hide Decimal, ProtocolOf;
    assert specName + "-" + number + "-" + protocol == (specName + "-") + (number + ("-" + protocol));
    LowerConcat(specName + "-", number + ("-" + protocol));
    LowerConcat(number, "-" + protocol);
    LowerConcat("-", protocol);
    assert Lower("-") == "-";
  }

  /**
   Port names within one built Service are distinct whenever none of the ports that go into it repeats
   another's number and protocol; a port of the other Service may.
   */
  lemma PortNamesDistinct(svc: Service, k: nat, i: nat, j: nat)
    requires ServicesOf(svc).Some? && k < |ServicesOf(svc).value|
    requires DistinctAmong(svc.spec.config.ports, ServicesOf(svc).value[k].net.netType == NODE_PORT)
    requires i < j < |ServicesOf(svc).value[k].net.ports|
    ensures ServicesOf(svc).value[k].net.ports[i].name != ServicesOf(svc).value[k].net.ports[j].name
  {
    var name, ports := svc.spec.name, svc.spec.config.ports;
    var asks := k == 0 && PortsWhere(name, ports, true) != [];
    var net := ServicesOf(svc).value[k].net;
    assert net.ports == PortsWhere(name, ports, asks) && (net.netType == NODE_PORT <==> asks) by {
      hide PortsWhere, CommonLabels, SelectorLabels;
    }
    var a, b := PortsWhereApart(name, ports, asks, i, j);
    PortNameInjective(name, ports[a], ports[b]);
  }

  /** Two places of a partition come from two declared ports in the same order. */
  lemma {:induction false} PortsWhereApart(specName: string, ports: seq<PortSpec>, asks: bool, i: nat, j: nat)
    returns (a: nat, b: nat)
    requires i < j < |PortsWhere(specName, ports, asks)|
    ensures a < b < |ports| && ports[a].nodePort.Some? == asks == ports[b].nodePort.Some?
    ensures PortsWhere(specName, ports, asks)[i] == NetPortOf(specName, ports[a])
    ensures PortsWhere(specName, ports, asks)[j] == NetPortOf(specName, ports[b])
    decreases |ports|
  {
    hide NetPortOf;
    var n := |ports| - 1;
    if j < |PortsWhere(specName, ports[..n], asks)| {
      a, b := PortsWhereApart(specName, ports[..n], asks, i, j);
    } else {
      a := PortsWhereSound(specName, ports[..n], asks, i);
      b := n;
    }
  }

  // ----- The Deployment -----

  /** What the Services select by, the Deployment selects by too, and its pods carry. */
  lemma ServicesSelectPods(svc: Service, k: nat)
    requires ServicesOf(svc).Some? && k < |ServicesOf(svc).value| && DeploymentOf(svc).Built?
    ensures var selector, deployment := ServicesOf(svc).value[k].net.selector, DeploymentOf(svc).value;
      && selector != map[] && deployment.selector == selector
      && forall l :: l in selector ==> l in deployment.podLabels && deployment.podLabels[l] == selector[l]
  {
    PodsCarrySelector(svc);
    hide PortsWhere, WithCommand, InitContainers, CommonLabels;
    assert "app.kubernetes.io/name" in SelectorLabels(svc);
    hide SelectorLabels;
  }

  lemma PodsCarrySelector(svc: Service)
    ensures forall l :: l in SelectorLabels(svc) ==>
        l in CommonLabels(svc) && CommonLabels(svc)[l] == SelectorLabels(svc)[l]
  {}

  function RunCommand(svc: Service): string {
    match svc.spec.config.runCommand case Some(cmd) => cmd case None => ""
  }

  /** A vector for /bin/sh stays together as the command; of any other only its head is the command. */
  predicate IsSplit(command: seq<string>, args: seq<string>) {
    if |command + args| >= 3 && ["/bin/sh", "-c"] <= command + args then args == []
    else |command| <= 1 && (command == [] ==> args == [])
  }

  /** Splitting off the arguments loses nothing of the parsed command, and no command leaves the image's own. */
  lemma {:induction false} CommandIsWhole(svc: Service)
    requires DeploymentOf(svc).Built?
    ensures RunsCommand(DeploymentOf(svc).value.container, RunCommand(svc))
  {
    hide ParseCommand, Mounts, Volumes, InitContainers, CommonLabels, SelectorLabels, Split, IsSplit;
    if ParseCommand(RunCommand(svc)).Some? {
      SplitIsWhole(ParseCommand(RunCommand(svc)).value);
    }
  }

  lemma SplitIsWhole(parsed: seq<string>)
    ensures Split(parsed).0 + Split(parsed).1 == parsed && IsSplit(Split(parsed).0, Split(parsed).1)
  {}

  predicate CommandPanics(cmd: string) {
    cmd != "" && ParseCommand(cmd).None?
  }

  lemma {:induction false} InitContainersPanic(svc: Service, ics: seq<InitContainerSpec>)
    ensures InitContainers(svc, ics).None? <==> exists i :: 0 <= i < |ics| && CommandPanics(ics[i].command)
    decreases |ics|
  {
    hide ParseCommand, Mounts;
    if ics != [] {
      var n := |ics| - 1;
      InitContainersPanic(svc, ics[..n]);
      assert InitContainer(svc, n, ics[n]).None? <==> CommandPanics(ics[n].command);
      if i :| 0 <= i < |ics[..n]| && CommandPanics(ics[..n][i].command) {
        assert CommandPanics(ics[i].command);
      }
      if i :| 0 <= i < |ics| && CommandPanics(ics[i].command) && i < n {
        assert CommandPanics(ics[..n][i].command);
      }
    }
  }

  /** The health check runs a command, and one that makes the parser panic. */
  predicate CheckPanics(c: ServiceConfig) {
    c.healthCheck.Some? && c.healthCheck.value.checkType == "exec" && CommandPanics(c.healthCheck.value.command)
  }

  lemma ProbesPanicExactly(container: Container, c: ServiceConfig)
    ensures WithProbes(container, c).None? <==> CheckPanics(c)
  {
    hide ParseCommand;
  }

  /**
   Building the Deployment panics exactly when there is an image and one of its commands makes the
   parser panic: the run command, that of an init container, or that of the health check.
   */
  lemma DeploymentPanicsExactly(svc: Service)
    ensures DeploymentOf(svc).Panicked? <==>
      && svc.spec.config.image != ""
      && (CommandPanics(RunCommand(svc)) || CheckPanics(svc.spec.config)
          || exists i :: 0 <= i < |svc.spec.config.initContainers|
                && CommandPanics(svc.spec.config.initContainers[i].command))
  {
    InitContainersPanic(svc, svc.spec.config.initContainers);
    ProbesPanicExactly(MainContainer(svc), svc.spec.config);
    hide ParseCommand, Mounts, Volumes, InitContainers, CommonLabels, SelectorLabels, WithProbes, CheckPanics;
  }

  /** A service without any command but that of its health check, which is a shell call on a lone quote. */
  function LoneQuoteCheck(): Service {
    var times := ProbeTimes(None, None, None);
    var check := HealthCheckSpec(EXEC_CHECK, "", None, "sh -c '", times, times);
    var config := ServiceConfig([], [], None, None, false, "nginx", DatabaseSpec("", None), [], [], [], Some(check));
    Service("default", "web", 1, ServiceSpec("web", "docker-image", "", "", "", config, [], [], "", "", "", "", ""))
  }

  lemma {:induction false} CheckPanicWitness()
    ensures DeploymentOf(LoneQuoteCheck()).Panicked?
    ensures RunCommand(LoneQuoteCheck()) == "" && LoneQuoteCheck().spec.config.initContainers == []
  {
    PanicWitness();
    hide ParseCommand;
    assert CommandPanics("sh -c '");
    DeploymentPanicsExactly(LoneQuoteCheck());
    hide DeploymentOf, CommandPanics;
  }

  /** Whether the health check says enough to probe with. */
  predicate CanProbe(c: ServiceConfig, h: HealthCheckSpec) {
    || (h.checkType == "http" && (h.port.Some? || c.ports != []))
    || (h.checkType == "exec" && h.command != "" && ParseCommand(h.command) != Some([]))
  }

  /**
   The program takes the whole parsed command as argument vector, or asks for the path on the given or
   the first port.
   */
  predicate ProbesAsDeclared(c: ServiceConfig, h: HealthCheckSpec, action: ProbeAction) {
    match action
    case Exec(argv) => h.checkType == "exec" && argv != [] && ParseCommand(h.command) == Some(argv)
    case HttpGet(path, port) =>
      && h.checkType == "http"
      && (if h.path == "" then path == "/health" else path == h.path)
      && (match h.port case Some(given) => port == given case None => c.ports != [] && port == c.ports[0].port)
  }

  /** The value is the given one, or the default where none is given. */
  predicate IsGiven(given: Option<int>, value: int, default_: int) {
    match given case Some(v) => value == v case None => value == default_
  }

  predicate TimesAre(times: ProbeTimes, probe: Probe, failures: int, period: int, timeout: int) {
    && IsGiven(times.failureThreshold, probe.failureThreshold, failures)
    && IsGiven(times.periodSeconds, probe.periodSeconds, period)
    && IsGiven(times.timeoutSeconds, probe.timeoutSeconds, timeout)
  }

  /**
   The three probes come together, exactly when the health check says enough, and do the same;
   readiness is liveness. Times are as given; by default a running container may fail three times, ten
   seconds apart, and a starting one thirty times, three seconds apart.
   */
  lemma ProbesAgree(svc: Service)
    requires DeploymentOf(svc).Built?
    ensures var c, d := svc.spec.config, DeploymentOf(svc).value.container;
      && (d.liveness.Some? <==> c.healthCheck.Some? && CanProbe(c, c.healthCheck.value))
      && (d.startup.Some? <==> d.liveness.Some?) && d.readiness == d.liveness
      && (d.liveness.Some? ==>
            var h, live, start := c.healthCheck.value, d.liveness.value, d.startup.value;
            && live.action == start.action && ProbesAsDeclared(c, h, live.action)
            && TimesAre(h.health, live, 3, 10, 5) && TimesAre(h.startup, start, 30, 3, 5))
  {
    hide ParseCommand, Mounts, Volumes, InitContainers, CommonLabels, SelectorLabels;
  }

  lemma {:induction false} InitContainersAre(svc: Service, ics: seq<InitContainerSpec>)
    requires InitContainers(svc, ics).Some?
    ensures var inits := InitContainers(svc, ics).value;
      |inits| == |ics| && forall i :: 0 <= i < |ics| ==>
        && inits[i].name == svc.name + "-init-" + Decimal(i) && inits[i].image == ics[i].image
        && inits[i].mounts == Mounts(svc)
        && inits[i].envSecret == svc.spec.kubernetesSecret && inits[i].env == svc.spec.envVars
        && RunsCommand(inits[i], ics[i].command)
    decreases |ics|
  {
    hide ParseCommand, Mounts, Decimal, Split, RunsCommand;
    if ics != [] {
      var n := |ics| - 1;
      InitContainersAre(svc, ics[..n]);
      InitCommandIsWhole(svc, n, ics[n]);
    }
  }

  /** The container runs this command, or its image's own. */
  predicate RunsCommand(c: Container, cmd: string) {
    if cmd == "" then c.command == [] && c.args == []
    else ParseCommand(cmd) == Some(c.command + c.args) && IsSplit(c.command, c.args)
  }

  lemma InitCommandIsWhole(svc: Service, i: nat, ic: InitContainerSpec)
    requires InitContainer(svc, i, ic).Some?
    ensures RunsCommand(InitContainer(svc, i, ic).value, ic.command)
  {
    hide ParseCommand, Mounts, Decimal, Split, IsSplit;
    if ic.command != "" && ParseCommand(ic.command).Some? {
      SplitIsWhole(ParseCommand(ic.command).value);
    }
  }

  /**
   Every container mounts just what the Deployment declares as volumes, in the same order, and init
   containers have distinct names.
   */
  lemma MountsResolve(svc: Service)
    requires DeploymentOf(svc).Built?
    ensures var d := DeploymentOf(svc).value;
      && |d.container.mounts| == |d.volumes|
      && (forall i :: 0 <= i < |d.volumes| ==> d.container.mounts[i].name == d.volumes[i].name)
      && (forall i :: 0 <= i < |d.initContainers| ==> d.initContainers[i].mounts == d.container.mounts)
      && (forall i, j :: 0 <= i < j < |d.initContainers| ==> d.initContainers[i].name != d.initContainers[j].name)
  {
    var d := DeploymentOf(svc).value;
    InitContainersAre(svc, svc.spec.config.initContainers);
    hide WithCommand, InitContainers, CommonLabels, SelectorLabels, Decimal;
    var prefix := svc.name + "-init-";
    forall i, j | 0 <= i < j < |d.initContainers|
      ensures d.initContainers[i].name != d.initContainers[j].name
    {
      if prefix + Decimal(i) == prefix + Decimal(j) {
        assert (prefix + Decimal(i))[|prefix|..] == Decimal(i) && (prefix + Decimal(j))[|prefix|..] == Decimal(j);
        DecimalDashInjective(i, j, "", "");
      }
    }
    MainMounts(svc);
  }

  lemma MainMounts(svc: Service)
    requires DeploymentOf(svc).Built?
    ensures DeploymentOf(svc).value.container.mounts == Mounts(svc)
    ensures DeploymentOf(svc).value.volumes == Volumes(svc)
  {
    hide ParseCommand, Mounts, Volumes, InitContainers, CommonLabels, SelectorLabels;
  }

  // ----- The Ingress -----

  /** Some built Service has the backend's name and exposes its port number. */
  ghost predicate Resolves(svc: Service, rule: Rule) {
    && ServicesOf(svc).Some?
    && exists k, i :: 0 <= k < |ServicesOf(svc).value| && 0 <= i < |ServicesOf(svc).value[k].net.ports|
         && ServicesOf(svc).value[k].name == rule.backendName
         && ServicesOf(svc).value[k].net.ports[i].port == rule.backendPort
  }

  /** The number is declared as a port without node port. */
  ghost predicate DeclaredInternally(ports: seq<PortSpec>, number: int) {
    exists j :: 0 <= j < |ports| && ports[j].nodePort.None? && ports[j].port == number
  }

  lemma BaseServiceAmongBuilt(svc: Service, k: nat)
    requires ServicesOf(svc).Some? && k < |ServicesOf(svc).value|
    ensures ServicesOf(svc).value[k].name == svc.name ==>
      ServicesOf(svc).value[k].net.ports == PortsWhere(svc.spec.name, svc.spec.config.ports, false)
    ensures ServicesOf(svc).value[k].name == svc.name ==> k == |ServicesOf(svc).value| - 1
  {
    hide PortsWhere, CommonLabels, SelectorLabels;
    assert |svc.name + NODEPORT_SUFFIX| > |svc.name|;
  }

  lemma InternalPortResolves(svc: Service, rule: Rule, j: nat)
    requires rule.backendName == svc.name
    requires j < |svc.spec.config.ports| && svc.spec.config.ports[j].nodePort.None?
    requires svc.spec.config.ports[j].port == rule.backendPort
    ensures Resolves(svc, rule)
  {
    var name, ports := svc.spec.name, svc.spec.config.ports;
    PortsWhereComplete(name, ports, j);
    var internal := PortsWhere(name, ports, false);
    var i :| 0 <= i < |internal| && internal[i] == NetPortOf(name, ports[j]);
    hide PortsWhere, CommonLabels, SelectorLabels, PortName;
    var built := ServicesOf(svc).value;
    var k := |built| - 1;
    assert built[k].name == svc.name && built[k].net.ports[i].port == rule.backendPort;
  }

  /**
   A rule has its host's path and port, the root and the first declared port by default. It reaches a built
   Service exactly when its port is declared without a node port.
   */
  lemma BackendResolves(svc: Service, h: nat)
    requires IngressOf(svc).Built? && h < |svc.spec.config.hosts|
    ensures h < |IngressOf(svc).value.rules|
    ensures var rule, host, ports := IngressOf(svc).value.rules[h], svc.spec.config.hosts[h], svc.spec.config.ports;
      && rule.host == host.host && rule.path == (if host.path == "" then "/" else host.path)
      && rule.backendName == svc.name
      && (match host.port case Some(port) => rule.backendPort == port
                          case None => ports != [] && rule.backendPort == ports[0].port)
      && (Resolves(svc, rule) <==> DeclaredInternally(ports, rule.backendPort))
  {
    var rule := IngressOf(svc).value.rules[h];
    var ports := svc.spec.config.ports;
    hide ServicesOf, PortsWhere;
    if j :| 0 <= j < |ports| && ports[j].nodePort.None? && ports[j].port == rule.backendPort {
      InternalPortResolves(svc, rule, j);
    }
    if Resolves(svc, rule) {
      var k, i :| 0 <= k < |ServicesOf(svc).value| && 0 <= i < |ServicesOf(svc).value[k].net.ports|
        && ServicesOf(svc).value[k].name == rule.backendName
        && ServicesOf(svc).value[k].net.ports[i].port == rule.backendPort;
      BaseServiceAmongBuilt(svc, k);
      var j := PortsWhereSound(svc.spec.name, ports, false, i);
    }
  }

  /** The published URLs, the TLS hosts and the rules name the same hosts in the same order. */
  lemma UrlsFollowIngress(svc: Service)
    requires IngressOf(svc).Built?
    ensures var urls, ingress := StatusUrls(svc.spec.config), IngressOf(svc).value;
      && |urls| == |ingress.rules| == |ingress.tlsHosts|
      && forall i :: 0 <= i < |urls| ==>
            urls[i] == "https://" + ingress.rules[i].host && ingress.rules[i].host == ingress.tlsHosts[i]
  {}

  /** URLs are published without any Ingress behind them exactly for a public service with hosts and no ports. */
  lemma UrlsWithoutIngress(svc: Service)
    ensures StatusUrls(svc.spec.config) != [] && IngressOf(svc).NotNeeded? <==>
      svc.spec.config.public && svc.spec.config.hosts != [] && svc.spec.config.ports == []
  {}

  /** There is an Ingress exactly for a public service with hosts and ports; TLS covers all its hosts. */
  lemma IngressAsDeclared(svc: Service)
    ensures var c := svc.spec.config;
      && (IngressOf(svc).Built? <==> c.public && c.hosts != [] && c.ports != [])
      && (IngressOf(svc).Built? ==>
            var ingress := IngressOf(svc).value;
            && ingress.class_ == "nginx" && ingress.tlsSecret == Lower(svc.name) + "-tls-secret"
            && |ingress.rules| == |ingress.tlsHosts| == |c.hosts|
            && forall i :: 0 <= i < |c.hosts| ==> ingress.tlsHosts[i] == c.hosts[i].host)
  {}

  // ----- What is built, field by field -----

  /** The labels that select. */
  lemma SelectorAsDeclared(svc: Service)
    ensures SelectorLabels(svc).Keys ==
        {"app.kubernetes.io/name", "app.kubernetes.io/instance", "app.kubernetes.io/managed-by"}
    ensures forall l :: l in SelectorLabels(svc) ==>
        SelectorLabels(svc)[l] == if l == "app.kubernetes.io/managed-by" then "unbind-operator" else svc.name
  {}

  /** The labels that every object carries: those that select, and where the service belongs. */
  lemma LabelsAsDeclared(svc: Service)
    ensures var labels, spec := CommonLabels(svc), svc.spec;
      && "unbind-team" in labels && labels["unbind-team"] == spec.teamRef
      && "unbind-project" in labels && labels["unbind-project"] == spec.projectRef
      && "unbind-service" in labels && labels["unbind-service"] == spec.serviceRef
      && "unbind-environment" in labels && labels["unbind-environment"] == spec.environmentRef
      && "unbind-deployment" in labels && labels["unbind-deployment"] == spec.deploymentRef
      && ("unbind-provider" in labels <==> spec.provider != "")
      && (spec.provider != "" ==> labels["unbind-provider"] == spec.provider)
      && ("unbind-framework" in labels <==> spec.framework != "")
      && (spec.framework != "" ==> labels["unbind-framework"] == spec.framework)
  {
    SelectorAsDeclared(svc);
    hide SelectorLabels;
  }

  /** A Deployment runs the image under the service's name, with its ports, environment and replicas. */
  lemma DeploymentAsDeclared(svc: Service)
    ensures DeploymentOf(svc).NotNeeded? <==> svc.spec.config.image == ""
    ensures DeploymentOf(svc).Built? ==>
      var c, d := svc.spec.config, DeploymentOf(svc).value;
      && d.container.name == svc.name && d.container.image == c.image
      && d.container.envSecret == svc.spec.kubernetesSecret && d.container.env == svc.spec.envVars
      && |d.container.ports| == |c.ports|
      && (forall i :: 0 <= i < |c.ports| ==> d.container.ports[i] == c.ports[i].port)
      && d.replicas == (match c.replicas case Some(n) => n case None => 1)
      && (d.recreate <==> c.volumes != [])
      && d.imagePullSecrets == svc.spec.imagePullSecrets
      && d.selector == SelectorLabels(svc) && d.podLabels == CommonLabels(svc)
      && |d.initContainers| == |c.initContainers|
  {
    hide ParseCommand, Mounts, Volumes, CommonLabels, SelectorLabels, InitContainer;
    if DeploymentOf(svc).Built? {
      InitContainersCount(svc, svc.spec.config.initContainers);
    }
    hide InitContainers;
  }

  lemma {:induction false} InitContainersCount(svc: Service, ics: seq<InitContainerSpec>)
    requires InitContainers(svc, ics).Some?
    ensures |InitContainers(svc, ics).value| == |ics|
    decreases |ics|
  {
    hide InitContainer;
    if ics != [] {
      InitContainersCount(svc, ics[..|ics| - 1]);
    }
  }

  /** Volumes are the claims of the service's own name, and its variables as files of the environment secret. */
  lemma VolumesAsDeclared(svc: Service)
    requires DeploymentOf(svc).Built?
    ensures var c, d := svc.spec.config, DeploymentOf(svc).value;
      var n := |c.volumes|;
      && |d.volumes| == |d.container.mounts| == n + |c.variableMounts|
      && (forall i :: 0 <= i < n ==>
            && d.volumes[i] == ClaimVolume(c.volumes[i].name, c.volumes[i].name)
            && d.container.mounts[i] == Mount(c.volumes[i].name, c.volumes[i].mountPath, ""))
      && (forall i :: 0 <= i < |c.variableMounts| ==>
            var vm, name := c.variableMounts[i], "var-mount-" + Decimal(i);
            && d.volumes[n + i] == SecretVolume(name, svc.spec.kubernetesSecret, vm.name)
            && d.container.mounts[n + i] == Mount(name, vm.path, vm.name))
  {
    MainMounts(svc);
    hide DeploymentOf, Decimal;
  }

  /**
   The Service of the service's own name has the ports without node port and no stated type; the one with
   the suffix has the others. Neither states an address; both carry the labels and the selector.
   */
  lemma ServicesAsDeclared(svc: Service, k: nat)
    requires ServicesOf(svc).Some? && k < |ServicesOf(svc).value|
    ensures var b, ports := ServicesOf(svc).value[k], svc.spec.config.ports;
      && b.labels == CommonLabels(svc) && b.net.selector == SelectorLabels(svc) && b.net.clusterIP == ""
      && (|| (b.name == svc.name && b.net.netType == "" && b.net.ports == PortsWhere(svc.spec.name, ports, false))
          || (b.name == svc.name + "-nodeport" && b.net.netType == "NodePort"
              && b.net.ports == PortsWhere(svc.spec.name, ports, true)))
  {
    hide PortsWhere, CommonLabels, SelectorLabels;
  }
}
