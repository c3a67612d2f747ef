/**
 The read-compare-write loop that reconcileDeployment, reconcileServices, reconcileIngress,
 reconcilePostgresql, reconcileMySQLCluster and reconcileClickhouseInstallation each contain:
 five attempts, sleeping 1, 2, 4, 8 and 16 seconds after a write conflict.
 */
module Retry {
  import opened Text
  import opened Types
  import opened Trees
  import opened Builders
  import opened Cluster

  const MAX_RETRIES := 5

  const OWNER_KIND := "unbind.unbind.app/Service"

  /** What one of the six loops works on; the Service loop rewrites its desired spec as it goes. */
  datatype Task =
    | DeployTask(svc: Service, deployment: DeploymentSpec)
    | NetTask(svc: Service, built: BuiltNet)
    | IngressTask(svc: Service, ingress: IngressSpec)
    | ManagedTask(svc: Service, crd: Crd, namespace: string, name: string, spec: Json)

  function KeyOf(t: Task): Key {
    match t
    case DeployTask(svc, _) => Key(DeploymentKind, svc.namespace, svc.name)
    case NetTask(svc, built) => Key(NetKind, svc.namespace, built.name)
    case IngressTask(svc, _) => Key(IngressKind, svc.namespace, svc.name)
    case ManagedTask(_, crd, namespace, name, _) => Key(Managed(crd), namespace, name)
  }

  // ----- controllerutil.SetControllerReference -----

  function OwnerOf(svc: Service): OwnerRef {
    OwnerRef(OWNER_KIND, svc.name, svc.uid)
  }

  /** Owners are the same when kind and name agree; the uid is not looked at. */
  predicate MayOwn(svc: Service, controller: Option<OwnerRef>) {
    controller.Some? ==> controller.value.kind == OWNER_KIND && controller.value.name == svc.name
  }

  function Adopt(svc: Service, obj: Object): Object {
    obj.(controller := Some(OwnerOf(svc)))
  }

  // ----- Carrying allocated values over -----

  /** The inner loop over the existing ports, for one desired port. */
  function CarryPort(p: NetPort, existing: seq<NetPort>): NetPort
    decreases |existing|
  {
    if existing == [] then p
    else
      var e := existing[0];
      CarryPort(if p.port == e.port && p.name == e.name && p.nodePort == 0 then p.(nodePort := e.nodePort) else p,
                existing[1..])
  }

  function CarryPorts(desired: seq<NetPort>, existing: seq<NetPort>): seq<NetPort> {
    seq(|desired|, i requires 0 <= i < |desired| => CarryPort(desired[i], existing))
  }

  function CarryNet(desired: NetSpec, existing: NetSpec): NetSpec {
    NetSpec(desired.netType, desired.selector,
            if desired.netType == NODE_PORT then CarryPorts(desired.ports, existing.ports) else desired.ports,
            existing.clusterIP)
  }

  method CarryAllocations(desired: NetSpec, existing: NetSpec) returns (r: NetSpec)
    ensures r == CarryNet(desired, existing)
  {
    r := desired.(clusterIP := existing.clusterIP);
    if r.netType == NODE_PORT {
      for i := 0 to |desired.ports|
        invariant |r.ports| == |desired.ports|
        invariant r == desired.(clusterIP := existing.clusterIP, ports := r.ports)
        invariant forall k :: 0 <= k < i ==> r.ports[k] == CarryPort(desired.ports[k], existing.ports)
        invariant forall k :: i <= k < |desired.ports| ==> r.ports[k] == desired.ports[k]
      {
        for j := 0 to |existing.ports|
          invariant |r.ports| == |desired.ports|
          invariant r == desired.(clusterIP := existing.clusterIP, ports := r.ports)
          invariant forall k :: 0 <= k < i ==> r.ports[k] == CarryPort(desired.ports[k], existing.ports)
          invariant forall k :: i < k < |desired.ports| ==> r.ports[k] == desired.ports[k]
          invariant CarryPort(r.ports[i], existing.ports[j..]) == CarryPort(desired.ports[i], existing.ports)
        {
          assert existing.ports[j..][0] == existing.ports[j] && existing.ports[j..][1..] == existing.ports[j + 1..];
          if r.ports[i].port == existing.ports[j].port && r.ports[i].name == existing.ports[j].name
             && r.ports[i].nodePort == 0 {
            r := r.(ports := r.ports[i := r.ports[i].(nodePort := existing.ports[j].nodePort)]);
          }
        }
      }
      assert r.ports == CarryPorts(desired.ports, existing.ports);
    }
  }

  // ----- One attempt -----

  datatype Plan = Keep | Write(obj: Object) | Refuse(error: Error)

  /** The loop's task after it has seen the existing object. */
  function Revise(t: Task, existing: Object): Task {
    if t.NetTask? && existing.body.NetBody?
    then t.(built := t.built.(net := CarryNet(t.built.net, existing.body.net)))
    else t
  }

  predicate NetDiffers(desired: NetSpec, existing: NetSpec) {
    existing.ports != desired.ports || existing.selector != desired.selector || existing.netType != desired.netType
  }

  function AdoptAndWrite(svc: Service, obj: Object): Plan {
    if MayOwn(svc, obj.controller) then Write(Adopt(svc, obj)) else Refuse(AlreadyOwned)
  }

  /** What to do about an existing object, once the loop's task is revised. */
  function PlanFor(t: Task, existing: Object): Plan {
    match t
    case DeployTask(svc, deployment) =>
      if existing.body != DeploymentBody(deployment) || existing.labels != CommonLabels(svc)
      then Write(existing.(labels := CommonLabels(svc), body := DeploymentBody(deployment)))
      else Keep
    case NetTask(svc, built) =>
      if existing.body.NetBody? && !NetDiffers(built.net, existing.body.net) then Keep
      else AdoptAndWrite(svc, existing.(body := NetBody(built.net)))
    case IngressTask(svc, ingress) =>
      if existing.body != IngressBody(ingress)
      then AdoptAndWrite(svc, existing.(body := IngressBody(ingress)))
      else Keep
    case ManagedTask(svc, _, _, _, spec) =>
      if existing.body != ManagedBody(spec) then Write(existing.(body := ManagedBody(spec))) else Keep
  }

  /** What is created when nothing is there. Deployments are created without a controller reference. */
  function FreshObject(t: Task): Object {
    match t
    case DeployTask(svc, deployment) => NewObject(CommonLabels(svc), None, DeploymentBody(deployment))
    case NetTask(svc, built) => NewObject(built.labels, Some(OwnerOf(svc)), NetBody(built.net))
    case IngressTask(svc, ingress) => NewObject(CommonLabels(svc), Some(OwnerOf(svc)), IngressBody(ingress))
    case ManagedTask(svc, _, _, _, spec) => NewObject(map[], Some(OwnerOf(svc)), ManagedBody(spec))
  }

  datatype End = Created | UpToDate | Updated | Stopped(error: Error)
  datatype Verdict = Done(end: End) | Again

  /** One pass through a loop body, up to the decision to retry. */
  function Attempt(w: World, t: Task): (r: (World, Task, Verdict))
    ensures Extends(w, r.0) && r.0.slept == w.slept
    ensures KeyOf(r.1) == KeyOf(t)
  {
    hide Call, Extends, CommonLabels;
    var (w1, read) := Call(w, Get(KeyOf(t)));
    if read.Failed? then
      if read.error == NotFound then
        var (w2, made) := Call(w1, Create(KeyOf(t), FreshObject(t)));
        ExtendsTransitive(w, w1, w2);
        (w2, t, Done(if made.Got? then Created else Stopped(made.error)))
      else (w1, t, Done(Stopped(read.error)))
    else
      var existing := read.stored;
      var t1 := Revise(t, existing.obj);
      match PlanFor(t1, existing.obj)
      case Keep => (w1, t1, Done(UpToDate))
      case Refuse(error) => (w1, t1, Done(Stopped(error)))
      case Write(obj) =>
        var (w2, written) := Call(w1, Update(KeyOf(t1), obj, Some(existing.version)));
        ExtendsTransitive(w, w1, w2);
        (w2, t1, if written.Got? then Done(Updated)
                 else if written.error == Conflict then Again
                 else Done(Stopped(written.error)))
  }

  /** The whole loop from attempt `i` on. */
  function RetryLoop(w: World, t: Task, i: nat, backoff: nat): (r: (World, End))
    ensures Extends(w, r.0)
    decreases MAX_RETRIES - i
  {
    hide Attempt, Sleep, Extends;
    ExtendsReflexive(w);
    if i >= MAX_RETRIES then (w, Stopped(Exhausted))
    else
      var (w1, t1, verdict) := Attempt(w, t);
      match verdict
      case Done(end) => (w1, end)
      case Again =>
        var r := RetryLoop(Sleep(w1, backoff), t1, i + 1, 2 * backoff);
        ExtendsTransitive(w, w1, Sleep(w1, backoff));
        ExtendsTransitive(w, Sleep(w1, backoff), r.0);
        r
  }

  function Ensure(w: World, t: Task): (World, End) {
    RetryLoop(w, t, 0, 1)
  }
}
