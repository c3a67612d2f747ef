/**
 Allocated values over histories of spec edits: while nobody else touches a core Service, it keeps its
 cluster address from creation to deletion, and a port declared without a number keeps its node port.
 */
module Allocation {
  import opened Text
  import opened Types
  import opened Builders
  import opened BuilderLaws
  import opened Cluster
  import opened ClusterLaws
  import opened Retry
  import opened RetryLaws
  import opened Secrets
  import opened Credentials
  import opened Trace
  import opened Runtime
  import opened Reconciler
  import opened PassLaws
  import opened ServiceExactness
  import opened Runs

  // ----- The cluster address -----

  ghost function AddressIs(k: Key, ip: Address): Store -> bool {
    (s: Store) => k in s && s[k].obj.body.NetBody? && s[k].obj.body.net.clusterIP == ip
  }

  lemma StandardKeepsAddress(scope: set<Key>, e: Event, k: Key, ip: Address)
    requires Standard(scope, e) && k in e.after
    ensures Preserves(AddressIs(k, ip))(e)
  {
    hide Improves, Consistent;
  }

  /** Over any run of passes and any edits of the specs in between, a Service that stays keeps its cluster address. */
  lemma {:induction false} AddressIsStable(w: World, cs: seq<Key>, k: Key, ip: Address)
    requires WellFormed(w) && AddressIs(k, ip)(w.store)
    requires k.kind == NetKind && forall i :: 0 <= i < |cs| ==> cs[i].kind == CustomResource
    requires AllNew(w, Run(w, cs), Undisturbed(k))
    ensures AllNew(w, Run(w, cs), Around(AddressIs(k, ip))) && AddressIs(k, ip)(Run(w, cs).store)
  {
    forall scope, e | Standard(scope, e) && Undisturbed(k)(e)
      ensures Preserves(AddressIs(k, ip))(e)
    {
      StandardKeepsAddress(scope, e, k, ip);
    }
    hide Run, Standard, WritesRendered;
    RunPreserves(w, cs, k, Undisturbed(k), AddressIs(k, ip));
  }

  // ----- Node ports -----

  predicate IsPort(p: NetPort, port: int, name: string) {
    p.port == port && p.name == name
  }

  /** There is a port of this number and name, and it has this node port. */
  ghost predicate PortIn(ports: seq<NetPort>, port: int, name: string, v: int) {
    && (exists j :: 0 <= j < |ports| && IsPort(ports[j], port, name))
    && (forall j :: 0 <= j < |ports| && IsPort(ports[j], port, name) ==> ports[j].nodePort == v)
  }

  ghost function NodePortIs(k: Key, port: int, name: string, v: NodePort): Store -> bool {
    (s: Store) => k in s && s[k].obj.body.NetBody? && PortIn(s[k].obj.body.net.ports, port, name, v)
  }

  lemma {:induction false} CarryFinds(p: NetPort, existing: seq<NetPort>, v: NodePort)
    requires p.nodePort == 0 && PortIn(existing, p.port, p.name, v)
    ensures CarryPort(p, existing) == p.(nodePort := v)
    decreases |existing|
  {
    var e, rest := existing[0], existing[1..];
    if IsPort(e, p.port, p.name) {
      CarryPortKeeps(p.(nodePort := e.nodePort), rest);
    } else {
      var j :| 0 <= j < |existing| && IsPort(existing[j], p.port, p.name);
      assert rest[j - 1] == existing[j];
      CarryFinds(p, rest, v);
    }
  }

  /** Declared open, or already carried over. */
  ghost predicate OpenOrHeld(net: NetSpec, port: int, name: string, v: NodePort) {
    net.netType == NODE_PORT && (PortIn(net.ports, port, name, 0) || PortIn(net.ports, port, name, v))
  }

  lemma CarriedIsHeld(net: NetSpec, existing: NetSpec, port: int, name: string, v: NodePort)
    requires OpenOrHeld(net, port, name, v) && PortIn(existing.ports, port, name, v)
    ensures PortIn(CarryNet(net, existing).ports, port, name, v)
    ensures OpenOrHeld(CarryNet(net, existing), port, name, v)
  {
    var carried := CarryPorts(net.ports, existing.ports);
    forall i | 0 <= i < |net.ports|
      ensures IsPort(carried[i], port, name) <==> IsPort(net.ports[i], port, name)
      ensures IsPort(net.ports[i], port, name) ==> carried[i].nodePort == v
    {
      CarryPortKeeps(net.ports[i], existing.ports);
      if IsPort(net.ports[i], port, name) && net.ports[i].nodePort == 0 {
        CarryFinds(net.ports[i], existing.ports, v);
      }
    }
    var j :| 0 <= j < |net.ports| && IsPort(net.ports[j], port, name);
    assert IsPort(carried[j], port, name);
  }

  lemma AdmittedIsHeld(defaults: Defaults, grant: Grant, net: NetSpec, port: int, name: string, v: NodePort)
    requires PortIn(net.ports, port, name, v)
    ensures PortIn(AdmitNet(defaults, grant, net).ports, port, name, v)
  {
    var ports := AdmitNet(defaults, grant, net).ports;
    assert forall i :: 0 <= i < |ports| ==> (IsPort(ports[i], port, name) <==> IsPort(net.ports[i], port, name));
    var j :| 0 <= j < |net.ports| && IsPort(net.ports[j], port, name);
    assert IsPort(ports[j], port, name);
  }

  /** A call whose own request keeps the port. */
  lemma CallPreserves(w: World, op: Op, k: Key, port: int, name: string, v: NodePort)
    requires AllNew(w, Call(w, op).0, Undisturbed(k))
    requires Preserves(NodePortIs(k, port, name, v))(Call(w, op).0.log[|Awaited(w).log|])
    ensures AllNew(w, Call(w, op).0, Preserves(NodePortIs(k, port, name, v)))
  {
    var p := (e: Event) => Undisturbed(k)(e) ==> Preserves(NodePortIs(k, port, name, v))(e);
    ForeignIsPreserved(k, port, name, v);
    hide Call, Awaited, Foreign, Preserves, Undisturbed;
    CallIs(w, op, p);
    forall i | |w.log| <= i < |Call(w, op).0.log|
      ensures Preserves(NodePortIs(k, port, name, v))(Call(w, op).0.log[i])
    {
      assert p(Call(w, op).0.log[i]) && Undisturbed(k)(Call(w, op).0.log[i]);
    }
  }

  lemma ForeignIsPreserved(k: Key, port: int, name: string, v: NodePort)
    ensures forall e :: Foreign(e) && Undisturbed(k)(e) ==> Preserves(NodePortIs(k, port, name, v))(e)
  {}

  /** The one update of an attempt carries the port over from the object it replaces. */
  lemma {:induction false} UpdateKeepsPort(w: World, t: Task, existing: Stored, obj: Object, port: int, name: string,
      v: NodePort)
    requires t.NetTask? && WellFormed(w) && Pinned(w, KeyOf(t), existing) && existing.obj.body.NetBody?
    requires OpenOrHeld(t.built.net, port, name, v) && PlanFor(Revise(t, existing.obj), existing.obj) == Write(obj)
    requires AllNew(w, Call(w, Update(KeyOf(t), obj, Some(existing.version))).0, Undisturbed(KeyOf(t)))
    ensures AllNew(w, Call(w, Update(KeyOf(t), obj, Some(existing.version))).0,
        Preserves(NodePortIs(KeyOf(t), port, name, v)))
  {
    hide Call, Awaited, Linked, Pinned, AdmitNet, OpenOrHeld, Undisturbed, CarryNet;
    var k, op := KeyOf(t), Update(KeyOf(t), obj, Some(existing.version));
    var e, was := Call(w, op).0.log[|Awaited(w).log|], existing.obj.body.net;
    UpdateReplacesPinned(w, k, obj, existing);
    FailureIsQuiet(w, op);
    assert obj.body == NetBody(CarryNet(t.built.net, was)) by { hide NetDiffers; }
    if e.reply.Got? && PortIn(was.ports, port, name, v) {
      CarriedIsHeld(t.built.net, was, port, name, v);
      AdmittedIsHeld(w.setting.defaults, w.setting.env(w.clock, w.store).grant, CarryNet(t.built.net, was), port, name,
          v);
    }
    CallPreserves(w, op, k, port, name, v);
  }

  lemma {:induction false} AttemptKeepsPort(w: World, t: Task, port: int, name: string, v: NodePort)
    requires t.NetTask? && WellFormed(w) && NodePortIs(KeyOf(t), port, name, v)(w.store)
    requires OpenOrHeld(t.built.net, port, name, v) && AllNew(w, Attempt(w, t).0, Undisturbed(KeyOf(t)))
    ensures var (w1, t1, _) := Attempt(w, t);
      && AllNew(w, w1, Around(NodePortIs(KeyOf(t), port, name, v))) && NodePortIs(KeyOf(t), port, name, v)(w1.store)
      && t1.NetTask? && OpenOrHeld(t1.built.net, port, name, v)
  {
    hide Call, Awaited, Linked, Pinned, OpenOrHeld, Undisturbed, PlanFor, CarryNet, FreshObject, Around, Preserves;
    var k, w' := KeyOf(t), Attempt(w, t).0;
    var inv := NodePortIs(k, port, name, v);
    var (w1, read) := Call(w, Get(k));
    ExtendsReflexive(w1);
    UndisturbedWithin(w, w1, w', k);
    GetPins(w, k);
    ReadPreserves(w, k, port, name, v);
    Preserved(w, w1, inv);
    if read.Got? {
      var existing := read.stored;
      CarriedIsHeld(t.built.net, existing.obj.body.net, port, name, v);
      var t1 := Revise(t, existing.obj);
      ReviseKeepsKey(t, existing.obj);
      if PlanFor(t1, existing.obj).Write? {
        UpdateKeepsPort(w1, t, existing, PlanFor(t1, existing.obj).obj, port, name, v);
        Preserved(w1, w', inv);
        AllNewTransitive(w, w1, w', Around(inv));
      }
    }
  }

  lemma ReadPreserves(w: World, k: Key, port: int, name: string, v: NodePort)
    requires AllNew(w, Call(w, Get(k)).0, Undisturbed(k))
    ensures AllNew(w, Call(w, Get(k)).0, Preserves(NodePortIs(k, port, name, v)))
  {
    FailureIsQuiet(w, Get(k));
    hide Call, Awaited, Undisturbed;
    CallPreserves(w, Get(k), k, port, name, v);
  }

  lemma {:induction false} LoopKeepsPort(w: World, t: Task, i: nat, backoff: nat, port: int, name: string, v: NodePort)
    requires t.NetTask? && WellFormed(w) && NodePortIs(KeyOf(t), port, name, v)(w.store)
    requires OpenOrHeld(t.built.net, port, name, v) && AllNew(w, RetryLoop(w, t, i, backoff).0, Undisturbed(KeyOf(t)))
    ensures var w' := RetryLoop(w, t, i, backoff).0;
      AllNew(w, w', Around(NodePortIs(KeyOf(t), port, name, v))) && NodePortIs(KeyOf(t), port, name, v)(w'.store)
    decreases MAX_RETRIES - i
  {
    hide Attempt, Linked, OpenOrHeld, Undisturbed, NodePortIs, Around, RetryLoop;
    LoopTurns(w, t, i, backoff);
    if i < MAX_RETRIES {
      var (w1, t1, verdict) := Attempt(w, t);
      var w2, w' := Sleep(w1, backoff), RetryLoop(w, t, i, backoff).0;
      ExtendsReflexive(w1);
      if verdict.Again? {
        ExtendsTransitive(w1, w2, w');
      }
      UndisturbedWithin(w, w1, w', KeyOf(t));
      AttemptKeepsPort(w, t, port, name, v);
      if verdict.Again? {
        LoopKeepsPort(w2, t1, i + 1, 2 * backoff, port, name, v);
        AllNewTransitive(w, w1, w', Around(NodePortIs(KeyOf(t), port, name, v)));
      }
    }
  }

  // ----- Node ports over passes and runs -----

  lemma {:induction false} ElsewhereKeepsPort(a: World, b: World, scope: set<Key>, k: Key, port: int, name: string,
      v: NodePort)
    requires Extends(a, b) && AllNew(a, b, Proper(scope)) && k !in scope && AllNew(a, b, Undisturbed(k))
    requires NodePortIs(k, port, name, v)(a.store)
    ensures AllNew(a, b, Around(NodePortIs(k, port, name, v))) && NodePortIs(k, port, name, v)(b.store)
  {
    hide Standard, Foreign, Linked;
    forall i | |a.log| <= i < |b.log|
      ensures Preserves(NodePortIs(k, port, name, v))(b.log[i])
    {
      assert Proper(scope)(b.log[i]) && Undisturbed(k)(b.log[i]);
      if b.log[i].who.Some? {
        StandardStaysInScope(scope, b.log[i], k);
      }
    }
    Preserved(a, b, NodePortIs(k, port, name, v));
  }

  /** The Service under this key is a NodePort Service that declares the port without choosing its number. */
  ghost predicate DeclaresOpen(svc: Service, k: Key, port: int, name: string) {
    && (exists b :: b in BuiltNets(svc) && NetKey(svc, b.name) == k)
    && (forall b :: b in BuiltNets(svc) && NetKey(svc, b.name) == k ==>
          b.net.netType == NODE_PORT && PortIn(b.net.ports, port, name, 0))
  }

  lemma {:induction false} EnsuringKeepsPort(w: World, svc: Service, built: seq<BuiltNet>, k: Key, port: int,
      name: string, v: NodePort)
    requires WellFormed(w) && NodePortIs(k, port, name, v)(w.store)
    requires AllNew(w, EnsureServices(w, svc, built).0, Undisturbed(k))
    requires forall i :: 0 <= i < |built| && NetKey(svc, built[i].name) == k ==>
      built[i].net.netType == NODE_PORT && PortIn(built[i].net.ports, port, name, 0)
    ensures var w' := EnsureServices(w, svc, built).0;
      AllNew(w, w', Around(NodePortIs(k, port, name, v))) && NodePortIs(k, port, name, v)(w'.store)
    decreases |built|
  {
    hide Linked, RetryLoop, Proper, Undisturbed, NodePortIs, Around, PortIn;
    if built != [] {
      var t := NetTask(svc, built[0]);
      var (w1, end) := Ensure(w, t);
      var w' := EnsureServices(w, svc, built).0;
      ExtendsReflexive(w1);
      UndisturbedWithin(w, w1, w', k);
      if KeyOf(t) == k {
        LoopKeepsPort(w, t, 0, 1, port, name, v);
      } else {
        ProperEnsure(w, t);
        ElsewhereKeepsPort(w, w1, {KeyOf(t)}, k, port, name, v);
      }
      if end.UpToDate? || end.Updated? {
        EnsuringKeepsPort(w1, svc, built[1..], k, port, name, v);
        AllNewTransitive(w, w1, w', Around(NodePortIs(k, port, name, v)));
      }
    }
  }

  lemma {:induction false} ServicesKeepPort(w: World, svc: Service, k: Key, port: int, name: string, v: NodePort)
    requires WellFormed(w) && NodePortIs(k, port, name, v)(w.store)
    requires AllNew(w, ReconcileServices(w, svc).0, Undisturbed(k))
    requires DeclaresOpen(svc, k, port, name)
    ensures var w' := ReconcileServices(w, svc).0;
      AllNew(w, w', Around(NodePortIs(k, port, name, v))) && NodePortIs(k, port, name, v)(w'.store)
  {
    hide Linked, EnsureServices, RemoveServices, ServicesOf, Proper, Undisturbed, NodePortIs, Around, PortIn;
    var built, names := BuiltNets(svc), ServiceNames(svc);
    var (w1, o) := EnsureServices(w, svc, built);
    var w' := ReconcileServices(w, svc).0;
    ExtendsReflexive(w1);
    UndisturbedWithin(w, w1, w', k);
    EnsuringKeepsPort(w, svc, built, k, port, name, v);
    if o.Ok? {
      var scope := set i | 0 <= i < |names| && names[i] !in NamesOf(built) :: NetKey(svc, names[i]);
      RemoveServicesIsProper(w1, svc, names, NamesOf(built), scope);
      ElsewhereKeepsPort(w1, w', scope, k, port, name, v);
      AllNewTransitive(w, w1, w', Around(NodePortIs(k, port, name, v)));
    }
  }

  lemma {:induction false} GenericKeepsPort(w: World, svc: Service, k: Key, port: int, name: string, v: NodePort)
    requires WellFormed(w) && NodePortIs(k, port, name, v)(w.store)
    requires AllNew(w, ReconcileGeneric(w, svc).0, Undisturbed(k))
    requires k.kind == NetKind && DeclaresOpen(svc, k, port, name)
    ensures var w' := ReconcileGeneric(w, svc).0;
      AllNew(w, w', Around(NodePortIs(k, port, name, v))) && NodePortIs(k, port, name, v)(w'.store)
  {
    hide Linked, ReconcileDeployment, ReconcileServices, ReconcileIngress, Proper, Undisturbed, NodePortIs, Around,
      DeclaresOpen;
    var p := Around(NodePortIs(k, port, name, v));
    var w' := ReconcileGeneric(w, svc).0;
    var (w1, o1) := ReconcileDeployment(w, svc);
    ExtendsReflexive(w1);
    DeploymentIsProper(w, svc);
    if o1.Ok? {
      var (w2, o2) := ReconcileServices(w1, svc);
      ExtendsReflexive(w2);
      ExtendsTransitive(w1, w2, w');
      UndisturbedWithin(w, w1, w', k);
      UndisturbedWithin(w1, w2, w', k);
      ElsewhereKeepsPort(w, w1, {DeploymentKey(svc)}, k, port, name, v);
      ServicesKeepPort(w1, svc, k, port, name, v);
      AllNewTransitive(w, w1, w2, p);
      if o2.Ok? {
        IngressIsProper(w2, svc);
        ElsewhereKeepsPort(w2, w', {IngressKey(svc)}, k, port, name, v);
        AllNewTransitive(w, w2, w', p);
      }
    } else {
      ElsewhereKeepsPort(w, w1, {DeploymentKey(svc)}, k, port, name, v);
    }
  }

  /** What a pass may do with the port: nothing, unless its service declares it open. */
  ghost predicate SpecLeavesOpen(svc: Service, k: Key, port: int, name: string) {
    svc.spec.serviceType != DATABASE && k in NetScope(svc) ==> DeclaresOpen(svc, k, port, name)
  }

  lemma {:induction false} ChildrenKeepPort(w: World, svc: Service, k: Key, port: int, name: string, v: NodePort)
    requires WellFormed(w) && NodePortIs(k, port, name, v)(w.store)
    requires AllNew(w, ReconcileChildren(w, svc).0, Undisturbed(k))
    requires k.kind == NetKind && SpecLeavesOpen(svc, k, port, name)
    ensures var w' := ReconcileChildren(w, svc).0;
      AllNew(w, w', Around(NodePortIs(k, port, name, v))) && NodePortIs(k, port, name, v)(w'.store)
  {
    hide Linked, ReconcileDatabase, ReconcileGeneric, Proper, Undisturbed, NodePortIs, Around, DeclaresOpen;
    if svc.spec.serviceType != DATABASE && k in NetScope(svc) {
      GenericKeepsPort(w, svc, k, port, name, v);
    } else {
      ChildrenAreProper(w, svc);
      ElsewhereKeepsPort(w, ReconcileChildren(w, svc).0, ChildScope(w, svc), k, port, name, v);
    }
  }

  /** Writes of a custom resource, reads, and deletions that do not remove the Service, keep its port. */
  lemma {:induction false} OthersKeepPort(a: World, b: World, actor: Key, stored: Stored, k: Key, port: int,
      name: string, v: NodePort)
    requires Extends(a, b) && k != actor && AllNew(a, b, Undisturbed(k)) && NodePortIs(k, port, name, v)(a.store)
    requires AllNew(a, b, OwnWrites(actor, stored)) || AllNew(a, b, IsDeletion) || AllNew(a, b, Proper({}))
    ensures AllNew(a, b, Around(NodePortIs(k, port, name, v))) && NodePortIs(k, port, name, v)(b.store)
  {
    hide OwnWrite, Foreign, Linked, Standard;
    forall i | |a.log| <= i < |b.log|
      ensures Preserves(NodePortIs(k, port, name, v))(b.log[i])
    {
      var e := b.log[i];
      assert Undisturbed(k)(e) && (OwnWrites(actor, stored)(e) || IsDeletion(e) || Proper({})(e));
      if e.who.Some? && OwnWrite(actor, stored, e) {
        OwnWriteElsewhere(actor, stored, e, k);
      } else if e.who.Some? && Standard({}, e) {
        StandardStaysInScope({}, e, k);
      }
    }
    Preserved(a, b, NodePortIs(k, port, name, v));
  }

  lemma {:induction false} ReleaseKeepsPort(w: World, stored: Stored, k: Key, port: int, name: string, v: NodePort)
    requires WellFormed(w) && Pinned(w, w.actor, stored) && stored.obj.body.CustomBody? && k != w.actor
    requires NodePortIs(k, port, name, v)(w.store) && AllNew(w, ReleaseService(w, stored).0, Undisturbed(k))
    ensures var w' := ReleaseService(w, stored).0;
      AllNew(w, w', Around(NodePortIs(k, port, name, v))) && NodePortIs(k, port, name, v)(w'.store)
  {
    hide Linked, Call, DeleteAll, IsDeletion, OwnWrites, Pinned, NodePortIs, Undisturbed, Around;
    var svc := ServiceOf(w.actor, stored);
    var (w1, o) := FinalizeService(w, svc);
    var w' := ReleaseService(w, stored).0;
    ExtendsReflexive(w1);
    UndisturbedWithin(w, w1, w', k);
    DeleteAllIsDeletion(w, BaseChildren(svc));
    OthersKeepPort(w, w1, w.actor, stored, k, port, name, v);
    if o.Ok? {
      PinnedStays(w, w1, w.actor, stored);
      FinalizerWriteIsOwn(w1, stored, stored.obj.finalizers - {FINALIZER});
      OthersKeepPort(w1, w', w.actor, stored, k, port, name, v);
      AllNewTransitive(w, w1, w', Around(NodePortIs(k, port, name, v)));
    }
  }

  lemma {:induction false} LiveKeepsPort(w: World, stored: Stored, k: Key, port: int, name: string, v: NodePort)
    requires WellFormed(w) && Pinned(w, w.actor, stored) && stored.obj.body.CustomBody? && k != w.actor
    requires k.kind == NetKind
    requires SpecLeavesOpen(ServiceOf(w.actor, stored), k, port, name)
    requires NodePortIs(k, port, name, v)(w.store) && AllNew(w, ReconcileLive(w, stored).0, Undisturbed(k))
    ensures var w' := ReconcileLive(w, stored).0;
      AllNew(w, w', Around(NodePortIs(k, port, name, v))) && NodePortIs(k, port, name, v)(w'.store)
  {
    hide Linked, Call, ReconcileChildren, OwnWrites, Pinned, NodePortIs, Undisturbed, Around, SpecLeavesOpen,
      DesiredStatus;
    var svc := ServiceOf(w.actor, stored);
    var (w1, o) := ReconcileChildren(w, svc);
    var w' := ReconcileLive(w, stored).0;
    ExtendsReflexive(w1);
    UndisturbedWithin(w, w1, w', k);
    ChildrenKeepPort(w, svc, k, port, name, v);
    if o.Ok? && w' != w1 {
      PinnedStays(w, w1, w.actor, stored);
      StatusWriteIsOwn(w1, stored);
      OthersKeepPort(w1, w', w.actor, stored, k, port, name, v);
      AllNewTransitive(w, w1, w', Around(NodePortIs(k, port, name, v)));
    }
  }

  /** The spec that this pass reads leaves the port open, as far as it concerns it. */
  ghost predicate PassLeavesOpen(w: World, k: Key, port: int, name: string) {
    var read := ReadFirst(w).1;
    read.Got? && read.stored.obj.body.CustomBody? ==> SpecLeavesOpen(ServiceOf(w.actor, read.stored), k, port, name)
  }

  lemma {:induction false} PassKeepsPort(w: World, k: Key, port: int, name: string, v: NodePort)
    requires WellFormed(w) && k != w.actor && k.kind == NetKind && PassLeavesOpen(w, k, port, name)
    requires NodePortIs(k, port, name, v)(w.store) && AllNew(w, Reconcile(w).0, Undisturbed(k))
    ensures var w' := Reconcile(w).0;
      AllNew(w, w', Around(NodePortIs(k, port, name, v))) && NodePortIs(k, port, name, v)(w'.store)
  {
    hide Linked, Call, ReconcileLive, ReleaseService, OwnWrites, Proper, Pinned, NodePortIs, Undisturbed, Around,
      SpecLeavesOpen;
    var (w1, read) := ReadFirst(w);
    var w' := Reconcile(w).0;
    GetPins(w, w.actor);
    ExtendsReflexive(w1);
    UndisturbedWithin(w, w1, w', k);
    ProperRead(w, w.actor, {});
    ElsewhereKeepsPort(w, w1, {}, k, port, name, v);
    if read.Got? && read.stored.obj.body.CustomBody? {
      var stored := read.stored;
      if stored.obj.deleting {
        if FINALIZER in stored.obj.finalizers {
          ReleaseKeepsPort(w1, stored, k, port, name, v);
        }
      } else if FINALIZER !in stored.obj.finalizers {
        FinalizerWriteIsOwn(w1, stored, stored.obj.finalizers + {FINALIZER});
        OthersKeepPort(w1, w', w.actor, stored, k, port, name, v);
      } else {
        LiveKeepsPort(w1, stored, k, port, name, v);
      }
      AllNewTransitive(w, w1, w', Around(NodePortIs(k, port, name, v)));
    }
  }

  ghost predicate RunLeavesOpen(w: World, cs: seq<Key>, k: Key, port: int, name: string)
    decreases |cs|
  {
    cs != [] ==>
      PassLeavesOpen(w.(actor := cs[0]), k, port, name) && RunLeavesOpen(Pass(w, cs[0]), cs[1..], k, port, name)
  }

  /**
   Over any run of passes and any edits of the specs in between, as long as every spec that is read
   keeps a port of that number and name without choosing a node port, the allocated one stays.
   */
  lemma {:induction false} NodePortIsStable(w: World, cs: seq<Key>, k: Key, port: int, name: string, v: NodePort)
    requires WellFormed(w) && NodePortIs(k, port, name, v)(w.store)
    requires k.kind == NetKind && forall i :: 0 <= i < |cs| ==> cs[i].kind == CustomResource
    requires RunLeavesOpen(w, cs, k, port, name) && AllNew(w, Run(w, cs), Undisturbed(k))
    ensures AllNew(w, Run(w, cs), Around(NodePortIs(k, port, name, v)))
        && NodePortIs(k, port, name, v)(Run(w, cs).store)
    decreases |cs|
  {
    hide Linked, Reconcile, Undisturbed, NodePortIs, Around, PassLeavesOpen;
    if cs != [] {
      var w0, w1, w' := w.(actor := cs[0]), Pass(w, cs[0]), Run(w, cs);
      assert forall i :: |w.log| <= i < |w1.log| ==> w1.log[i] == w'.log[i];
      assert AllNew(w0, w1, Undisturbed(k));
      PassKeepsPort(w0, k, port, name, v);
      NodePortIsStable(w1, cs[1..], k, port, name, v);
    }
  }
}
