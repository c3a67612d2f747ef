/**
 The API server as the controller sees it: versioned objects, optimistic concurrency, deletion held
 back by finalizers, admission, and other clients acting between any two calls of the controller.
 */
module Cluster {
  import opened Text
  import opened Types
  import opened Trees
  import opened Password
  import opened Builders

  const FINALIZER := "service.unbind.unbind.app/finalizer"

  // ----- Objects -----

  /** The typed custom resources of the database operators. */
  datatype Crd = Postgresql | HelmRelease | HelmRepository | MySQLCluster | BackupPolicy | ClickHouseInstallation

  datatype Kind =
    | CustomResource | DeploymentKind | NetKind | IngressKind | SecretKind | JobKind
    | Managed(crd: Crd) | Untyped(gvk: string)

  datatype Key = Key(kind: Kind, namespace: string, name: string)

  /** The controller reference of an object. */
  datatype OwnerRef = OwnerRef(kind: string, name: string, uid: nat)

  type SecretData = map<string, string>

  datatype Body =
    | CustomBody(spec: ServiceSpec, status: ServiceStatus)
    | DeploymentBody(deployment: DeploymentSpec)
    | NetBody(net: NetSpec)
    | IngressBody(ingress: IngressSpec)
    | SecretBody(data: Option<SecretData>)
    | JobBody(containers: Json, finished: bool)
    | ManagedBody(crdSpec: Json)
    | UntypedBody(content: Fields)

  predicate Fits(kind: Kind, body: Body) {
    match kind
    case CustomResource => body.CustomBody?
    case DeploymentKind => body.DeploymentBody?
    case NetKind => body.NetBody?
    case IngressKind => body.IngressBody?
    case SecretKind => body.SecretBody?
    case JobKind => body.JobBody?
    case Managed(_) => body.ManagedBody?
    case Untyped(_) => body.UntypedBody?
  }

  datatype Object = Object(
    labels: Labels,
    controller: Option<OwnerRef>,
    finalizers: set<string>,
    deleting: bool,
    uid: nat,
    body: Body)

  /** A fresh object as a client hands it in. */
  function NewObject(labels: Labels, controller: Option<OwnerRef>, body: Body): Object {
    Object(labels, controller, {}, false, 0, body)
  }

  function RefOf(owner: Fields): OwnerRef {
    OwnerRef(TextAt(owner, "kind"), TextAt(owner, "name"),
             if "uid" in owner && owner["uid"].Number? && owner["uid"].n >= 0 then owner["uid"].n else 0)
  }

  predicate IsController(owner: Json) {
    owner.Tree? && "controller" in owner.fields && owner.fields["controller"] == Bool(true)
  }

  /** The first owner that is marked as the controller. */
  function FirstController(owners: seq<Json>): Option<OwnerRef> {
    if owners == [] then None
    else if IsController(owners[0]) then Some(RefOf(owners[0].fields))
    else FirstController(owners[1..])
  }

  function ControllerIn(content: Fields): Option<OwnerRef> {
    FirstController(OwnersIn(content))
  }

  /** An unstructured object is its tree: its finalizers and its controller are what the tree states. */
  function AsStated(obj: Object): Object {
    match obj.body
    case UntypedBody(content) => obj.(finalizers := FinalizersIn(content), controller := ControllerIn(content))
    case _ => obj
  }

  /** `maker` is the custom resource on whose behalf the controller created the object, if it did. */
  datatype Stored = Stored(obj: Object, version: nat, maker: Option<Key>)

  type Store = map<Key, Stored>

  // ----- Requests -----

  datatype Error =
    | NotFound | Conflict | AlreadyExists | Invalid | Unavailable
    | AlreadyOwned | CrossNamespace | Exhausted | Panicking | NotRendered | NoOperator | NoNamespace | NoRandomness

  datatype Op =
    | Get(key: Key)
    | Create(key: Key, obj: Object)
    | Update(key: Key, obj: Object, version: Option<nat>)
    | UpdateStatus(key: Key, status: ServiceStatus, version: Option<nat>)
    | Delete(key: Key)

  datatype Reply = Got(stored: Stored) | Failed(error: Error)

  // ----- Admission -----

  type Address = s: string | s != "" witness "10.0.0.1"
  type NodePort = n: int | n > 0 witness 30000

  /** What the server hands out while it admits an object. */
  datatype Grant = Grant(address: Address, nodePorts: nat -> NodePort)

  /** The defaulting of the specs the controller writes; Services only get a default type. */
  datatype Defaults = Defaults(
    deployment: DeploymentSpec -> DeploymentSpec,
    netType: string -> string,
    ingress: IngressSpec -> IngressSpec,
    crd: Json -> Json,
    job: Json -> Json,
    untyped: Fields -> Fields)

  function FillPorts(grant: Grant, ports: seq<NetPort>): seq<NetPort> {
    seq(|ports|, i requires 0 <= i < |ports| =>
      if ports[i].nodePort == 0 then ports[i].(nodePort := grant.nodePorts(i)) else ports[i])
  }

  function AdmitNet(defaults: Defaults, grant: Grant, net: NetSpec): NetSpec {
    var netType := defaults.netType(net.netType);
    NetSpec(netType, net.selector,
            if netType == NODE_PORT then FillPorts(grant, net.ports) else net.ports,
            if net.clusterIP == "" then grant.address else net.clusterIP)
  }

  function Admit(defaults: Defaults, grant: Grant, body: Body): Body {
    match body
    case DeploymentBody(deployment) => DeploymentBody(defaults.deployment(deployment))
    case NetBody(net) => NetBody(AdmitNet(defaults, grant, net))
    case IngressBody(ingress) => IngressBody(defaults.ingress(ingress))
    case ManagedBody(spec) => ManagedBody(defaults.crd(spec))
    case JobBody(containers, finished) => JobBody(defaults.job(containers), finished)
    case UntypedBody(content) => UntypedBody(defaults.untyped(content))
    case CustomBody(_, _) => body
    case SecretBody(_) => body
  }

  // ----- Serving one request -----

  /**
   Bodies fit their keys, every version has been handed out, only finalizers hold back a deletion, and
   unstructured objects are what their trees state.
   */
  ghost predicate StoreFits(store: Store, next: nat) {
    forall k :: k in store ==>
      && store[k].version < next
      && Fits(k.kind, store[k].obj.body)
      && (store[k].obj.deleting ==> store[k].obj.finalizers != {})
      && AsStated(store[k].obj) == store[k].obj
  }

  datatype Served = Served(store: Store, next: nat, reply: Reply)

  /** An update through the main endpoint leaves the status subresource alone. */
  function KeepStatus(current: Body, incoming: Body): Body {
    if current.CustomBody? && incoming.CustomBody? then incoming.(status := current.status) else incoming
  }

  /** Whether a version precondition holds. */
  predicate Matches(version: Option<nat>, stored: Stored) {
    version.Some? ==> version.value == stored.version
  }

  function ServeCreate(defaults: Defaults, grant: Grant, store: Store, next: nat, who: Option<Key>, key: Key,
      obj: Object): (s: Served)
    ensures next <= s.next && (StoreFits(store, next) ==> StoreFits(s.store, s.next))
  {
    hide FinalizersIn, ControllerIn;
    if key in store then Served(store, next, Failed(AlreadyExists))
    else if !Fits(key.kind, obj.body) then Served(store, next, Failed(Invalid))
    else
      var admitted := obj.(deleting := false, uid := next, body := Admit(defaults, grant, obj.body));
      var stored := Stored(AsStated(admitted), next, who);
      Served(store[key := stored], next + 1, Got(stored))
  }

  function ServeUpdate(defaults: Defaults, grant: Grant, store: Store, next: nat, key: Key, obj: Object,
      version: Option<nat>): (s: Served)
    ensures next <= s.next && (StoreFits(store, next) ==> StoreFits(s.store, s.next))
  {
    hide FinalizersIn, ControllerIn;
    if key !in store then Served(store, next, Failed(NotFound))
    else if !Fits(key.kind, obj.body) then Served(store, next, Failed(Invalid))
    else if !Matches(version, store[key]) then Served(store, next, Failed(Conflict))
    else
      var current := store[key];
      var body := KeepStatus(current.obj.body, Admit(defaults, grant, obj.body));
      var admitted := AsStated(obj.(deleting := current.obj.deleting, uid := current.obj.uid, body := body));
      var stored := Stored(admitted, next, current.maker);
      if current.obj.deleting && admitted.finalizers == {} then Served(store - {key}, next + 1, Got(stored))
      else Served(store[key := stored], next + 1, Got(stored))
  }

  function ServeStatus(store: Store, next: nat, key: Key, status: ServiceStatus, version: Option<nat>): (s: Served)
    ensures next <= s.next && (StoreFits(store, next) ==> StoreFits(s.store, s.next))
  {
    hide FinalizersIn, ControllerIn;
    if key !in store then Served(store, next, Failed(NotFound))
    else if !store[key].obj.body.CustomBody? then Served(store, next, Failed(Invalid))
    else if !Matches(version, store[key]) then Served(store, next, Failed(Conflict))
    else
      var current := store[key];
      var stored := current.(obj := current.obj.(body := current.obj.body.(status := status)), version := next);
      Served(store[key := stored], next + 1, Got(stored))
  }

  function ServeDelete(store: Store, next: nat, key: Key): (s: Served)
    ensures next <= s.next && (StoreFits(store, next) ==> StoreFits(s.store, s.next))
  {
    hide FinalizersIn, ControllerIn;
    if key !in store then Served(store, next, Failed(NotFound))
    else
      var current := store[key];
      if current.obj.finalizers == {} then Served(store - {key}, next, Got(current))
      else
        var stored := current.(obj := current.obj.(deleting := true), version := next);
        Served(store[key := stored], next + 1, Got(stored))
  }

  function Serve(defaults: Defaults, grant: Grant, store: Store, next: nat, who: Option<Key>, op: Op): (s: Served)
    ensures next <= s.next && (StoreFits(store, next) ==> StoreFits(s.store, s.next))
  {
    match op
    case Get(key) => Served(store, next, if key in store then Got(store[key]) else Failed(NotFound))
    case Create(key, obj) => ServeCreate(defaults, grant, store, next, who, key, obj)
    case Update(key, obj, version) => ServeUpdate(defaults, grant, store, next, key, obj, version)
    case UpdateStatus(key, status, version) => ServeStatus(store, next, key, status, version)
    case Delete(key) => ServeDelete(store, next, key)
  }

  // ----- The world around one controller -----

  /**
   Whether a call of the controller is answered, refused before it has any effect, or carried out with
   its answer lost.
   */
  datatype Fault = Answered | Refused | AnswerLost

  /** What happens around one call: requests of other clients before it, its fate, and what admission grants. */
  datatype Turn = Turn(others: seq<Op>, fault: Fault, grant: Grant)

  /** An object rendered from a database definition. */
  datatype Rendered =
    | RenderedJob(namespace: string, name: string, containers: Json)
    | RenderedManaged(crd: Crd, namespace: string, name: string, spec: Json)
    | RenderedUntyped(gvk: string, namespace: string, name: string, content: Fields)

  /** What discovery says about the resource type that a database operator brings along. */
  datatype Discovery = Installed | NotInstalled | Undiscoverable

  /** Everything the controller does not decide, fixed but arbitrary. */
  datatype Setting = Setting(
    env: (nat, Store) -> Turn,
    defaults: Defaults,
    render: Service -> Option<seq<Rendered>>,
    discovery: (string, nat) -> Discovery,
    podNamespace: string,
    octet: (nat, nat) -> Octet,
    randomFails: nat -> bool)

  /**
   One request as it was served; `who` is None for other clients, `heard` says whether the reply
   reached the client.
   */
  datatype Event = Event(who: Option<Key>, op: Op, before: Store, after: Store, reply: Reply, heard: bool)

  datatype World = World(
    setting: Setting,
    actor: Key,
    store: Store,
    next: nat,
    clock: nat,
    slept: nat,
    draws: nat,
    log: seq<Event>)

  ghost predicate WellFormed(w: World) {
    StoreFits(w.store, w.next)
  }

  /** Every write gets a new version: what carries an old one has not changed since. */
  ghost predicate Stable(a: World, b: World) {
    forall k :: k in b.store && b.store[k].version < a.next ==> k in a.store && a.store[k] == b.store[k]
  }

  /**
   The events of `b` after those of `a` lead from the store of `a` to the store of `b` without a gap;
   they are other clients' or the actor's.
   */
  ghost predicate Linked(a: World, b: World) {
    && Stable(a, b)
    && (|b.log| == |a.log| ==> b.store == a.store)
    && (|b.log| > |a.log| ==> b.log[|a.log|].before == a.store && b.log[|b.log| - 1].after == b.store)
    && (forall i, j :: |a.log| <= i && i + 1 == j < |b.log| ==> b.log[j].before == b.log[i].after)
    && (forall i :: |a.log| <= i < |b.log| ==> b.log[i].who.None? || b.log[i].who == Some(a.actor))
  }

  /** `b` continues `a`: same surroundings, time and versions move on, the log grows. */
  ghost predicate Extends(a: World, b: World) {
    && b.setting == a.setting && b.actor == a.actor
    && a.clock <= b.clock && a.next <= b.next
    && |a.log| <= |b.log|
    && (forall i :: 0 <= i < |a.log| ==> b.log[i] == a.log[i])
    && Linked(a, b)
    && (WellFormed(a) ==> WellFormed(b))
  }

  /** Every event between the two worlds satisfies `p`. */
  ghost predicate AllNew(a: World, b: World, p: Event -> bool) {
    forall i :: |a.log| <= i < |b.log| ==> p(b.log[i])
  }

  lemma ExtendsReflexive(w: World)
    ensures Extends(w, w)
  {}

  lemma ExtendsTransitive(a: World, b: World, c: World)
    requires Extends(a, b) && Extends(b, c)
    ensures Extends(a, c)
  {}

  function Perform(w: World, who: Option<Key>, op: Op, grant: Grant, heard: bool): (r: (World, Reply))
    requires who.Some? ==> who.value == w.actor
    ensures Extends(w, r.0)
    ensures |r.0.log| == |w.log| + 1
    ensures r.0.log[|w.log|] == Event(who, op, w.store, r.0.store, r.1, heard)
  {
    var s := Serve(w.setting.defaults, grant, w.store, w.next, who, op);
    (w.(store := s.store, next := s.next, log := w.log + [Event(who, op, w.store, s.store, s.reply, heard)]), s.reply)
  }

  function Others(w: World, ops: seq<Op>, grant: Grant): (r: World)
    ensures Extends(w, r) && r.clock == w.clock && r.slept == w.slept
    ensures AllNew(w, r, (e: Event) => e.who == None)
    decreases |ops|
  {
    if ops == [] then w
    else
      hide Perform, Linked;
      var w1 := Perform(w, None, ops[0], grant, true).0;
      var r := Others(w1, ops[1..], grant);
      ExtendsTransitive(w, w1, r);
      r
  }

  /** The world in which a call that is about to be made is served. */
  function Awaited(w: World): (r: World)
    ensures Extends(w, r) && r.slept == w.slept
    ensures AllNew(w, r, (e: Event) => e.who == None)
  {
    var turn := w.setting.env(w.clock, w.store);
    Others(w, turn.others, turn.grant).(clock := w.clock + 1)
  }

  function Refuse(w: World, op: Op): (r: (World, Reply))
    ensures Extends(w, r.0) && r.0.slept == w.slept
    ensures |r.0.log| == |w.log| + 1
    ensures r.0.log[|w.log|] == Event(Some(w.actor), op, w.store, r.0.store, r.1, true)
    ensures r.1 == Failed(Unavailable) && r.0.store == w.store && r.0.next == w.next
  {
    (w.(log := w.log + [Event(Some(w.actor), op, w.store, w.store, Failed(Unavailable), true)]), Failed(Unavailable))
  }

  /** One call of the controller. */
  function Call(w: World, op: Op): (r: (World, Reply))
    ensures Extends(w, r.0) && r.0.slept == w.slept
    ensures |r.0.log| == |Awaited(w).log| + 1 && Extends(Awaited(w), r.0)
    ensures var e := r.0.log[|r.0.log| - 1];
      && e.who == Some(w.actor) && e.op == op && e.before == Awaited(w).store && e.after == r.0.store
      && r.1 == if e.heard then e.reply else Failed(Unavailable)
  {
    var turn := w.setting.env(w.clock, w.store);
    var w1 := Awaited(w);
    var r := match turn.fault
      case Answered => Perform(w1, Some(w.actor), op, turn.grant, true)
      case Refused => Refuse(w1, op)
      case AnswerLost => (Perform(w1, Some(w.actor), op, turn.grant, false).0, Failed(Unavailable));
    hide Linked, Perform, Awaited;
    ExtendsTransitive(w, w1, r.0);
    r
  }

  function Sleep(w: World, seconds: nat): (r: World)
    ensures Extends(w, r)
  {
    w.(slept := w.slept + seconds)
  }

  // ----- Consequences -----

  lemma AllNewTransitive(a: World, b: World, c: World, p: Event -> bool)
    requires Extends(a, b) && Extends(b, c) && AllNew(a, b, p) && AllNew(b, c, p)
    ensures AllNew(a, c, p) && Extends(a, c)
  {
    ExtendsTransitive(a, b, c);
    assert forall i :: |a.log| <= i < |b.log| ==> c.log[i] == b.log[i];
  }

  /** What every event preserves holds after all of them. */
  lemma {:induction false} Invariance(a: World, b: World, inv: Store -> bool, n: nat)
    requires Extends(a, b) && inv(a.store) && |a.log| + n <= |b.log|
    requires AllNew(a, b, (e: Event) => inv(e.before) ==> inv(e.after))
    ensures forall i :: |a.log| <= i < |a.log| + n ==> inv(b.log[i].before) && inv(b.log[i].after)
    ensures |a.log| + n == |b.log| ==> inv(b.store)
  {
    if n > 0 {
      Invariance(a, b, inv, n - 1);
      var last := |a.log| + n - 1;
      assert n > 1 ==> b.log[last].before == b.log[last - 1].after;
    }
  }
}
