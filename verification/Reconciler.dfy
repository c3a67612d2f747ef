/** One reconcile pass: finalizer, children, status. The pass works for the custom resource `w.actor`. */
module Reconciler {
  import opened Text
  import opened Types
  import opened Builders
  import opened Cluster
  import opened Retry
  import opened Secrets
  import opened Runtime

  const READY := "Ready"
  const DATABASE := "database"

  function DeploymentKey(svc: Service): Key {
    Key(DeploymentKind, svc.namespace, svc.name)
  }

  function NetKey(svc: Service, name: string): Key {
    Key(NetKind, svc.namespace, name)
  }

  function IngressKey(svc: Service): Key {
    Key(IngressKind, svc.namespace, svc.name)
  }

  // ----- finalizeService -----

  /** Deletes without looking; that there was nothing to delete is fine. */
  function DeleteIfPresent(w: World, k: Key): (r: (World, Outcome))
    ensures Extends(w, r.0)
  {
    hide Call, Extends;
    var (w1, gone) := Call(w, Delete(k));
    (w1, if gone.Failed? && gone.error != NotFound then Err(gone.error) else Ok)
  }

  function DeleteAll(w: World, ks: seq<Key>): (r: (World, Outcome))
    ensures Extends(w, r.0)
    decreases |ks|
  {
    hide DeleteIfPresent, Extends;
    ExtendsReflexive(w);
    if ks == [] then (w, Ok)
    else
      var (w1, o) := DeleteIfPresent(w, ks[0]);
      if o.Err? then (w1, o)
      else
        var r := DeleteAll(w1, ks[1..]);
        ExtendsTransitive(w, w1, r.0);
        r
  }

  function BaseChildren(svc: Service): seq<Key> {
    [DeploymentKey(svc), NetKey(svc, svc.name), IngressKey(svc)]
  }

  function FinalizeService(w: World, svc: Service): (r: (World, Outcome))
    ensures Extends(w, r.0)
  {
    DeleteAll(w, BaseChildren(svc))
  }

  // ----- Children of a service that is not a database -----

  /** Removes a child that is not needed: a read first, and then even NotFound on the deletion is an error. */
  function RemoveIfPresent(w: World, k: Key): (r: (World, Outcome))
    ensures Extends(w, r.0)
  {
    hide Call, Extends;
    var (w1, read) := Call(w, Get(k));
    if read.Failed? then (w1, if read.error == NotFound then Ok else Err(read.error))
    else
      var gone := Call(w1, Delete(k));
      ExtendsTransitive(w, w1, gone.0);
      Replied(gone)
  }

  function Ended(r: (World, End)): (World, Outcome) {
    (r.0, if r.1.Stopped? then Err(r.1.error) else Ok)
  }

  function ReconcileDeployment(w: World, svc: Service): (r: (World, Outcome))
    ensures Extends(w, r.0)
  {
    hide Extends, RemoveIfPresent, RetryLoop, DeploymentOf;
    ExtendsReflexive(w);
    match DeploymentOf(svc)
    case NotNeeded => RemoveIfPresent(w, DeploymentKey(svc))
    case Panicked => (w, Err(Panicking))
    case Built(deployment) => Ended(Ensure(w, DeployTask(svc, deployment)))
  }

  function ReconcileIngress(w: World, svc: Service): (r: (World, Outcome))
    ensures Extends(w, r.0)
  {
    hide Extends, RemoveIfPresent, RetryLoop, IngressOf;
    ExtendsReflexive(w);
    match IngressOf(svc)
    case NotNeeded => RemoveIfPresent(w, IngressKey(svc))
    case Panicked => (w, Err(Panicking))
    case Built(ingress) => Ended(Ensure(w, IngressTask(svc, ingress)))
  }

  /** Brings the desired Services about. Having created one ends the pass with the NotFound of the read before it. */
  function EnsureServices(w: World, svc: Service, built: seq<BuiltNet>): (r: (World, Outcome))
    ensures Extends(w, r.0)
    decreases |built|
  {
    hide Extends, RetryLoop;
    ExtendsReflexive(w);
    if built == [] then (w, Ok)
    else
      var (w1, end) := Ensure(w, NetTask(svc, built[0]));
      match end
      case Stopped(error) => (w1, Err(error))
      case Created => (w1, Err(NotFound))
      case _ =>
        var r := EnsureServices(w1, svc, built[1..]);
        ExtendsTransitive(w, w1, r.0);
        r
  }

  /** Removes the Services of these names that are not to be kept. */
  function RemoveServices(w: World, svc: Service, names: seq<string>, keep: set<string>): (r: (World, Outcome))
    ensures Extends(w, r.0)
    decreases |names|
  {
    hide Extends, RemoveIfPresent;
    ExtendsReflexive(w);
    if names == [] then (w, Ok)
    else if names[0] in keep then RemoveServices(w, svc, names[1..], keep)
    else
      var (w1, o) := RemoveIfPresent(w, NetKey(svc, names[0]));
      if o.Err? then (w1, o)
      else
        var r := RemoveServices(w1, svc, names[1..], keep);
        ExtendsTransitive(w, w1, r.0);
        r
  }

  function ServiceNames(svc: Service): seq<string> {
    [svc.name, svc.name + NODEPORT_SUFFIX]
  }

  function NamesOf(built: seq<BuiltNet>): set<string> {
    set b | b in built :: b.name
  }

  function ReconcileServices(w: World, svc: Service): (r: (World, Outcome))
    ensures Extends(w, r.0)
  {
    hide Extends, EnsureServices, RemoveServices, ServicesOf;
    match ServicesOf(svc)
    case None => RemoveServices(w, svc, ServiceNames(svc), {})
    case Some(built) =>
      var (w1, o) := EnsureServices(w, svc, built);
      if o.Err? then (w1, o)
      else
        var r := RemoveServices(w1, svc, ServiceNames(svc), NamesOf(built));
        ExtendsTransitive(w, w1, r.0);
        r
  }

  function ReconcileGeneric(w: World, svc: Service): (r: (World, Outcome))
    ensures Extends(w, r.0)
  {
    hide Extends, ReconcileDeployment, ReconcileServices, ReconcileIngress;
    var (w1, o1) := ReconcileDeployment(w, svc);
    if o1.Err? then (w1, o1)
    else
      var (w2, o2) := ReconcileServices(w1, svc);
      ExtendsTransitive(w, w1, w2);
      if o2.Err? then (w2, o2)
      else
        var r := ReconcileIngress(w2, svc);
        ExtendsTransitive(w, w2, r.0);
        r
  }

  function ReconcileChildren(w: World, svc: Service): (r: (World, Outcome))
    ensures Extends(w, r.0)
  {
    hide Extends, ReconcileDatabase, ReconcileGeneric;
    if svc.spec.serviceType == DATABASE then ReconcileDatabase(w, svc) else ReconcileGeneric(w, svc)
  }

  // ----- The pass -----

  function ServiceOf(k: Key, stored: Stored): Service
    requires stored.obj.body.CustomBody?
  {
    Service(k.namespace, k.name, stored.obj.uid, stored.obj.body.spec)
  }

  function DesiredStatus(spec: ServiceSpec): ServiceStatus {
    ServiceStatus(READY, StatusUrls(spec.config))
  }

  /** Writes the status when it is not yet as desired, with the version the pass started from. */
  function WriteStatus(w: World, stored: Stored): (r: (World, Outcome))
    requires stored.obj.body.CustomBody?
    ensures Extends(w, r.0)
  {
    hide Extends, Call;
    ExtendsReflexive(w);
    var desired := DesiredStatus(stored.obj.body.spec);
    if stored.obj.body.status == desired then (w, Ok)
    else Replied(Call(w, UpdateStatus(w.actor, desired, Some(stored.version))))
  }

  function WithFinalizers(obj: Object, finalizers: set<string>): Object {
    obj.(finalizers := finalizers)
  }

  function AddFinalizer(w: World, stored: Stored): (r: (World, Outcome))
    ensures Extends(w, r.0)
  {
    hide Extends, Call;
    Replied(Call(w, Update(w.actor, WithFinalizers(stored.obj, stored.obj.finalizers + {FINALIZER}),
        Some(stored.version))))
  }

  /** Deletes the children, and only then gives up the finalizer. */
  function ReleaseService(w: World, stored: Stored): (r: (World, Outcome))
    requires stored.obj.body.CustomBody?
    ensures Extends(w, r.0)
  {
    hide Extends, Call, FinalizeService;
    var (w1, o) := FinalizeService(w, ServiceOf(w.actor, stored));
    if o.Err? then (w1, o)
    else
      var stripped := WithFinalizers(stored.obj, stored.obj.finalizers - {FINALIZER});
      var written := Call(w1, Update(w.actor, stripped, Some(stored.version)));
      ExtendsTransitive(w, w1, written.0);
      Replied(written)
  }

  function ReconcileLive(w: World, stored: Stored): (r: (World, Outcome))
    requires stored.obj.body.CustomBody?
    ensures Extends(w, r.0)
  {
    hide Extends, ReconcileChildren, WriteStatus;
    var (w1, o) := ReconcileChildren(w, ServiceOf(w.actor, stored));
    if o.Err? then (w1, o)
    else
      var r := WriteStatus(w1, stored);
      ExtendsTransitive(w, w1, r.0);
      r
  }

  function ReconcileRead(w: World, stored: Stored): (r: (World, Outcome))
    requires stored.obj.body.CustomBody?
    ensures Extends(w, r.0)
  {
    hide Extends, ReconcileLive, ReleaseService, AddFinalizer;
    ExtendsReflexive(w);
    if stored.obj.deleting then
      if FINALIZER in stored.obj.finalizers then ReleaseService(w, stored) else (w, Ok)
    else if FINALIZER !in stored.obj.finalizers then AddFinalizer(w, stored)
    else ReconcileLive(w, stored)
  }

  /** Reconcile. */
  function Reconcile(w: World): (r: (World, Outcome))
    ensures Extends(w, r.0)
  {
    hide Extends, Call, ReconcileRead;
    var (w1, read) := Call(w, Get(w.actor));
    match read
    case Failed(error) => (w1, if error == NotFound then Ok else Err(error))
    case Got(stored) =>
      if !stored.obj.body.CustomBody? then (w1, Err(Invalid))
      else
        var r := ReconcileRead(w1, stored);
        ExtendsTransitive(w, w1, r.0);
        r
  }

  /** A pass for the custom resource `c`. */
  function Pass(w: World, c: Key): (r: World)
    ensures Extends(w.(actor := c), r)
  {
    Reconcile(w.(actor := c)).0
  }

  /** One pass after the other, each for any custom resource. */
  function Run(w: World, cs: seq<Key>): (r: World)
    ensures r.setting == w.setting && (WellFormed(w) ==> WellFormed(r))
    ensures |w.log| <= |r.log| && forall i :: 0 <= i < |w.log| ==> r.log[i] == w.log[i]
    decreases |cs|
  {
    if cs == [] then w
    else
      hide Linked, Pass, StoreFits;
      var w1 := Pass(w, cs[0]);
      assert forall i :: 0 <= i < |w.log| ==> w1.log[i] == w.log[i];
      Run(w1, cs[1..])
  }
}
