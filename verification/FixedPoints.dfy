/**
 One child with nobody else about and every call answered: a single turn of its loop settles it, and
 from then on every turn writes back what is there or nothing.
 */
module FixedPoints {
  import opened Text
  import opened Types
  import opened Trees
  import opened Builders
  import opened Cluster
  import opened ClusterLaws
  import opened Retry
  import opened RetryLaws
  import opened Secrets
  import opened Runtime
  import opened Reconciler

  // ----- Quiet surroundings -----

  /** No other client acts, and every call is answered. */
  ghost predicate Quiet(setting: Setting) {
    forall clock, store :: setting.env(clock, store).others == [] && setting.env(clock, store).fault.Answered?
  }

  /** Surroundings in which nobody else acts and nothing fails. */
  function StillSetting(): Setting {
    var defaults := Defaults((d: DeploymentSpec) => d, (t: string) => if t == "" then "ClusterIP" else t,
                             (i: IngressSpec) => i, (s: Json) => s, (s: Json) => s, (c: Fields) => c);
    Setting((clock: nat, store: Store) => Turn([], Answered, Grant("10.0.0.1", (i: nat) => 30000)), defaults,
            (svc: Service) => Some([]), (databaseType: string, clock: nat) => Installed, "operators",
            (draw: nat, i: nat) => 0, (draw: nat) => false)
  }

  /** The server leaves NodePort Services what they are, and does not turn others into them. */
  predicate Lawful(defaults: Defaults) {
    defaults.netType(NODE_PORT) == NODE_PORT && defaults.netType("") != NODE_PORT
  }

  function GrantOf(w: World): Grant {
    w.setting.env(w.clock, w.store).grant
  }

  lemma QuietCall(w: World, op: Op)
    requires Quiet(w.setting)
    ensures var (w', reply) := Call(w, op);
      var served := Serve(w.setting.defaults, GrantOf(w), w.store, w.next, Some(w.actor), op);
      w'.store == served.store && reply == served.reply && w'.next == served.next
  {
    hide Serve, Linked;
  }

  lemma QuietRead(w: World, k: Key)
    requires Quiet(w.setting)
    ensures var (w', reply) := Call(w, Get(k));
      w'.store == w.store && reply == if k in w.store then Got(w.store[k]) else Failed(NotFound)
  {
    QuietCall(w, Get(k));
    hide Call;
  }

  // ----- Fixed points of the loops -----

  /** An object after the server has accepted `obj` in its place. */
  function Rewritten(defaults: Defaults, grant: Grant, was: Object, obj: Object): Object {
    obj.(deleting := was.deleting, uid := was.uid, body := KeepStatus(was.body, Admit(defaults, grant, obj.body)))
  }

  /** Another turn of the loop writes nothing, or just what is there. */
  ghost predicate Fixed(defaults: Defaults, t: Task, obj: Object) {
    match PlanFor(Revise(t, obj), obj)
    case Keep => true
    case Refuse(_) => false
    case Write(o) => forall grant :: Rewritten(defaults, grant, obj, o) == obj
  }

  ghost predicate DistinctIn(ports: seq<NetPort>) {
    forall i, j :: 0 <= i < j < |ports| ==> !(ports[i].port == ports[j].port && ports[i].name == ports[j].name)
  }

  /** A Service task whose ports can be told apart. */
  ghost predicate Steady(t: Task) {
    && !t.ManagedTask?
    && (t.NetTask? ==> t.built.net.netType == "" || (t.built.net.netType == NODE_PORT && DistinctIn(t.built.net.ports)))
  }

  lemma {:induction false} CarryPortFinds(p: NetPort, existing: seq<NetPort>, j: nat)
    requires j < |existing| && existing[j].port == p.port && existing[j].name == p.name
    requires forall i :: 0 <= i < |existing| && i != j ==> !(existing[i].port == p.port && existing[i].name == p.name)
    ensures CarryPort(p, existing) == if p.nodePort == 0 then p.(nodePort := existing[j].nodePort) else p
    decreases |existing|
  {
    var rest := existing[1..];
    if j == 0 {
      var q := if p.nodePort == 0 then p.(nodePort := existing[0].nodePort) else p;
      CarryPortMisses(q, rest);
    } else {
      assert rest[j - 1] == existing[j];
      CarryPortFinds(p, rest, j - 1);
    }
  }

  lemma {:induction false} CarryPortMisses(p: NetPort, existing: seq<NetPort>)
    requires forall i :: 0 <= i < |existing| ==> !(existing[i].port == p.port && existing[i].name == p.name)
    ensures CarryPort(p, existing) == p
    decreases |existing|
  {
    if existing != [] {
      CarryPortMisses(p, existing[1..]);
    }
  }

  /** Carrying over from ports that already answer the declared ones yields these very ports. */
  lemma CarryingIsStable(declared: seq<NetPort>, ports: seq<NetPort>)
    requires DistinctIn(declared) && PortsMatch(declared, ports)
    ensures CarryPorts(declared, ports) == ports
  {
    forall i | 0 <= i < |declared|
      ensures CarryPort(declared[i], ports) == ports[i]
    {
      forall j | 0 <= j < |ports| && j != i
        ensures !(ports[j].port == declared[i].port && ports[j].name == declared[i].name)
      {
        assert ports[j].port == declared[j].port && ports[j].name == declared[j].name;
      }
      CarryPortFinds(declared[i], ports, i);
    }
  }

  lemma AdmittedIsStable(defaults: Defaults, grant: Grant, net: NetSpec, seen: NetSpec)
    requires Lawful(defaults) && (net.netType == "" || (net.netType == NODE_PORT && DistinctIn(net.ports)))
    requires PortsMatch(net.ports, seen.ports) && seen.netType == net.netType && seen.selector == net.selector
    requires net.netType == "" ==> seen.ports == net.ports
    ensures var admitted := AdmitNet(defaults, grant, seen);
      var again := CarryNet(net, admitted);
      && again.ports == admitted.ports && again.selector == admitted.selector
            && again.clusterIP == admitted.clusterIP != ""
      && (again.netType == admitted.netType || forall grant2 :: AdmitNet(defaults, grant2, again) == admitted)
  {
    var admitted := AdmitNet(defaults, grant, seen);
    if net.netType == NODE_PORT {
      CarryingIsStable(net.ports, admitted.ports);
    }
  }

  lemma NetIsFixed(defaults: Defaults, grant: Grant, t: Task, seen: NetSpec, obj: Object)
    requires t.NetTask? && Steady(t) && Lawful(defaults)
    requires PortsMatch(t.built.net.ports, seen.ports) && seen.netType == t.built.net.netType
    requires seen.selector == t.built.net.selector
    requires t.built.net.netType == "" ==> seen.ports == t.built.net.ports
    requires obj.body == NetBody(AdmitNet(defaults, grant, seen)) && obj.controller == Some(OwnerOf(t.svc))
    ensures Fixed(defaults, t, obj)
  {
    AdmittedIsStable(defaults, grant, t.built.net, seen);
    hide AdmitNet, CarryNet, PortsMatch;
  }

  lemma CreatedIsFixed(defaults: Defaults, grant: Grant, t: Task, obj: Object)
    requires Steady(t) && Lawful(defaults)
    requires obj.labels == FreshObject(t).labels && obj.controller == FreshObject(t).controller
    requires obj.body == Admit(defaults, grant, FreshObject(t).body)
    ensures Fixed(defaults, t, obj)
  {
    hide CommonLabels, AdmitNet, CarryNet;
    if t.NetTask? {
      NetIsFixed(defaults, grant, t, t.built.net, obj);
    }
  }

  lemma WrittenIsFixed(defaults: Defaults, grant: Grant, t: Task, was: Object, obj: Object)
    requires Steady(t) && Lawful(defaults) && Fits(KeyOf(t).kind, was.body)
    requires PlanFor(Revise(t, was), was) == Write(obj)
    ensures Fixed(defaults, t, Rewritten(defaults, grant, was, obj))
  {
    hide CommonLabels, AdmitNet, CarryPorts;
    if t.NetTask? {
      var seen := CarryNet(t.built.net, was.body.net);
      CarriedPortsMatch(t.built.net.ports, was.body.net.ports);
      NetIsFixed(defaults, grant, t, seen, Rewritten(defaults, grant, was, obj));
    }
  }

  // ----- One child -----

  /** Where the loop sets the controller reference, the custom resource may own the object. */
  predicate Ownable(t: Task, obj: Object) {
    t.NetTask? || t.IngressTask? ==> MayOwn(t.svc, obj.controller)
  }

  ghost predicate Settled(defaults: Defaults, store: Store, t: Task) {
    KeyOf(t) in store && Agrees(defaults, t, store[KeyOf(t)].obj) && Fixed(defaults, t, store[KeyOf(t)].obj)
  }

  /** Nothing but these keys differs. */
  ghost predicate Elsewhere(was: Store, now: Store, keys: set<Key>) {
    forall k :: k !in keys ==> SameAt(k, was, now)
  }

  /** The content of one object, versions aside. */
  ghost predicate SameContent(k: Key, was: Store, now: Store) {
    (k in now <==> k in was) && (k in was ==> now[k].obj == was[k].obj && now[k].maker == was[k].maker)
  }

  ghost predicate SameContents(was: Store, now: Store) {
    forall k :: SameContent(k, was, now)
  }

  lemma QuietCreate(w: World, t: Task)
    requires WellFormed(w) && Quiet(w.setting) && KeyOf(t) !in w.store
    ensures var (w', end) := Ensure(w, t);
      var k := KeyOf(t);
      && end == Created && k in w'.store && Elsewhere(w.store, w'.store, {k})
      && w'.store[k].obj == FreshObject(t).(deleting := false, uid := w.next,
           body := Admit(w.setting.defaults, GrantOf(Call(w, Get(k)).0), FreshObject(t).body))
  {
    hide Linked, Call, Admit, CommonLabels;
    var k := KeyOf(t);
    QuietRead(w, k);
    QuietReadNext(w, k);
    QuietCall(Call(w, Get(k)).0, Create(k, FreshObject(t)));
    LoopTurns(w, t, 0, 1);
    hide RetryLoop;
  }

  lemma QuietReadNext(w: World, k: Key)
    requires Quiet(w.setting)
    ensures Call(w, Get(k)).0.next == w.next
  {
    QuietCall(w, Get(k));
    hide Call;
  }

  lemma QuietUpdate(w: World, k: Key, obj: Object)
    requires WellFormed(w) && Quiet(w.setting) && k in w.store && !k.kind.Untyped?
    requires Fits(k.kind, obj.body) && obj.finalizers == w.store[k].obj.finalizers
    ensures var (w', reply) := Call(w, Update(k, obj, Some(w.store[k].version)));
      && reply.Got?
      && w'.store ==
            w.store[k := Stored(Rewritten(w.setting.defaults, GrantOf(w), w.store[k].obj, obj), w.next,
                w.store[k].maker)]
  {
    hide FinalizersIn, ControllerIn, Linked;
    AdmissionKeepsForm(w.setting.defaults, GrantOf(w), obj.body);
    QuietCall(w, Update(k, obj, Some(w.store[k].version)));
    hide Call, Admit;
  }

  lemma SameButOne(was: Store, now: Store, k: Key)
    requires Elsewhere(was, now, {k}) && SameContent(k, was, now)
    ensures SameContents(was, now)
  {
    forall x
      ensures SameContent(x, was, now)
    {
      assert x != k ==> SameAt(x, was, now);
    }
  }

  /** The plan for the object that is there has been carried out. */
  ghost predicate AsPlanned(w: World, t: Task, now: Store, end: End)
    requires KeyOf(t) in w.store
  {
    var k, was := KeyOf(t), w.store[KeyOf(t)].obj;
    match PlanFor(Revise(t, was), was)
    case Keep => end == UpToDate && now == w.store
    case Refuse(_) => false
    case Write(obj) =>
      && end == Updated && k in now && Elsewhere(w.store, now, {k})
      && now[k].obj == Rewritten(w.setting.defaults, GrantOf(Call(w, Get(k)).0), was, obj)
      && now[k].maker == w.store[k].maker && now != w.store
  }

  /** An attempt is its read, which delivers what is there, and the write that is planned for it. */
  lemma {:induction false} AttemptOn(w: World, t: Task)
    requires WellFormed(w) && Quiet(w.setting) && KeyOf(t) in w.store
    ensures var w1, existing := Call(w, Get(KeyOf(t))).0, w.store[KeyOf(t)];
      match PlanFor(Revise(t, existing.obj), existing.obj)
      case Keep => Attempt(w, t).0 == w1 && Attempt(w, t).2 == Done(UpToDate)
      case Refuse(error) => Attempt(w, t).0 == w1 && Attempt(w, t).2 == Done(Stopped(error))
      case Write(obj) =>
        var (w2, written) := Call(w1, Update(KeyOf(t), obj, Some(existing.version)));
        written.Got? ==> Attempt(w, t).0 == w2 && Attempt(w, t).2 == Done(Updated)
  {
    hide Linked, Call, CommonLabels, Revise, PlanFor, FreshObject;
    QuietRead(w, KeyOf(t));
    ReviseKeepsKey(t, w.store[KeyOf(t)].obj);
    hide KeyOf;
  }

  lemma WrittenElsewhere(store: Store, k: Key, stored: Stored)
    ensures Elsewhere(store, store[k := stored], {k})
  {}

  lemma {:induction false} QuietAttempt(w: World, t: Task)
    requires WellFormed(w) && Quiet(w.setting) && KeyOf(t) in w.store && Ownable(t, w.store[KeyOf(t)].obj)
    ensures var (w', _, verdict) := Attempt(w, t);
      verdict.Done? && AsPlanned(w, t, w'.store, verdict.end)
  {
    hide Linked, Call, Rewritten, CommonLabels, Revise, PlanFor, Attempt, SameAt;
    var k, existing := KeyOf(t), w.store[KeyOf(t)];
    assert existing.version < w.next <= Call(w, Get(k)).0.next;
    var w1, plan := Call(w, Get(k)).0, PlanFor(Revise(t, existing.obj), existing.obj);
    QuietRead(w, k);
    AttemptOn(w, t);
    OwnableIsNotRefused(t, existing.obj);
    ReviseKeepsKey(t, existing.obj);
    if plan.Write? {
      PlanKeepsKind(Revise(t, existing.obj), existing.obj, plan.obj);
      hide KeyOf, StoreFits;
      QuietUpdate(w1, k, plan.obj);
      WrittenElsewhere(w.store, k, Attempt(w, t).0.store[k]);
      assert Attempt(w, t).0.store[k].version == w1.next;
    }
  }

  lemma SameContentsReflexive(a: Store)
    ensures SameContents(a, a)
  {}

  lemma SameContentsTransitive(a: Store, b: Store, c: Store)
    requires SameContents(a, b) && SameContents(b, c)
    ensures SameContents(a, c)
  {
    forall x
      ensures SameContent(x, a, c)
    {
      assert SameContent(x, a, b) && SameContent(x, b, c);
    }
  }

  lemma {:induction false} QuietRewrite(w: World, t: Task)
    requires WellFormed(w) && Quiet(w.setting) && KeyOf(t) in w.store && Ownable(t, w.store[KeyOf(t)].obj)
    ensures var (w', end) := Ensure(w, t);
      AsPlanned(w, t, w'.store, end)
  {
    hide Linked, RetryLoop, Attempt, AsPlanned;
    QuietAttempt(w, t);
    LoopTurns(w, t, 0, 1);
  }

  lemma OwnableIsNotRefused(t: Task, was: Object)
    requires Ownable(t, was)
    ensures !PlanFor(Revise(t, was), was).Refuse?
  {
    hide CommonLabels;
  }

  lemma PlanKeepsKind(t: Task, was: Object, obj: Object)
    requires PlanFor(t, was) == Write(obj)
    ensures Fits(KeyOf(t).kind, obj.body) && obj.finalizers == was.finalizers
    ensures Ownable(t, was) ==> Ownable(t, obj)
  {
    hide CommonLabels, NetDiffers;
  }

  lemma PlannedIsSettled(w: World, t: Task, w': World, end: End)
    requires Lawful(w.setting.defaults) && Steady(t) && KeyOf(t) in w.store
    requires Ownable(t, w.store[KeyOf(t)].obj) && Fits(KeyOf(t).kind, w.store[KeyOf(t)].obj.body)
    requires AsPlanned(w, t, w'.store, end)
    requires end.UpToDate? || end.Updated? ==>
      KeyOf(t) in w'.store && Agrees(w.setting.defaults, t, w'.store[KeyOf(t)].obj)
    ensures var k := KeyOf(t);
      && (end.UpToDate? || end.Updated?) && Ownable(t, w'.store[k].obj)
      && Settled(w.setting.defaults, w'.store, t) && Elsewhere(w.store, w'.store, {k})
      && (Settled(w.setting.defaults, w.store, t) ==> SameContents(w.store, w'.store))
  {
    hide Linked, Call, Admit, CommonLabels, Revise, KeepStatus, PlanFor, Agrees, MayOwn;
    var k, d, grant := KeyOf(t), w.setting.defaults, GrantOf(Call(w, Get(KeyOf(t))).0);
    var was := w.store[k].obj;
    if PlanFor(Revise(t, was), was).Write? {
      WrittenIsFixed(d, grant, t, was, PlanFor(Revise(t, was), was).obj);
      RevisionKeepsOwner(t, was);
      PlanKeepsKind(Revise(t, was), was, PlanFor(Revise(t, was), was).obj);
      assert Ownable(t, w'.store[k].obj);
      if Settled(d, w.store, t) {
        SameButOne(w.store, w'.store, k);
      }
    }
  }

  /** With nobody else about, one turn of a loop settles its object and touches nothing else. */
  lemma {:induction false} QuietEnsure(w: World, t: Task)
    requires WellFormed(w) && Quiet(w.setting) && Lawful(w.setting.defaults) && Steady(t)
    requires KeyOf(t) in w.store ==> Ownable(t, w.store[KeyOf(t)].obj)
    ensures var (w', end) := Ensure(w, t);
      var k := KeyOf(t);
      && !end.Stopped? && (end.Created? <==> k !in w.store) && k in w'.store
      && Settled(w.setting.defaults, w'.store, t) && Ownable(t, w'.store[k].obj)
      && Elsewhere(w.store, w'.store, {k})
      && (Settled(w.setting.defaults, w.store, t) ==> SameContents(w.store, w'.store))
  {
    hide Linked, Call, Admit, CommonLabels, RetryLoop, PlanFor, Agrees, MayOwn, Fixed, Steady, Lawful, SameContents,
      Elsewhere, AsPlanned;
    var k, grant := KeyOf(t), GrantOf(Call(w, Get(KeyOf(t))).0);
    var (w', end) := Ensure(w, t);
    SuccessIsReal(w, t, 0, 1);
    if k !in w.store {
      QuietCreate(w, t);
      CreatedIsFixed(w.setting.defaults, grant, t, w'.store[k].obj);
      FreshIsOwnable(t, w'.store[k].obj);
    } else {
      QuietRewrite(w, t);
      PlannedIsSettled(w, t, w', end);
    }
  }

  lemma FreshIsOwnable(t: Task, obj: Object)
    requires obj.controller == FreshObject(t).controller
    ensures Ownable(t, obj)
  {
    hide CommonLabels;
  }

  lemma RevisionKeepsOwner(t: Task, was: Object)
    ensures Revise(t, was).svc == t.svc
    ensures forall obj :: Ownable(Revise(t, was), obj) == Ownable(t, obj)
  {}

  // ----- Children that are not needed -----

  /** The object is gone, or marked for deletion where a finalizer holds it. */
  ghost predicate DeletedAt(k: Key, was: Store, now: Store) {
    && (k in now <==> k in was && was[k].obj.finalizers != {})
    && (k in now ==> now[k].obj == was[k].obj.(deleting := true) && now[k].maker == was[k].maker)
  }

  /** These objects are deleted, everything else is as it was. */
  ghost predicate Deleted(was: Store, now: Store, keys: set<Key>) {
    Elsewhere(was, now, keys) && forall k :: k in keys ==> DeletedAt(k, was, now)
  }

  /** A child that is not needed is not there, or on the way out. */
  predicate Dismissed(store: Store, k: Key) {
    k in store ==> IsHeld(store[k].obj)
  }

  lemma DeletedIsDismissed(k: Key, was: Store, now: Store)
    requires DeletedAt(k, was, now)
    ensures Dismissed(now, k) && (Dismissed(was, k) ==> SameContent(k, was, now))
  {}

  /** A child that is not needed is deleted by one turn. */
  lemma QuietRemove(w: World, k: Key)
    requires Quiet(w.setting)
    ensures var (w', o) := RemoveIfPresent(w, k);
      o.Ok? && Deleted(w.store, w'.store, {k})
  {
    QuietRead(w, k);
    QuietCall(Call(w, Get(k)).0, Delete(k));
    hide Call;
  }
}
