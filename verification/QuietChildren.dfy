/** All children with nobody else about: one missing Service is created, or every child is settled. */
module QuietChildren {
  import opened Text
  import opened Types
  import opened Builders
  import opened BuilderLaws
  import opened Cluster
  import opened ClusterLaws
  import opened Retry
  import opened RetryLaws
  import opened Secrets
  import opened Runtime
  import opened Reconciler
  import opened PassLaws
  import opened ServiceExactness
  import opened FixedPoints

  // ----- The core Services -----

  /** The children on which the controller reference is set. */
  function OwnedKeys(svc: Service): set<Key> {
    NetKeys(svc, BuiltNets(svc)) + if IngressOf(svc).Built? then {IngressKey(svc)} else {}
  }

  /** None of them belongs to another controller. */
  ghost predicate OwnableChildren(store: Store, svc: Service) {
    forall k :: k in OwnedKeys(svc) && k in store ==> MayOwn(svc, store[k].obj.controller)
  }

  /** How many of these Services are missing. */
  function MissingNets(store: Store, svc: Service, built: seq<BuiltNet>): nat {
    if built == [] then 0
    else (if NetKey(svc, built[0].name) in store then 0 else 1) + MissingNets(store, svc, built[1..])
  }

  lemma {:induction false} MissingFrame(was: Store, now: Store, svc: Service, built: seq<BuiltNet>)
    requires forall i :: 0 <= i < |built| ==> (NetKey(svc, built[i].name) in was <==> NetKey(svc, built[i].name) in now)
    ensures MissingNets(was, svc, built) == MissingNets(now, svc, built)
    decreases |built|
  {
    if built != [] {
      assert NetKey(svc, built[0].name) in was <==> NetKey(svc, built[0].name) in now;
      MissingFrame(was, now, svc, built[1..]);
    }
  }

  function NetKeys(svc: Service, built: seq<BuiltNet>): set<Key> {
    set i | 0 <= i < |built| :: NetKey(svc, built[i].name)
  }

  ghost predicate AllSettled(d: Defaults, store: Store, svc: Service, built: seq<BuiltNet>) {
    forall i :: 0 <= i < |built| ==> Settled(d, store, NetTask(svc, built[i]))
  }

  ghost predicate Arranged(svc: Service, built: seq<BuiltNet>) {
    && DistinctNames(built)
    && forall i :: 0 <= i < |built| ==>
          Steady(NetTask(svc, built[i])) && NetKey(svc, built[i].name) in OwnedKeys(svc)
  }

  lemma OwnableFrame(was: Store, now: Store, svc: Service, k: Key)
    requires OwnableChildren(was, svc) && Elsewhere(was, now, {k})
    requires k in OwnedKeys(svc) && k in now ==> MayOwn(svc, now[k].obj.controller)
    ensures OwnableChildren(now, svc)
  {
    hide OwnedKeys;
    forall x | x in OwnedKeys(svc) && x in now
      ensures MayOwn(svc, now[x].obj.controller)
    {
      assert x != k ==> SameAt(x, was, now);
    }
  }

  /** The loop over the desired Services: it creates the first one that is missing and stops, or settles them all. */
  lemma {:induction false} QuietEnsureServices(w: World, svc: Service, built: seq<BuiltNet>)
    requires WellFormed(w) && Quiet(w.setting) && Lawful(w.setting.defaults)
    requires Arranged(svc, built) && OwnableChildren(w.store, svc)
    ensures var (w', o) := EnsureServices(w, svc, built);
      var d, missing := w.setting.defaults, MissingNets(w.store, svc, built);
      && OwnableChildren(w'.store, svc) && Elsewhere(w.store, w'.store, NetKeys(svc, built))
      && (if missing == 0 then o.Ok? && AllSettled(d, w'.store, svc, built)
          else o.Err? && MissingNets(w'.store, svc, built) == missing - 1)
      && (AllSettled(d, w.store, svc, built) ==> missing == 0 && SameContents(w.store, w'.store))
    decreases |built|
  {
    hide Linked, RetryLoop, Settled, Steady, MayOwn, OwnedKeys, SameContents;
    var d := w.setting.defaults;
    SameContentsReflexive(w.store);
    if built != [] {
      var t := NetTask(svc, built[0]);
      var k := KeyOf(t);
      var (w1, end) := Ensure(w, t);
      var (w', o) := EnsureServices(w, svc, built);
      QuietEnsure(w, t);
      OwnableFrame(w.store, w1.store, svc, k);
      OthersSame(w.store, w1.store, svc, built);
      AllSettledSplits(d, w.store, svc, built);
      if !end.Created? {
        QuietEnsureServices(w1, svc, built[1..]);
        SettledStays(d, w1.store, w'.store, t, NetKeys(svc, built[1..]));
        ElsewhereJoins(w.store, w1.store, w'.store, svc, built);
        AllSettledStays(d, w.store, w1.store, svc, built);
        AllSettledSplits(d, w'.store, svc, built);
        if AllSettled(d, w.store, svc, built) {
          SameContentsTransitive(w.store, w1.store, w'.store);
        }
      }
    }
  }

  lemma OthersSame(was: Store, now: Store, svc: Service, built: seq<BuiltNet>)
    requires built != [] && DistinctNames(built) && Elsewhere(was, now, {NetKey(svc, built[0].name)})
    ensures MissingNets(was, svc, built[1..]) == MissingNets(now, svc, built[1..])
  {
    forall i | 0 <= i < |built[1..]|
      ensures SameAt(NetKey(svc, built[1..][i].name), was, now)
    {
      assert built[1..][i] == built[i + 1];
    }
    MissingFrame(was, now, svc, built[1..]);
  }

  lemma SettledStays(d: Defaults, was: Store, now: Store, t: Task, keys: set<Key>)
    requires Elsewhere(was, now, keys) && KeyOf(t) !in keys
    ensures Settled(d, was, t) <==> Settled(d, now, t)
    ensures KeyOf(t) in was <==> KeyOf(t) in now
  {
    hide Agrees, Fixed, KeyOf;
    assert SameAt(KeyOf(t), was, now);
  }

  lemma AllSettledStays(d: Defaults, was: Store, now: Store, svc: Service, built: seq<BuiltNet>)
    requires built != [] && DistinctNames(built) && Elsewhere(was, now, {NetKey(svc, built[0].name)})
    ensures AllSettled(d, was, svc, built[1..]) ==> AllSettled(d, now, svc, built[1..])
  {
    hide Settled;
    forall i | 0 <= i < |built[1..]|
      ensures Settled(d, was, NetTask(svc, built[1..][i])) <==> Settled(d, now, NetTask(svc, built[1..][i]))
    {
      assert built[1..][i] == built[i + 1];
      SettledStays(d, was, now, NetTask(svc, built[1..][i]), {NetKey(svc, built[0].name)});
    }
  }

  lemma AllSettledSplits(d: Defaults, store: Store, svc: Service, built: seq<BuiltNet>)
    requires built != []
    ensures AllSettled(d, store, svc, built) <==>
        Settled(d, store, NetTask(svc, built[0])) && AllSettled(d, store, svc, built[1..])
    ensures AllSettled(d, store, svc, built) ==> NetKey(svc, built[0].name) in store
  {
    hide Agrees, Fixed;
    if Settled(d, store, NetTask(svc, built[0])) && AllSettled(d, store, svc, built[1..]) {
      forall i | 0 <= i < |built|
        ensures Settled(d, store, NetTask(svc, built[i]))
      {
        assert i > 0 ==> built[i] == built[1..][i - 1];
      }
    }
    if AllSettled(d, store, svc, built) {
      forall i | 0 <= i < |built[1..]|
        ensures Settled(d, store, NetTask(svc, built[1..][i]))
      {
        assert built[1..][i] == built[i + 1];
      }
    }
  }

  lemma ElsewhereJoins(a: Store, b: Store, c: Store, svc: Service, built: seq<BuiltNet>)
    requires built != [] && Elsewhere(a, b, {NetKey(svc, built[0].name)}) && Elsewhere(b, c, NetKeys(svc, built[1..]))
    ensures Elsewhere(a, c, NetKeys(svc, built))
    ensures DistinctNames(built) ==> NetKey(svc, built[0].name) !in NetKeys(svc, built[1..])
  {
    forall i | 0 <= i < |built[1..]|
      ensures NetKey(svc, built[1..][i].name) in NetKeys(svc, built)
    {
      assert built[1..][i] == built[i + 1];
    }
    forall k | k !in NetKeys(svc, built)
      ensures SameAt(k, a, c)
    {
      assert SameAt(k, a, b) && SameAt(k, b, c);
    }
  }

  predicate IsDropped(svc: Service, k: Key, names: seq<string>, keep: set<string>) {
    k.kind == NetKind && k.namespace == svc.namespace && k.name in names && k.name !in keep
  }

  ghost predicate Removed(was: Store, now: Store, svc: Service, names: seq<string>, keep: set<string>) {
    forall k :: if IsDropped(svc, k, names, keep) then DeletedAt(k, was, now) else SameAt(k, was, now)
  }

  lemma RemovedJoins(a: Store, b: Store, c: Store, svc: Service, names: seq<string>, keep: set<string>)
    requires names != [] && names[0] !in keep
    requires Deleted(a, b, {NetKey(svc, names[0])}) && Removed(b, c, svc, names[1..], keep)
    ensures Removed(a, c, svc, names, keep)
  {
    forall k
      ensures if IsDropped(svc, k, names, keep) then DeletedAt(k, a, c) else SameAt(k, a, c)
    {
      var first := NetKey(svc, names[0]);
      assert IsDropped(svc, k, names, keep) <==> k == first || IsDropped(svc, k, names[1..], keep);
      assert if k == first then DeletedAt(k, a, b) else SameAt(k, a, b);
      assert if IsDropped(svc, k, names[1..], keep) then DeletedAt(k, b, c) else SameAt(k, b, c);
    }
  }

  /** The loop over the two names: what is not to be kept is deleted, everything else is as it was. */
  lemma {:induction false} QuietRemoveServices(w: World, svc: Service, names: seq<string>, keep: set<string>)
    requires Quiet(w.setting)
    ensures var (w', o) := RemoveServices(w, svc, names, keep);
      o.Ok? && Removed(w.store, w'.store, svc, names, keep)
    decreases |names|
  {
    hide Linked, RemoveIfPresent, Quiet, Removed, Deleted;
    if names == [] {
      NothingRemoved(w.store, svc, keep);
    } else if names[0] in keep {
      QuietRemoveServices(w, svc, names[1..], keep);
      RemovedSkips(w.store, RemoveServices(w, svc, names, keep).0.store, svc, names, keep);
    } else {
      var k := NetKey(svc, names[0]);
      QuietRemove(w, k);
      var w1 := RemoveIfPresent(w, k).0;
      QuietRemoveServices(w1, svc, names[1..], keep);
      RemovedJoins(w.store, w1.store, RemoveServices(w, svc, names, keep).0.store, svc, names, keep);
    }
  }

  lemma NothingRemoved(store: Store, svc: Service, keep: set<string>)
    ensures Removed(store, store, svc, [], keep)
  {}

  lemma RemovedSkips(was: Store, now: Store, svc: Service, names: seq<string>, keep: set<string>)
    requires names != [] && names[0] in keep && Removed(was, now, svc, names[1..], keep)
    ensures Removed(was, now, svc, names, keep)
  {
    hide DeletedAt, SameAt;
    forall k
      ensures if IsDropped(svc, k, names, keep) then DeletedAt(k, was, now) else SameAt(k, was, now)
    {
      assert IsDropped(svc, k, names, keep) <==> IsDropped(svc, k, names[1..], keep);
    }
  }

  predicate IsSpareNet(svc: Service, k: Key) {
    k in NetScope(svc) && k.name !in NamesOf(BuiltNets(svc))
  }

  /** Desired Services are there and settled, others under the two names are dismissed. */
  ghost predicate NetsSettled(d: Defaults, store: Store, svc: Service) {
    && AllSettled(d, store, svc, BuiltNets(svc))
    && forall k :: IsSpareNet(svc, k) ==> Dismissed(store, k)
  }

  /**
   Ports declared with a node port are distinct in number and protocol, all commands parse, and it is no
   database.
   */
  ghost predicate Regular(svc: Service) {
    svc.spec.serviceType != DATABASE && !DeploymentOf(svc).Panicked? && DistinctAmong(svc.spec.config.ports, true)
  }

  lemma BuiltAreArranged(svc: Service)
    requires DistinctAmong(svc.spec.config.ports, true)
    ensures Arranged(svc, BuiltNets(svc)) && |BuiltNets(svc)| <= 2
    ensures NetKeys(svc, BuiltNets(svc)) <= NetScope(svc)
  {
    var built := BuiltNets(svc);
    ServicesAreProper(svc);
    BuiltTypes(svc);
    hide ServicesOf;
    assert svc.name != svc.name + NODEPORT_SUFFIX by {
      assert |svc.name + NODEPORT_SUFFIX| > |svc.name|;
    }
    forall k | 0 <= k < |built| && built[k].net.netType == NODE_PORT
      ensures DistinctIn(built[k].net.ports)
    {
      forall i, j | 0 <= i < j < |built[k].net.ports|
        ensures built[k].net.ports[i].name != built[k].net.ports[j].name
      {
        PortNamesDistinct(svc, k, i, j);
      }
    }
  }

  lemma BuiltTypes(svc: Service)
    ensures forall i :: 0 <= i < |BuiltNets(svc)| ==> BuiltNets(svc)[i].net.netType in ["", NODE_PORT]
  {
    hide PortsWhere, CommonLabels, SelectorLabels;
  }

  // ----- What is not needed -----

  /** A child that the custom resource does not ask for. */
  predicate IsUnwanted(svc: Service, k: Key) {
    || (k == DeploymentKey(svc) && !DeploymentOf(svc).Built?)
    || (k == IngressKey(svc) && !IngressOf(svc).Built?)
    || IsSpareNet(svc, k)
  }

  /** Children that are not needed are as they were, or deleted. */
  ghost predicate LeftOver(was: Store, now: Store, svc: Service) {
    forall k :: IsUnwanted(svc, k) ==> SameContent(k, was, now) || DeletedAt(k, was, now)
  }

  lemma LeftOverReflexive(store: Store, svc: Service)
    ensures LeftOver(store, store, svc)
  {}

  lemma LeftOverTransitive(a: Store, b: Store, c: Store, svc: Service)
    requires LeftOver(a, b, svc) && LeftOver(b, c, svc)
    ensures LeftOver(a, c, svc)
  {
    hide IsUnwanted;
    forall k | IsUnwanted(svc, k)
      ensures SameContent(k, a, c) || DeletedAt(k, a, c)
    {
      assert SameContent(k, a, b) || DeletedAt(k, a, b);
      assert SameContent(k, b, c) || DeletedAt(k, b, c);
    }
  }

  lemma ElsewhereLeavesOver(was: Store, now: Store, svc: Service, keys: set<Key>)
    requires Elsewhere(was, now, keys)
    requires forall k :: k in keys && IsUnwanted(svc, k) ==> SameContent(k, was, now) || DeletedAt(k, was, now)
    ensures LeftOver(was, now, svc)
  {
    hide IsUnwanted, DeletedAt;
    forall k | IsUnwanted(svc, k)
      ensures SameContent(k, was, now) || DeletedAt(k, was, now)
    {
      assert k !in keys ==> SameAt(k, was, now);
    }
  }

  lemma BuiltAreWanted(svc: Service)
    ensures forall k :: k in NetKeys(svc, BuiltNets(svc)) ==> !IsUnwanted(svc, k)
  {
    var built := BuiltNets(svc);
    hide BuiltNets, DeploymentOf, IngressOf;
    forall i | 0 <= i < |built|
      ensures built[i].name in NamesOf(built)
    {}
  }

  /** The whole of reconcileServices. */
  lemma {:induction false} QuietServices(w: World, svc: Service)
    requires WellFormed(w) && Quiet(w.setting) && Lawful(w.setting.defaults) && Regular(svc)
    requires OwnableChildren(w.store, svc)
    ensures var (w', o) := ReconcileServices(w, svc);
      var d, missing := w.setting.defaults, MissingNets(w.store, svc, BuiltNets(svc));
      && OwnableChildren(w'.store, svc) && Elsewhere(w.store, w'.store, NetScope(svc))
      && LeftOver(w.store, w'.store, svc)
      && (if missing == 0 then o.Ok? && NetsSettled(d, w'.store, svc)
          else o.Err? && MissingNets(w'.store, svc, BuiltNets(svc)) == missing - 1)
      && (NetsSettled(d, w.store, svc) ==> missing == 0 && SameContents(w.store, w'.store))
  {
    hide Linked, EnsureServices, RemoveServices, ServicesOf, Settled, OwnableChildren, SameContents, Quiet, Arranged,
      SameAt, Removed, LeftOver, DeletedAt;
    var d, built, names := w.setting.defaults, BuiltNets(svc), ServiceNames(svc);
    var keep := NamesOf(built);
    BuiltAreArranged(svc);
    QuietEnsureServices(w, svc, built);
    var (w1, o) := EnsureServices(w, svc, built);
    ServicesOfBuilt(w, svc);
    ElsewhereWidens(w.store, w1.store, NetKeys(svc, built), NetScope(svc));
    BuiltAreWanted(svc);
    ElsewhereLeavesOver(w.store, w1.store, svc, NetKeys(svc, built));
    if o.Ok? {
      QuietRemoveServices(w1, svc, names, keep);
      var w' := ReconcileServices(w, svc).0;
      AfterRemoval(d, w1.store, w'.store, svc);
      ElsewhereTransitive(w.store, w1.store, w'.store, NetScope(svc));
      LeftOverTransitive(w.store, w1.store, w'.store, svc);
      if NetsSettled(d, w.store, svc) {
        ContentsAfterRemoval(w.store, w1.store, w'.store, svc);
        SameContentsTransitive(w.store, w1.store, w'.store);
      }
    }
  }

  /** A service without ports ensures nothing and keeps nothing. */
  lemma {:induction false} ServicesOfBuilt(w: World, svc: Service)
    ensures ReconcileServices(w, svc) ==
      var (w1, o) := EnsureServices(w, svc, BuiltNets(svc));
      if o.Err? then (w1, o) else RemoveServices(w1, svc, ServiceNames(svc), NamesOf(BuiltNets(svc)))
  {
    hide Linked, RemoveServices, ServicesOf;
    if ServicesOf(svc).None? {
      assert NamesOf([]) == {};
    }
    hide EnsureServices, NamesOf;
  }

  lemma ElsewhereWidens(was: Store, now: Store, small: set<Key>, large: set<Key>)
    requires Elsewhere(was, now, small) && small <= large
    ensures Elsewhere(was, now, large)
  {
    hide SameAt;
  }

  lemma ElsewhereTransitive(a: Store, b: Store, c: Store, keys: set<Key>)
    requires Elsewhere(a, b, keys) && Elsewhere(b, c, keys)
    ensures Elsewhere(a, c, keys)
  {
    forall k | k !in keys
      ensures SameAt(k, a, c)
    {
      assert SameAt(k, a, b) && SameAt(k, b, c);
    }
  }

  lemma AfterRemoval(d: Defaults, was: Store, now: Store, svc: Service)
    requires AllSettled(d, was, svc, BuiltNets(svc)) && OwnableChildren(was, svc)
    requires Removed(was, now, svc, ServiceNames(svc), NamesOf(BuiltNets(svc)))
    ensures NetsSettled(d, now, svc) && Elsewhere(was, now, NetScope(svc)) && OwnableChildren(now, svc)
    ensures LeftOver(was, now, svc)
  {
    hide BuiltNets, Agrees, Fixed, IngressOf, DeploymentOf, MayOwn;
    var built := BuiltNets(svc);
    forall k | IsSpareNet(svc, k)
      ensures DeletedAt(k, was, now) && Dismissed(now, k)
    {
      assert IsDropped(svc, k, ServiceNames(svc), NamesOf(built));
      DeletedIsDismissed(k, was, now);
    }
    forall k | !IsSpareNet(svc, k)
      ensures SameAt(k, was, now)
    {
      assert k == NetKey(svc, k.name) || k.kind != NetKind || k.namespace != svc.namespace;
      assert !IsDropped(svc, k, ServiceNames(svc), NamesOf(built));
    }
    forall i | 0 <= i < |built|
      ensures Settled(d, now, NetTask(svc, built[i])) && !IsSpareNet(svc, NetKey(svc, built[i].name))
    {
      assert built[i].name in NamesOf(built);
      assert SameAt(NetKey(svc, built[i].name), was, now);
    }
    forall k | k in OwnedKeys(svc) && k in now
      ensures MayOwn(svc, now[k].obj.controller)
    {
      assert !IsSpareNet(svc, k) && SameAt(k, was, now);
    }
  }

  lemma ContentsAfterRemoval(first: Store, was: Store, now: Store, svc: Service)
    requires SameContents(first, was) && Removed(was, now, svc, ServiceNames(svc), NamesOf(BuiltNets(svc)))
    requires forall k :: IsSpareNet(svc, k) ==> Dismissed(first, k)
    ensures SameContents(was, now)
  {
    hide BuiltNets;
    forall k
      ensures SameContent(k, was, now)
    {
      assert SameContent(k, first, was);
      if IsDropped(svc, k, ServiceNames(svc), NamesOf(BuiltNets(svc))) {
        assert k == NetKey(svc, k.name) && IsSpareNet(svc, k);
        assert Dismissed(first, k) && Dismissed(was, k) && DeletedAt(k, was, now);
        DeletedIsDismissed(k, was, now);
      } else {
        assert SameAt(k, was, now);
      }
    }
  }

  // ----- All children -----

  ghost predicate DeploymentSettled(d: Defaults, store: Store, svc: Service) {
    match DeploymentOf(svc)
    case Built(deployment) => Settled(d, store, DeployTask(svc, deployment))
    case _ => Dismissed(store, DeploymentKey(svc))
  }

  ghost predicate IngressSettled(d: Defaults, store: Store, svc: Service) {
    match IngressOf(svc)
    case Built(ingress) => Settled(d, store, IngressTask(svc, ingress))
    case _ => Dismissed(store, IngressKey(svc))
  }

  /** Deployment, Services and Ingress are there exactly when needed, and as they should be. */
  ghost predicate ChildrenSettled(d: Defaults, store: Store, svc: Service) {
    DeploymentSettled(d, store, svc) && NetsSettled(d, store, svc) && IngressSettled(d, store, svc)
  }

  lemma QuietRemoval(w: World, svc: Service, k: Key)
    requires Quiet(w.setting) && OwnableChildren(w.store, svc) && k !in OwnedKeys(svc)
    ensures var (w', o) := RemoveIfPresent(w, k);
      && o.Ok? && Dismissed(w'.store, k) && OwnableChildren(w'.store, svc) && Elsewhere(w.store, w'.store, {k})
      && LeftOver(w.store, w'.store, svc) && (Dismissed(w.store, k) ==> SameContents(w.store, w'.store))
  {
    hide RemoveIfPresent, OwnedKeys, Quiet, Linked, DeletedAt, Dismissed, IsUnwanted;
    QuietRemove(w, k);
    var w' := RemoveIfPresent(w, k).0;
    DeletedIsDismissed(k, w.store, w'.store);
    OwnableFrame(w.store, w'.store, svc, k);
    ElsewhereLeavesOver(w.store, w'.store, svc, {k});
    if Dismissed(w.store, k) {
      SameButOne(w.store, w'.store, k);
    }
  }

  lemma {:induction false} QuietDeployment(w: World, svc: Service)
    requires WellFormed(w) && Quiet(w.setting) && Lawful(w.setting.defaults) && Regular(svc)
    requires OwnableChildren(w.store, svc)
    ensures var (w', o) := ReconcileDeployment(w, svc);
      var d := w.setting.defaults;
      && o.Ok? && OwnableChildren(w'.store, svc) && Elsewhere(w.store, w'.store, {DeploymentKey(svc)})
      && LeftOver(w.store, w'.store, svc)
      && DeploymentSettled(d, w'.store, svc) && (DeploymentSettled(d, w.store, svc) ==> SameContents(w.store, w'.store))
  {
    DeploymentIsNotOwned(svc);
    hide Linked, RetryLoop, RemoveIfPresent, DeploymentOf, Settled, SameContents, Quiet, Elsewhere, OwnedKeys,
      OwnableChildren, LeftOver, Dismissed, IngressOf;
    match DeploymentOf(svc) {
      case NotNeeded => QuietRemoval(w, svc, DeploymentKey(svc));
      case Built(deployment) =>
        var t := DeployTask(svc, deployment);
        QuietEnsure(w, t);
        OwnableFrame(w.store, Ensure(w, t).0.store, svc, KeyOf(t));
        ElsewhereLeavesOver(w.store, Ensure(w, t).0.store, svc, {KeyOf(t)});
    }
  }

  lemma DeploymentIsNotOwned(svc: Service)
    ensures DeploymentKey(svc) !in OwnedKeys(svc)
  {
    hide BuiltNets;
  }

  lemma {:induction false} QuietIngress(w: World, svc: Service)
    requires WellFormed(w) && Quiet(w.setting) && Lawful(w.setting.defaults) && OwnableChildren(w.store, svc)
    ensures var (w', o) := ReconcileIngress(w, svc);
      var d := w.setting.defaults;
      && o.Ok? && OwnableChildren(w'.store, svc) && Elsewhere(w.store, w'.store, {IngressKey(svc)})
      && LeftOver(w.store, w'.store, svc)
      && IngressSettled(d, w'.store, svc) && (IngressSettled(d, w.store, svc) ==> SameContents(w.store, w'.store))
  {
    IngressNeverPanics(svc);
    IngressIsOwned(svc);
    hide Linked, RetryLoop, RemoveIfPresent, IngressOf, Settled, SameContents, Quiet, Elsewhere, OwnedKeys, LeftOver,
      Dismissed, DeploymentOf;
    match IngressOf(svc) {
      case NotNeeded => QuietRemoval(w, svc, IngressKey(svc));
      case Built(ingress) =>
        var t := IngressTask(svc, ingress);
        QuietEnsure(w, t);
        OwnableFrame(w.store, Ensure(w, t).0.store, svc, KeyOf(t));
        ElsewhereLeavesOver(w.store, Ensure(w, t).0.store, svc, {KeyOf(t)});
    }
  }

  lemma IngressIsOwned(svc: Service)
    ensures IngressKey(svc) in OwnedKeys(svc) <==> IngressOf(svc).Built?
  {
    hide BuiltNets, IngressOf;
  }

  lemma IngressNeverPanics(svc: Service)
    ensures !IngressOf(svc).Panicked?
  {}

  /** Changes at other keys are no concern of a child. */
  lemma ChildrenFrame(d: Defaults, was: Store, now: Store, svc: Service, keys: set<Key>)
    requires Elsewhere(was, now, keys)
    ensures DeploymentKey(svc) !in keys ==> (DeploymentSettled(d, was, svc) <==> DeploymentSettled(d, now, svc))
    ensures IngressKey(svc) !in keys ==> (IngressSettled(d, was, svc) <==> IngressSettled(d, now, svc))
  {
    hide DeploymentOf, IngressOf, Agrees, Fixed;
    assert DeploymentKey(svc) !in keys ==> SameAt(DeploymentKey(svc), was, now);
    assert IngressKey(svc) !in keys ==> SameAt(IngressKey(svc), was, now);
  }

  lemma NetsFrame(d: Defaults, was: Store, now: Store, svc: Service, keys: set<Key>)
    requires Elsewhere(was, now, keys) && keys !! NetScope(svc) && DistinctAmong(svc.spec.config.ports, true)
    ensures NetsSettled(d, was, svc) <==> NetsSettled(d, now, svc)
    ensures MissingNets(was, svc, BuiltNets(svc)) == MissingNets(now, svc, BuiltNets(svc))
  {
    BuiltAreArranged(svc);
    var built := BuiltNets(svc);
    hide BuiltNets, Agrees, Fixed, DistinctAmong, Arranged;
    forall i | 0 <= i < |built|
      ensures SameAt(NetKey(svc, built[i].name), was, now)
    {
      assert NetKey(svc, built[i].name) in NetKeys(svc, built);
    }
    assert forall k :: k in NetScope(svc) ==> SameAt(k, was, now);
    MissingFrame(was, now, svc, built);
    hide NetScope, NetKeys, Elsewhere;
  }

  /** The path without database: it creates one missing Service and stops, or settles every child. */
  lemma {:induction false} QuietGeneric(w: World, svc: Service)
    requires WellFormed(w) && Quiet(w.setting) && Lawful(w.setting.defaults) && Regular(svc)
    requires OwnableChildren(w.store, svc)
    ensures var (w', o) := ReconcileGeneric(w, svc);
      var d, missing := w.setting.defaults, MissingNets(w.store, svc, BuiltNets(svc));
      && OwnableChildren(w'.store, svc) && Elsewhere(w.store, w'.store, GenericScope(svc))
      && LeftOver(w.store, w'.store, svc)
      && (if missing == 0 then o.Ok? && ChildrenSettled(d, w'.store, svc)
          else o.Err? && MissingNets(w'.store, svc, BuiltNets(svc)) == missing - 1)
      && (ChildrenSettled(d, w.store, svc) ==> missing == 0 && SameContents(w.store, w'.store))
  {
    hide Linked, ReconcileDeployment, ReconcileServices, ReconcileIngress, DeploymentSettled, NetsSettled,
      IngressSettled, OwnableChildren, Elsewhere, SameContents, BuiltNets, Regular, Quiet, LeftOver;
    var d, scope := w.setting.defaults, GenericScope(svc);
    var (w1, o1) := ReconcileDeployment(w, svc);
    var (w2, o2) := ReconcileServices(w1, svc);
    var (w3, o3) := ReconcileIngress(w2, svc);
    RegularPorts(svc);
    QuietDeployment(w, svc);
    ElsewhereWidens(w.store, w1.store, {DeploymentKey(svc)}, scope);
    NetsFrame(d, w.store, w1.store, svc, {DeploymentKey(svc)});
    ChildrenFrame(d, w.store, w1.store, svc, {DeploymentKey(svc)});
    QuietServices(w1, svc);
    ElsewhereWidens(w1.store, w2.store, NetScope(svc), scope);
    ElsewhereTransitive(w.store, w1.store, w2.store, scope);
    LeftOverTransitive(w.store, w1.store, w2.store, svc);
    ChildrenFrame(d, w1.store, w2.store, svc, NetScope(svc));
    if o2.Ok? {
      QuietIngress(w2, svc);
      ElsewhereWidens(w2.store, w3.store, {IngressKey(svc)}, scope);
      ElsewhereTransitive(w.store, w2.store, w3.store, scope);
      LeftOverTransitive(w.store, w2.store, w3.store, svc);
      ChildrenFrame(d, w2.store, w3.store, svc, {IngressKey(svc)});
      NetsFrame(d, w2.store, w3.store, svc, {IngressKey(svc)});
      if ChildrenSettled(d, w.store, svc) {
        SameContentsTransitive(w.store, w1.store, w2.store);
        SameContentsTransitive(w.store, w2.store, w3.store);
      }
    }
  }

  lemma RegularPorts(svc: Service)
    requires Regular(svc)
    ensures DistinctAmong(svc.spec.config.ports, true)
  {}
}
