/** What reconcileRuntimeObjects has achieved when it succeeds, and what it has left alone when it fails. */
module RuntimeExactness {
  import opened Text
  import opened Types
  import opened Trees
  import opened Cluster
  import opened ClusterLaws
  import opened Retry
  import opened RetryLaws
  import opened Secrets
  import opened Trace
  import opened Operator
  import opened Runtime
  import opened RuntimeLaws
  import opened ServiceExactness
  import opened Ownership

  function RenderedSpec(crd: Crd, spec: Json): Json {
    if HasCredentials(crd) then DesiredSpec(crd, spec) else spec
  }

  /**
   Finalizers and every compared field besides the metadata are as desired; a Service may have kept its
   cluster address.
   */
  ghost predicate ContentMatches(content: Fields, stored: Fields) {
    FinalizersIn(stored) == FinalizersIn(content) && forall k :: k != METADATA && k != STATUS ==>
      (k in stored <==> k in content)
      && (k in content && !(k == SPEC && KIND in content && content[KIND] == Str("Service")) ==>
            stored[k] == content[k])
  }

  /** The content is as desired, or the server's defaulting of content that was. */
  ghost predicate ContentAchieved(defaults: Defaults, content: Fields, stored: Fields) {
    ContentMatches(content, stored) || exists base :: ContentMatches(content, base) && stored == defaults.untyped(base)
  }

  /**
   Up to the server's defaulting, a typed resource is stored with its rendered spec; a Job is finished
   or has the desired containers; anything else has the desired content.
   */
  ghost predicate Achieved(defaults: Defaults, x: Rendered, body: Body) {
    match x
    case RenderedJob(_, _, containers) => 
      body.JobBody? && (body.finished || body.containers == containers || body.containers == defaults.job(containers))
    case RenderedManaged(crd, _, _, spec) =>
      body == ManagedBody(RenderedSpec(crd, spec)) || body == ManagedBody(defaults.crd(RenderedSpec(crd, spec)))
    case RenderedUntyped(_, _, _, content) => body.UntypedBody? && ContentAchieved(defaults, content, body.content)
  }

  ghost predicate AchievedIn(w: World, x: Rendered) {
    RenderedKey(x) in w.store && Achieved(w.setting.defaults, x, w.store[RenderedKey(x)].obj.body)
  }

  /** The unstructured object was marked for deletion, which is complete. */
  ghost predicate CompletedIn(w: World, w': World, x: Rendered) {
    var k := RenderedKey(x);
    x.RenderedUntyped? && k in w.store && w.store[k].obj.deleting && k !in w'.store
  }

  /** After a successful write of the controller the object is there as admitted. */
  lemma CreatedIsThere(w: World, k: Key, obj: Object)
    ensures var (w', made) := Call(w, Create(k, obj));
      made.Got? ==>
          k in w'.store && w'.store[k].obj.body == Admit(w.setting.defaults, w.setting.env(w.clock, w.store).grant,
              obj.body)
  {
    hide Linked, Call, Awaited, Admit, FinalizersIn, ControllerIn;
    CreateAddsFresh(w, k, obj);
    AdmissionKeepsForm(w.setting.defaults, w.setting.env(w.clock, w.store).grant, obj.body);
  }

  lemma UpdatedIsThere(w: World, k: Key, obj: Object, s: Stored)
    requires WellFormed(w) && Pinned(w, k, s) && obj.finalizers == s.obj.finalizers && !s.obj.body.CustomBody?
    requires !k.kind.Untyped?
    ensures var (w', written) := Call(w, Update(k, obj, Some(s.version)));
      written.Got? ==>
          k in w'.store && w'.store[k].obj.body == Admit(w.setting.defaults, w.setting.env(w.clock, w.store).grant,
              obj.body)
  {
    hide Linked, Call, Awaited, Admit, Pinned;
    UpdateReplacesPinned(w, k, obj, s);
  }

  lemma {:induction false} SimpleAchieves(w: World, svc: Service, crd: Crd, namespace: string, name: string, spec: Json)
    requires WellFormed(w) && !HasCredentials(crd)
    ensures var (w', o) := ReconcileSimple(w, svc, crd, namespace, name, spec);
      o.Ok? ==> AchievedIn(w', RenderedManaged(crd, namespace, name, spec))
  {
    hide Linked, Call, Awaited, Pinned, StoreFits, DesiredSpec, ContentMatches, ContentAchieved, AdmitNet;
    var k := Key(Managed(crd), namespace, name);
    var (w1, read) := Call(w, Get(k));
    GetPins(w, k);
    if read.Failed? {
      CreatedIsThere(w1, k, NewObject(map[], Some(OwnerOf(svc)), ManagedBody(spec)));
    } else {
      UpdatedIsThere(w1, k, read.stored.obj.(body := ManagedBody(spec)), read.stored);
    }
  }

  lemma {:induction false} JobAchieves(w: World, svc: Service, namespace: string, name: string, containers: Json)
    requires WellFormed(w)
    ensures var (w', o) := ReconcileJob(w, svc, namespace, name, containers);
      o.Ok? ==> AchievedIn(w', RenderedJob(namespace, name, containers))
  {
    hide Linked, Call, Awaited, Pinned, ReplaceJob, StoreFits, ContentMatches, RenderedSpec, AdmitNet;
    var k := Key(JobKind, namespace, name);
    var (w1, read) := Call(w, Get(k));
    GetPins(w, k);
    if read.Failed? {
      CreatedIsThere(w1, k, NewJob(svc, containers));
    } else {
      ReplacedIsThere(w1, svc, k, containers);
    }
  }

  lemma {:induction false} ReplacedIsThere(w: World, svc: Service, k: Key, containers: Json)
    ensures var (w', o) := ReplaceJob(w, svc, k, containers);
      o.Ok? ==> k in w'.store && w'.store[k].obj.body == JobBody(w.setting.defaults.job(containers), false)
  {
    hide Linked, Call, Awaited, AwaitGone;
    CreatedIsThere(AwaitGone(Call(w, Delete(k)).0, k, 0), k, NewJob(svc, containers));
  }

  /** The wait for a deleted Job sleeps at most ten seconds; if it ends sooner the Job is gone. */
  lemma {:induction false} GoneOrExhausted(w: World, k: Key, retries: nat)
    requires WellFormed(w) && retries <= 10
    ensures var w' := AwaitGone(w, k, retries);
      && w.slept <= w'.slept <= w.slept + 10 - retries
      && (w'.slept < w.slept + 10 - retries ==> k !in w'.store)
    decreases DELETE_RETRIES - retries
  {
    hide Linked, Call, Awaited, StoreFits, Pinned, Fits;
    if retries < DELETE_RETRIES {
      GetPins(w, k);
      var (w1, read) := Call(w, Get(k));
      if read != Failed(NotFound) {
        GoneOrExhausted(Sleep(w1, 1), k, retries + 1);
      }
    }
  }

  /** A finished Job, whatever its containers, is only read. */
  lemma FinishedJobIsLeftAlone(w: World, svc: Service, namespace: string, name: string, containers: Json)
    requires WellFormed(w)
    ensures var (w1, read) := Call(w, Get(Key(JobKind, namespace, name)));
      namespace == svc.namespace && read.Got? && read.stored.obj.body.JobBody? && read.stored.obj.body.finished ==>
        ReconcileJob(w, svc, namespace, name, containers) == (w1, Ok)
  {
    hide Linked, Call, Awaited, Pinned;
  }

  lemma OwnedContentMatches(content: Fields, updated: Fields, svc: Service)
    requires ContentMatches(content, updated)
    ensures ContentMatches(content, WithOwner(updated, svc))
  {
    OwnedStates(updated, svc);
    hide FinalizersIn, OwnersIn, Upsert;
  }

  lemma UpdatedContentMatches(existing: Fields, content: Fields)
    ensures ContentMatches(content, UpdatedUnstructured(existing, content))
  {
    UpdateStates(existing, content);
    hide CarryMetadata, FinalizersIn;
  }

  lemma ComparedContentMatches(obj: Object, content: Fields)
    requires obj.body.UntypedBody? && !Differs(obj, content)
    ensures ContentMatches(content, obj.body.content)
  {
    var existing, seen := obj.body.content, SeenContent(obj);
    ComparedStates(content, seen);
    SeenStates(obj);
    hide FinalizersIn;
    forall k | k != METADATA && k != STATUS
      ensures (k in existing <==> k in content) && (k in content ==> existing[k] == content[k])
    {
      assert k in Compared(content) <==> k in content;
      assert k in Compared(seen) <==> k in seen;
      assert k in content ==> Compared(content)[k] == content[k];
      assert k in seen ==> Compared(seen)[k] == seen[k];
    }
  }

  lemma UntypedIsThere(w: World, k: Key, obj: Object, s: Stored)
    requires WellFormed(w) && Pinned(w, k, s) && k.kind.Untyped? && obj.body.UntypedBody?
    ensures var (w', written) := Call(w, Update(k, obj, Some(s.version)));
      written.Got? ==>
        if k in w'.store then w'.store[k].obj.body == UntypedBody(w.setting.defaults.untyped(obj.body.content))
        else s.obj.deleting
  {
    hide Linked, Call, Awaited, Pinned, FinalizersIn, ControllerIn;
    UntypedReplacesPinned(w, k, obj, s);
  }

  lemma ReadIsSpared(w: World, k: Key, keys: set<Key>)
    requires k in keys && AllNew(w, Call(w, Get(k)).0, Spares(keys))
    ensures SameAt(k, w.store, Call(w, Get(k)).0.store)
  {
    hide Linked, Call, Proper, Spares;
    ProperRead(w, k, {});
    UntouchedElsewhere(w, Call(w, Get(k)).0, {}, keys, k);
  }

  lemma {:induction false} UntypedAchieves(w: World, svc: Service, x: Rendered, keys: set<Key>)
    requires WellFormed(w) && x.RenderedUntyped? && RenderedKey(x) in keys
    requires AllNew(w, ReconcileUntyped(w, svc, RenderedKey(x), x.content).0, Spares(keys))
    ensures var (w', o) := ReconcileUntyped(w, svc, RenderedKey(x), x.content);
      o.Ok? ==> AchievedIn(w', x) || CompletedIn(w, w', x)
  {
    hide Linked, Call, Awaited, Pinned, WithOwner, UpdatedUnstructured, Compared, ContentMatches, StoreFits, Spares,
      SeenContent, ControllerIn, FinalizersIn;
    var k, content := RenderedKey(x), x.content;
    var (w1, read) := Call(w, Get(k));
    GetPins(w, k);
    if read.Failed? {
      assert ContentMatches(content, content) by { ContentMatchesItself(content); }
      OwnedContentMatches(content, content, svc);
      CreatedIsThere(w1, k, NewUntyped(WithOwner(content, svc)));
    } else {
      var obj := read.stored.obj;
      var updated := UpdatedUnstructured(SeenContent(obj), content);
      if Differs(obj, content) {
        UpdatedContentMatches(SeenContent(obj), content);
        OwnedContentMatches(content, updated, svc);
        ExtendsReflexive(w1);
        SparedWithin(w, w1, ReconcileUntyped(w, svc, k, content).0, keys);
        ReadIsSpared(w, k, keys);
        UntypedIsThere(w1, k, AsStated(obj.(body := UntypedBody(WithOwner(updated, svc)))), read.stored);
      } else {
        ComparedContentMatches(obj, content);
      }
    }
  }

  lemma ContentMatchesItself(content: Fields)
    ensures ContentMatches(content, content)
  {}

  lemma {:induction false} ClusterAchieves(w: World, svc: Service, x: Rendered, keys: set<Key>)
    requires WellFormed(w) && x.RenderedManaged? && HasCredentials(x.crd) && RenderedKey(x) in keys
    requires AllNew(w, ReconcileCluster(w, svc, x.crd, x.namespace, x.name, x.spec).0, Spares(keys))
    ensures var (w', o) := ReconcileCluster(w, svc, x.crd, x.namespace, x.name, x.spec);
      o.Ok? ==> AchievedIn(w', x)
  {
    hide Linked, RetryLoop, CopyAfterwards, Spares, Proper, DesiredSpec;
    var t := ManagedTask(svc, x.crd, x.namespace, x.name, DesiredSpec(x.crd, x.spec));
    var (w1, end) := Ensure(w, t);
    var (w', o) := ReconcileCluster(w, svc, x.crd, x.namespace, x.name, x.spec);
    SuccessIsReal(w, t, 0, 1);
    if o.Ok? && !end.Created? {
      SparedWithin(w, w1, w', keys);
      CopyAfterwardsIsProper(w1, svc, x.crd, KeyOf(t), {TargetKey(svc)});
      UntouchedElsewhere(w1, w', {TargetKey(svc)}, keys, KeyOf(t));
      assert SameAt(KeyOf(t), w1.store, w'.store);
    }
  }

  lemma {:induction false} RenderedAchieves(w: World, svc: Service, x: Rendered, keys: set<Key>)
    requires WellFormed(w) && RenderedKey(x) in keys && AllNew(w, ReconcileRendered(w, svc, x).0, Spares(keys))
    ensures var (w', o) := ReconcileRendered(w, svc, x);
      o.Ok? ==> AchievedIn(w', x) || CompletedIn(w, w', x)
  {
    hide Linked, ReconcileJob, ReconcileCluster, ReconcileSimple, ReconcileUntyped, AchievedIn, CompletedIn, Spares;
    match x {
      case RenderedJob(namespace, name, containers) => JobAchieves(w, svc, namespace, name, containers);
      case RenderedManaged(crd, namespace, name, spec) =>
        if HasCredentials(crd) {
          ClusterAchieves(w, svc, x, keys);
        } else {
          SimpleAchieves(w, svc, crd, namespace, name, spec);
        }
      case RenderedUntyped(_, _, _, _) => UntypedAchieves(w, svc, x, keys);
    }
  }

  // ----- Installing an operator -----

  lemma AwaitedIsSpared(w: World, op: Op, keys: set<Key>, k: Key)
    requires AllNew(w, Call(w, op).0, Spares(keys)) && k in keys
    ensures SameAt(k, w.store, Awaited(w).store)
  {
    hide Linked, Call, Proper, Spares, Awaited, Foreign;
    AwaitedForeign(w);
    SparedWithin(w, Awaited(w), Call(w, op).0, keys);
    ProperAllowsForeign({});
    UntouchedElsewhere(w, Awaited(w), {}, keys, k);
  }

  /** A tolerant creation leaves what is there, and success means that something is. */
  lemma CreatedOrLeft(w: World, k: Key, spec: Json, keys: set<Key>)
    requires k in keys && k.kind.Managed? && AllNew(w, CreateIfAbsent(w, k, spec).0, Spares(keys))
    ensures var (w', o) := CreateIfAbsent(w, k, spec);
      && (k in w.store ==> SameAt(k, w.store, w'.store))
      && (o.Ok? ==> k in w'.store)
      && (k !in w.store && k in w'.store ==> w'.store[k].obj.body == ManagedBody(w.setting.defaults.crd(spec)))
  {
    hide Linked, Call, Awaited, Spares, Foreign;
    var op := Create(k, NewObject(map[], None, ManagedBody(spec)));
    AwaitedIsSpared(w, op, keys, k);
    CallEffect(w, op);
  }

  /**
   Installing an operator leaves a repository and a release that are there as they are, creates what is
   missing, and succeeds only if both are there then.
   */
  lemma {:induction false} InstallationIsTolerant(w: World, databaseType: string)
    requires WellFormed(w)
    requires AllNew(w, InstallOperator(w, databaseType).0, Spares(OperatorKeys(databaseType, w.setting.podNamespace)))
    ensures var (w', o) := InstallOperator(w, databaseType);
      && (forall k :: k in OperatorKeys(databaseType, w.setting.podNamespace) && k in w.store ==>
            SameAt(k, w.store, w'.store))
      && (o.Ok? ==> forall k :: k in OperatorKeys(databaseType, w.setting.podNamespace) ==> k in w'.store)
  {
    hide Linked, CreateIfAbsent, Proper, Spares, RepositorySpec, ReleaseSpec, OperatorName;
    var namespace, keys := w.setting.podNamespace, OperatorKeys(databaseType, w.setting.podNamespace);
    var k1, k2 := RepositoryKey(databaseType, namespace), ReleaseKey(databaseType, namespace);
    var (w1, o1) := CreateIfAbsent(w, k1, RepositorySpec(databaseType));
    var w' := InstallOperator(w, databaseType).0;
    ExtendsReflexive(w1);
    SparedWithin(w, w1, w', keys);
    CreatedOrLeft(w, k1, RepositorySpec(databaseType), keys);
    CreateIfAbsentIsProper(w, k1, RepositorySpec(databaseType), {k1});
    UntouchedElsewhere(w, w1, {k1}, keys, k2);
    if o1.Ok? {
      CreatedOrLeft(w1, k2, ReleaseSpec(databaseType, namespace), keys);
      CreateIfAbsentIsProper(w1, k2, ReleaseSpec(databaseType, namespace), {k2});
      UntouchedElsewhere(w1, w', {k2}, keys, k1);
    }
  }

  // ----- The whole list -----

  ghost predicate DistinctKeys(xs: seq<Rendered>) {
    forall i, j :: 0 <= i < j < |xs| ==> RenderedKey(xs[i]) != RenderedKey(xs[j])
  }

  /**
   With distinct keys, and nobody else writing these objects, success means that all of them are achieved,
   but for unstructured ones whose pending deletion the update completed.
   */
  lemma {:induction false} SuccessAchievesAll(w: World, svc: Service, xs: seq<Rendered>, keys: set<Key>)
    requires WellFormed(w) && DistinctKeys(xs) && RenderedKeys(xs) <= keys
    requires AllNew(w, ReconcileObjects(w, svc, xs).0, Spares(keys))
    ensures var (w', o) := ReconcileObjects(w, svc, xs);
      o.Ok? ==> forall i :: 0 <= i < |xs| ==> AchievedIn(w', xs[i]) || CompletedIn(w, w', xs[i])
    decreases |xs|
  {
    hide Linked, ReconcileRendered, Proper, Spares, Achieved, TargetKey;
    if xs != [] {
      var k := RenderedKey(xs[0]);
      var (w1, o1) := ReconcileRendered(w, svc, xs[0]);
      var (w', o) := ReconcileObjects(w, svc, xs);
      assert k in RenderedKeys(xs);
      if o.Ok? {
        SparedWithin(w, w1, w', keys);
        RenderedAchieves(w, svc, xs[0], keys);
        SuccessAchievesAll(w1, svc, xs[1..], keys);
        var scope := RenderedKeys(xs[1..]) + {TargetKey(svc)};
        ObjectsAreProper(w1, svc, xs[1..], scope);
        RenderedKindIsOther(xs[0], svc);
        assert k !in scope;
        UntouchedElsewhere(w1, w', scope, keys, k);
        assert SameAt(k, w1.store, w'.store);
        RenderedIsProper(w, svc, xs[0], {k, TargetKey(svc)});
        forall i | 0 <= i < |xs|
          ensures AchievedIn(w', xs[i]) || CompletedIn(w, w', xs[i])
        {
          if i > 0 {
            assert xs[i] == xs[1..][i - 1] && RenderedKey(xs[i]) in RenderedKeys(xs);
            RenderedKindIsOther(xs[i], svc);
            UntouchedElsewhere(w, w1, {k, TargetKey(svc)}, keys, RenderedKey(xs[i]));
          }
        }
      }
    }
  }

  lemma RenderedKindIsOther(x: Rendered, svc: Service)
    ensures RenderedKey(x) != TargetKey(svc)
  {}

  /**
   The loop works through a prefix of the list, succeeding on all but possibly the last object of it;
   it asks for nothing outside this prefix and the target secret, and on an error the prefix ends with
   the object that failed.
   */
  lemma {:induction false} FailureStops(w: World, svc: Service, xs: seq<Rendered>) returns (n: nat)
    requires WellFormed(w)
    ensures n <= |xs|
    ensures var (w', o) := ReconcileObjects(w, svc, xs);
      && AllNew(w, w', Proper(RenderedKeys(xs[..n]) + {TargetKey(svc)}))
      && (if o.Ok? then n == |xs|
          else
            && n > 0 && ReconcileObjects(w, svc, xs[..n - 1]).1.Ok?
            && ReconcileRendered(ReconcileObjects(w, svc, xs[..n - 1]).0, svc, xs[n - 1]) == (w', o))
    decreases |xs|
  {
    hide Linked, ReconcileRendered, Proper, TargetKey;
    n := 0;
    if xs != [] {
      var (w1, o1) := ReconcileRendered(w, svc, xs[0]);
      var w' := ReconcileObjects(w, svc, xs).0;
      n := 1;
      if o1.Ok? {
        var m := FailureStops(w1, svc, xs[1..]);
        n := m + 1;
        PrefixSplits(xs, n);
        ProperWidens(w1, w', RenderedKeys(xs[1..][..m]) + {TargetKey(svc)}, RenderedKeys(xs[..n]) + {TargetKey(svc)});
        if m > 0 {
          PrefixSplits(xs, m);
        }
      }
      assert xs[..n][0] == xs[0] && RenderedKey(xs[0]) in RenderedKeys(xs[..n]);
      RenderedIsProper(w, svc, xs[0], RenderedKeys(xs[..n]) + {TargetKey(svc)});
      if o1.Ok? {
        AllNewTransitive(w, w1, w', Proper(RenderedKeys(xs[..n]) + {TargetKey(svc)}));
      }
    }
  }

  lemma PrefixSplits(xs: seq<Rendered>, n: nat)
    requires 0 < n <= |xs|
    ensures xs[..n][0] == xs[0] && xs[..n][1..] == xs[1..][..n - 1]
    ensures RenderedKeys(xs[1..][..n - 1]) <= RenderedKeys(xs[..n])
  {
    assert forall x :: x in xs[..n][1..] ==> x in xs[..n];
  }

  /** Where the two charts come from, and in which version. */
  lemma ChartsAsDeclared(databaseType: string, namespace: string)
    requires databaseType in ["mysql", "clickhouse"]
    ensures var mysql := databaseType == "mysql";
      var name := if mysql then "moco-operator" else "clickhouse-operator";
      var source := Tree(map["kind" := Str("HelmRepository"), "name" := Str(name), "namespace" := Str(namespace)]);
      var chart := Tree(map["chart" := Str(if mysql then "moco" else "altinity-clickhouse-operator"),
          "version" := Str(if mysql then "0.17.0" else "0.25.0"), "sourceRef" := source]);
      && NeedsOperator(databaseType) && OperatorName(databaseType) == name
      && RepositorySpec(databaseType) == Tree(map["interval" := INTERVAL,
           "url" := Str(if mysql then "https://cybozu-go.github.io/moco/"
                        else "https://docs.altinity.com/clickhouse-operator/")])
      && ReleaseSpec(databaseType, namespace) ==
          Tree(map["interval" := INTERVAL, "chart" := Tree(map["spec" := chart])])
  {}

  // ----- Whose objects these are -----

  /**
   An object rendered for another namespace is never written: a typed one is refused before any call, an
   unstructured one unless there is nothing to write.
   */
  lemma {:induction false} OtherNamespaceIsRefused(w: World, svc: Service, x: Rendered)
    requires x.namespace != svc.namespace
    ensures var (w', o) := ReconcileRendered(w, svc, x);
      && AllNew(w, w', Proper({}))
      && (!x.RenderedUntyped? ==> w' == w && o == Err(CrossNamespace))
      && (x.RenderedUntyped? && o.Ok? ==>
            var read := Call(w, Get(RenderedKey(x))).1; read.Got? && !Differs(read.stored.obj, x.content))
  {
    hide Linked, Call, Proper, RetryLoop, ReplaceJob, CopyAfterwards, Compared, SeenContent, UpdatedUnstructured;
    if x.RenderedUntyped? {
      ProperRead(w, RenderedKey(x), {});
    }
  }

  /** What is created at `k` is stored with the reference to the custom resource. */
  ghost predicate CreatesOwned(svc: Service, k: Key, e: Event) {
    e.who.Some? && e.op.Create? && e.op.key == k && e.reply.Got? ==>
      e.reply.stored.obj.controller == Some(OwnerOf(svc))
  }

  ghost function Owned(svc: Service, k: Key): Event -> bool {
    (e: Event) => CreatesOwned(svc, k, e)
  }

  lemma ForeignCreatesOwned(svc: Service, k: Key)
    ensures forall e :: Foreign(e) ==> Owned(svc, k)(e)
  {
    hide IsServed;
  }

  lemma OtherOpsCreateOwned(w: World, op: Op, svc: Service, k: Key)
    requires !op.Create?
    ensures AllNew(w, Call(w, op).0, Owned(svc, k))
  {
    ForeignCreatesOwned(svc, k);
    hide Linked, Call, Awaited, Foreign;
    CallIs(w, op, Owned(svc, k));
  }

  lemma CreationIsOwned(w: World, svc: Service, k: Key, body: Body)
    requires !k.kind.Untyped?
    ensures AllNew(w, Call(w, Create(k, NewObject(map[], Some(OwnerOf(svc)), body))).0, Owned(svc, k))
  {
    var op := Create(k, NewObject(map[], Some(OwnerOf(svc)), body));
    CreateAddsFresh(w, k, op.obj);
    ForeignCreatesOwned(svc, k);
    hide Linked, Call, Awaited, Foreign, Admit;
    CallIs(w, op, Owned(svc, k));
  }

  lemma {:induction false} AwaitGoneCreatesOwned(w: World, svc: Service, k: Key, retries: nat)
    ensures AllNew(w, AwaitGone(w, k, retries), Owned(svc, k))
    decreases DELETE_RETRIES - retries
  {
    hide Linked, Call, Owned;
    if retries < DELETE_RETRIES {
      OtherOpsCreateOwned(w, Get(k), svc, k);
      var (w1, read) := Call(w, Get(k));
      if read != Failed(NotFound) {
        AwaitGoneCreatesOwned(Sleep(w1, 1), svc, k, retries + 1);
        ExtendsTransitive(w1, Sleep(w1, 1), AwaitGone(w, k, retries));
        AllNewTransitive(w, w1, AwaitGone(w, k, retries), Owned(svc, k));
      }
    }
  }

  /** A Job, new or in place of an outdated one, belongs to the custom resource. */
  lemma {:induction false} JobIsOwned(w: World, svc: Service, namespace: string, name: string, containers: Json)
    ensures AllNew(w, ReconcileJob(w, svc, namespace, name, containers).0, Owned(svc, Key(JobKind, namespace, name)))
  {
    hide Linked, Call, Owned, AwaitGone, JobIsStale;
    var k := Key(JobKind, namespace, name);
    var p, w' := Owned(svc, k), ReconcileJob(w, svc, namespace, name, containers).0;
    if namespace == svc.namespace {
      var (w1, read) := Call(w, Get(k));
      OtherOpsCreateOwned(w, Get(k), svc, k);
      if read == Failed(NotFound) {
        CreationIsOwned(w1, svc, k, JobBody(containers, false));
        AllNewTransitive(w, w1, w', p);
      } else if read.Got? && JobIsStale(read.stored.obj.body, containers) {
        var (w2, gone) := Call(w1, Delete(k));
        OtherOpsCreateOwned(w1, Delete(k), svc, k);
        AllNewTransitive(w, w1, w2, p);
        if gone.Got? {
          var w3 := AwaitGone(w2, k, 0);
          AwaitGoneCreatesOwned(w2, svc, k, 0);
          AllNewTransitive(w, w2, w3, p);
          CreationIsOwned(w3, svc, k, JobBody(containers, false));
          AllNewTransitive(w, w3, w', p);
        }
      }
    }
  }

  lemma {:induction false} SimpleIsOwned(w: World, svc: Service, crd: Crd, namespace: string, name: string, spec: Json)
    ensures AllNew(w, ReconcileSimple(w, svc, crd, namespace, name, spec).0,
        Owned(svc, Key(Managed(crd), namespace, name)))
  {
    hide Linked, Call, Owned;
    var k := Key(Managed(crd), namespace, name);
    var p, w' := Owned(svc, k), ReconcileSimple(w, svc, crd, namespace, name, spec).0;
    if namespace == svc.namespace {
      var (w1, read) := Call(w, Get(k));
      OtherOpsCreateOwned(w, Get(k), svc, k);
      if read == Failed(NotFound) {
        CreationIsOwned(w1, svc, k, ManagedBody(spec));
        AllNewTransitive(w, w1, w', p);
      } else if read.Got? && read.stored.obj.body != ManagedBody(spec) {
        var obj := read.stored.obj.(body := ManagedBody(spec));
        OtherOpsCreateOwned(w1, Update(k, obj, Some(read.stored.version)), svc, k);
        AllNewTransitive(w, w1, w', p);
      }
    }
  }

  lemma {:induction false} LoopIsOwned(w: World, t: Task)
    requires WellFormed(w) && t.ManagedTask?
    ensures AllNew(w, Ensure(w, t).0, Owned(t.svc, KeyOf(t)))
  {
    NoLostUpdate(w, t, 0, 1);
    hide RetryLoop, Disciplined, Foreign, StoreFits, KeyOf, CreatesOwned;
    var w' := Ensure(w, t).0;
    forall i | |w.log| <= i < |w'.log|
      ensures Owned(t.svc, KeyOf(t))(w'.log[i])
    {
      assert Discipline(w.setting.defaults, t)(w'.log[i]);
      DisciplinedIsOwned(w.setting.defaults, t, w'.log[i]);
    }
  }

  lemma DisciplinedIsOwned(defaults: Defaults, t: Task, e: Event)
    requires t.ManagedTask? && Discipline(defaults, t)(e)
    ensures CreatesOwned(t.svc, KeyOf(t), e)
  {
    hide Agrees, OnlyIntended, KeepsAddress, IsServed;
  }

  lemma CopyCreatesOwned(w: World, svc: Service, crd: Crd, k: Key)
    requires WellFormed(w) && k.kind.Managed?
    ensures AllNew(w, CopyAfterwards(w, svc, crd, k).0, Owned(svc, k))
  {
    CopyAfterwardsIsProper(w, svc, crd, k, {TargetKey(svc)});
    hide CopyAfterwards, CreateEffect, UpdateEffect, DeleteEffect, IsServed;
    var w' := CopyAfterwards(w, svc, crd, k).0;
    forall i | |w.log| <= i < |w'.log|
      ensures Owned(svc, k)(w'.log[i])
    {
      assert Proper({TargetKey(svc)})(w'.log[i]);
    }
  }

  lemma {:induction false} ClusterIsOwned(w: World, svc: Service, crd: Crd, namespace: string, name: string, spec: Json)
    requires WellFormed(w)
    ensures AllNew(w, ReconcileCluster(w, svc, crd, namespace, name, spec).0,
        Owned(svc, Key(Managed(crd), namespace, name)))
  {
    hide Linked, RetryLoop, CopyAfterwards, Owned, DesiredSpec;
    if namespace == svc.namespace {
      var t := ManagedTask(svc, crd, namespace, name, DesiredSpec(crd, spec));
      var (w1, end) := Ensure(w, t);
      LoopIsOwned(w, t);
      if end.UpToDate? || end.Updated? {
        CopyCreatesOwned(w1, svc, crd, KeyOf(t));
        AllNewTransitive(w, w1, ReconcileCluster(w, svc, crd, namespace, name, spec).0, Owned(svc, KeyOf(t)));
      }
    }
  }

  /**
   Whatever is created for a rendered object, under any interference, is stored with the controller reference
   to the custom resource, given a server that leaves owner references alone.
   */
  lemma {:induction false} RenderedIsOwned(w: World, svc: Service, x: Rendered)
    requires WellFormed(w) && KeepsStated(w.setting.defaults)
    ensures AllNew(w, ReconcileRendered(w, svc, x).0, Owned(svc, RenderedKey(x)))
  {
    hide Linked, ReconcileJob, ReconcileCluster, ReconcileSimple, ReconcileUntyped, KeepsStated;
    match x {
      case RenderedJob(namespace, name, containers) => JobIsOwned(w, svc, namespace, name, containers);
      case RenderedManaged(crd, namespace, name, spec) =>
        if HasCredentials(crd) {
          ClusterIsOwned(w, svc, crd, namespace, name, spec);
        } else {
          SimpleIsOwned(w, svc, crd, namespace, name, spec);
        }
      case RenderedUntyped(_, _, _, content) =>
        UntypedIsAsRendered(w, svc, RenderedKey(x), content);
        hide IsServed, FinalizersIn, ControllerIn;
        var d, w' := w.setting.defaults, ReconcileRendered(w, svc, x).0;
        forall i | |w.log| <= i < |w'.log|
          ensures Owned(svc, RenderedKey(x))(w'.log[i])
        {
          assert Rendering(d, svc, content)(w'.log[i]);
        }
    }
  }

  /** A MySQL cluster gets its server id base, whatever is rendered; every other spec is as rendered. */
  lemma ServerIdIsSet(crd: Crd, spec: Json)
    ensures RenderedSpec(crd, spec) ==
      if crd.MySQLCluster? && spec.Tree? then Tree(spec.fields["serverIDBase" := Number(100)]) else spec
  {}
}
