/**
 Finalizer safety: whatever other clients do between any two calls, and wherever calls fail, a
 Deployment, base Service or Ingress that the controller made does not outlive its custom resource, as
 long as nobody else takes the controller's finalizer away; only one that a finalizer of somebody else
 holds back may still be there, marked for deletion.
 */
module FinalizerSafety {
  import opened Text
  import opened Types
  import opened Builders
  import opened Cluster
  import opened ClusterLaws
  import opened Retry
  import opened Secrets
  import opened Credentials
  import opened RetryLaws
  import opened Trace
  import opened Reconciler
  import opened PassLaws
  import opened ServiceExactness
  import opened Runs

  /** The Deployment, Service or Ingress that carries the name of the custom resource `c`. */
  predicate IsBaseChild(k: Key, c: Key) {
    && (k.kind.DeploymentKind? || k.kind.NetKind? || k.kind.IngressKind?)
    && c.kind == CustomResource && k.namespace == c.namespace && k.name == c.name
  }

  predicate Guarded(store: Store, c: Key) {
    c in store && FINALIZER in store[c].obj.finalizers
  }

  /** `k` is no child that the controller made for `c`, or it is on the way out. */
  predicate UnmadeAt(store: Store, c: Key, k: Key) {
    k in store ==> store[k].maker != Some(c) || IsHeld(store[k].obj)
  }

  /**
   Every base child the controller made still has its custom resource, which holds the finalizer, or is
   held on the way out.
   */
  ghost predicate Safe(store: Store) {
    forall k :: k in store && store[k].maker.Some? && IsBaseChild(k, store[k].maker.value) ==>
      Guarded(store, store[k].maker.value) || IsHeld(store[k].obj)
  }

  /** Another client's request leaves the controller's finalizer on custom resources where it is. */
  ghost predicate Polite(e: Event) {
    e.who.None? && e.op.Update? && e.op.key.kind == CustomResource && e.op.key in e.before ==>
      FINALIZER in e.before[e.op.key].obj.finalizers ==> FINALIZER in e.op.obj.finalizers
  }

  ghost predicate SafeAround(e: Event) {
    Safe(e.before) && Safe(e.after)
  }

  // ----- Single events -----

  lemma ForeignKeepsSafe(e: Event)
    requires Foreign(e) && Polite(e) && Safe(e.before)
    ensures Safe(e.after)
    ensures forall c: Key :: c.kind == CustomResource && Guarded(e.before, c) ==> Guarded(e.after, c)
  {
    ForeignEffect(e);
    hide Foreign;
  }

  lemma ForeignKeepsUnmade(e: Event, c: Key, k: Key)
    requires Foreign(e) && UnmadeAt(e.before, c, k)
    ensures UnmadeAt(e.after, c, k)
  {
    ForeignEffect(e);
    hide Foreign;
  }

  lemma StandardKeepsSafe(scope: set<Key>, e: Event, actor: Key)
    requires Standard(scope, e) && e.who == Some(actor) && actor.kind == CustomResource
    requires Safe(e.before) && Guarded(e.before, actor)
    ensures Safe(e.after) && Guarded(e.after, actor)
  {
    hide Improves, Consistent, KeepsAddress;
  }

  // ----- A live pass -----

  lemma AllNewWithin(a: World, b: World, c: World, p: Event -> bool)
    requires Extends(a, b) && Extends(b, c) && AllNew(a, c, p)
    ensures AllNew(a, b, p) && AllNew(b, c, p)
  {
    hide Linked;
    assert forall i :: |a.log| <= i < |b.log| ==> c.log[i] == b.log[i];
  }

  /** What the events of a stretch keep, with the actor guarded throughout. */
  lemma RequestsKeepSafe(a: World, b: World, scope: set<Key>)
    requires Extends(a, b) && AllNew(a, b, Proper(scope)) && AllNew(a, b, Polite)
    requires a.actor.kind == CustomResource && Safe(a.store) && Guarded(a.store, a.actor)
    ensures AllNew(a, b, SafeAround) && Safe(b.store) && Guarded(b.store, a.actor)
  {
    var inv := (s: Store) => Safe(s) && Guarded(s, a.actor);
    hide Standard, Foreign, Polite, Safe, Guarded;
    forall i | |a.log| <= i < |b.log| && inv(b.log[i].before)
      ensures inv(b.log[i].after)
    {
      var e := b.log[i];
      assert Proper(scope)(e) && Polite(e);
      if e.who.Some? {
        StandardKeepsSafe(scope, e, a.actor);
      } else {
        ForeignKeepsSafe(e);
      }
    }
    Invariance(a, b, inv, |b.log| - |a.log|);
    hide Linked;
  }

  ghost predicate KeepsSafe(e: Event) {
    Polite(e) && Safe(e.before) ==> Safe(e.after)
  }

  lemma SafeThroughout(a: World, b: World)
    requires Extends(a, b) && AllNew(a, b, KeepsSafe) && AllNew(a, b, Polite) && Safe(a.store)
    ensures AllNew(a, b, SafeAround) && Safe(b.store)
  {
    hide Safe, Polite;
    forall i | |a.log| <= i < |b.log| && Safe(b.log[i].before)
      ensures Safe(b.log[i].after)
    {
      assert KeepsSafe(b.log[i]) && Polite(b.log[i]);
    }
    Invariance(a, b, Safe, |b.log| - |a.log|);
    hide Linked;
  }

  /** A call whose own request keeps the store safe. */
  lemma {:induction false} CallKeepsSafe(w: World, op: Op)
    requires AllNew(w, Call(w, op).0, Polite) && Safe(w.store)
    requires KeepsSafe(Call(w, op).0.log[|Awaited(w).log|])
    ensures AllNew(w, Call(w, op).0, SafeAround) && Safe(Call(w, op).0.store)
  {
    hide Safe, Polite, Call, Awaited, Linked, Foreign;
    forall e | Foreign(e)
      ensures KeepsSafe(e)
    {
      if Polite(e) && Safe(e.before) {
        ForeignKeepsSafe(e);
      }
    }
    CallIs(w, op, KeepsSafe);
    SafeThroughout(w, Call(w, op).0);
  }

  lemma {:induction false} StatusKeepsSafe(w: World, status: ServiceStatus, s: Stored)
    requires WellFormed(w) && Pinned(w, w.actor, s)
    ensures KeepsSafe(Call(w, UpdateStatus(w.actor, status, Some(s.version))).0.log[|Awaited(w).log|])
  {
    var op := UpdateStatus(w.actor, status, Some(s.version));
    StatusReplacesPinned(w, w.actor, status, s);
    FailureIsQuiet(w, op);
    hide Call, Awaited, Linked, Polite;
  }

  lemma {:induction false} LiveKeepsSafe(w: World, stored: Stored)
    requires WellFormed(w) && stored.obj.body.CustomBody? && Pinned(w, w.actor, stored)
    requires w.actor.kind == CustomResource
    requires Safe(w.store) && Guarded(w.store, w.actor) && AllNew(w, ReconcileLive(w, stored).0, Polite)
    ensures AllNew(w, ReconcileLive(w, stored).0, SafeAround) && Safe(ReconcileLive(w, stored).0.store)
  {
    hide Linked, Safe, Guarded, Polite, Proper, ChildScope, ReconcileChildren, DesiredStatus, Call, Pinned, KeepsSafe;
    var svc := ServiceOf(w.actor, stored);
    var (w1, o) := ReconcileChildren(w, svc);
    var w' := ReconcileLive(w, stored).0;
    ChildrenAreProper(w, svc);
    PinnedStays(w, w1, w.actor, stored);
    ExtendsReflexive(w1);
    AllNewWithin(w, w1, w', Polite);
    RequestsKeepSafe(w, w1, ChildScope(w, svc));
    if o.Ok? && w' != w1 {
      StatusKeepsSafe(w1, DesiredStatus(stored.obj.body.spec), stored);
      CallKeepsSafe(w1, UpdateStatus(w.actor, DesiredStatus(stored.obj.body.spec), Some(stored.version)));
      AllNewTransitive(w, w1, w', SafeAround);
    }
  }

  lemma {:induction false} AdditionKeepsSafe(w: World, stored: Stored)
    requires WellFormed(w) && stored.obj.body.CustomBody? && Pinned(w, w.actor, stored) && !stored.obj.deleting
    ensures var op := Update(w.actor, WithFinalizers(stored.obj, stored.obj.finalizers + {FINALIZER}),
        Some(stored.version));
      KeepsSafe(Call(w, op).0.log[|Awaited(w).log|])
  {
    FinalizersReplacePinned(w, w.actor, stored.obj.finalizers + {FINALIZER}, stored);
    hide Call, Awaited, Linked, Polite, Pinned;
  }

  lemma {:induction false} AddFinalizerKeepsSafe(w: World, stored: Stored)
    requires WellFormed(w) && stored.obj.body.CustomBody? && Pinned(w, w.actor, stored) && !stored.obj.deleting
    requires Safe(w.store) && AllNew(w, AddFinalizer(w, stored).0, Polite)
    ensures AllNew(w, AddFinalizer(w, stored).0, SafeAround) && Safe(AddFinalizer(w, stored).0.store)
  {
    hide Call, Awaited, Linked, Polite, Pinned, Safe, KeepsSafe;
    AdditionKeepsSafe(w, stored);
    CallKeepsSafe(w, Update(w.actor, WithFinalizers(stored.obj, stored.obj.finalizers + {FINALIZER}),
        Some(stored.version)));
  }

  // ----- Giving the finalizer up -----

  lemma {:induction false} UnmadeStays(a: World, b: World, c: Key, k: Key)
    requires Extends(a, b) && AllNew(a, b, IsDeletion) && UnmadeAt(a.store, c, k)
    ensures UnmadeAt(b.store, c, k)
  {
    var inv := (s: Store) => UnmadeAt(s, c, k);
    forall i | |a.log| <= i < |b.log| && inv(b.log[i].before)
      ensures inv(b.log[i].after)
    {
      var e := b.log[i];
      assert IsDeletion(e);
      if e.who.None? {
        ForeignKeepsUnmade(e, c, k);
      }
      hide Foreign;
    }
    hide Foreign, UnmadeAt, IsDeletion;
    Invariance(a, b, inv, |b.log| - |a.log|);
  }

  lemma {:induction false} DeletionKeepsSafe(e: Event)
    requires e.who.Some? && e.op.Delete? && e.op.key.kind != CustomResource && DeleteEffect(e, e.op.key)
    ensures KeepsSafe(e)
  {
    hide Polite;
  }

  /** A deletion that reports success leaves nothing that the controller made at its key. */
  lemma {:induction false} DeleteUnmakes(w: World, k: Key)
    requires IsBaseChild(k, w.actor) && Safe(w.store) && AllNew(w, DeleteIfPresent(w, k).0, Polite)
    ensures var (w1, o) := DeleteIfPresent(w, k);
      && AllNew(w, w1, IsDeletion) && AllNew(w, w1, SafeAround) && Safe(w1.store)
      && (o.Ok? ==> UnmadeAt(w1.store, w.actor, k))
  {
    hide Call, Awaited, Linked, Foreign, Polite;
    var w1 := Call(w, Delete(k)).0;
    var e := w1.log[|Awaited(w).log|];
    DeleteIsDeletion(w, k);
    CallEffect(w, Delete(k));
    assert IsDeletion(e);
    DeletionKeepsSafe(e);
    CallKeepsSafe(w, Delete(k));
    assert SafeAround(e);
  }

  lemma {:induction false} DeleteAllUnmakes(w: World, ks: seq<Key>)
    requires forall i :: 0 <= i < |ks| ==> IsBaseChild(ks[i], w.actor)
    requires Safe(w.store) && AllNew(w, DeleteAll(w, ks).0, Polite)
    ensures var (w', o) := DeleteAll(w, ks);
      && AllNew(w, w', IsDeletion) && AllNew(w, w', SafeAround) && Safe(w'.store)
      && (o.Ok? ==> forall i :: 0 <= i < |ks| ==> UnmadeAt(w'.store, w.actor, ks[i]))
    decreases |ks|
  {
    hide Linked, DeleteIfPresent, Polite, Safe, SafeAround, IsDeletion, UnmadeAt, IsBaseChild;
    if ks != [] {
      var (w1, o) := DeleteIfPresent(w, ks[0]);
      var w' := DeleteAll(w, ks).0;
      ExtendsReflexive(w1);
      AllNewWithin(w, w1, w', Polite);
      DeleteUnmakes(w, ks[0]);
      if o.Ok? {
        DeleteAllUnmakes(w1, ks[1..]);
        AllNewTransitive(w, w1, w', IsDeletion);
        AllNewTransitive(w, w1, w', SafeAround);
        UnmadeStays(w1, w', w.actor, ks[0]);
      }
    }
  }

  /** Once none of its children is left, the custom resource may go. */
  lemma {:induction false} StripKeepsSafe(w: World, stored: Stored)
    requires WellFormed(w) && stored.obj.body.CustomBody? && Pinned(w, w.actor, stored)
    requires forall k :: IsBaseChild(k, w.actor) ==> UnmadeAt(Awaited(w).store, w.actor, k)
    ensures var op := Update(w.actor, WithFinalizers(stored.obj, stored.obj.finalizers - {FINALIZER}),
        Some(stored.version));
      KeepsSafe(Call(w, op).0.log[|Awaited(w).log|])
  {
    FinalizersReplacePinned(w, w.actor, stored.obj.finalizers - {FINALIZER}, stored);
    hide Call, Awaited, Linked, Polite, Pinned;
  }

  lemma {:induction false} ForeignAreDeletions(w: World)
    ensures AllNew(w, Awaited(w), IsDeletion)
  {
    AwaitedForeign(w);
    ForeignIsDeletion();
    hide Foreign, Awaited, IsDeletion;
  }

  lemma {:induction false} ReleaseKeepsSafe(w: World, stored: Stored)
    requires WellFormed(w) && stored.obj.body.CustomBody? && Pinned(w, w.actor, stored)
    requires w.actor.kind == CustomResource && Safe(w.store) && AllNew(w, ReleaseService(w, stored).0, Polite)
    ensures AllNew(w, ReleaseService(w, stored).0, SafeAround) && Safe(ReleaseService(w, stored).0.store)
  {
    hide Linked, Safe, Polite, Call, Awaited, Pinned, KeepsSafe, SafeAround, DeleteAll, UnmadeAt, IsDeletion;
    var svc := ServiceOf(w.actor, stored);
    var ks := BaseChildren(svc);
    var (w1, o) := FinalizeService(w, svc);
    var w' := ReleaseService(w, stored).0;
    ExtendsReflexive(w1);
    AllNewWithin(w, w1, w', Polite);
    DeleteAllUnmakes(w, ks);
    PinnedStays(w, w1, w.actor, stored);
    if o.Ok? {
      forall k | IsBaseChild(k, w.actor)
        ensures UnmadeAt(Awaited(w1).store, w.actor, k)
      {
        assert k in ks;
        ForeignAreDeletions(w1);
        UnmadeStays(w1, Awaited(w1), w.actor, k);
      }
      StripKeepsSafe(w1, stored);
      CallKeepsSafe(w1, Update(w.actor, WithFinalizers(stored.obj, stored.obj.finalizers - {FINALIZER}),
          Some(stored.version)));
      AllNewTransitive(w, w1, w', SafeAround);
    }
  }

  // ----- Whole passes, whole runs -----

  lemma {:induction false} ReadKeepsSafe(w: World, k: Key)
    requires Safe(w.store) && AllNew(w, Call(w, Get(k)).0, Polite)
    ensures AllNew(w, Call(w, Get(k)).0, SafeAround) && Safe(Call(w, Get(k)).0.store)
  {
    FailureIsQuiet(w, Get(k));
    hide Call, Awaited, Linked, Safe, Polite;
    assert KeepsSafe(Call(w, Get(k)).0.log[|Awaited(w).log|]);
    CallKeepsSafe(w, Get(k));
  }

  lemma {:induction false} PassKeepsSafe(w: World)
    requires WellFormed(w) && w.actor.kind == CustomResource
    requires Safe(w.store) && AllNew(w, Reconcile(w).0, Polite)
    ensures AllNew(w, Reconcile(w).0, SafeAround) && Safe(Reconcile(w).0.store)
  {
    hide Linked, Safe, Polite, Call, Awaited, Pinned, SafeAround, ReconcileLive, ReleaseService, AddFinalizer;
    var (w1, read) := Call(w, Get(w.actor));
    var w' := Reconcile(w).0;
    ExtendsReflexive(w1);
    AllNewWithin(w, w1, w', Polite);
    ReadKeepsSafe(w, w.actor);
    GetPins(w, w.actor);
    if read.Got? && read.stored.obj.body.CustomBody? {
      var stored := read.stored;
      if stored.obj.deleting {
        if FINALIZER in stored.obj.finalizers {
          ReleaseKeepsSafe(w1, stored);
        }
      } else if FINALIZER !in stored.obj.finalizers {
        AddFinalizerKeepsSafe(w1, stored);
      } else {
        LiveKeepsSafe(w1, stored);
      }
      AllNewTransitive(w, w1, w', SafeAround);
    }
  }

  /**
   Over any run of passes: in every state before and after every request, what the controller made as
   the Deployment, base Service or Ingress of a custom resource exists only while that resource does, or
   is marked for deletion and held by a finalizer.
   */
  lemma {:induction false} ChildrenNeverOutlive(w: World, cs: seq<Key>)
    requires WellFormed(w) && Safe(w.store)
    requires forall i :: 0 <= i < |cs| ==> cs[i].kind == CustomResource
    requires AllNew(w, Run(w, cs), Polite)
    ensures AllNew(w, Run(w, cs), SafeAround) && Safe(Run(w, cs).store)
    decreases |cs|
  {
    hide Linked, Reconcile, Safe, Polite, SafeAround;
    if cs != [] {
      var w0, w1, w' := w.(actor := cs[0]), Pass(w, cs[0]), Run(w, cs);
      assert AllNew(w0, w1, Polite) by {
        assert forall i :: |w.log| <= i < |w1.log| ==> w1.log[i] == w'.log[i];
      }
      PassKeepsSafe(w0);
      ChildrenNeverOutlive(w1, cs[1..]);
      assert forall i :: |w.log| <= i < |w1.log| ==> w1.log[i] == w'.log[i];
    }
  }

  /** A base child without finalizers has its custom resource. */
  ghost predicate SafeUnheld(store: Store) {
    forall k :: k in store && store[k].maker.Some? && IsBaseChild(k, store[k].maker.value) ==>
      store[k].obj.finalizers == {} ==> Guarded(store, store[k].maker.value)
  }

  ghost predicate SafeUnheldAround(e: Event) {
    SafeUnheld(e.before) && SafeUnheld(e.after)
  }

  /** In particular, a child on which nobody has put a finalizer never outlives its resource. */
  lemma {:induction false} UnheldChildrenNeverOutlive(w: World, cs: seq<Key>)
    requires WellFormed(w) && Safe(w.store)
    requires forall i :: 0 <= i < |cs| ==> cs[i].kind == CustomResource
    requires AllNew(w, Run(w, cs), Polite)
    ensures AllNew(w, Run(w, cs), SafeUnheldAround)
  {
    ChildrenNeverOutlive(w, cs);
    hide Run, Guarded, IsBaseChild, Polite;
    forall i | |w.log| <= i < |Run(w, cs).log|
      ensures SafeUnheldAround(Run(w, cs).log[i])
    {
      assert SafeAround(Run(w, cs).log[i]);
    }
  }

  // ----- What a release leaves behind -----

  /** The NodePort Service of a custom resource is the one child it names itself that finalizing does not delete. */
  lemma {:induction false} ReleaseLeavesNodePortService(w: World, stored: Stored)
    requires WellFormed(w) && stored.obj.body.CustomBody? && Pinned(w, w.actor, stored)
    requires w.actor.kind == CustomResource
    requires AllNew(w, ReleaseService(w, stored).0, Spares(NetScope(ServiceOf(w.actor, stored))))
    ensures var svc := ServiceOf(w.actor, stored);
      SameAt(NetKey(svc, svc.name + NODEPORT_SUFFIX), w.store, ReleaseService(w, stored).0.store)
  {
    hide Linked, Call, Awaited, DeleteAll, Proper, OwnWrites, Pinned, Spares;
    var svc := ServiceOf(w.actor, stored);
    var k, keys, base := NetKey(svc, svc.name + NODEPORT_SUFFIX), NetScope(svc), set b | b in BaseChildren(svc);
    var (w1, o) := FinalizeService(w, svc);
    var w' := ReleaseService(w, stored).0;
    assert |svc.name + NODEPORT_SUFFIX| > |svc.name|;
    ExtendsReflexive(w1);
    SparedWithin(w, w1, w', keys);
    DeleteAllIsProper(w, BaseChildren(svc), base);
    UntouchedElsewhere(w, w1, base, keys, k);
    if o.Ok? {
      PinnedStays(w, w1, w.actor, stored);
      FinalizerWriteIsOwn(w1, stored, stored.obj.finalizers - {FINALIZER});
      OwnWritesElsewhere(w1, w', stored, keys, k);
    }
  }

  lemma {:induction false} OwnWritesElsewhere(a: World, b: World, stored: Stored, keys: set<Key>, k: Key)
    requires Extends(a, b) && AllNew(a, b, OwnWrites(a.actor, stored)) && AllNew(a, b, Spares(keys)) && k in keys
    requires k != a.actor
    ensures SameAt(k, a.store, b.store)
  {
    var inv := (s: Store) => SameAt(k, a.store, s);
    hide OwnWrite, Foreign;
    forall i | |a.log| <= i < |b.log| && inv(b.log[i].before)
      ensures inv(b.log[i].after)
    {
      var e := b.log[i];
      assert OwnWrites(a.actor, stored)(e) && Spares(keys)(e);
      if e.who.Some? {
        OwnWriteElsewhere(a.actor, stored, e, k);
      }
      assert SameAt(k, e.before, e.after);
    }
    hide Linked;
    Invariance(a, b, inv, |b.log| - |a.log|);
  }
}
