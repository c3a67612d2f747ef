/** What it means when a pass writes "Ready": the spec it was written for, and what has been done for it. */
module Ready {
  import opened Text
  import opened Types
  import opened Builders
  import opened Cluster
  import opened ClusterLaws
  import opened Secrets
  import opened Trace
  import opened Runtime
  import opened Reconciler
  import opened PassLaws
  import opened ServiceExactness

  predicate IsStatusWrite(e: Event) {
    e.who.Some? && e.op.UpdateStatus? && e.reply.Got?
  }

  predicate NoStatusWrite(e: Event) {
    !IsStatusWrite(e)
  }

  /**
   A status write of the pass replaces the very version the pass has read, after every child of that
   version's spec was reconciled without error; it publishes the URLs of that spec, which were not published
   yet, and changes nothing else.
   */
  ghost predicate Truthful(w: World, e: Event) {
    IsStatusWrite(e) ==>
      var (w1, read) := ReadFirst(w);
      && read.Got? && read.stored.obj.body.CustomBody?
      && ReconcileChildren(w1, ServiceOf(w.actor, read.stored)).1 == Ok
      && w.actor in e.before && e.before[w.actor] == read.stored
      && e.after == e.before[w.actor := e.reply.stored]
      && !Publishes(read.stored.obj.body.status, read.stored.obj.body.spec)
      && NowPublishes(read.stored.obj, e.reply.stored.obj)
  }

  /** The same resource, but for a status that publishes the URLs of its spec. */
  predicate NowPublishes(was: Object, now: Object)
    requires was.body.CustomBody?
  {
    && now.body.CustomBody? && Publishes(now.body.status, was.body.spec)
    && now == was.(body := was.body.(status := now.body.status))
  }

  ghost function Truthfulness(w: World): Event -> bool {
    (e: Event) => Truthful(w, e)
  }

  lemma ForeignWritesNoStatus()
    ensures forall e :: Foreign(e) ==> NoStatusWrite(e)
  {}

  lemma CallWritesNoStatus(w: World, op: Op)
    requires !op.UpdateStatus?
    ensures AllNew(w, Call(w, op).0, NoStatusWrite)
  {
    ForeignWritesNoStatus();
    hide Call, Awaited, Foreign;
    CallIs(w, op, NoStatusWrite);
  }

  lemma RequestsWriteNoStatus(a: World, b: World, scope: set<Key>)
    requires AllNew(a, b, Proper(scope))
    ensures AllNew(a, b, NoStatusWrite)
  {
    forall i | |a.log| <= i < |b.log|
      ensures NoStatusWrite(b.log[i])
    {
      assert Proper(scope)(b.log[i]);
    }
  }

  lemma {:induction false} ReleaseWritesNoStatus(w: World, stored: Stored)
    requires stored.obj.body.CustomBody?
    ensures AllNew(w, ReleaseService(w, stored).0, NoStatusWrite)
  {
    hide Linked, Call, DeleteAll, Proper, NoStatusWrite;
    var svc := ServiceOf(w.actor, stored);
    var scope := set k | k in BaseChildren(svc);
    var (w1, o) := FinalizeService(w, svc);
    DeleteAllIsProper(w, BaseChildren(svc), scope);
    RequestsWriteNoStatus(w, w1, scope);
    if o.Ok? {
      CallWritesNoStatus(w1, Update(w.actor, WithFinalizers(stored.obj, stored.obj.finalizers - {FINALIZER}),
          Some(stored.version)));
      AllNewTransitive(w, w1, ReleaseService(w, stored).0, NoStatusWrite);
    }
  }

  lemma QuietIsTruthful(w: World, a: World, b: World)
    requires AllNew(a, b, NoStatusWrite)
    ensures AllNew(a, b, Truthfulness(w))
  {
    hide Truthful, IsStatusWrite;
    forall i | |a.log| <= i < |b.log|
      ensures Truthful(w, b.log[i])
    {
      assert NoStatusWrite(b.log[i]);
      NoWriteIsTruthful(w, b.log[i]);
    }
  }

  lemma NoWriteIsTruthful(w: World, e: Event)
    requires NoStatusWrite(e)
    ensures Truthful(w, e)
  {}

  lemma {:induction false} StatusIsTruthful(w: World, w2: World, stored: Stored)
    requires var (w1, read) := ReadFirst(w);
      && read == Got(stored) && stored.obj.body.CustomBody?
      && ReconcileChildren(w1, ServiceOf(w.actor, stored)) == (w2, Ok)
      && stored.obj.body.status != DesiredStatus(stored.obj.body.spec)
    requires Pinned(w2, w.actor, stored) && w2.actor == w.actor
    ensures AllNew(w2, Call(w2, UpdateStatus(w.actor, DesiredStatus(stored.obj.body.spec), Some(stored.version))).0,
        Truthfulness(w))
  {
    hide Call, Awaited, Foreign, ReconcileChildren, DesiredStatus, Linked, Pinned, Publishes;
    var status := DesiredStatus(stored.obj.body.spec);
    StatusPublishes(stored.obj.body.spec, status);
    StatusPublishes(stored.obj.body.spec, stored.obj.body.status);
    var op := UpdateStatus(w.actor, status, Some(stored.version));
    StatusReplacesPinned(w2, w.actor, status, stored);
    assert Truthful(w, Call(w2, op).0.log[|Awaited(w2).log|]);
    ForeignWritesNoStatus();
    forall e | Foreign(e)
      ensures Truthful(w, e)
    {
      assert NoStatusWrite(e);
    }
    CallIs(w2, op, Truthfulness(w));
  }

  lemma {:induction false} LiveIsTruthful(w: World, w1: World, stored: Stored)
    requires WellFormed(w1) && ReadFirst(w) == (w1, Got(stored)) && stored.obj.body.CustomBody?
    requires Pinned(w1, w.actor, stored) && w1.actor == w.actor
    ensures AllNew(w1, ReconcileLive(w1, stored).0, Truthfulness(w))
  {
    hide Linked, Call, Proper, ReconcileChildren, DesiredStatus, Pinned, Truthfulness, ChildScope, ReadFirst;
    var svc := ServiceOf(w.actor, stored);
    var (w2, o) := ReconcileChildren(w1, svc);
    ChildrenAreProper(w1, svc);
    RequestsWriteNoStatus(w1, w2, ChildScope(w1, svc));
    QuietIsTruthful(w, w1, w2);
    PinnedStays(w1, w2, w.actor, stored);
    var w' := ReconcileLive(w1, stored).0;
    if o.Ok? && w' != w2 {
      StatusIsTruthful(w, w2, stored);
      AllNewTransitive(w1, w2, w', Truthfulness(w));
    }
  }

  /** Whatever others do during the pass, "Ready" is only ever written truthfully. */
  lemma {:induction false} ReadyIsTruthful(w: World)
    requires WellFormed(w)
    ensures AllNew(w, Reconcile(w).0, Truthfulness(w))
  {
    hide Linked, Call, Pinned, Truthfulness, ReconcileLive, ReleaseService, AddFinalizer;
    var (w1, read) := ReadFirst(w);
    var w' := Reconcile(w).0;
    CallWritesNoStatus(w, Get(w.actor));
    QuietIsTruthful(w, w, w1);
    GetPins(w, w.actor);
    if read.Got? && read.stored.obj.body.CustomBody? {
      var stored := read.stored;
      if stored.obj.deleting {
        if FINALIZER in stored.obj.finalizers {
          ReleaseWritesNoStatus(w1, stored);
          QuietIsTruthful(w, w1, w');
        }
      } else if FINALIZER !in stored.obj.finalizers {
        AdditionWritesNoStatus(w1, stored);
        QuietIsTruthful(w, w1, w');
      } else {
        LiveIsTruthful(w, w1, stored);
      }
      AllNewTransitive(w, w1, w', Truthfulness(w));
    }
  }

  lemma AdditionWritesNoStatus(w: World, stored: Stored)
    ensures AllNew(w, AddFinalizer(w, stored).0, NoStatusWrite)
  {
    hide Linked, Call, NoStatusWrite;
    CallWritesNoStatus(w, Update(w.actor, WithFinalizers(stored.obj, stored.obj.finalizers + {FINALIZER}),
        Some(stored.version)));
  }

  /** A resource that is not being deleted and has the controller's finalizer. */
  predicate IsLive(read: Reply) {
    read.Got? && !read.stored.obj.deleting && FINALIZER in read.stored.obj.finalizers
  }

  /** A live pass without error has read the status as published, or has just published it. */
  lemma {:induction false} SuccessWritesReady(w: World)
    requires WellFormed(w)
    ensures var (w1, read) := ReadFirst(w);
      var (w', o) := Reconcile(w);
      IsLive(read) && o.Ok? ==>
        && read.stored.obj.body.CustomBody?
        && (|| Publishes(read.stored.obj.body.status, read.stored.obj.body.spec)
            || (w.actor in w'.store && NowPublishes(read.stored.obj, w'.store[w.actor].obj)))
  {
    hide Linked, Awaited, Pinned, ReconcileChildren, DesiredStatus, Publishes;
    var (w1, read) := ReadFirst(w);
    GetPins(w, w.actor);
    if read.Got? && read.stored.obj.body.CustomBody? {
      var stored := read.stored;
      var (w2, o) := ReconcileChildren(w1, ServiceOf(w.actor, stored));
      PinnedStays(w1, w2, w.actor, stored);
      StatusReplacesPinned(w2, w.actor, DesiredStatus(stored.obj.body.spec), stored);
      StatusPublishes(stored.obj.body.spec, stored.obj.body.status);
      StatusPublishes(stored.obj.body.spec, DesiredStatus(stored.obj.body.spec));
      hide Call;
    }
  }

  /**
   No child request writes the resource itself, so without interference it is as it was read when the
   children are done.
   */
  lemma ResourceIsUntouched(w: World, svc: Service)
    requires WellFormed(w) && w.actor.kind == CustomResource
    requires AllNew(w, ReconcileChildren(w, svc).0, Spares({w.actor}))
    ensures SameAt(w.actor, w.store, ReconcileChildren(w, svc).0.store)
  {
    ChildrenAreProper(w, svc);
    ScopeHasNoResource(w, svc);
    hide ReconcileChildren, Proper, Spares, ChildScope, Linked;
    UntouchedElsewhere(w, ReconcileChildren(w, svc).0, ChildScope(w, svc), {w.actor}, w.actor);
  }

  lemma ScopeHasNoResource(w: World, svc: Service)
    ensures forall k :: k in ChildScope(w, svc) ==> k.kind != CustomResource
  {}

  /**
   A live pass without error ends with the published status: the very version that was read, or its
   replacement, is stored with the status of its own spec, while nobody else writes the resource.
   */
  lemma {:induction false} SuccessMeansReady(w: World)
    requires WellFormed(w) && w.actor.kind == CustomResource && AllNew(w, Reconcile(w).0, Spares({w.actor}))
    ensures var (w1, read) := ReadFirst(w);
      var (w', o) := Reconcile(w);
      IsLive(read) && o.Ok? ==>
        && read.stored.obj.body.CustomBody? && w.actor in w'.store
        && NowPublishes(read.stored.obj, w'.store[w.actor].obj)
  {
    SuccessWritesReady(w);
    hide Linked, Call, Awaited, Pinned, ReconcileChildren, DesiredStatus, Spares, SameAt, IsLive, Publishes;
    var (w1, read) := ReadFirst(w);
    var (w', o) := Reconcile(w);
    GetPins(w, w.actor);
    if IsLive(read) && o.Ok? {
      var svc := ServiceOf(w.actor, read.stored);
      LiveRead(w);
      StatusPublishes(read.stored.obj.body.spec, read.stored.obj.body.status);
      var (w2, o2) := ReconcileChildren(w1, svc);
      ExtendsReflexive(w2);
      if w' != w2 {
        ExtendsTransitive(w1, w2, w');
      }
      SparedWithin(w, w1, w', {w.actor});
      SparedWithin(w1, w2, w', {w.actor});
      ResourceIsUntouched(w1, svc);
      StaysAsRead(w1, w2, read.stored);
    }
  }

  /** What a successful live pass comes down to. */
  lemma LiveRead(w: World)
    ensures var (w1, read) := ReadFirst(w);
      IsLive(read) && Reconcile(w).1.Ok? ==>
        && read.stored.obj.body.CustomBody?
        && var (w2, o) := ReconcileChildren(w1, ServiceOf(w.actor, read.stored));
           o.Ok? && Reconcile(w) == WriteStatus(w2, read.stored)
  {
    hide Linked, Call, ReconcileChildren, WriteStatus;
  }

  lemma StaysAsRead(a: World, b: World, stored: Stored)
    requires SameAt(a.actor, a.store, b.store) && a.actor in a.store && a.store[a.actor] == stored
    ensures a.actor in b.store && b.store[a.actor] == stored
  {}
}
