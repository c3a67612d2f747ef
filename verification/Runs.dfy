/** Invariants over whole passes and runs: what every kind of request preserves holds throughout. */
module Runs {
  import opened Text
  import opened Types
  import opened Builders
  import opened Cluster
  import opened ClusterLaws
  import opened Secrets
  import opened Trace
  import opened Runtime
  import opened Reconciler
  import opened PassLaws

  /** The resource type by which a database definition would render an object of this kind. */
  function TypeOf(kind: Kind): string {
    match kind
    case SecretKind => "v1/Secret"
    case NetKind => "v1/Service"
    case _ => ""
  }

  /** The event writes a rendered object that is `k` in the cluster, though it is handled unstructured. */
  predicate WritesRendered(e: Event, k: Key) {
    e.who.Some? && !e.op.Get? && e.op.key == Key(Untyped(TypeOf(k.kind)), k.namespace, k.name)
  }

  /** Other clients leave the object alone, and no database definition renders it. */
  ghost function Spared(k: Key): Event -> bool {
    (e: Event) => (e.who.None? ==> SameAt(k, e.before, e.after)) && !WritesRendered(e, k)
  }

  /** The same, and it stays there. */
  ghost function Undisturbed(k: Key): Event -> bool {
    (e: Event) => k in e.after && (e.who.None? ==> SameAt(k, e.before, e.after)) && !WritesRendered(e, k)
  }

  /** A property of the store is kept by the event. */
  ghost function Preserves(inv: Store -> bool): Event -> bool {
    (e: Event) => inv(e.before) ==> inv(e.after)
  }

  ghost function Around(inv: Store -> bool): Event -> bool {
    (e: Event) => inv(e.before) && inv(e.after)
  }

  lemma Preserved(a: World, b: World, inv: Store -> bool)
    requires Extends(a, b) && inv(a.store) && AllNew(a, b, Preserves(inv))
    ensures AllNew(a, b, Around(inv)) && inv(b.store)
  {
    forall i | |a.log| <= i < |b.log| && inv(b.log[i].before)
      ensures inv(b.log[i].after)
    {
      assert Preserves(inv)(b.log[i]);
    }
    Invariance(a, b, inv, |b.log| - |a.log|);
    hide Linked;
  }

  lemma UndisturbedWithin(a: World, b: World, c: World, k: Key)
    requires Extends(a, b) && Extends(b, c) && AllNew(a, c, Undisturbed(k))
    ensures AllNew(a, b, Undisturbed(k)) && AllNew(b, c, Undisturbed(k))
  {
    hide Linked, Undisturbed;
    assert forall i :: |a.log| <= i < |b.log| ==> c.log[i] == b.log[i];
  }

  lemma OwnWriteElsewhere(actor: Key, stored: Stored, e: Event, k: Key)
    requires OwnWrite(actor, stored, e) && k != actor
    ensures SameAt(k, e.before, e.after)
  {
    hide DesiredStatus;
  }

  /**
   A pass preserves what the requests for children and those of other clients preserve, if it is about
   another object than the resource.
   */
  lemma {:induction false} PassPreserves(w: World, k: Key, hypothesis: Event -> bool, inv: Store -> bool)
    requires WellFormed(w) && k != w.actor && AllNew(w, Reconcile(w).0, hypothesis)
    requires forall scope, e :: Standard(scope, e) && hypothesis(e) ==> Preserves(inv)(e)
    requires forall e :: Foreign(e) && hypothesis(e) ==> Preserves(inv)(e)
    requires forall s, t :: SameAt(k, s, t) && inv(s) ==> inv(t)
    ensures AllNew(w, Reconcile(w).0, Preserves(inv))
  {
    hide Linked, Call, Awaited, Pinned, ReconcileRead, Standard, OwnWrite, Foreign, PassScope, SameAt;
    var (w1, read) := ReadFirst(w);
    var w' := Reconcile(w).0;
    GetPins(w, w.actor);
    ProperRead(w, w.actor, {});
    if read.Got? && read.stored.obj.body.CustomBody? {
      ReadRequests(w1, read.stored);
    }
    forall i | |w.log| <= i < |w'.log|
      ensures Preserves(inv)(w'.log[i])
    {
      var e := w'.log[i];
      assert hypothesis(e);
      if i < |w1.log| {
        assert Proper({})(w1.log[i]) && w1.log[i] == e;
      } else {
        var scope := PassScope(w1, read.stored);
        assert PassRequests(w.actor, read.stored, scope)(e);
        if e.who.Some? && !Standard(scope, e) {
          OwnWriteElsewhere(w.actor, read.stored, e, k);
        }
      }
    }
  }

  /** So does any run of passes. */
  lemma {:induction false} RunPreserves(w: World, cs: seq<Key>, k: Key, hypothesis: Event -> bool, inv: Store -> bool)
    requires WellFormed(w) && inv(w.store) && AllNew(w, Run(w, cs), hypothesis)
    requires k.kind != CustomResource && forall i :: 0 <= i < |cs| ==> cs[i].kind == CustomResource
    requires forall scope, e :: Standard(scope, e) && hypothesis(e) ==> Preserves(inv)(e)
    requires forall e :: Foreign(e) && hypothesis(e) ==> Preserves(inv)(e)
    requires forall s, t :: SameAt(k, s, t) && inv(s) ==> inv(t)
    ensures AllNew(w, Run(w, cs), Around(inv)) && inv(Run(w, cs).store)
    decreases |cs|
  {
    hide Linked, Reconcile, Standard, Foreign, SameAt, Preserves, Around;
    if cs != [] {
      var w0, w1, w' := w.(actor := cs[0]), Pass(w, cs[0]), Run(w, cs);
      assert forall i :: |w.log| <= i < |w1.log| ==> w1.log[i] == w'.log[i];
      assert AllNew(w0, w1, hypothesis);
      PassPreserves(w0, k, hypothesis, inv);
      Preserved(w0, w1, inv);
      RunPreserves(w1, cs[1..], k, hypothesis, inv);
    }
  }
}
