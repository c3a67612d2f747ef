/**
 What every request of the controller has in common, whatever other clients and the network do: it
 keeps to its keys, replaces exactly the version it read, and preserves what others rely on.
 */
module Trace {
  import opened Text
  import opened Types
  import opened Trees
  import opened Builders
  import opened Cluster
  import opened ClusterLaws
  import opened Retry
  import opened RetryLaws
  import opened Secrets
  import opened Credentials

  /**
   A creation put a new object where nothing was, marked with its maker; it has no finalizers, but for
   those that the rendering of an unstructured object states.
   */
  ghost predicate CreateEffect(e: Event, k: Key) {
    && (e.reply.Failed? ==> e.after == e.before)
    && (e.reply.Got? ==>
          && k !in e.before && e.after == e.before[k := e.reply.stored]
          && e.reply.stored.maker == e.who
          && (k.kind.Untyped? || e.reply.stored.obj.finalizers == {})
          && (k.kind == SecretKind ==> Consistent(Readable(e.reply.stored))))
  }

  /** What an update leaves at its key: the new object, unless that completes a pending deletion. */
  ghost predicate Replaces(e: Event, k: Key)
    requires k in e.before && e.reply.Got?
  {
    e.after == if e.before[k].obj.deleting && e.reply.stored.obj.finalizers == {} then e.before - {k}
               else e.before[k := e.reply.stored]
  }

  /**
   An update replaced one object by another that others can still rely on. Finalizers stay, but for
   those of an unstructured object, whose metadata is the rendering's from then on.
   */
  ghost predicate UpdateEffect(e: Event, k: Key) {
    && (e.reply.Failed? ==> e.after == e.before)
    && (e.reply.Got? ==>
          && k in e.before
          && (if k.kind.Untyped? then Replaces(e, k)
              else e.after == e.before[k := e.reply.stored]
                   && e.reply.stored.obj.finalizers == e.before[k].obj.finalizers)
          && e.reply.stored.maker == e.before[k].maker
          && e.reply.stored.obj.deleting == e.before[k].obj.deleting
          && KeepsAddress(e.before[k].obj.body, e.reply.stored.obj.body)
          && (k.kind == SecretKind ==> Improves(Readable(e.before[k]), Readable(e.reply.stored))))
  }

  /** A deletion removed the object, or marked it when finalizers hold it back. */
  ghost predicate DeleteEffect(e: Event, k: Key) {
    || e.after == e.before
    || (k in e.before && e.before[k].obj.finalizers == {} && e.after == e.before - {k})
    || (k in e.before && e.before[k].obj.finalizers != {} && e.reply.Got?
        && e.after ==
              e.before[k := Stored(e.before[k].obj.(deleting := true), e.reply.stored.version, e.before[k].maker)])
  }

  /** The kinds of which the controller ever deletes an object. */
  predicate IsDeletable(kind: Kind) {
    kind.DeploymentKind? || kind.NetKind? || kind.IngressKind? || kind.JobKind?
  }

  /** A request of the controller for its children, on the keys of `scope`. */
  ghost predicate Standard(scope: set<Key>, e: Event) {
    match e.op
    case Get(_) => e.after == e.before
    case Create(k, _) => k in scope && k.kind != CustomResource && CreateEffect(e, k)
    case Update(k, _, _) => k in scope && k.kind != CustomResource && UpdateEffect(e, k)
    case Delete(k) => k in scope && IsDeletable(k.kind) && DeleteEffect(e, k)
    case UpdateStatus(_, _, _) => false
  }

  ghost function Proper(scope: set<Key>): Event -> bool {
    (e: Event) => if e.who.Some? then Standard(scope, e) else Foreign(e)
  }

  lemma ProperAllowsForeign(scope: set<Key>)
    ensures forall e :: Foreign(e) ==> Proper(scope)(e)
  {}

  lemma ProperWidens(a: World, b: World, small: set<Key>, large: set<Key>)
    requires small <= large && AllNew(a, b, Proper(small))
    ensures AllNew(a, b, Proper(large))
  {
    hide Foreign, CreateEffect, UpdateEffect, DeleteEffect;
    forall i | |a.log| <= i < |b.log|
      ensures Proper(large)(b.log[i])
    {
      assert Proper(small)(b.log[i]);
    }
  }

  // ----- Single calls -----

  lemma ProperRead(w: World, k: Key, scope: set<Key>)
    ensures AllNew(w, Call(w, Get(k)).0, Proper(scope))
  {
    FailureIsQuiet(w, Get(k));
    ProperAllowsForeign(scope);
    hide Call, Awaited, Foreign;
    CallIs(w, Get(k), Proper(scope));
  }

  lemma ProperDelete(w: World, k: Key, scope: set<Key>)
    requires k in scope && IsDeletable(k.kind)
    ensures AllNew(w, Call(w, Delete(k)).0, Proper(scope))
  {
    CallEffect(w, Delete(k));
    ProperAllowsForeign(scope);
    hide Call, Awaited, Foreign;
    CallIs(w, Delete(k), Proper(scope));
  }

  lemma ProperCreate(w: World, k: Key, obj: Object, scope: set<Key>)
    requires k in scope && k.kind != CustomResource && (k.kind.Untyped? || obj.finalizers == {})
    requires k.kind == SecretKind ==> obj.body.SecretBody? && obj.body.data.Some? && Consistent(obj.body.data.value)
    ensures AllNew(w, Call(w, Create(k, obj)).0, Proper(scope))
  {
    FailureIsQuiet(w, Create(k, obj));
    CreateAddsFresh(w, k, obj);
    ProperAllowsForeign(scope);
    hide Call, Awaited, Foreign, Consistent;
    CallIs(w, Create(k, obj), Proper(scope));
  }

  lemma {:induction false} UpdateEffectHolds(w: World, k: Key, obj: Object, s: Stored)
    requires WellFormed(w) && Pinned(w, k, s)
    requires k.kind != NetKind && (k.kind.Untyped? || obj.finalizers == s.obj.finalizers) && Fits(k.kind, s.obj.body)
    requires k.kind == SecretKind ==>
      obj.body.SecretBody? && Improves(Readable(s), match obj.body.data case Some(d) => d case None => map[])
    ensures UpdateEffect(Call(w, Update(k, obj, Some(s.version))).0.log[|Awaited(w).log|], k)
  {
    hide Linked, Call, Awaited, Improves, Pinned, Admit, FinalizersIn, ControllerIn;
    var op := Update(k, obj, Some(s.version));
    var e := Call(w, op).0.log[|Awaited(w).log|];
    FailureIsQuiet(w, op);
    if k.kind.Untyped? {
      UntypedReplacesPinned(w, k, obj, s);
      return;
    }
    UpdateReplacesPinned(w, k, obj, s);
    var grant := w.setting.env(w.clock, w.store).grant;
    if e.reply.Got? && k.kind == SecretKind {
      assert Admit(w.setting.defaults, grant, obj.body) ==
          obj.body by { SecretsAreAdmittedAsTheyAre(w.setting.defaults, grant, obj.body); }
    }
  }

  lemma SecretsAreAdmittedAsTheyAre(defaults: Defaults, grant: Grant, body: Body)
    requires body.SecretBody?
    ensures Admit(defaults, grant, body) == body
  {}

  lemma ProperUpdate(w: World, k: Key, obj: Object, s: Stored, scope: set<Key>)
    requires WellFormed(w) && Pinned(w, k, s)
    requires k in scope && k.kind != CustomResource && k.kind != NetKind
    requires k.kind.Untyped? || obj.finalizers == s.obj.finalizers
    requires k.kind == SecretKind ==>
      obj.body.SecretBody? && Improves(Readable(s), match obj.body.data case Some(d) => d case None => map[])
    requires Fits(k.kind, s.obj.body)
    ensures AllNew(w, Call(w, Update(k, obj, Some(s.version))).0, Proper(scope))
  {
    var op := Update(k, obj, Some(s.version));
    UpdateEffectHolds(w, k, obj, s);
    ProperAllowsForeign(scope);
    hide Linked, Call, Awaited, Foreign, UpdateEffect;
    CallIs(w, op, Proper(scope));
  }

  // ----- The retry loop -----

  lemma DisciplineIsStandard(defaults: Defaults, t: Task, e: Event)
    requires Disciplined(defaults, t, e)
    ensures Standard({KeyOf(t)}, e)
  {
    hide Agrees, KeepsAddress;
  }

  lemma {:induction false} ProperEnsure(w: World, t: Task)
    requires WellFormed(w)
    ensures AllNew(w, Ensure(w, t).0, Proper({KeyOf(t)}))
  {
    NoLostUpdate(w, t, 0, 1);
    hide RetryLoop, Disciplined, Standard, Foreign;
    var w' := Ensure(w, t).0;
    forall i | |w.log| <= i < |w'.log|
      ensures Proper({KeyOf(t)})(w'.log[i])
    {
      assert Discipline(w.setting.defaults, t)(w'.log[i]);
      if w'.log[i].who.Some? {
        DisciplineIsStandard(w.setting.defaults, t, w'.log[i]);
      }
    }
  }
}
