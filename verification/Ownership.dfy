/**
 Who holds and who owns an unstructured object: an update writes the metadata of the rendering, so
 finalizers and controllers that only the stored object has are lost.
 */
module Ownership {
  import opened Text
  import opened Types
  import opened Trees
  import opened TreeLaws
  import opened Cluster
  import opened ClusterLaws
  import opened Retry
  import opened Secrets
  import opened Trace
  import opened Operator
  import opened Runtime
  import opened RuntimeLaws
  import opened FixedPoints

  // ----- Owner references -----

  /** The first reference to the custom resource is there, and is the one the controller writes. */
  predicate Lists(owners: seq<Json>, svc: Service) {
    owners != [] && if RefersTo(owners[0], svc) then owners[0] == OwnerTree(svc) else Lists(owners[1..], svc)
  }

  predicate StatesOwner(content: Fields, svc: Service) {
    Lists(OwnersIn(content), svc)
  }

  lemma {:induction false} UpsertLists(owners: seq<Json>, svc: Service)
    requires forall x :: x in owners ==> x.Tree?
    ensures Lists(Upsert(owners, svc), svc) && forall x :: x in Upsert(owners, svc) ==> x.Tree?
    ensures Upsert(owners, svc) == owners <==> Lists(owners, svc)
    decreases |owners|
  {
    if owners != [] && !RefersTo(owners[0], svc) {
      UpsertLists(owners[1..], svc);
      assert Upsert(owners, svc)[1..] == Upsert(owners[1..], svc);
    } else if owners != [] {
      assert owners == [owners[0]] + owners[1..];
    }
  }

  /** Where no other controller is marked, the custom resource is the controller afterwards. */
  lemma {:induction false} UpsertControls(owners: seq<Json>, svc: Service)
    requires forall x :: x in owners ==> x.Tree?
    ensures MayOwn(svc, FirstController(owners)) ==> FirstController(Upsert(owners, svc)) == Some(OwnerOf(svc))
    decreases |owners|
  {
    if owners != [] && !RefersTo(owners[0], svc) {
      UpsertControls(owners[1..], svc);
      assert Upsert(owners, svc)[1..] == Upsert(owners[1..], svc);
    }
  }

  // ----- What the trees state -----

  lemma OwnedStates(content: Fields, svc: Service)
    ensures var owned := WithOwner(content, svc);
      && FinalizersIn(owned) == FinalizersIn(content) && StatesOwner(owned, svc)
      && (StatesOwner(content, svc) <==> owned == content)
      && (MayOwn(svc, ControllerIn(content)) ==> ControllerIn(owned) == Some(OwnerOf(svc)))
  {
    var owners, owned := OwnersIn(content), WithOwner(content, svc);
    UpsertLists(owners, svc);
    UpsertControls(owners, svc);
    assert FINALIZERS != OWNER_REFERENCES;
    assert OwnersIn(owned) == Upsert(owners, svc);
    hide Lists, Upsert, FirstController;
    if StatesOwner(content, svc) {
      assert owners != [] by { NothingIsNotListed(svc); }
      var metadata := content[METADATA].fields;
      assert metadata[OWNER_REFERENCES := Array(owners)] == metadata;
    }
  }

  lemma NothingIsNotListed(svc: Service)
    ensures !Lists([], svc)
  {}

  /** An update states what the rendering states. */
  lemma UpdateStates(existing: Fields, content: Fields)
    ensures var updated := UpdatedUnstructured(existing, content);
      FinalizersIn(updated) == FinalizersIn(content) && OwnersIn(updated) == OwnersIn(content)
  {
    assert FINALIZERS !in MANAGED && OWNER_REFERENCES !in MANAGED;
    assert STATUS != METADATA && SPEC != METADATA;
  }

  /** The comparison sees finalizers, owners and a pending deletion. */
  lemma ComparisonSees(a: Fields, b: Fields, k: string)
    requires Compared(a) == Compared(b) && k !in MANAGED
    ensures k in MetadataOf(a) <==> k in MetadataOf(b)
    ensures k in MetadataOf(a) ==> MetadataOf(a)[k] == MetadataOf(b)[k]
  {
    ComparedAt(a, METADATA);
    ComparedAt(b, METADATA);
    hide Compared;
    if HasTree(a, METADATA) {
      ManagedAside(a[METADATA].fields, k);
      ManagedAside(b[METADATA].fields, k);
    }
  }

  lemma ManagedAside(metadata: Fields, k: string)
    requires k !in MANAGED
    ensures k in WithoutManaged(metadata) <==> k in metadata
    ensures k in metadata ==> WithoutManaged(metadata)[k] == metadata[k]
  {}

  lemma ComparedStates(a: Fields, b: Fields)
    requires Compared(a) == Compared(b)
    ensures FinalizersIn(a) == FinalizersIn(b) && OwnersIn(a) == OwnersIn(b)
  {
    assert FINALIZERS !in MANAGED && OWNER_REFERENCES !in MANAGED;
    ComparisonSees(a, b, FINALIZERS);
    ComparisonSees(a, b, OWNER_REFERENCES);
    hide Compared, MetadataOf;
  }

  lemma SeenStates(obj: Object)
    requires obj.body.UntypedBody?
    ensures FinalizersIn(SeenContent(obj)) == FinalizersIn(obj.body.content)
    ensures OwnersIn(SeenContent(obj)) == OwnersIn(obj.body.content)
  {
    assert FINALIZERS != DELETION_TIME && OWNER_REFERENCES != DELETION_TIME;
  }

  // ----- What is written -----

  function AddressIn(content: Fields): Json {
    if HasAddress(content) then content["spec"].fields["clusterIP"] else Null
  }

  /** The server's defaulting leaves finalizers, owners and a cluster address alone. */
  ghost predicate KeepsStated(defaults: Defaults) {
    forall c :: FinalizersIn(defaults.untyped(c)) == FinalizersIn(c)
             && ControllerIn(defaults.untyped(c)) == ControllerIn(c)
             && (HasAddress(c) ==> AddressIn(defaults.untyped(c)) == AddressIn(c))
  }

  /** The tree that is written over a stored object. */
  function OwnedUpdate(existing: Fields, content: Fields, svc: Service): Fields {
    WithOwner(UpdatedUnstructured(existing, content), svc)
  }

  lemma WrittenStates(existing: Fields, content: Fields, svc: Service)
    ensures var written := OwnedUpdate(existing, content, svc);
      && FinalizersIn(written) == FinalizersIn(content)
      && (ControllerIn(UpdatedUnstructured(existing, content)) == ControllerIn(content))
      && (MayOwn(svc, ControllerIn(content)) ==> ControllerIn(written) == Some(OwnerOf(svc)))
  {
    UpdateStates(existing, content);
    OwnedStates(UpdatedUnstructured(existing, content), svc);
  }

  /**
   A request for an unstructured object: what is written has the finalizers of the rendering, whatever
   is stored, and the custom resource as its controller; no other controller is stated by the rendering.
   A Service keeps its cluster address; apart from that its spec is the rendering's. What is stored is what
   was written, and the object is gone if that completes its deletion.
   */
  ghost predicate AsRendered(defaults: Defaults, svc: Service, content: Fields, e: Event) {
    match e.op
    case Get(_) => e.after == e.before
    case Create(k, obj) => StatesRendering(svc, content, obj) && StoresStated(defaults, obj, e)
    case Update(k, obj, _) =>
      && StatesRendering(svc, content, obj) && StoresStated(defaults, obj, e)
      && (e.reply.Got? ==>
            && k in e.before && Replaces(e, k)
            && WritesAddress(content, e.before[k].obj.body, obj.body)
            && (KeepsStated(defaults) ==> StaysAt(content, e.before[k].obj.body, e.reply.stored.obj.body)))
    case _ => false
  }

  predicate WritesAddress(content: Fields, was: Body, written: Body) {
    was.UntypedBody? && written.UntypedBody? && CarriesAddress(was.content, content, written.content)
  }

  /** A Service stays where it is. */
  predicate StaysAt(content: Fields, was: Body, now: Body) {
    RendersService(content) && was.UntypedBody? && HasAddress(was.content) ==>
      now.UntypedBody? && AddressIn(now.content) == AddressIn(was.content)
  }

  predicate StatesRendering(svc: Service, content: Fields, obj: Object) {
    obj.finalizers == FinalizersIn(content) && obj.controller == Some(OwnerOf(svc))
        && MayOwn(svc, ControllerIn(content))
  }

  ghost predicate StoresStated(defaults: Defaults, obj: Object, e: Event) {
    e.reply.Got? && KeepsStated(defaults) ==>
      e.reply.stored.obj.finalizers == obj.finalizers && e.reply.stored.obj.controller == obj.controller
  }

  ghost function Rendering(defaults: Defaults, svc: Service, content: Fields): Event -> bool {
    (e: Event) => if e.who.Some? then AsRendered(defaults, svc, content, e) else Foreign(e)
  }

  lemma ForeignIsRendering(defaults: Defaults, svc: Service, content: Fields)
    ensures forall e :: Foreign(e) ==> Rendering(defaults, svc, content)(e)
  {}

  lemma StatedIsStored(defaults: Defaults, obj: Object, was: Object, e: Event)
    requires obj.body.UntypedBody? && obj == AsStated(obj)
    requires e.reply.Got? ==>
      e.reply.stored.obj == AsStated(was.(body := UntypedBody(defaults.untyped(obj.body.content))))
    ensures StoresStated(defaults, obj, e)
  {
    hide FinalizersIn, ControllerIn;
  }

  lemma WritesStateRendering(existing: Object, content: Fields, svc: Service)
    requires MayOwn(svc, ControllerIn(content))
    ensures StatesRendering(svc, content, NewUntyped(WithOwner(content, svc)))
    ensures StatesRendering(svc, content,
        AsStated(existing.(body := UntypedBody(OwnedUpdate(SeenContent(existing), content, svc)))))
  {
    OwnedStates(content, svc);
    WrittenStates(SeenContent(existing), content, svc);
    hide OwnedUpdate, WithOwner, FinalizersIn, ControllerIn, SeenContent;
  }

  lemma AddressIsWritten(existing: Object, content: Fields, svc: Service)
    requires existing.body.UntypedBody?
    ensures WritesAddress(content, existing.body, UntypedBody(OwnedUpdate(SeenContent(existing), content, svc)))
  {
    UpdateCarriesAddress(SeenContent(existing), content);
    hide UpdatedUnstructured, Upsert, OwnersIn;
  }

  lemma AddressIsStored(defaults: Defaults, content: Fields, was: Body, written: Body, now: Body)
    requires WritesAddress(content, was, written) && KeepsStated(defaults)
    requires now == UntypedBody(defaults.untyped(written.content))
    ensures StaysAt(content, was, now)
  {
    hide FinalizersIn, ControllerIn;
  }

  lemma CreationIsAsRendered(w: World, svc: Service, k: Key, content: Fields)
    requires k.kind.Untyped? && MayOwn(svc, ControllerIn(content))
    ensures AllNew(w, Call(w, Create(k, NewUntyped(WithOwner(content, svc)))).0,
        Rendering(w.setting.defaults, svc, content))
  {
    hide Linked, Call, Awaited, Foreign, WithOwner, FinalizersIn, ControllerIn, MayOwn, Admit, StoresStated,
      StatesRendering;
    var d, obj := w.setting.defaults, NewUntyped(WithOwner(content, svc));
    var op := Create(k, obj);
    WritesStateRendering(obj, content, svc);
    CreateAddsFresh(w, k, obj);
    StatedIsStored(d, obj, obj.(deleting := false, uid := Awaited(w).next), Call(w, op).0.log[|Awaited(w).log|]);
    ForeignIsRendering(d, svc, content);
    CallIs(w, op, Rendering(d, svc, content));
  }

  lemma UpdateIsAsRendered(w: World, svc: Service, k: Key, content: Fields, s: Stored)
    requires WellFormed(w) && Pinned(w, k, s) && k.kind.Untyped? && MayOwn(svc, ControllerIn(content))
    requires Fits(k.kind, s.obj.body)
    ensures var obj := AsStated(s.obj.(body := UntypedBody(OwnedUpdate(SeenContent(s.obj), content, svc))));
      AllNew(w, Call(w, Update(k, obj, Some(s.version))).0, Rendering(w.setting.defaults, svc, content))
  {
    hide Linked, Call, Awaited, Foreign, OwnedUpdate, FinalizersIn, ControllerIn, SeenContent, Pinned, StoreFits,
      StoresStated, StatesRendering, MayOwn, KeepsStated, StaysAt, WritesAddress;
    var d := w.setting.defaults;
    var obj := AsStated(s.obj.(body := UntypedBody(OwnedUpdate(SeenContent(s.obj), content, svc))));
    var op := Update(k, obj, Some(s.version));
    WritesStateRendering(s.obj, content, svc);
    UntypedReplacesPinned(w, k, obj, s);
    var e := Call(w, op).0.log[|Awaited(w).log|];
    StatedIsStored(d, obj, obj.(deleting := s.obj.deleting, uid := s.obj.uid), e);
    AddressIsWritten(s.obj, content, svc);
    if e.reply.Got? && KeepsStated(d) {
      AddressIsStored(d, content, s.obj.body, obj.body, e.reply.stored.obj.body);
    }
    ForeignIsRendering(d, svc, content);
    CallIs(w, op, Rendering(d, svc, content));
  }

  lemma ReadIsAsRendered(w: World, k: Key, svc: Service, content: Fields)
    ensures AllNew(w, Call(w, Get(k)).0, Rendering(w.setting.defaults, svc, content))
  {
    FailureIsQuiet(w, Get(k));
    ForeignIsRendering(w.setting.defaults, svc, content);
    hide Linked, Call, Awaited, Foreign;
    CallIs(w, Get(k), Rendering(w.setting.defaults, svc, content));
  }

  /** Under any interference and any faults, every write is as rendered. */
  lemma {:induction false} UntypedIsAsRendered(w: World, svc: Service, k: Key, content: Fields)
    requires WellFormed(w) && k.kind.Untyped?
    ensures AllNew(w, ReconcileUntyped(w, svc, k, content).0, Rendering(w.setting.defaults, svc, content))
  {
    hide Linked, Call, Awaited, Rendering, Compared, UpdatedUnstructured, WithOwner, ControllerIn, SeenContent,
      AsStated, Pinned, StoreFits;
    var p := Rendering(w.setting.defaults, svc, content);
    var (w1, read) := Call(w, Get(k));
    var w' := ReconcileUntyped(w, svc, k, content).0;
    ReadIsAsRendered(w, k, svc, content);
    GetPins(w, k);
    if w' != w1 {
      if read.Failed? {
        CreationIsAsRendered(w1, svc, k, content);
      } else {
        WrittenStates(SeenContent(read.stored.obj), content, svc);
        UpdateIsAsRendered(w1, svc, k, content, read.stored);
      }
      AllNewTransitive(w, w1, w', p);
    }
  }

  // ----- A whole database pass -----

  /** The controller's writes of unstructured objects, each as one of these renderings has it. */
  ghost predicate StatesRenderings(defaults: Defaults, svc: Service, xs: seq<Rendered>, e: Event) {
    e.who.Some? && !e.op.Get? && e.op.key.kind.Untyped? ==>
      exists x :: x in xs && x.RenderedUntyped? && RenderedKey(x) == e.op.key
                  && AsRendered(defaults, svc, x.content, e)
  }

  ghost function Renderings(defaults: Defaults, svc: Service, xs: seq<Rendered>): Event -> bool {
    (e: Event) => StatesRenderings(defaults, svc, xs, e)
  }

  lemma TypedStateNothing(a: World, b: World, scope: set<Key>, svc: Service, xs: seq<Rendered>)
    requires AllNew(a, b, Proper(scope)) && forall k :: k in scope ==> !k.kind.Untyped?
    ensures AllNew(a, b, Renderings(a.setting.defaults, svc, xs))
  {
    hide CreateEffect, UpdateEffect, DeleteEffect, Foreign, AsRendered;
    forall i | |a.log| <= i < |b.log|
      ensures StatesRenderings(a.setting.defaults, svc, xs, b.log[i])
    {
      assert Proper(scope)(b.log[i]);
    }
  }

  lemma {:induction false} RenderedStates(w: World, svc: Service, x: Rendered, xs: seq<Rendered>)
    requires WellFormed(w) && x in xs
    ensures AllNew(w, ReconcileRendered(w, svc, x).0, Renderings(w.setting.defaults, svc, xs))
  {
    hide Linked, ReconcileJob, ReconcileCluster, ReconcileSimple, ReconcileUntyped, Proper, TargetKey, AsRendered;
    var d, w' := w.setting.defaults, ReconcileRendered(w, svc, x).0;
    if x.RenderedUntyped? {
      UntypedIsAsRendered(w, svc, RenderedKey(x), x.content);
      UntypedIsProper(w, svc, RenderedKey(x), x.content, {RenderedKey(x)});
      forall i | |w.log| <= i < |w'.log|
        ensures StatesRenderings(d, svc, xs, w'.log[i])
      {
        assert Rendering(d, svc, x.content)(w'.log[i]) && Proper({RenderedKey(x)})(w'.log[i]);
        OwnKeyOnly(RenderedKey(x), w'.log[i]);
      }
    } else {
      RenderedIsProper(w, svc, x, {RenderedKey(x), TargetKey(svc)});
      TargetIsTyped(svc);
      TypedStateNothing(w, w', {RenderedKey(x), TargetKey(svc)}, svc, xs);
    }
  }

  lemma OwnKeyOnly(k: Key, e: Event)
    requires Proper({k})(e)
    ensures e.who.Some? && !e.op.Get? ==> e.op.key == k
  {
    hide CreateEffect, UpdateEffect, DeleteEffect, Foreign;
  }

  lemma TargetIsTyped(svc: Service)
    ensures !TargetKey(svc).kind.Untyped?
  {}

  lemma {:induction false} ObjectsStateRenderings(w: World, svc: Service, xs: seq<Rendered>, all: seq<Rendered>)
    requires WellFormed(w) && forall x :: x in xs ==> x in all
    ensures AllNew(w, ReconcileObjects(w, svc, xs).0, Renderings(w.setting.defaults, svc, all))
    decreases |xs|
  {
    hide Linked, ReconcileRendered, Renderings;
    if xs != [] {
      var (w1, o) := ReconcileRendered(w, svc, xs[0]);
      RenderedStates(w, svc, xs[0], all);
      if o.Ok? {
        ObjectsStateRenderings(w1, svc, xs[1..], all);
        AllNewTransitive(w, w1, ReconcileObjects(w, svc, xs).0, Renderings(w.setting.defaults, svc, all));
      }
    }
  }

  function RenderedFor(w: World, svc: Service): seq<Rendered> {
    match w.setting.render(svc) case None => [] case Some(xs) => xs
  }

  /**
   Under any interference and any faults, every write of an unstructured object in a database pass has the
   finalizers of its rendering, whatever is stored, and makes the custom resource its controller.
   */
  lemma {:induction false} DatabaseStatesRenderings(w: World, svc: Service)
    requires WellFormed(w)
    ensures AllNew(w, ReconcileDatabase(w, svc).0, Renderings(w.setting.defaults, svc, RenderedFor(w, svc)))
  {
    hide Linked, EnsureOperator, EnsureSecrets, ReconcileObjects, Proper, Renderings, TargetKey, GeneratedKey;
    var d, xs, databaseType := w.setting.defaults, RenderedFor(w, svc), svc.spec.config.database.databaseType;
    var p, w' := Renderings(d, svc, xs), ReconcileDatabase(w, svc).0;
    var (w1, o1) := EnsureOperator(w, databaseType);
    OperatorIsProper(w, databaseType);
    OperatorIsTyped(databaseType, w.setting.podNamespace);
    TypedStateNothing(w, w1, OperatorScope(databaseType, w.setting.podNamespace), svc, xs);
    hide OperatorScope;
    if w.setting.podNamespace != "" && o1.Ok? {
      var (w2, o2) := EnsureSecrets(w1, svc);
      var scope := {TargetKey(svc), GeneratedKey(Mongo, svc), GeneratedKey(ClickHouse, svc)};
      SecretsAreProper(w1, svc, scope);
      SecretsAreTyped(svc);
      TypedStateNothing(w1, w2, scope, svc, xs);
      AllNewTransitive(w, w1, w2, p);
      if o2.Ok? && w.setting.render(svc).Some? {
        ObjectsStateRenderings(w2, svc, xs, xs);
        AllNewTransitive(w, w2, w', p);
      }
    }
  }

  lemma OperatorIsTyped(databaseType: string, namespace: string)
    ensures forall k :: k in OperatorScope(databaseType, namespace) ==> !k.kind.Untyped?
  {}

  lemma SecretsAreTyped(svc: Service)
    ensures forall f :: !GeneratedKey(f, svc).kind.Untyped? && !TargetKey(svc).kind.Untyped?
  {}

  // ----- With nobody else about -----

  lemma QuietUntyped(w: World, k: Key, obj: Object)
    requires WellFormed(w) && Quiet(w.setting) && k in w.store && k.kind.Untyped? && obj.body.UntypedBody?
    ensures var (w', reply) := Call(w, Update(k, obj, Some(w.store[k].version)));
      var was := w.store[k].obj;
      var now := AsStated(obj.(deleting := was.deleting, uid := was.uid,
          body := UntypedBody(w.setting.defaults.untyped(obj.body.content))));
      && reply.Got?
      && w'.store == (if was.deleting && now.finalizers == {} then w.store - {k}
                      else w.store[k := Stored(now, w.next, w.store[k].maker)])
      && w'.store != w.store
  {
    assert w.store[k].version < w.next;
    hide Linked, Call, StoreFits, Quiet, AsStated;
    QuietCall(w, Update(k, obj, Some(w.store[k].version)));
  }

  /** The pass finds something to write. */
  predicate Differs(obj: Object, content: Fields) {
    Compared(content) != Compared(SeenContent(obj))
  }

  lemma SameIsStated(w: World, k: Key, content: Fields)
    requires WellFormed(w) && k in w.store && k.kind.Untyped? && !Differs(w.store[k].obj, content)
    ensures w.store[k].obj.finalizers == FinalizersIn(content) && w.store[k].obj.controller == ControllerIn(content)
  {
    ComparedStates(content, SeenContent(w.store[k].obj));
    SeenStates(w.store[k].obj);
    hide FinalizersIn, OwnersIn, SeenContent, FirstController, Compared;
  }

  lemma WrittenOver(w: World, svc: Service, k: Key, content: Fields)
    requires WellFormed(w) && Quiet(w.setting) && KeepsStated(w.setting.defaults) && k.kind.Untyped? && k in w.store
    requires MayOwn(svc, ControllerIn(content))
    ensures var obj := w.store[k].obj;
      var new_ := AsStated(obj.(body := UntypedBody(OwnedUpdate(SeenContent(obj), content, svc))));
      var (w', reply) := Call(w, Update(k, new_, Some(w.store[k].version)));
      && reply.Got? && Elsewhere(w.store, w'.store, {k}) && w'.store != w.store
      && (k in w'.store <==> !(obj.deleting && FinalizersIn(content) == {}))
      && (k in w'.store ==> w'.store[k].obj.finalizers == FinalizersIn(content)
                            && w'.store[k].obj.controller == Some(OwnerOf(svc)))
  {
    hide Linked, Call, StoreFits, Quiet, OwnedUpdate, FinalizersIn, ControllerIn, SeenContent;
    var obj := w.store[k].obj;
    WrittenStates(SeenContent(obj), content, svc);
    QuietUntyped(w, k, AsStated(obj.(body := UntypedBody(OwnedUpdate(SeenContent(obj), content, svc)))));
  }

  /**
   Undisturbed, what becomes of an unstructured object that is there. If there is something to write, its
   finalizers are the rendering's from then on and the custom resource controls it; it is gone if that
   completes its deletion. So its finalizers are kept if and only if the rendering states the same, and
   the controller it had, whoever that was, is replaced if and only if the rendering states no other.
   */
  lemma {:induction false} RenderingRules(w: World, svc: Service, k: Key, content: Fields)
    requires WellFormed(w) && Quiet(w.setting) && KeepsStated(w.setting.defaults)
    requires k.kind.Untyped? && k.namespace == svc.namespace && k in w.store
    ensures var (w', o) := ReconcileUntyped(w, svc, k, content);
      var obj, free := w.store[k].obj, MayOwn(svc, ControllerIn(content));
      && o == (if Differs(obj, content) && !free then Err(AlreadyOwned) else Ok)
      && Elsewhere(w.store, w'.store, {k})
      && (w'.store == w.store <==> !Differs(obj, content) || !free)
      && (o.Ok? ==> (k in w'.store <==> !(obj.deleting && FinalizersIn(content) == {})))
      && (o.Ok? && k in w'.store ==>
            w'.store[k].obj.finalizers == FinalizersIn(content))
      && (o.Ok? ==>
            (k in w'.store && w'.store[k].obj.finalizers == obj.finalizers <==>
              FinalizersIn(content) == obj.finalizers))
      && (!MayOwn(svc, obj.controller) ==>
            if free then k !in w'.store || w'.store[k].obj.controller == Some(OwnerOf(svc)) else w'.store == w.store)
  {
    hide Linked, Call, Compared, UpdatedUnstructured, WithOwner, ControllerIn, SeenContent, FinalizersIn, AsStated,
      Quiet, KeepsStated;
    var obj, w1 := w.store[k].obj, Call(w, Get(k)).0;
    QuietRead(w, k);
    QuietReadNext(w, k);
    WrittenStates(SeenContent(obj), content, svc);
    if !Differs(obj, content) {
      SameIsStated(w, k, content);
    } else if MayOwn(svc, ControllerIn(content)) {
      WrittenOver(w1, svc, k, content);
    }
  }

  /** A claim that is in use by a pod, and controlled by somebody else. */
  function ClaimTree(): Fields {
    var owner := Tree(map["kind" := Str("apps/StatefulSet"), "name" := Str("db"), "controller" := Bool(true)]);
    map[METADATA := Tree(map["name" := Str("data"), OWNER_REFERENCES := Array([owner]),
                             FINALIZERS := Array([Str("kubernetes.io/pvc-protection")])])]
  }

  /** The claim is marked for deletion. */
  function ClaimWorld(actor: Key, k: Key): World {
    var obj := AsStated(Object(map[], None, {}, true, 1, UntypedBody(ClaimTree())));
    World(StillSetting(), actor, map[k := Stored(obj, 1, None)], 2, 0, 0, 0, [])
  }

  lemma ClaimStates()
    ensures FinalizersIn(ClaimTree()) == {"kubernetes.io/pvc-protection"}
    ensures ControllerIn(ClaimTree()) == Some(OwnerRef("apps/StatefulSet", "db", 0))
  {
    assert FINALIZERS != OWNER_REFERENCES;
    var metadata := MetadataOf(ClaimTree());
    assert metadata[FINALIZERS].items[0] == Str("kubernetes.io/pvc-protection");
    var owner := metadata[OWNER_REFERENCES].items[0];
    assert OwnersIn(ClaimTree()) == [owner];
    assert IsController(owner) && RefOf(owner.fields) == OwnerRef("apps/StatefulSet", "db", 0);
  }

  lemma ClaimIsProtected(actor: Key, k: Key)
    requires k.kind.Untyped?
    ensures var w := ClaimWorld(actor, k);
      && WellFormed(w) && w.store[k].obj.deleting && w.store[k].obj.finalizers == {"kubernetes.io/pvc-protection"}
      && w.store[k].obj.controller == Some(OwnerRef("apps/StatefulSet", "db", 0))
  {
    ClaimStates();
    hide FinalizersIn, ControllerIn, ClaimTree, StillSetting;
  }

  /** A rendering that says nothing of finalizers or owners completes the deletion of a protected claim. */
  lemma {:induction false} ProtectionIsStripped(svc: Service, actor: Key)
    ensures var k := Key(Untyped("v1/PersistentVolumeClaim"), svc.namespace, "data");
      var content: Fields := map[METADATA := Tree(map["name" := Str("data")])];
      var w := ClaimWorld(actor, k);
      var (w', o) := ReconcileUntyped(w, svc, k, content);
      && WellFormed(w) && w.store[k].obj.finalizers == {"kubernetes.io/pvc-protection"}
      && !MayOwn(svc, w.store[k].obj.controller)
      && o.Ok? && k !in w'.store
  {
    var k := Key(Untyped("v1/PersistentVolumeClaim"), svc.namespace, "data");
    var content: Fields := map[METADATA := Tree(map["name" := Str("data")])];
    ClaimIsProtected(actor, k);
    assert FinalizersIn(content) == {} && ControllerIn(content) == None;
    var w := ClaimWorld(actor, k);
    assert KeepsStated(w.setting.defaults) && Quiet(w.setting);
    hide ReconcileUntyped, Linked, StoreFits, FinalizersIn, ControllerIn, ClaimWorld, Quiet, KeepsStated;
    RenderingRules(w, svc, k, content);
  }
}
