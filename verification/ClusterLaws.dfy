/** Optimistic concurrency: what a version number promises about the object it was read with. */
module ClusterLaws {
  import opened Text
  import opened Types
  import opened Trees
  import opened Cluster

  ghost predicate SameAt(k: Key, was: Store, now: Store) {
    (k in now <==> k in was) && (k in was ==> now[k] == was[k])
  }

  /** While `k` carries the version of `s`, it still holds `s`. */
  ghost predicate Pinned(w: World, k: Key, s: Stored) {
    && s.version < w.next
    && (k in w.store && w.store[k].version == s.version ==> w.store[k] == s)
  }

  lemma PinnedStays(a: World, b: World, k: Key, s: Stored)
    requires Extends(a, b) && Pinned(a, k, s)
    ensures Pinned(b, k, s)
  {}

  /** A successful read delivers the stored object and pins it. */
  lemma GetPins(w: World, k: Key)
    requires WellFormed(w)
    ensures var r := Call(w, Get(k));
      && r.0.store == Awaited(w).store
      && (r.1.Got? ==>
            k in r.0.store && r.0.store[k] == r.1.stored && Pinned(r.0, k, r.1.stored)
                && Fits(k.kind, r.1.stored.obj.body))
      && (r.1 == Failed(NotFound) ==> k !in r.0.store)
  {
    hide Awaited;
  }

  /** What one call of the controller did to the store, seen from its event. */
  lemma CallEffect(w: World, op: Op)
    ensures var e := Call(w, op).0.log[|Awaited(w).log|];
      var served := Serve(w.setting.defaults, w.setting.env(w.clock, w.store).grant, e.before, Awaited(w).next,
          Some(w.actor), op);
      || (e.reply == served.reply && e.after == served.store)
      || (e.reply == Failed(Unavailable) && e.after == e.before)
  {
    hide Serve, Awaited;
  }

  /** An update with the version of a pinned object can only have replaced that very object. */
  lemma UpdateReplacesPinned(w: World, k: Key, obj: Object, s: Stored)
    requires WellFormed(w) && Pinned(w, k, s) && obj.finalizers == s.obj.finalizers && !k.kind.Untyped?
    ensures var r := Call(w, Update(k, obj, Some(s.version)));
      var e := r.0.log[|Awaited(w).log|];
      e.reply.Got? ==>
        && k in e.before && e.before[k] == s
        && e.after == e.before[k := e.reply.stored]
        && e.reply.stored.maker == s.maker
        && e.reply.stored.obj == obj.(deleting := s.obj.deleting, uid := s.obj.uid,
             body := KeepStatus(s.obj.body, Admit(w.setting.defaults, w.setting.env(w.clock, w.store).grant, obj.body)))
  {
    PinnedStays(w, Awaited(w), k, s);
    CallEffect(w, Update(k, obj, Some(s.version)));
    AdmissionKeepsForm(w.setting.defaults, w.setting.env(w.clock, w.store).grant, obj.body);
    hide Linked, Call, Awaited, Admit, FinalizersIn, ControllerIn;
  }

  lemma UntypedIsServed(defaults: Defaults, grant: Grant, store: Store, next: nat, k: Key, obj: Object,
      version: Option<nat>)
    requires k.kind.Untyped?
    ensures var s := ServeUpdate(defaults, grant, store, next, k, obj, version);
      s.reply.Got? ==>
        && k in store && Matches(version, store[k]) && obj.body.UntypedBody?
        && s.store == (if store[k].obj.deleting && s.reply.stored.obj.finalizers == {} then store - {k}
                       else store[k := s.reply.stored])
        && s.reply.stored.maker == store[k].maker
        && s.reply.stored.obj == AsStated(obj.(deleting := store[k].obj.deleting, uid := store[k].obj.uid,
             body := UntypedBody(defaults.untyped(obj.body.content))))
  {
    hide StoreFits, FinalizersIn, ControllerIn, AdmitNet;
  }

  /** The same for an unstructured object; without finalizers in what is admitted, it completes a deletion. */
  lemma UntypedReplacesPinned(w: World, k: Key, obj: Object, s: Stored)
    requires WellFormed(w) && Pinned(w, k, s) && k.kind.Untyped?
    ensures var r := Call(w, Update(k, obj, Some(s.version)));
      var e := r.0.log[|Awaited(w).log|];
      e.reply.Got? ==>
        && k in e.before && e.before[k] == s && obj.body.UntypedBody?
        && e.after == (if s.obj.deleting && e.reply.stored.obj.finalizers == {} then e.before - {k}
                       else e.before[k := e.reply.stored])
        && e.reply.stored.maker == s.maker
        && e.reply.stored.obj == AsStated(obj.(deleting := s.obj.deleting, uid := s.obj.uid,
             body := UntypedBody(w.setting.defaults.untyped(obj.body.content))))
  {
    PinnedStays(w, Awaited(w), k, s);
    CallEffect(w, Update(k, obj, Some(s.version)));
    var e := Call(w, Update(k, obj, Some(s.version))).0.log[|Awaited(w).log|];
    var grant := w.setting.env(w.clock, w.store).grant;
    UntypedIsServed(w.setting.defaults, grant, e.before, Awaited(w).next, k, obj, Some(s.version));
    hide Linked, Call, Awaited, ServeUpdate, AsStated, StoreFits;
  }

  /**
   A write with the version of a pinned custom resource that changes its finalizers; without any left,
   it completes a deletion.
   */
  lemma FinalizersReplacePinned(w: World, k: Key, finalizers: set<string>, s: Stored)
    requires WellFormed(w) && Pinned(w, k, s) && s.obj.body.CustomBody?
    ensures var r := Call(w, Update(k, s.obj.(finalizers := finalizers), Some(s.version)));
      var e := r.0.log[|Awaited(w).log|];
      && (e.reply.Failed? ==> e.after == e.before)
      && (e.reply.Got? ==>
        && k in e.before && e.before[k] == s
        && e.reply.stored.maker == s.maker && e.reply.stored.obj == s.obj.(finalizers := finalizers)
        && e.after == if s.obj.deleting && finalizers == {} then e.before - {k} else e.before[k := e.reply.stored])
  {
    hide Linked, Call, Awaited, Admit;
    var obj, grant := s.obj.(finalizers := finalizers), w.setting.env(w.clock, w.store).grant;
    PinnedStays(w, Awaited(w), k, s);
    CallEffect(w, Update(k, obj, Some(s.version)));
    CustomResourcesAreAdmittedAsTheyAre(w.setting.defaults, grant, obj.body);
  }

  lemma CustomResourcesAreAdmittedAsTheyAre(defaults: Defaults, grant: Grant, body: Body)
    requires body.CustomBody?
    ensures Admit(defaults, grant, body) == body
  {}

  lemma CreateAddsFresh(w: World, k: Key, obj: Object)
    ensures var e := Call(w, Create(k, obj)).0.log[|Awaited(w).log|];
      e.reply.Got? ==>
        && k !in e.before
        && e.after == e.before[k := e.reply.stored]
        && e.reply.stored.maker == Some(w.actor)
        && (!k.kind.Untyped? ==>
              e.reply.stored.obj == obj.(deleting := false, uid := Awaited(w).next,
                  body := Admit(w.setting.defaults, w.setting.env(w.clock, w.store).grant, obj.body)))
        && (k.kind.Untyped? ==>
              && obj.body.UntypedBody?
              && e.reply.stored.obj == AsStated(obj.(deleting := false, uid := Awaited(w).next,
                   body := UntypedBody(w.setting.defaults.untyped(obj.body.content)))))
  {
    CallEffect(w, Create(k, obj));
    AdmissionKeepsForm(w.setting.defaults, w.setting.env(w.clock, w.store).grant, obj.body);
    hide Linked, Call, Awaited, Admit, FinalizersIn, ControllerIn;
  }

  /** Admission changes no object into one of another form. */
  lemma AdmissionKeepsForm(defaults: Defaults, grant: Grant, body: Body)
    ensures var admitted := Admit(defaults, grant, body);
      && (admitted.UntypedBody? <==> body.UntypedBody?)
      && (body.UntypedBody? ==> admitted == UntypedBody(defaults.untyped(body.content)))
      && (forall kind :: Fits(kind, admitted) <==> Fits(kind, body))
  {}

  /** A refused or failed request changes nothing. */
  lemma FailureIsQuiet(w: World, op: Op)
    ensures var e := Call(w, op).0.log[|Awaited(w).log|];
      (e.reply.Failed? ==> e.after == e.before) && (op.Get? ==> e.after == e.before)
  {
    CallEffect(w, op);
    hide Linked, Call, Awaited, Admit, KeepStatus;
  }

  /** The errors a call can end with. */
  lemma CallErrors(w: World, op: Op)
    ensures Call(w, op).1.Failed? ==> Call(w, op).1.error in [NotFound, Conflict, AlreadyExists, Invalid, Unavailable]
  {
    hide Awaited, Admit, KeepStatus;
  }

  // ----- Requests of other clients -----

  /** The event of another client: the server's answer to its request, nothing else. */
  ghost predicate Foreign(e: Event) {
    && e.who.None?
    && exists defaults, grant, next :: IsServed(e, Serve(defaults, grant, e.before, next, None, e.op))
  }

  ghost predicate IsServed(e: Event, s: Served) {
    e.after == s.store && e.reply == s.reply
  }

  /** Marked for deletion, which a finalizer holds back. */
  predicate IsHeld(obj: Object) {
    obj.deleting && obj.finalizers != {}
  }

  /** Another client changes one object at a time; what it creates was not made by the controller. */
  lemma ForeignEffect(e: Event)
    requires Foreign(e)
    ensures var k := e.op.key;
      && (forall x :: x != k ==> (x in e.after <==> x in e.before) && (x in e.before ==> e.after[x] == e.before[x]))
      && (k !in e.before && k in e.after ==> e.after[k].maker.None?)
      && (k in e.before && k in e.after ==>
            && e.after[k].maker == e.before[k].maker
            && (IsHeld(e.before[k].obj) ==> IsHeld(e.after[k].obj))
            && (k.kind.Untyped? || e.after[k].obj.finalizers ==
                  if e.op.Update? && e.after != e.before then e.op.obj.finalizers else e.before[k].obj.finalizers))
      && (k in e.before && k !in e.after && !k.kind.Untyped? ==>
            e.before[k].obj.finalizers == {} || (e.op.Update? && e.op.obj.finalizers == {}))
  {
    forall defaults, grant, body: Body
      ensures Admit(defaults, grant, body).UntypedBody? <==> body.UntypedBody?
    {
      AdmissionKeepsForm(defaults, grant, body);
    }
    hide Admit, FinalizersIn, ControllerIn;
  }

  lemma {:induction false} OthersForeign(w: World, ops: seq<Op>, grant: Grant)
    ensures AllNew(w, Others(w, ops, grant), Foreign)
    decreases |ops|
  {
    if ops != [] {
      var w1 := Perform(w, None, ops[0], grant, true).0;
      var e := w1.log[|w.log|];
      assert IsServed(e, Serve(w.setting.defaults, grant, e.before, w.next, None, e.op));
      hide Perform, Foreign, Linked;
      OthersForeign(w1, ops[1..], grant);
      AllNewTransitive(w, w1, Others(w1, ops[1..], grant), Foreign);
    }
  }

  /** While a call is awaited, only other clients act. */
  lemma AwaitedForeign(w: World)
    ensures AllNew(w, Awaited(w), Foreign)
  {
    var turn := w.setting.env(w.clock, w.store);
    hide Foreign;
    OthersForeign(w, turn.others, turn.grant);
  }

  /** A status write with the version of a pinned object changes that object's status and nothing else. */
  lemma StatusReplacesPinned(w: World, k: Key, status: ServiceStatus, s: Stored)
    requires Pinned(w, k, s)
    ensures var r := Call(w, UpdateStatus(k, status, Some(s.version)));
      var e := r.0.log[|Awaited(w).log|];
      e.reply.Got? ==>
        && k in e.before && e.before[k] == s && s.obj.body.CustomBody?
        && e.after == e.before[k := e.reply.stored]
        && e.reply.stored.maker == s.maker
        && e.reply.stored.obj == s.obj.(body := s.obj.body.(status := status))
  {
    PinnedStays(w, Awaited(w), k, s);
    CallEffect(w, UpdateStatus(k, status, Some(s.version)));
    hide Linked, Call, Awaited;
  }

  /** A call is foreign events followed by one of its own. */
  lemma CallIs(w: World, op: Op, p: Event -> bool)
    requires forall e :: Foreign(e) ==> p(e)
    requires p(Call(w, op).0.log[|Awaited(w).log|])
    ensures AllNew(w, Call(w, op).0, p)
  {
    hide Foreign, Linked;
    AwaitedForeign(w);
    hide Call, Awaited;
  }
}
