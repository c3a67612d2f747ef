/** Rendered objects that are written again in every pass, with the contents they already have. */
module Rewrites {
  import opened Text
  import opened Types
  import opened Trees
  import opened TreeLaws
  import opened Cluster
  import opened ClusterLaws
  import opened Retry
  import opened Secrets
  import opened Runtime
  import opened FixedPoints
  import opened Ownership

  // ----- Jobs -----

  /**
   Undisturbed, an unfinished Job as the server has defaulted it is left alone exactly if defaulting
   leaves the rendered containers as they are; otherwise every pass deletes it and creates the same again.
   */
  lemma {:induction false} UnfinishedJobIsReplaced(w: World, svc: Service, name: string, containers: Json)
    requires WellFormed(w) && Quiet(w.setting)
    requires var k := Key(JobKind, svc.namespace, name);
      && k in w.store && w.store[k].obj.finalizers == {}
      && w.store[k].obj.body == JobBody(w.setting.defaults.job(containers), false)
    ensures var k := Key(JobKind, svc.namespace, name);
      var (w', o) := ReconcileJob(w, svc, svc.namespace, name, containers);
      && o.Ok? && k in w'.store && w'.store[k].obj.body == w.store[k].obj.body
      && (w'.store == w.store <==> w.setting.defaults.job(containers) == containers)
      && (w'.store != w.store ==> w'.store[k].maker == Some(w.actor) && w'.store[k].version >= w.next)
  {
    hide Linked, Call, ReplaceJob;
    var k := Key(JobKind, svc.namespace, name);
    QuietRead(w, k);
    QuietReadNext(w, k);
    if w.setting.defaults.job(containers) != containers {
      QuietReplace(Call(w, Get(k)).0, svc, k, containers);
    }
  }

  lemma QuietReplace(w: World, svc: Service, k: Key, containers: Json)
    requires Quiet(w.setting) && k.kind == JobKind && k in w.store && w.store[k].obj.finalizers == {}
    ensures var (w', o) := ReplaceJob(w, svc, k, containers);
      && o.Ok? && k in w'.store && w'.store[k].obj.body == JobBody(w.setting.defaults.job(containers), false)
      && w'.store[k].maker == Some(w.actor) && w'.store[k].version >= w.next
  {
    hide Linked, Call, AwaitGone, Quiet, StoreFits, ServeUpdate, ServeStatus, FinalizersIn, ControllerIn, AdmitNet;
    var w1 := Call(w, Delete(k)).0;
    QuietCall(w, Delete(k));
    QuietGone(w1, k);
    var w2 := AwaitGone(w1, k, 0);
    QuietCall(w2, Create(k, NewJob(svc, containers)));
  }

  lemma QuietGone(w: World, k: Key)
    requires Quiet(w.setting) && k !in w.store
    ensures AwaitGone(w, k, 0).store == w.store && AwaitGone(w, k, 0).next == w.next
  {
    hide Linked, Call, Quiet;
    QuietRead(w, k);
    QuietReadNext(w, k);
  }

  lemma CallKeepsSetting(w: World, op: Op)
    ensures Call(w, op).0.setting == w.setting && Call(w, op).0.slept == w.slept
  {
    hide Linked, Call;
  }

  lemma {:induction false} HeldStays(w: World, k: Key, retries: nat)
    requires Quiet(w.setting) && k in w.store && retries <= DELETE_RETRIES
    ensures var w' := AwaitGone(w, k, retries);
      w'.store == w.store && w'.slept == w.slept + (DELETE_RETRIES - retries)
    decreases DELETE_RETRIES - retries
  {
    hide Linked, Call, Quiet, Extends, StoreFits, SameAt;
    if retries < DELETE_RETRIES {
      QuietRead(w, k);
      CallKeepsSetting(w, Get(k));
      HeldStays(Sleep(Call(w, Get(k)).0, 1), k, retries + 1);
    }
  }

  /**
   Undisturbed, an outdated unfinished Job that a finalizer holds is only marked for deletion: the pass
   waits ten seconds for it to go, and then fails because it is still there.
   */
  lemma {:induction false} HeldJobBlocks(w: World, svc: Service, name: string, containers: Json)
    requires WellFormed(w) && Quiet(w.setting)
    requires var k := Key(JobKind, svc.namespace, name);
      k in w.store && w.store[k].obj.finalizers != {} && JobIsStale(w.store[k].obj.body, containers)
    ensures var (w', o) := ReconcileJob(w, svc, svc.namespace, name, containers);
      && o == Err(AlreadyExists) && Deleted(w.store, w'.store, {Key(JobKind, svc.namespace, name)})
      && w'.slept == w.slept + 10
  {
    hide Linked, Call, AwaitGone, Quiet, StoreFits;
    var k := Key(JobKind, svc.namespace, name);
    QuietRead(w, k);
    var w1 := Call(w, Get(k)).0;
    QuietCall(w1, Delete(k));
    var w2 := Call(w1, Delete(k)).0;
    HeldStays(w2, k, 0);
    QuietCall(AwaitGone(w2, k, 0), Create(k, NewJob(svc, containers)));
  }

  // ----- Unstructured objects -----

  /** The update carried no cluster address that the rendering lacks. */
  predicate CarriesNothingNew(existing: Fields, content: Fields) {
    CarriesClusterIP(existing, content) ==>
      && CLUSTER_IP in content[SPEC].fields && content[SPEC].fields[CLUSTER_IP] == existing[SPEC].fields[CLUSTER_IP]
  }

  /**
   What has just been written is found to need another update, unless the rendering itself states the
   controller reference, which is added only after the update but takes part in the comparison.
   */
  lemma WrittenNeedsUpdate(existing: Fields, content: Fields, svc: Service)
    ensures Compared(content) == Compared(OwnedUpdate(existing, content, svc)) <==>
      StatesOwner(content, svc) && CarriesNothingNew(existing, content)
  {
    var updated := UpdatedUnstructured(existing, content);
    UpdateSatisfiesCompare(existing, content);
    UpdateStates(existing, content);
    OwnedStates(updated, svc);
    hide Compared, UpdatedUnstructured, OwnersIn, Lists, WithOwner;
    if Compared(content) == Compared(OwnedUpdate(existing, content, svc)) {
      ComparedStates(content, OwnedUpdate(existing, content, svc));
    }
  }

  /** The owner references that are written. */
  function WrittenOwners(content: Fields, svc: Service): Json {
    Array(Upsert(OwnersIn(content), svc))
  }

  lemma CarryTwice(existing: Fields, desired: Fields, owners: Json)
    ensures var once := CarryMetadata(existing, desired)[OWNER_REFERENCES := owners];
      CarryMetadata(once, desired)[OWNER_REFERENCES := owners] == once
    ensures var once := desired[OWNER_REFERENCES := owners];
      CarryMetadata(once, desired)[OWNER_REFERENCES := owners] == once
  {
    assert OWNER_REFERENCES !in MANAGED;
  }

  /** The metadata that is written. */
  function WrittenMetadata(existing: Fields, content: Fields, svc: Service): Fields {
    var base :=
      if !HasTree(content, METADATA) then map[]
      else if HasTree(existing, METADATA) then CarryMetadata(existing[METADATA].fields, content[METADATA].fields)
      else content[METADATA].fields;
    base[OWNER_REFERENCES := WrittenOwners(content, svc)]
  }

  lemma MetadataTwice(existing: Fields, content: Fields, svc: Service, once: Fields)
    requires HasTree(once, METADATA) && once[METADATA].fields == WrittenMetadata(existing, content, svc)
    ensures WrittenMetadata(once, content, svc) == once[METADATA].fields
  {
    if HasTree(content, METADATA) {
      var metadata := if HasTree(existing, METADATA) then existing[METADATA].fields else map[];
      CarryTwice(metadata, content[METADATA].fields, WrittenOwners(content, svc));
    }
    hide CarryMetadata, WrittenOwners;
  }

  /** The spec that is written. */
  function WrittenSpec(existing: Fields, content: Fields): Json
    requires SPEC in content
  {
    if CarriesClusterIP(existing, content)
    then Tree(content[SPEC].fields[CLUSTER_IP := existing[SPEC].fields[CLUSTER_IP]]) else content[SPEC]
  }

  lemma WrittenFields(existing: Fields, content: Fields, svc: Service)
    ensures var written := OwnedUpdate(existing, content, svc);
      && HasTree(written, METADATA) && written[METADATA].fields == WrittenMetadata(existing, content, svc)
      && (STATUS in written <==> STATUS in existing || STATUS in content)
      && (STATUS in written ==> written[STATUS] == if STATUS in existing then existing[STATUS] else content[STATUS])
      && (SPEC in written <==> SPEC in content)
      && (SPEC in written ==> written[SPEC] == WrittenSpec(existing, content))
      && (forall k :: k != METADATA && k != STATUS && k != SPEC ==>
            (k in written <==> k in content) && (k in content ==> written[k] == content[k]))
  {
    UpdateStates(existing, content);
    hide CarryMetadata, OwnersIn, Upsert;
  }

  lemma SpecTwice(existing: Fields, content: Fields, once: Fields)
    requires SPEC in content && SPEC in once && once[SPEC] == WrittenSpec(existing, content)
    ensures WrittenSpec(once, content) == once[SPEC]
  {
    if CarriesClusterIP(once, content) && !CarriesClusterIP(existing, content) {
      var spec := content[SPEC].fields;
      assert spec[CLUSTER_IP := spec[CLUSTER_IP]] == spec;
    }
  }

  /** Writing a second time changes nothing more. */
  lemma OwnedUpdateIdempotent(existing: Fields, content: Fields, svc: Service)
    ensures var once := OwnedUpdate(existing, content, svc);
      OwnedUpdate(once, content, svc) == once
  {
    var once := OwnedUpdate(existing, content, svc);
    WrittenFields(existing, content, svc);
    WrittenFields(once, content, svc);
    MetadataTwice(existing, content, svc, once);
    if SPEC in content {
      SpecTwice(existing, content, once);
    }
    hide OwnedUpdate, WrittenMetadata, CarriesClusterIP;
    SameFields(OwnedUpdate(once, content, svc), once);
  }

  lemma SameFields(a: Fields, b: Fields)
    requires forall k :: k in [METADATA, STATUS, SPEC] ==> (k in a <==> k in b) && (k in a ==> a[k] == b[k])
    requires forall k :: k !in [METADATA, STATUS, SPEC] ==> (k in a <==> k in b) && (k in a ==> a[k] == b[k])
    ensures a == b
  {}

  // ----- What is read back -----

  /** The rendering itself states the time of a pending deletion. */
  predicate StatesDeletion(content: Fields) {
    DELETION_TIME in MetadataOf(content) && MetadataOf(content)[DELETION_TIME] == Str("")
  }

  lemma CarriesNoDeletion(existing: Fields, desired: Fields)
    ensures CarryMetadata(existing[DELETION_TIME := Str("")], desired) == CarryMetadata(existing, desired)
    ensures CarryMetadata(map[], desired) == desired
  {
    assert DELETION_TIME !in MANAGED;
  }

  lemma SeenUpdatesAlike(obj: Object, content: Fields)
    requires obj.body.UntypedBody?
    ensures UpdatedUnstructured(SeenContent(obj), content) == UpdatedUnstructured(obj.body.content, content)
  {
    var existing := obj.body.content;
    assert METADATA != STATUS && METADATA != SPEC;
    if obj.deleting && HasTree(content, METADATA) {
      var desired := content[METADATA].fields;
      CarriesNoDeletion(MetadataOf(existing), desired);
      assert content[METADATA := Tree(desired)] == content;
    }
    hide CarryMetadata;
  }

  lemma WrittenDeletion(existing: Fields, content: Fields, svc: Service)
    ensures var written := OwnedUpdate(existing, content, svc);
      && HasTree(written, METADATA) && (StatesDeletion(written) <==> StatesDeletion(content))
  {
    assert DELETION_TIME !in MANAGED && DELETION_TIME != OWNER_REFERENCES;
    WrittenFields(existing, content, svc);
    hide OwnedUpdate, WrittenOwners;
  }

  /** A pending deletion is something to write about, unless the rendering states it. */
  lemma SeenNeedsUpdate(obj: Object, existing: Fields, content: Fields, svc: Service)
    requires obj.body == UntypedBody(OwnedUpdate(existing, content, svc))
    ensures !Differs(obj, content) <==>
      && StatesOwner(content, svc) && CarriesNothingNew(existing, content)
      && (obj.deleting ==> StatesDeletion(content))
  {
    var written, seen := obj.body.content, SeenContent(obj);
    WrittenNeedsUpdate(existing, content, svc);
    WrittenDeletion(existing, content, svc);
    assert DELETION_TIME !in MANAGED;
    if obj.deleting {
      if StatesDeletion(written) {
        var metadata := written[METADATA].fields;
        assert metadata[DELETION_TIME := Str("")] == metadata && seen == written;
      } else if Compared(content) == Compared(seen) {
        ComparisonSees(content, seen, DELETION_TIME);
      }
    }
    hide Compared, OwnedUpdate, StatesOwner, CarriesNothingNew;
  }

  /**
   Undisturbed, an unstructured object that the controller has written, and the server has stored as it
   was written, is written again in every pass, unless its rendering states the controller reference, and
   the deletion when one is pending; its content stays the same. A rendering that states another
   controller is refused instead.
   */
  lemma {:induction false} UntypedIsRewritten(w: World, svc: Service, k: Key, existing: Fields, content: Fields)
    requires WellFormed(w) && Quiet(w.setting) && k.kind.Untyped? && k.namespace == svc.namespace && k in w.store
    requires var written := OwnedUpdate(existing, content, svc);
      w.store[k].obj.body == UntypedBody(written) && w.setting.defaults.untyped(written) == written
    ensures var (w', o) := ReconcileUntyped(w, svc, k, content);
      var settled := StatesOwner(content, svc) && CarriesNothingNew(existing, content)
          && (w.store[k].obj.deleting ==> StatesDeletion(content));
      && k in w'.store && w'.store[k].obj.body == w.store[k].obj.body
      && o == (if settled || MayOwn(svc, ControllerIn(content)) then Ok else Err(AlreadyOwned))
      && (w'.store == w.store <==> settled || o.Err?)
  {
    var obj := w.store[k].obj;
    var written := OwnedUpdate(existing, content, svc);
    SeenNeedsUpdate(obj, existing, content, svc);
    OwnedUpdateIdempotent(existing, content, svc);
    SeenUpdatesAlike(obj, content);
    WrittenStates(SeenContent(obj), content, svc);
    assert OwnedUpdate(SeenContent(obj), content, svc) == written;
    assert obj.deleting ==> FinalizersIn(written) != {};
    hide Linked, Call, Compared, UpdatedUnstructured, WithOwner, StatesOwner, CarriesNothingNew, Quiet, SeenContent,
      FinalizersIn, ControllerIn, StatesDeletion, StoreFits;
    QuietRead(w, k);
    QuietReadNext(w, k);
    QuietUntyped(Call(w, Get(k)).0, k, AsStated(obj.(body := UntypedBody(written))));
  }
}
