/** The comparison and the update agree on which fields they leave alone. */
module TreeLaws {
  import opened Text
  import opened Trees

  lemma ComparedIdempotent(obj: Fields)
    ensures Compared(Compared(obj)) == Compared(obj)
  {
    var once := Compared(obj);
    forall k | IsCompared(obj, k)
      ensures IsCompared(once, k) && ComparedField(once, k) == once[k]
    {
      if k == METADATA {
        var m := obj[k].fields;
        assert WithoutManaged(WithoutManaged(m)) == WithoutManaged(m);
      }
    }
  }

  lemma CarryIsInvisible(existing: Fields, desired: Fields)
    ensures WithoutManaged(CarryMetadata(existing, desired)) == WithoutManaged(desired)
  {}

  lemma ComparedFieldwise(a: Fields, b: Fields)
    requires forall k :: IsCompared(a, k) <==> IsCompared(b, k)
    requires forall k :: IsCompared(a, k) ==> ComparedField(a, k) == ComparedField(b, k)
    ensures Compared(a) == Compared(b)
  {}

  lemma ComparedAt(obj: Fields, k: string)
    ensures k in Compared(obj) <==> IsCompared(obj, k)
    ensures IsCompared(obj, k) ==> Compared(obj)[k] == ComparedField(obj, k)
  {}

  /**
   After an update of an unstructured object the comparison is satisfied, unless the update had to
   carry a Service's cluster address that the rendered object does not state.
   */
  lemma UpdateSatisfiesCompare(existing: Fields, desired: Fields)
    ensures Compared(UpdatedUnstructured(existing, desired)) == Compared(desired) <==>
      (CarriesClusterIP(existing, desired) ==>
        && CLUSTER_IP in desired[SPEC].fields
        && desired[SPEC].fields[CLUSTER_IP] == existing[SPEC].fields[CLUSTER_IP])
  {
    var updated := UpdatedUnstructured(existing, desired);
    if HasTree(existing, METADATA) && HasTree(desired, METADATA) {
      CarryIsInvisible(existing[METADATA].fields, desired[METADATA].fields);
    }
    assert forall k :: IsCompared(updated, k) <==> IsCompared(desired, k);
    assert forall k :: k != SPEC && IsCompared(desired, k) ==> ComparedField(updated, k) == ComparedField(desired, k);
    if CarriesClusterIP(existing, desired) {
      var spec, ip := desired[SPEC].fields, existing[SPEC].fields[CLUSTER_IP];
      assert updated[SPEC] == Tree(spec[CLUSTER_IP := ip]);
      ComparedAt(updated, SPEC);
      ComparedAt(desired, SPEC);
      if CLUSTER_IP in spec && spec[CLUSTER_IP] == ip {
        assert spec[CLUSTER_IP := ip] == spec;
        ComparedFieldwise(updated, desired);
      } else {
        assert CLUSTER_IP in spec[CLUSTER_IP := ip] && spec[CLUSTER_IP := ip][CLUSTER_IP] == ip;
      }
    } else {
      ComparedFieldwise(updated, desired);
    }
  }

  // ----- What an update leaves of the stored object -----

  /** A tree with a cluster address in its spec. */
  predicate HasAddress(obj: Fields) {
    && "spec" in obj && obj["spec"].Tree?
    && "clusterIP" in obj["spec"].fields && obj["spec"].fields["clusterIP"] != Null
  }

  /** A rendered Service with a spec. */
  predicate RendersService(obj: Fields) {
    "kind" in obj && obj["kind"] == Str("Service") && "spec" in obj && obj["spec"].Tree?
  }

  /** The spec is the desired one, with the stored cluster address in it where a Service has one. */
  predicate CarriesAddress(existing: Fields, desired: Fields, updated: Fields) {
    && ("spec" in updated <==> "spec" in desired)
    && ("spec" in desired ==>
          updated["spec"] ==
            if RendersService(desired) && HasAddress(existing)
            then Tree(desired["spec"].fields["clusterIP" := existing["spec"].fields["clusterIP"]])
            else desired["spec"])
  }

  lemma UpdateCarriesAddress(existing: Fields, desired: Fields)
    ensures CarriesAddress(existing, desired, UpdatedUnstructured(existing, desired))
  {
    hide CarryMetadata;
  }

  predicate IsServerField(f: string) {
    || f == "resourceVersion" || f == "uid" || f == "generation"
    || f == "creationTimestamp" || f == "selfLink" || f == "managedFields"
  }

  /**
   Status and the six metadata fields that the server manages keep the stored values; the rest of the
   metadata, and every other field but the spec, is the desired one.
   */
  lemma UpdatePreservesServerFields(existing: Fields, desired: Fields)
    ensures var updated := UpdatedUnstructured(existing, desired);
      && ("status" in updated <==> "status" in existing || "status" in desired)
      && ("status" in existing ==> updated["status"] == existing["status"])
      && ("status" in desired && "status" !in existing ==> updated["status"] == desired["status"])
      && (HasTree(existing, "metadata") && HasTree(desired, "metadata") ==>
            && HasTree(updated, "metadata")
            && var was, want := existing["metadata"].fields, desired["metadata"].fields;
               var now := updated["metadata"].fields;
               forall f ::
                 && (f in now <==> f in want || (IsServerField(f) && f in was))
                 && (f in now ==> now[f] == if IsServerField(f) && f in was then was[f] else want[f]))
      && (forall f :: f in desired && f != "metadata" && f != "spec" && f != "status" ==>
            f in updated && updated[f] == desired[f])
      && (forall f :: f in updated && f != "status" ==> f in desired)
  {
    assert forall f :: f in MANAGED <==> IsServerField(f);
  }

  /**
   What the rendered object states of status and server-managed metadata is there in the stored one. It
   is so for a tree that states neither, and for one converted from a typed object, which states a
   status and a null creation time, once the stored object has these.
   */
  ghost predicate StatesNoMore(existing: Fields, desired: Fields)
    requires HasTree(existing, METADATA) && HasTree(desired, METADATA)
  {
    && (STATUS in desired ==> STATUS in existing)
    && forall f :: f in MANAGED && f in desired[METADATA].fields ==> f in existing[METADATA].fields
  }

  lemma CarryRebuilds(existing: Fields, desired: Fields)
    requires WithoutManaged(existing) == WithoutManaged(desired)
    requires forall f :: f in MANAGED && f in desired ==> f in existing
    ensures CarryMetadata(existing, desired) == existing
  {
    forall k | k !in MANAGED
      ensures k in existing <==> k in desired
      ensures k in existing ==> existing[k] == desired[k]
    {
      assert k in existing <==> k in WithoutManaged(existing);
      assert k in desired <==> k in WithoutManaged(desired);
      assert k in existing ==> WithoutManaged(existing)[k] == existing[k] && WithoutManaged(desired)[k] == desired[k];
    }
  }

  /**
   The comparison removes exactly what the update carries over: updating gives back the stored object
   precisely when the comparison finds nothing to do and the rendering states nothing of what is
   carried over that the stored object lacks.
   */
  lemma NoUpdateIsExactlyNoChange(existing: Fields, desired: Fields)
    requires HasTree(desired, METADATA) && HasTree(existing, METADATA) && !CarriesClusterIP(existing, desired)
    ensures UpdatedUnstructured(existing, desired) == existing <==>
      Compared(desired) == Compared(existing) && StatesNoMore(existing, desired)
  {
    UpdateSatisfiesCompare(existing, desired);
    if Compared(desired) == Compared(existing) && StatesNoMore(existing, desired) {
      forall k | k != STATUS && k != METADATA
        ensures k in desired <==> k in existing
        ensures k in desired ==> desired[k] == existing[k]
      {
        ComparedAt(desired, k);
        ComparedAt(existing, k);
      }
      ComparedAt(desired, METADATA);
      ComparedAt(existing, METADATA);
      CarryRebuilds(existing[METADATA].fields, desired[METADATA].fields);
      hide Compared, CarryMetadata;
    }
    if UpdatedUnstructured(existing, desired) == existing {
      UpdateKeepsStated(existing, desired);
    }
  }

  lemma UpdateKeepsStated(existing: Fields, desired: Fields)
    requires HasTree(desired, METADATA) && HasTree(existing, METADATA)
    ensures var updated := UpdatedUnstructured(existing, desired);
      && (STATUS in desired ==> STATUS in updated) && HasTree(updated, METADATA)
      && forall f :: f in MANAGED && f in desired[METADATA].fields ==> f in updated[METADATA].fields
  {}

  /** The five types that have their own comparison and update. */
  predicate SameKnownType(a: RuntimeObject, b: RuntimeObject) {
    || (a.DeploymentObject? && b.DeploymentObject?)
    || (a.ServiceObject? && b.ServiceObject?)
    || (a.IngressObject? && b.IngressObject?)
    || (a.ConfigMapObject? && b.ConfigMapObject?)
    || (a.SecretObject? && b.SecretObject?)
  }

  /** The status of an object, for the types that have one. */
  function StatusOf(o: RuntimeObject): Option<Json> {
    match o
    case DeploymentObject(_, _, status) => Some(status)
    case ServiceObject(_, _, status) => Some(status)
    case IngressObject(_, _, status) => Some(status)
    case JobObject(_, _, status) => Some(status)
    case _ => None
  }

  /**
   One update settles the comparison, keeps metadata, status and cluster address, and a second one
   changes nothing.
   */
  lemma TypedUpdateSatisfiesCompare(existing: RuntimeObject, desired: RuntimeObject)
    requires SameKnownType(existing, desired)
    ensures var updated := UpdatedObject(existing, desired);
      && updated.Some?
      && ObjectNeedsUpdate(desired, updated.value) == Some(false)
      && updated.value.meta == existing.meta
      && StatusOf(updated.value) == StatusOf(existing)
      && (existing.ServiceObject? ==> updated.value.net.clusterIP == existing.net.clusterIP)
      && UpdatedObject(updated.value, desired) == updated
  {}

  /** The comparison and the update disagree on types together. */
  lemma TypeErrorsAgree(existing: RuntimeObject, desired: RuntimeObject)
    requires !desired.JobObject?
    ensures ObjectNeedsUpdate(desired, existing).None? <==> UpdatedObject(existing, desired).None?
  {}

  /**
   The generic update leaves metadata, status and identity to the existing object and settles the
   comparison exactly when those agree already, nothing was dropped, and no cluster address cut the
   spec down.
   */
  lemma GenericUpdateSatisfiesCompare(existing: Fields, desired: Fields)
    requires !PreservesClusterIP(existing)
    ensures Compared(GenericUpdated(existing, desired)) == Compared(desired) <==>
      && (forall k :: k in existing && IsCopied(k) ==> k in desired)
      && (forall k :: !IsCopied(k) ==> (IsCompared(existing, k) <==> IsCompared(desired, k)))
      && (forall k :: !IsCopied(k) && IsCompared(existing, k) ==>
            ComparedField(existing, k) == ComparedField(desired, k))
  {
    var updated := GenericUpdated(existing, desired);
    if Compared(updated) == Compared(desired) {
      forall k
        ensures IsCompared(updated, k) <==> IsCompared(desired, k)
        ensures IsCompared(updated, k) ==> ComparedField(updated, k) == ComparedField(desired, k)
      {
        ComparedAt(updated, k);
        ComparedAt(desired, k);
      }
      forall k | k in existing && IsCopied(k)
        ensures k in desired
      {
        assert IsCompared(updated, k);
      }
      forall k | !IsCopied(k)
        ensures IsCompared(existing, k) <==> IsCompared(desired, k)
        ensures IsCompared(existing, k) ==> ComparedField(existing, k) == ComparedField(desired, k)
      {
        assert IsCompared(existing, k) <==> IsCompared(updated, k);
      }
    } else if
      && (forall k :: k in existing && IsCopied(k) ==> k in desired)
      && (forall k :: !IsCopied(k) ==> (IsCompared(existing, k) <==> IsCompared(desired, k)))
      && (forall k :: !IsCopied(k) && IsCompared(existing, k) ==>
            ComparedField(existing, k) == ComparedField(desired, k))
    {
      ComparedFieldwise(updated, desired);
    }
  }

  /** With a cluster address in the existing spec, the generic update reduces the spec to that address alone. */
  lemma GenericUpdateDropsSpec(existing: Fields, desired: Fields)
    requires PreservesClusterIP(existing) && HasTree(desired, SPEC)
    ensures GenericUpdated(existing, desired)[SPEC] == desired[SPEC] <==>
      desired[SPEC].fields == map[CLUSTER_IP := existing[SPEC].fields[CLUSTER_IP]]
  {}
}
