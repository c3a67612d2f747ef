/**
 Comparing a rendered object with the stored one, and updating the stored one from it: the
 comparison drops status and the server-managed metadata, the update carries them over.
 */
module Trees {
  import opened Text

  datatype Json =
    | Null | Bool(b: bool) | Number(n: int) | Str(s: string) | Array(items: seq<Json>) | Tree(fields: Fields)

  type Fields = map<string, Json>

  const STATUS := "status"
  const METADATA := "metadata"
  const SPEC := "spec"
  const KIND := "kind"
  const API_VERSION := "apiVersion"
  const CLUSTER_IP := "clusterIP"
  const FINALIZERS := "finalizers"
  const OWNER_REFERENCES := "ownerReferences"
  const DELETION_TIME := "deletionTimestamp"

  /** The metadata that only the server writes. */
  const MANAGED := ["resourceVersion", "uid", "generation", "creationTimestamp", "selfLink", "managedFields"]

  predicate HasTree(obj: Fields, k: string) {
    k in obj && obj[k].Tree?
  }

  // ----- What the metadata of a tree states -----

  function MetadataOf(obj: Fields): Fields {
    if HasTree(obj, METADATA) then obj[METADATA].fields else map[]
  }

  function FinalizersIn(obj: Fields): set<string> {
    var metadata := MetadataOf(obj);
    if FINALIZERS in metadata && metadata[FINALIZERS].Array?
    then set x | x in metadata[FINALIZERS].items && x.Str? :: x.s else {}
  }

  /** The owner references; a list that has anything but trees in it counts as none. */
  function OwnersIn(obj: Fields): seq<Json> {
    var metadata := MetadataOf(obj);
    if OWNER_REFERENCES in metadata && metadata[OWNER_REFERENCES].Array?
        && forall x :: x in metadata[OWNER_REFERENCES].items ==> x.Tree?
    then metadata[OWNER_REFERENCES].items else []
  }

  /** The text of a field; anything else reads as none. */
  function TextAt(fields: Fields, k: string): string {
    if k in fields && fields[k].Str? then fields[k].s else ""
  }

  // ----- removeNonComparedFields -----

  function WithoutManaged(metadata: Fields): Fields {
    map k | k in metadata && k !in MANAGED :: metadata[k]
  }

  /** Whether a top-level field takes part in the comparison. */
  predicate IsCompared(obj: Fields, k: string) {
    k in obj && k != STATUS && (k == METADATA ==> obj[k].Tree?)
  }

  function ComparedField(obj: Fields, k: string): Json
    requires IsCompared(obj, k)
  {
    if k == METADATA then Tree(WithoutManaged(obj[k].fields)) else obj[k]
  }

  function Compared(obj: Fields): Fields {
    map k | k in obj && IsCompared(obj, k) :: ComparedField(obj, k)
  }

  method FilterMetadata(metadata: Fields) returns (filtered: Fields)
    ensures filtered == WithoutManaged(metadata)
  {
    filtered := map[];
    var todo := metadata.Keys;
    while todo != {}
      invariant todo <= metadata.Keys
      invariant forall k :: k in filtered <==> k in metadata && k !in todo && k !in MANAGED
      invariant forall k :: k in filtered ==> filtered[k] == metadata[k]
    {
      var k :| k in todo;
      if k !in MANAGED {
        filtered := filtered[k := metadata[k]];
      }
      todo := todo - {k};
    }
  }

  method RemoveNonComparedFields(obj: Fields) returns (result: Fields)
    ensures result == Compared(obj)
  {
    result := map[];
    var todo := obj.Keys;
    while todo != {}
      invariant todo <= obj.Keys
      invariant forall k :: k in result <==> IsCompared(obj, k) && k !in todo
      invariant forall k :: k in result ==> result[k] == ComparedField(obj, k)
    {
      var k :| k in todo;
      todo := todo - {k};
      if k == STATUS {
        continue;
      }
      if k == METADATA {
        if obj[k].Tree? {
          var filtered := FilterMetadata(obj[k].fields);
          result := result[k := Tree(filtered)];
        }
        continue;
      }
      result := result[k := obj[k]];
    }
  }

  // ----- updateUnstructuredObject -----

  /** The desired metadata with the server-managed fields of the existing one where it has them. */
  function CarryMetadata(existing: Fields, desired: Fields): Fields {
    map k | k in existing.Keys + desired.Keys && (k in MANAGED || k in desired) ::
      if k in MANAGED && k in existing then existing[k] else desired[k]
  }

  predicate CarriesClusterIP(existing: Fields, desired: Fields) {
    && KIND in desired && desired[KIND] == Str("Service")
    && HasTree(existing, SPEC) && HasTree(desired, SPEC)
    && CLUSTER_IP in existing[SPEC].fields && existing[SPEC].fields[CLUSTER_IP] != Null
  }

  function UpdatedUnstructured(existing: Fields, desired: Fields): Fields {
    var d1 := if HasTree(existing, METADATA) && HasTree(desired, METADATA)
              then desired[METADATA := Tree(CarryMetadata(existing[METADATA].fields, desired[METADATA].fields))]
              else desired;
    var d2 := if CarriesClusterIP(existing, desired)
              then d1[SPEC := Tree(desired[SPEC].fields[CLUSTER_IP := existing[SPEC].fields[CLUSTER_IP]])]
              else d1;
    if STATUS in existing then d2[STATUS := existing[STATUS]] else d2
  }

  method UpdateUnstructured(existing: Fields, desired: Fields) returns (updated: Fields)
    ensures updated == UpdatedUnstructured(existing, desired)
  {
    updated := desired;
    if HasTree(existing, METADATA) && HasTree(desired, METADATA) {
      var existingMeta, desiredMeta := existing[METADATA].fields, desired[METADATA].fields;
      for i := 0 to |MANAGED|
        invariant forall k :: k in desiredMeta <==>
            k in desired[METADATA].fields || (k in existingMeta && k in MANAGED[..i])
        invariant forall k :: k in desiredMeta ==>
          desiredMeta[k] == if k in existingMeta && k in MANAGED[..i] then existingMeta[k]
              else desired[METADATA].fields[k]
      {
        assert MANAGED[..i + 1] == MANAGED[..i] + [MANAGED[i]];
        if MANAGED[i] in existingMeta {
          desiredMeta := desiredMeta[MANAGED[i] := existingMeta[MANAGED[i]]];
        }
      }
      assert MANAGED[..|MANAGED|] == MANAGED;
      assert desiredMeta == CarryMetadata(existingMeta, desired[METADATA].fields);
      updated := updated[METADATA := Tree(desiredMeta)];
    }
    if CarriesClusterIP(existing, desired) {
      var desiredSpec := desired[SPEC].fields[CLUSTER_IP := existing[SPEC].fields[CLUSTER_IP]];
      updated := updated[SPEC := Tree(desiredSpec)];
    }
    if STATUS in existing {
      updated := updated[STATUS := existing[STATUS]];
    }
  }

  // ----- genericUpdateObject -----

  predicate IsCopied(k: string) {
    k != METADATA && k != STATUS && k != API_VERSION && k != KIND
  }

  predicate PreservesClusterIP(existing: Fields) {
    HasTree(existing, SPEC) && CLUSTER_IP in existing[SPEC].fields
  }

  function GenericUpdated(existing: Fields, desired: Fields): Fields {
    var copied := map k | k in existing.Keys + desired.Keys && (k in existing || IsCopied(k)) ::
      if k in desired && IsCopied(k) then desired[k] else existing[k];
    if PreservesClusterIP(existing)
    then copied[SPEC := Tree(map[CLUSTER_IP := existing[SPEC].fields[CLUSTER_IP]])]
    else copied
  }

  method GenericUpdate(existing: Fields, desired: Fields) returns (updated: Fields)
    ensures updated == GenericUpdated(existing, desired)
  {
    var preserved: Fields := map[];
    if PreservesClusterIP(existing) {
      preserved := preserved[SPEC := Tree(map[CLUSTER_IP := existing[SPEC].fields[CLUSTER_IP]])];
    }
    updated := existing;
    var todo := desired.Keys;
    while todo != {}
      invariant todo <= desired.Keys
      invariant forall k :: k in updated <==> k in existing || (k in desired && k !in todo && IsCopied(k))
      invariant forall k :: k in updated ==>
        updated[k] == if k in desired && k !in todo && IsCopied(k) then desired[k] else existing[k]
    {
      var k :| k in todo;
      if IsCopied(k) {
        updated := updated[k := desired[k]];
      }
      todo := todo - {k};
    }
    updated := updated + preserved;
  }

  // ----- objectNeedsUpdate and updateObject on the types they know -----

  /** The Service fields the comparison looks at, and the others. */
  datatype ServiceFields = ServiceFields(ports: Json, selector: Json, serviceType: string, clusterIP: string,
      rest: Json)

  datatype RuntimeObject =
    | DeploymentObject(meta: Json, spec: Json, status: Json)
    | ServiceObject(meta: Json, net: ServiceFields, status: Json)
    | IngressObject(meta: Json, spec: Json, status: Json)
    | ConfigMapObject(meta: Json, data: Json, binaryData: Json)
    | SecretObject(meta: Json, data: Json, stringData: Json, secretType: string)
    | JobObject(meta: Json, spec: Json, status: Json)
    | OtherObject(content: Fields)
    | Unstructured(content: Fields)

  function WithSpec(kind: string, meta: Json, spec: Json, status: Json): Fields {
    map[KIND := Str(kind), METADATA := meta, SPEC := spec, STATUS := status]
  }

  function ToUnstructured(o: RuntimeObject): Fields {
    match o
    case DeploymentObject(meta, spec, status) => WithSpec("Deployment", meta, spec, status)
    case ServiceObject(meta, net, status) =>
      WithSpec("Service", meta,
          Tree(map["ports" := net.ports, "selector" := net.selector, "type" := Str(net.serviceType),
                                         CLUSTER_IP := Str(net.clusterIP), "rest" := net.rest]), status)
    case IngressObject(meta, spec, status) => WithSpec("Ingress", meta, spec, status)
    case ConfigMapObject(meta, data, binaryData) =>
      map[KIND := Str("ConfigMap"), METADATA := meta, "data" := data, "binaryData" := binaryData]
    case SecretObject(meta, data, stringData, secretType) =>
      map[KIND := Str("Secret"), METADATA := meta, "data" := data, "stringData" := stringData,
          "type" := Str(secretType)]
    case JobObject(meta, spec, status) => WithSpec("Job", meta, spec, status)
    case OtherObject(content) => content
    case Unstructured(content) => content
  }

  predicate GenericNeedsUpdate(desired: RuntimeObject, existing: RuntimeObject) {
    Compared(ToUnstructured(desired)) != Compared(ToUnstructured(existing))
  }

  /** objectNeedsUpdate; None is its error about mismatched types. */
  function ObjectNeedsUpdate(desired: RuntimeObject, existing: RuntimeObject): Option<bool> {
    if existing.Unstructured? then Some(GenericNeedsUpdate(desired, existing))
    else match desired
      case DeploymentObject(_, spec, _) =>
        if existing.DeploymentObject? then Some(existing.spec != spec) else None
      case ServiceObject(_, net, _) =>
        if existing.ServiceObject?
        then Some(existing.net.ports != net.ports || existing.net.selector != net.selector
                  || existing.net.serviceType != net.serviceType)
        else None
      case IngressObject(_, spec, _) =>
        if existing.IngressObject? then Some(existing.spec != spec) else None
      case ConfigMapObject(_, data, binaryData) =>
        if existing.ConfigMapObject? then Some(existing.data != data || existing.binaryData != binaryData) else None
      case SecretObject(_, data, stringData, secretType) =>
        if existing.SecretObject?
        then Some(existing.data != data || existing.stringData != stringData || existing.secretType != secretType)
        else None
      case _ => Some(GenericNeedsUpdate(desired, existing))
  }

  /**
   updateObject; None is its error about mismatched types. In the default case the result is the
   updated content, whatever type the existing object had.
   */
  function UpdatedObject(existing: RuntimeObject, desired: RuntimeObject): Option<RuntimeObject> {
    if existing.Unstructured? then Some(Unstructured(UpdatedUnstructured(existing.content, ToUnstructured(desired))))
    else match desired
      case JobObject(_, _, _) => Some(existing)
      case DeploymentObject(_, spec, _) =>
        if existing.DeploymentObject? then Some(DeploymentObject(existing.meta, spec, existing.status)) else None
      case ServiceObject(_, net, _) =>
        if existing.ServiceObject? then Some(existing.(net := net.(clusterIP := existing.net.clusterIP))) else None
      case IngressObject(_, spec, _) =>
        if existing.IngressObject? then Some(IngressObject(existing.meta, spec, existing.status)) else None
      case ConfigMapObject(_, data, binaryData) =>
        if existing.ConfigMapObject? then Some(existing.(data := data, binaryData := binaryData)) else None
      case SecretObject(_, data, stringData, secretType) =>
        if existing.SecretObject?
        then Some(existing.(data := data, stringData := stringData, secretType := secretType)) else None
      case _ => Some(OtherObject(GenericUpdated(ToUnstructured(existing), ToUnstructured(desired))))
  }
}
