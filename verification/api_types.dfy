/**
 * The supported design-time artifact types of the integration tenant
 * (internal/cpi/api/types.go) and the two record types the API returns
 * (internal/cpi/api/package.go, internal/cpi/api/artifact.go).
 */
module ApiTypes {
  import opened Wrappers

  /** The four artifact kinds, in the order the source declares them. */
  datatype ArtifactKind = IntegrationFlow | ValueMapping | MessageMapping | ScriptCollection

  /** One entry of the supported-types table: the kind's name and the remote entity set it lives in. */
  datatype ArtifactType = ArtifactType(name: string, entitySetName: string)

  /** All kinds, in declaration order. */
  const Kinds: seq<ArtifactKind> := [IntegrationFlow, ValueMapping, MessageMapping, ScriptCollection]

  /** The table entry of one kind. */
  function TypeOf(kind: ArtifactKind): ArtifactType {
    match kind
    case IntegrationFlow => ArtifactType("integration_flow", "IntegrationDesigntimeArtifacts")
    case ValueMapping => ArtifactType("value_mapping", "ValueMappingDesigntimeArtifacts")
    case MessageMapping => ArtifactType("message_mapping", "MessageMappingDesigntimeArtifacts")
    case ScriptCollection => ArtifactType("script_collection", "ScriptCollectionDesigntimeArtifacts")
  }

  function Name(kind: ArtifactKind): string {
    TypeOf(kind).name
  }

  function EntitySetName(kind: ArtifactKind): string {
    TypeOf(kind).entitySetName
  }

  /**
   * SupportedArtifactTypes: the table, one entry per kind in declaration
   * order. It is a constant function, so every call returns the same table.
   */
  function SupportedArtifactTypes(): (table: seq<ArtifactType>)
    ensures |table| == |Kinds| == 4
    ensures forall i :: 0 <= i < 4 ==> table[i] == TypeOf(Kinds[i])
  {
    [TypeOf(IntegrationFlow), TypeOf(ValueMapping), TypeOf(MessageMapping), TypeOf(ScriptCollection)]
  }

  /** Every kind occurs in the kind list exactly once. */
  lemma KindsEnumerateAll(kind: ArtifactKind)
    ensures kind in Kinds
    ensures forall i, j :: 0 <= i < j < |Kinds| ==> Kinds[i] != Kinds[j]
  {
  }

  /** The kind names are pairwise distinct, so name lookup is unambiguous. */
  lemma NamesDistinct(k1: ArtifactKind, k2: ArtifactKind)
    ensures Name(k1) == Name(k2) ==> k1 == k2
  {
  }

  /** The entity-set names are pairwise distinct too. */
  lemma EntitySetNamesDistinct(k1: ArtifactKind, k2: ArtifactKind)
    ensures EntitySetName(k1) == EntitySetName(k2) ==> k1 == k2
  {
  }

  /**
   * The kind whose name is `name`, if any: the string switches of the
   * artifacts pane and of the API layer, written once.
   */
  function KindByName(name: string): (r: Option<ArtifactKind>)
    ensures r.Some? ==> Name(r.value) == name
    ensures r.None? ==> forall kind :: Name(kind) != name
  {
    if name == Name(IntegrationFlow) then Some(IntegrationFlow)
    else if name == Name(ValueMapping) then Some(ValueMapping)
    else if name == Name(MessageMapping) then Some(MessageMapping)
    else if name == Name(ScriptCollection) then Some(ScriptCollection)
    else None
  }

  /** Looking up a kind's own name finds that kind. */
  lemma KindByNameOfName(kind: ArtifactKind)
    ensures KindByName(Name(kind)) == Some(kind)
  {
    NamesDistinct(kind, KindByName(Name(kind)).value);
  }

  /**
   * The entity set the API layer requests for an artifact type name; an
   * unknown name leaves the entity set empty.
   */
  function EntitySetByArtifactType(artifactType: string): (r: string)
    ensures KindByName(artifactType).Some? ==> r == EntitySetName(KindByName(artifactType).value)
    ensures KindByName(artifactType).None? ==> r == ""
  {
    match KindByName(artifactType)
    case Some(kind) => EntitySetName(kind)
    case None => ""
  }

  /** A content package as the API returns it (epoch-millisecond timestamps). */
  datatype ContentPackage = ContentPackage(
    id: string, version: string, name: string, shortText: string, description: string,
    vendor: string, partnerContent: bool, mode: string, updateAvailable: bool,
    supportedPlatform: string, products: string, keywords: string, countries: string,
    industries: string, lineOfBusiness: string, resourceId: string,
    createdBy: string, creationDate: int, modifiedBy: string, modifiedDate: int)

  /** An integration artifact of any kind as the API returns it. */
  datatype IntegrationArtifact = IntegrationArtifact(
    id: string, version: string, packageId: string, name: string, description: string,
    createdBy: string, createdAt: int, modifiedBy: string, modifiedAt: int)
}
