/**
 * The messages that flow through the single-consumer event loop and the
 * commands (descriptors of asynchronous work) that handlers return.
 * Every component handles the same message union, as in the runtime the
 * program is built on.
 */
module Messages {
  import opened Wrappers
  import opened ApiTypes

  /** Abstract key events; the physical bindings are not modelled. */
  datatype Key = Up | Down | Left | Right | Enter | Tab | Quit | Layout | Refresh | Open | OtherKey

  /** One row of the attribute panel (attribute.go). */
  datatype Attribute = Attribute(key: string, value: string)

  /** Renders an epoch-millisecond timestamp as ISO 8601 text; host dependent, so a parameter. */
  type TimeText = int -> string

  /** The record whose web page the browser should open. */
  datatype WebLink = PackageLink(packageId: string) | ArtifactLink(artifactType: string, artifactId: string)

  datatype Msg =
    | KeyMsg(key: Key)
    | LayoutMsg(layout: int)
    | ContentPackagesMsg(packages: seq<ContentPackage>)
    | ActiveTabMsg(artifactType: string)
      /** IntegrationFlowsMsg, ValueMappingsMsg, MessageMappingsMsg, ScriptCollectionsMsg */
    | ArtifactsMsg(kind: ArtifactKind, artifacts: seq<IntegrationArtifact>)
    | AttributesMsg(attributes: seq<Attribute>)
    | StatusMsg(message: string)
    | ErrorMsg(error: string)
      /** Any message no component reacts to (window size and the like). */
    | OtherMsg

  datatype Cmd =
      /** ContentPackagesCmd: fetch all packages. */
    | FetchPackages
      /** The per-kind fetch of IntegrationArtifactsByPackageCmd. */
    | FetchArtifacts(packageId: string, kind: ArtifactKind)
      /** The per-kind init command of the artifacts pane: resets that list's cursor when run. */
    | InitArtifacts(kind: ArtifactKind)
      /** AttributesCmd / AttributesInitCmd. */
    | PushAttributes(attributes: seq<Attribute>)
      /** ActiveTabCmd: reads the tab selector's active tab when it runs. */
    | ActiveTab
      /** StatusMessageCmd. */
    | PushStatus(message: string)
      /** OpenURLCmd. */
    | OpenURL(link: WebLink)
      /** ToggleLayoutCmd, with the layout its closure reads. */
    | ToggleLayout(layout: int)
    | SetWindowTitle
    | QuitProgram

  /** A Go nil slice of attributes behaves as the empty slice everywhere it is consumed. */
  function AsSlice(attributes: Option<seq<Attribute>>): seq<Attribute> {
    attributes.GetOr([])
  }

  /** The keys of an attribute list, in order. */
  function KeysOf(attributes: seq<Attribute>): (keys: seq<string>)
    ensures |keys| == |attributes|
    ensures forall i :: 0 <= i < |keys| ==> keys[i] == attributes[i].key
  {
    seq(|attributes|, i requires 0 <= i < |attributes| => attributes[i].key)
  }
}
