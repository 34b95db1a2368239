/**
 * The artifacts pane: one list per artifact kind plus the kind currently shown
 * (internal/ui/components/artifactspane/integrationartifact/artifact.go).
 */
module IntegrationArtifactPane {
  import opened Wrappers
  import opened ApiTypes
  import opened Messages
  import opened ListWidget

  /** The list item wrapping one artifact. */
  datatype Item = Item(artifact: IntegrationArtifact)

  /** One item per artifact, in the given order. */
  function ItemsOf(artifacts: seq<IntegrationArtifact>): (items: seq<Item>)
    ensures |items| == |artifacts|
  {
    seq(|artifacts|, i requires 0 <= i < |artifacts| => Item(artifacts[i]))
  }

  /** artifactsToList: wraps the artifacts one by one. */
  method ArtifactsToList(artifacts: seq<IntegrationArtifact>) returns (items: seq<Item>)
    ensures items == ItemsOf(artifacts)
  {
    items := [];
    for i := 0 to |artifacts|
      invariant |items| == i
      invariant forall j :: 0 <= j < i ==> items[j] == Item(artifacts[j])
    {
      items := items + [Item(artifacts[i])];
    }
  }

  /** The keys shown for an integration flow. */
  const FlowAttributeKeys: seq<string> :=
    ["ID", "Version", "Name", "Description", "Created by", "Created at", "Modified by", "Modified at"]

  /** The keys shown for a value mapping, a message mapping or a script collection. */
  const ShortAttributeKeys: seq<string> := ["ID", "Version", "Name", "Description"]

  /** The state of the pane: the four lists and the name of the selected kind. */
  datatype State = State(
    integrationflows: List<Item>,
    valuemappings: List<Item>,
    messagemappings: List<Item>,
    scriptcollections: List<Item>,
    selectedArtifactType: string)
  {
    /** The list that holds the artifacts of one kind. */
    function ListOf(kind: ArtifactKind): List<Item> {
      match kind
      case IntegrationFlow => integrationflows
      case ValueMapping => valuemappings
      case MessageMapping => messagemappings
      case ScriptCollection => scriptcollections
    }

    /** The same state with one kind's list replaced. */
    function WithList(kind: ArtifactKind, l: List<Item>): (r: State)
      ensures r.ListOf(kind) == l
      ensures forall other :: other != kind ==> r.ListOf(other) == ListOf(other)
      ensures r.selectedArtifactType == selectedArtifactType
    {
      match kind
      case IntegrationFlow => this.(integrationflows := l)
      case ValueMapping => this.(valuemappings := l)
      case MessageMapping => this.(messagemappings := l)
      case ScriptCollection => this.(scriptcollections := l)
    }

    /** The selected kind, when the selected name is one of the four. */
    function SelectedKind(): Option<ArtifactKind> {
      KindByName(selectedArtifactType)
    }

    /** The list View draws and selectedArtifactItem reads: the selected kind's, else the integration flows. */
    function ShownList(): (l: List<Item>)
      ensures SelectedKind().Some? ==> l == ListOf(SelectedKind().value)
      ensures SelectedKind().None? ==> l == integrationflows
    {
      match SelectedKind()
      case Some(kind) => ListOf(kind)
      case None => integrationflows
    }

    /** selectedArtifactItem. */
    function SelectedArtifactItem(): Option<Item> {
      ShownList().Selected()
    }

    /**
     * SelectedArtifactAttributes: nil without a selection; eight pairs for an
     * integration flow, four for the other kinds, none for an unknown kind.
     */
    function SelectedArtifactAttributes(timeText: TimeText): (attributes: Option<seq<Attribute>>)
      ensures attributes.None? <==> ShownList().Selected().None?
      ensures attributes.Some? && SelectedKind() == Some(IntegrationFlow) ==>
        var a := ShownList().Selected().value.artifact;
        KeysOf(attributes.value) == FlowAttributeKeys &&
        attributes.value[0].value == a.id && attributes.value[1].value == a.version &&
        attributes.value[2].value == a.name && attributes.value[3].value == a.description &&
        attributes.value[4].value == a.createdBy && attributes.value[5].value == timeText(a.createdAt) &&
        attributes.value[6].value == a.modifiedBy && attributes.value[7].value == timeText(a.modifiedAt)
      ensures attributes.Some? && SelectedKind().Some? && SelectedKind() != Some(IntegrationFlow) ==>
        var a := ShownList().Selected().value.artifact;
        KeysOf(attributes.value) == ShortAttributeKeys &&
        attributes.value[0].value == a.id && attributes.value[1].value == a.version &&
        attributes.value[2].value == a.name && attributes.value[3].value == a.description
      ensures attributes.Some? && SelectedKind().None? ==> attributes.value == []
    {
      match SelectedArtifactItem()
      case None => None
      case Some(item) =>
        var a := item.artifact;
        match SelectedKind()
        case Some(IntegrationFlow) =>
          var r := [
            Attribute("ID", a.id),
            Attribute("Version", a.version),
            Attribute("Name", a.name),
            Attribute("Description", a.description),
            Attribute("Created by", a.createdBy),
            Attribute("Created at", timeText(a.createdAt)),
            Attribute("Modified by", a.modifiedBy),
            Attribute("Modified at", timeText(a.modifiedAt))
          ];
          assert KeysOf(r) == FlowAttributeKeys;
          Some(r)
        case Some(_) =>
          var r := [
            Attribute("ID", a.id),
            Attribute("Version", a.version),
            Attribute("Name", a.name),
            Attribute("Description", a.description)
          ];
          assert KeysOf(r) == ShortAttributeKeys;
          Some(r)
        case None => Some([])
    }

    /** The ID of the selected artifact, absent without a selection. */
    function SelectedArtifactID(): (id: Option<string>)
      ensures id.None? <==> ShownList().Selected().None?
      ensures id.Some? ==> id.value == ShownList().Selected().value.artifact.id
    {
      match SelectedArtifactItem()
      case None => None
      case Some(item) => Some(item.artifact.id)
    }
  }

  /** New: four empty lists, integration flows selected. */
  function New(): (s: State)
    ensures forall kind :: s.ListOf(kind) == Empty()
    ensures s.SelectedKind() == Some(IntegrationFlow)
  {
    KindByNameOfName(IntegrationFlow);
    State(Empty(), Empty(), Empty(), Empty(), Name(IntegrationFlow))
  }

  /** The batch Init returns: one deferred reset per kind. */
  function InitCmds(): (cmds: multiset<Cmd>)
    ensures |cmds| == |Kinds|
    ensures forall c :: c in cmds ==> c.InitArtifacts?
  {
    multiset{InitArtifacts(IntegrationFlow), InitArtifacts(ValueMapping),
             InitArtifacts(MessageMapping), InitArtifacts(ScriptCollection)}
  }

  /** Init: selects integration flows at once; the lists are reset only when the commands run. */
  function InitState(s: State): (State, multiset<Cmd>) {
    (s.(selectedArtifactType := Name(IntegrationFlow)), InitCmds())
  }

  /** What one of the four *InitCmd does when it runs: reset its list's cursor, deliver an empty collection. */
  function PerformInit(s: State, kind: ArtifactKind): (State, Msg) {
    (s.WithList(kind, s.ListOf(kind).ResetSelected()), ArtifactsMsg(kind, []))
  }

  /** IntegrationArtifactsByPackageCmd: one fetch per kind, all for the same package. */
  function ArtifactsByPackageCmd(packageID: string): (cmds: multiset<Cmd>)
    ensures |cmds| == |Kinds|
    ensures forall c :: c in cmds ==> c.FetchArtifacts? && c.packageId == packageID
  {
    multiset{FetchArtifacts(packageID, IntegrationFlow), FetchArtifacts(packageID, ValueMapping),
             FetchArtifacts(packageID, MessageMapping), FetchArtifacts(packageID, ScriptCollection)}
  }

  /** Init's batch holds exactly one reset per kind. */
  lemma InitCmdsOnePerKind(kind: ArtifactKind)
    ensures InitCmds()[InitArtifacts(kind)] == 1
  {
    match kind
    case IntegrationFlow =>
    case ValueMapping =>
    case MessageMapping =>
    case ScriptCollection =>
  }

  /** The per-package batch holds exactly one fetch per kind. */
  lemma ArtifactsByPackageOnePerKind(packageID: string, kind: ArtifactKind)
    ensures ArtifactsByPackageCmd(packageID)[FetchArtifacts(packageID, kind)] == 1
  {
    match kind
    case IntegrationFlow =>
    case ValueMapping =>
    case MessageMapping =>
    case ScriptCollection =>
  }

  /** How the pane reacts to a message: its new state and the commands it returns (none). */
  function Next(s: State, msg: Msg): (State, multiset<Cmd>) {
    match msg
    case KeyMsg(key) =>
      if (key == Up || key == Down) && s.SelectedKind().Some? then
        var kind := s.SelectedKind().value;
        (s.WithList(kind, s.ListOf(kind).Update(key)), multiset{})
      else (s, multiset{})
    case ActiveTabMsg(artifactType) => (s.(selectedArtifactType := artifactType), multiset{})
    case ArtifactsMsg(kind, artifacts) => (s.WithList(kind, s.ListOf(kind).SetItems(ItemsOf(artifacts))), multiset{})
    case _ => (s, multiset{})
  }

  class Model {
    var integrationflows: List<Item>
    var valuemappings: List<Item>
    var messagemappings: List<Item>
    var scriptcollections: List<Item>
    var selectedArtifactType: string

    function Abs(): State
      reads this
    {
      State(integrationflows, valuemappings, messagemappings, scriptcollections, selectedArtifactType)
    }

    constructor ()
      ensures Abs() == New()
    {
      integrationflows := Empty();
      valuemappings := Empty();
      messagemappings := Empty();
      scriptcollections := Empty();
      selectedArtifactType := Name(IntegrationFlow);
    }

    method Init() returns (cmds: multiset<Cmd>)
      modifies this
      ensures (Abs(), cmds) == InitState(old(Abs()))
    {
      selectedArtifactType := Name(IntegrationFlow);
      cmds := InitCmds();
    }

    method Update(msg: Msg) returns (cmds: multiset<Cmd>)
      modifies this
      ensures (Abs(), cmds) == Next(old(Abs()), msg)
    {
      cmds := multiset{};
      match msg {
        case KeyMsg(key) =>
          if key == Up || key == Down {
            if selectedArtifactType == Name(IntegrationFlow) {
              KindByNameOfName(IntegrationFlow);
              integrationflows := integrationflows.Update(key);
            } else if selectedArtifactType == Name(ValueMapping) {
              KindByNameOfName(ValueMapping);
              valuemappings := valuemappings.Update(key);
            } else if selectedArtifactType == Name(MessageMapping) {
              KindByNameOfName(MessageMapping);
              messagemappings := messagemappings.Update(key);
            } else if selectedArtifactType == Name(ScriptCollection) {
              KindByNameOfName(ScriptCollection);
              scriptcollections := scriptcollections.Update(key);
            }
          }
        case ActiveTabMsg(artifactType) =>
          selectedArtifactType := artifactType;
        case ArtifactsMsg(kind, artifacts) =>
          var items := ArtifactsToList(artifacts);
          match kind {
            case IntegrationFlow => integrationflows := integrationflows.SetItems(items);
            case ValueMapping => valuemappings := valuemappings.SetItems(items);
            case MessageMapping => messagemappings := messagemappings.SetItems(items);
            case ScriptCollection => scriptcollections := scriptcollections.SetItems(items);
          }
        case _ =>
      }
    }

    /** The body of IntegrationFlowsInitCmd and its three siblings, run when the runtime performs it. */
    method InitCmd(kind: ArtifactKind) returns (msg: Msg)
      modifies this
      ensures (Abs(), msg) == PerformInit(old(Abs()), kind)
    {
      match kind {
        case IntegrationFlow => integrationflows := integrationflows.ResetSelected();
        case ValueMapping => valuemappings := valuemappings.ResetSelected();
        case MessageMapping => messagemappings := messagemappings.ResetSelected();
        case ScriptCollection => scriptcollections := scriptcollections.ResetSelected();
      }
      msg := ArtifactsMsg(kind, []);
    }
  }

  /** After New and after Init the selected kind is integration_flow. */
  lemma InitSelectsIntegrationFlows(s: State)
    ensures InitState(s).0.SelectedKind() == Some(IntegrationFlow)
    ensures forall kind :: InitState(s).0.ListOf(kind) == s.ListOf(kind)
  {
    KindByNameOfName(IntegrationFlow);
  }

  /** A pushed kind name is stored as is and no list changes. */
  lemma ActiveTabKeepsLists(s: State, artifactType: string)
    ensures Next(s, ActiveTabMsg(artifactType)).0.selectedArtifactType == artifactType
    ensures forall kind :: Next(s, ActiveTabMsg(artifactType)).0.ListOf(kind) == s.ListOf(kind)
  {
  }

  /**
   * A kind's message replaces only that kind's list, with one item per
   * artifact in message order; the other lists and the selected kind stay.
   */
  lemma ArtifactsMessageReplacesOneList(s: State, kind: ArtifactKind, artifacts: seq<IntegrationArtifact>)
    ensures var r := Next(s, ArtifactsMsg(kind, artifacts)).0;
      |r.ListOf(kind).items| == |artifacts| &&
      (forall i :: 0 <= i < |artifacts| ==> r.ListOf(kind).items[i].artifact == artifacts[i]) &&
      r.ListOf(kind).Valid() &&
      (forall other :: other != kind ==> r.ListOf(other) == s.ListOf(other)) &&
      r.selectedArtifactType == s.selectedArtifactType
  {
  }

  /** Up and Down move only the selected kind's cursor, and nothing under an unknown kind. */
  lemma KeysMoveOnlySelectedList(s: State, key: Key)
    ensures var r := Next(s, KeyMsg(key)).0;
      r.selectedArtifactType == s.selectedArtifactType &&
      (forall kind :: r.ListOf(kind).items == s.ListOf(kind).items) &&
      (forall kind :: Some(kind) != s.SelectedKind() ==> r.ListOf(kind) == s.ListOf(kind))
    ensures s.SelectedKind().None? ==> Next(s, KeyMsg(key)).0 == s
  {
  }

  /** Messages for two different kinds commute. */
  lemma ArtifactsMessagesCommute(s: State, k1: ArtifactKind, a1: seq<IntegrationArtifact>, k2: ArtifactKind, a2: seq<IntegrationArtifact>)
    requires k1 != k2
    ensures Next(Next(s, ArtifactsMsg(k1, a1)).0, ArtifactsMsg(k2, a2)).0
         == Next(Next(s, ArtifactsMsg(k2, a2)).0, ArtifactsMsg(k1, a1)).0
  {
    var l := Next(Next(s, ArtifactsMsg(k1, a1)).0, ArtifactsMsg(k2, a2)).0;
    var r := Next(Next(s, ArtifactsMsg(k2, a2)).0, ArtifactsMsg(k1, a1)).0;
    assert forall kind :: l.ListOf(kind) == r.ListOf(kind);
    assert l.integrationflows == r.integrationflows by { assert l.ListOf(IntegrationFlow) == r.ListOf(IntegrationFlow); }
    assert l.valuemappings == r.valuemappings by { assert l.ListOf(ValueMapping) == r.ListOf(ValueMapping); }
    assert l.messagemappings == r.messagemappings by { assert l.ListOf(MessageMapping) == r.ListOf(MessageMapping); }
    assert l.scriptcollections == r.scriptcollections by { assert l.ListOf(ScriptCollection) == r.ListOf(ScriptCollection); }
  }

  /** Performing one kind's init command and delivering its message. */
  function InitOne(s: State, kind: ArtifactKind): State {
    var (s1, msg) := PerformInit(s, kind);
    Next(s1, msg).0
  }

  /** Running and delivering the init commands of the given kinds, in the given order. */
  function InitInOrder(s: State, order: seq<ArtifactKind>): State
    decreases |order|
  {
    if |order| == 0 then s else InitInOrder(InitOne(s, order[0]), order[1..])
  }

  /** One init command empties its own list and leaves the rest alone. */
  lemma InitOneEmpties(s: State, kind: ArtifactKind)
    ensures InitOne(s, kind).ListOf(kind) == Empty()
    ensures forall other :: other != kind ==> InitOne(s, kind).ListOf(other) == s.ListOf(other)
    ensures InitOne(s, kind).selectedArtifactType == s.selectedArtifactType
  {
  }

  /**
   * Whatever order the runtime delivers them in, once the init commands of
   * some kinds have run and been delivered, exactly those kinds' lists are empty.
   */
  lemma {:induction false} InitInOrderEmpties(s: State, order: seq<ArtifactKind>)
    ensures forall kind :: kind in order ==> InitInOrder(s, order).ListOf(kind) == Empty()
    ensures forall kind :: kind !in order ==> InitInOrder(s, order).ListOf(kind) == s.ListOf(kind)
    ensures InitInOrder(s, order).selectedArtifactType == s.selectedArtifactType
    decreases |order|
  {
    if |order| > 0 {
      var s1 := InitOne(s, order[0]);
      InitOneEmpties(s, order[0]);
      InitInOrderEmpties(s1, order[1..]);
      forall kind | kind in order
        ensures InitInOrder(s, order).ListOf(kind) == Empty()
      {
        if kind !in order[1..] {
          assert kind == order[0];
        }
      }
      forall kind | kind !in order
        ensures InitInOrder(s, order).ListOf(kind) == s.ListOf(kind)
      {
        assert kind != order[0];
        assert kind !in order[1..];
      }
    }
  }

  /** After Init and its four commands, in any order, every list is empty and integration flows are selected. */
  lemma InitEmptiesAllLists(s: State, order: seq<ArtifactKind>)
    requires multiset(order) == multiset(Kinds)
    ensures forall kind :: InitInOrder(InitState(s).0, order).ListOf(kind) == Empty()
    ensures InitInOrder(InitState(s).0, order).SelectedKind() == Some(IntegrationFlow)
  {
    InitInOrderEmpties(InitState(s).0, order);
    InitSelectsIntegrationFlows(s);
    forall kind ensures kind in order {
      KindsEnumerateAll(kind);
      assert kind in multiset(Kinds);
    }
  }
}
