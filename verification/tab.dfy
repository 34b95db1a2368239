/**
 * The tab selector over the four artifact kinds
 * (internal/ui/components/artifactspane/tab/tab.go).
 */
module TabSelector {
  import opened Wrappers
  import opened ApiTypes
  import opened Messages

  /** A tab: the artifact kind name it selects and its caption (the label shown). */
  datatype Tab = Tab(artifactType: string, caption: string)

  /** The tabs New builds, one per kind in declaration order. */
  function DefaultTabs(): (tabs: seq<Tab>)
    ensures |tabs| == |Kinds|
    ensures forall i :: 0 <= i < |tabs| ==> tabs[i].artifactType == Name(Kinds[i])
  {
    [ Tab.Tab(Name(IntegrationFlow), "Integration flows"),
      Tab.Tab(Name(ValueMapping), "Value mappings"),
      Tab.Tab(Name(MessageMapping), "Message mappings"),
      Tab.Tab(Name(ScriptCollection), "Script collections") ]
  }

  /** Go's `%` on int, which truncates toward zero. */
  function GoRem(a: int, n: int): int
    requires n > 0
  {
    if a >= 0 then a % n else -((-a) % n)
  }

  /** slices.IndexFunc for a matching artifact type: the first index, or -1 on a miss. */
  function IndexOfArtifactType(tabs: seq<Tab>, artifactType: string): (i: int)
    ensures -1 <= i < |tabs|
    ensures i >= 0 ==> tabs[i].artifactType == artifactType
    ensures forall j :: 0 <= j < |tabs| && (i == -1 || j < i) ==> tabs[j].artifactType != artifactType
  {
    if |tabs| == 0 then -1
    else if tabs[0].artifactType == artifactType then 0
    else
      var i := IndexOfArtifactType(tabs[1..], artifactType);
      if i == -1 then -1 else i + 1
  }

  /** The number of tabs. */
  const TabCount := 4

  /**
   * How the selector reacts to a message: the new active index and the
   * commands it returns. Left and Right rotate (and return the command that
   * reports the new active kind); a kind pushed from outside resynchronises
   * the index by name.
   */
  function Next(activeTabID: int, msg: Msg): (int, multiset<Cmd>) {
    match msg
    case KeyMsg(key) =>
      if key == Left then (GoRem(activeTabID - 1 + TabCount, TabCount), multiset{ActiveTab})
      else if key == Right then (GoRem(activeTabID + 1, TabCount), multiset{ActiveTab})
      else (activeTabID, multiset{})
    case ActiveTabMsg(artifactType) => (IndexOfArtifactType(DefaultTabs(), artifactType), multiset{})
    case _ => (activeTabID, multiset{})
  }

  /** artifactTypeByActiveTab: the source indexes the tab list, so the index must be in range. */
  function ArtifactTypeByActiveTab(activeTabID: int): string
    requires 0 <= activeTabID < TabCount
  {
    DefaultTabs()[activeTabID].artifactType
  }

  class Model {
    const tabs: seq<Tab>
    var activeTabID: int

    ghost predicate Valid()
      reads this
    {
      tabs == DefaultTabs()
    }

    /** New: the four tabs, the first one active. */
    constructor ()
      ensures Valid() && activeTabID == 0
    {
      tabs := DefaultTabs();
      activeTabID := 0;
    }

    /** Init: back to the first tab, no command. */
    method Init() returns (cmds: multiset<Cmd>)
      modifies this
      ensures activeTabID == 0 && cmds == multiset{}
    {
      activeTabID := 0;
      cmds := multiset{};
    }

    method Update(msg: Msg) returns (cmds: multiset<Cmd>)
      requires Valid()
      modifies this
      ensures (activeTabID, cmds) == Next(old(activeTabID), msg)
    {
      assert |tabs| == TabCount;
      cmds := multiset{};
      match msg {
        case KeyMsg(key) =>
          if key == Left {
            activeTabID := GoRem(activeTabID - 1 + |tabs|, |tabs|);
            cmds := cmds + multiset{ActiveTab};
            assert cmds == multiset{ActiveTab};
            assert Next(old(activeTabID), msg).0 == GoRem(old(activeTabID) - 1 + TabCount, TabCount);
          } else if key == Right {
            activeTabID := GoRem(activeTabID + 1, |tabs|);
            cmds := cmds + multiset{ActiveTab};
            assert cmds == multiset{ActiveTab};
            assert Next(old(activeTabID), msg).0 == GoRem(old(activeTabID) + 1, TabCount);
          }
        case ActiveTabMsg(artifactType) =>
          activeTabID := TabIDByArtifactType(artifactType);
        case _ =>
      }
    }

    function TabIDByArtifactType(artifactType: string): int
      reads this
    {
      IndexOfArtifactType(tabs, artifactType)
    }
  }

  /** Rotation keeps the index in [0, 4), also from the -1 a missed lookup leaves. */
  lemma RotationInRange(activeTabID: int, key: Key)
    requires -1 <= activeTabID < TabCount
    requires key == Left || key == Right
    ensures 0 <= Next(activeTabID, KeyMsg(key)).0 < TabCount
    ensures Next(activeTabID, KeyMsg(key)).1 == multiset{ActiveTab}
  {
  }

  /** Right is (i + 1) mod 4 and Left is (i + 3) mod 4 on a valid index. */
  lemma RotationIsModular(activeTabID: int)
    requires 0 <= activeTabID < TabCount
    ensures Next(activeTabID, KeyMsg(Right)).0 == (activeTabID + 1) % TabCount
    ensures Next(activeTabID, KeyMsg(Left)).0 == (activeTabID + TabCount - 1) % TabCount
  {
  }

  /** Right then Left, and Left then Right, restore the index. */
  lemma RightLeftRestores(activeTabID: int)
    requires 0 <= activeTabID < TabCount
    ensures Next(Next(activeTabID, KeyMsg(Right)).0, KeyMsg(Left)).0 == activeTabID
    ensures Next(Next(activeTabID, KeyMsg(Left)).0, KeyMsg(Right)).0 == activeTabID
  {
  }

  /** Four presses of Right. */
  function RightTimes(activeTabID: int, n: nat): int {
    if n == 0 then activeTabID else Next(RightTimes(activeTabID, n - 1), KeyMsg(Right)).0
  }

  /** Four Rights restore the index. */
  lemma FourRightsRestore(activeTabID: int)
    requires 0 <= activeTabID < TabCount
    ensures RightTimes(activeTabID, 4) == activeTabID
  {
    var i := activeTabID;
    assert RightTimes(i, 1) == Next(i, KeyMsg(Right)).0 == (i + 1) % TabCount;
    assert RightTimes(i, 2) == Next(RightTimes(i, 1), KeyMsg(Right)).0 == (i + 2) % TabCount;
    assert RightTimes(i, 3) == Next(RightTimes(i, 2), KeyMsg(Right)).0 == (i + 3) % TabCount;
    assert RightTimes(i, 4) == Next(RightTimes(i, 3), KeyMsg(Right)).0 == i;
  }

  /** The position of a kind in the tab list. */
  function PositionOf(kind: ArtifactKind): (i: int)
    ensures 0 <= i < TabCount && Kinds[i] == kind
  {
    match kind
    case IntegrationFlow => 0
    case ValueMapping => 1
    case MessageMapping => 2
    case ScriptCollection => 3
  }

  /** A pushed known kind moves the index to that kind's tab, emits nothing, and that kind is then active. */
  lemma ResyncKnownKind(activeTabID: int, kind: ArtifactKind)
    ensures Next(activeTabID, ActiveTabMsg(Name(kind))).0 == PositionOf(kind)
    ensures Next(activeTabID, ActiveTabMsg(Name(kind))).1 == multiset{}
    ensures ArtifactTypeByActiveTab(PositionOf(kind)) == Name(kind)
  {
    var i := Next(activeTabID, ActiveTabMsg(Name(kind))).0;
    NamesDistinct(Kinds[i], kind);
  }

  /** A pushed unknown name leaves the index at -1, out of range for artifactTypeByActiveTab. */
  lemma ResyncUnknownKind(activeTabID: int, artifactType: string)
    requires KindByName(artifactType).None?
    ensures Next(activeTabID, ActiveTabMsg(artifactType)).0 == -1
  {
  }

  /** The tab at a valid index names one of the four kinds. */
  lemma ActiveTypeIsKnown(activeTabID: int)
    requires 0 <= activeTabID < TabCount
    ensures KindByName(ArtifactTypeByActiveTab(activeTabID)) == Some(Kinds[activeTabID])
  {
    KindByNameOfName(Kinds[activeTabID]);
  }
}
