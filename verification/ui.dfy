/**
 * The root coordinator of the terminal UI (internal/ui/ui.go): focus,
 * visibility of the artifacts pane, layout and the sticky error, and the
 * routing of every message to the child components.
 */
module Ui {
  import opened Wrappers
  import opened ApiTypes
  import opened Messages
  import opened ListWidget
  import P = ContentPackagePane
  import A = IntegrationArtifactPane
  import T = TabSelector
  import Attr = AttributePanel
  import S = StatusBar

  /** The focusable panes; the attributes pane is declared but never focused. */
  datatype Pane = PackagesPane | ArtifactsPane | AttributesPane | NoPane

  const LayoutNormal := 0
  const LayoutCompact := 1

  /** The configured layout names, after defaulting. */
  const ConfigLayoutNormal := "normal"
  const ConfigLayoutCompact := "compact"

  /** The whole observable state of the program: the root's fields and the children's. */
  datatype AppState = AppState(
    packages: List<P.Item>,
    artifacts: A.State,
    tabID: int,
    rows: seq<Attr.Row>,
    tenant: string,
    status: string,
    layout: int,
    activePane: Pane,
    showArtifacts: bool,
    err: Option<string>)

  /** The layout NewModel picks from the configured name; anything else leaves Go's zero value. */
  function InitialLayout(configLayout: string): (layout: int)
    ensures layout == LayoutCompact <==> configLayout == ConfigLayoutCompact
    ensures layout == LayoutNormal || layout == LayoutCompact
  {
    if configLayout == ConfigLayoutNormal then LayoutNormal
    else if configLayout == ConfigLayoutCompact then LayoutCompact
    else LayoutNormal
  }

  /** NewModel, with the configuration values as parameters. */
  function Initial(configLayout: string, tenantName: string, webUIURL: string): AppState {
    AppState(Empty(), A.New(), 0, [], tenantName, webUIURL, InitialLayout(configLayout), NoPane, false, None)
  }

  /** Init: the batch of every child's Init plus the window title; two children reset at once. */
  function InitStep(s: AppState): (AppState, multiset<Cmd>) {
    var (artifacts, artifactCmds) := A.InitState(s.artifacts);
    (s.(artifacts := artifacts, tabID := 0),
     multiset{SetWindowTitle, FetchPackages} + artifactCmds + multiset{Attr.AttributesInitCmd()})
  }

  /** The command pushing the selected package's attributes (nil becomes an empty table). */
  function PackageAttributesCmd(packages: List<P.Item>, timeText: TimeText): Cmd {
    Attr.AttributesCmd(AsSlice(P.SelectedPackageAttributes(packages, timeText)))
  }

  /** The command pushing the selected artifact's attributes. */
  function ArtifactAttributesCmd(artifacts: A.State, timeText: TimeText): Cmd {
    Attr.AttributesCmd(AsSlice(artifacts.SelectedArtifactAttributes(timeText)))
  }

  /** The artifact fetches for the selected package, none without a selection. */
  function FetchesForSelection(packages: List<P.Item>): (cmds: multiset<Cmd>)
    ensures P.SelectedPackageID(packages).None? ==> cmds == multiset{}
    ensures P.SelectedPackageID(packages).Some? ==> cmds == A.ArtifactsByPackageCmd(P.SelectedPackageID(packages).value)
  {
    match P.SelectedPackageID(packages)
    case None => multiset{}
    case Some(id) => A.ArtifactsByPackageCmd(id)
  }

  /** Up and Down: the focused list moves and its selection's attributes are pushed. */
  function UpDownStep(s: AppState, key: Key, timeText: TimeText): (AppState, multiset<Cmd>) {
    if s.activePane == PackagesPane then
      var packages := P.Next(s.packages, KeyMsg(key)).0;
      var (artifacts, artifactCmds) := A.InitState(s.artifacts);
      (s.(showArtifacts := false, packages := packages, artifacts := artifacts, tabID := 0),
       artifactCmds + multiset{PackageAttributesCmd(packages, timeText)})
    else if s.activePane == ArtifactsPane then
      var artifacts := A.Next(s.artifacts, KeyMsg(key)).0;
      (s.(showArtifacts := true, artifacts := artifacts), multiset{ArtifactAttributesCmd(artifacts, timeText)})
    else (s, multiset{})
  }

  /** Left and Right rotate the tabs while the artifacts pane is focused. */
  function RotateStep(s: AppState, key: Key): (AppState, multiset<Cmd>) {
    if s.activePane == ArtifactsPane then
      var (tabID, tabCmds) := T.Next(s.tabID, KeyMsg(key));
      (s.(showArtifacts := true, tabID := tabID), tabCmds)
    else (s, multiset{})
  }

  /** Tab moves the focus between the two list panes. */
  function TabStep(s: AppState, timeText: TimeText): (AppState, multiset<Cmd>) {
    if s.activePane == PackagesPane then
      (s.(activePane := ArtifactsPane, showArtifacts := true), multiset{ArtifactAttributesCmd(s.artifacts, timeText)})
    else if s.activePane == ArtifactsPane then
      (s.(activePane := PackagesPane, showArtifacts := false), multiset{PackageAttributesCmd(s.packages, timeText)})
    else (s, multiset{})
  }

  /** Enter on the packages pane: open the artifacts of the selected package. */
  function EnterStep(s: AppState): (AppState, multiset<Cmd>) {
    if s.activePane == PackagesPane then
      var (artifacts, artifactCmds) := A.InitState(s.artifacts);
      (s.(showArtifacts := true, artifacts := artifacts, tabID := 0),
       artifactCmds + FetchesForSelection(s.packages))
    else (s, multiset{})
  }

  /** Refresh: refetch what the focused pane shows. */
  function RefreshStep(s: AppState): (AppState, multiset<Cmd>) {
    if s.activePane == PackagesPane then
      var (artifacts, artifactCmds) := A.InitState(s.artifacts);
      (s.(artifacts := artifacts, tabID := 0), artifactCmds + multiset{FetchPackages})
    else if s.activePane == ArtifactsPane then (s, FetchesForSelection(s.packages))
    else (s, multiset{})
  }

  /** Open: the browser command for the focused pane's selection, if any. */
  function OpenCmds(s: AppState): multiset<Cmd> {
    if s.activePane == PackagesPane then
      match P.SelectedPackageID(s.packages)
      case Some(id) => multiset{OpenURL(PackageLink(id))}
      case None => multiset{}
    else if s.activePane == ArtifactsPane then
      match s.artifacts.SelectedArtifactID()
      case Some(id) => multiset{OpenURL(ArtifactLink(s.artifacts.selectedArtifactType, id))}
      case None => multiset{}
    else multiset{}
  }

  /** The reaction to a key. */
  function KeyStep(s: AppState, key: Key, timeText: TimeText): (AppState, multiset<Cmd>) {
    if key == Quit then (s, multiset{QuitProgram})
    else if key == Up || key == Down then UpDownStep(s, key, timeText)
    else if key == Left || key == Right then RotateStep(s, key)
    else if key == Enter then EnterStep(s)
    else if key == Tab then TabStep(s, timeText)
    else if key == Refresh then RefreshStep(s)
    else if key == Open then (s, OpenCmds(s))
    else if key == Layout then (s, multiset{ToggleLayout(s.layout)})
    else (s, multiset{})
  }

  /** Update: the new state and the batch of commands for one message. */
  function Step(s: AppState, msg: Msg, timeText: TimeText): (AppState, multiset<Cmd>) {
    if msg.KeyMsg? then KeyStep(s, msg.key, timeText) else MessageStep(s, msg, timeText)
  }

  /** The reaction to every message other than a key. */
  function MessageStep(s: AppState, msg: Msg, timeText: TimeText): (AppState, multiset<Cmd>)
    requires !msg.KeyMsg?
  {
    match msg
    case LayoutMsg(layout) => (s.(layout := layout), multiset{})
    case ContentPackagesMsg(_) =>
      var (packages, packageCmds) := P.Next(s.packages, msg);
      (s.(activePane := PackagesPane, showArtifacts := false, packages := packages),
       packageCmds + multiset{PackageAttributesCmd(packages, timeText)})
    case ActiveTabMsg(_) =>
      if s.activePane == ArtifactsPane then
        var artifacts := A.Next(s.artifacts, msg).0;
        (s.(showArtifacts := true, tabID := T.Next(s.tabID, msg).0, artifacts := artifacts),
         multiset{ArtifactAttributesCmd(artifacts, timeText)})
      else (s, multiset{})
    case ArtifactsMsg(_, _) =>
      var (artifacts, artifactCmds) := A.Next(s.artifacts, msg);
      (s.(artifacts := artifacts),
       artifactCmds + if s.activePane == ArtifactsPane then multiset{ArtifactAttributesCmd(artifacts, timeText)} else multiset{})
    case AttributesMsg(_) =>
      var (rows, rowCmds) := Attr.Next(s.rows, msg);
      (s.(rows := rows), rowCmds)
    case StatusMsg(_) =>
      var (status, statusCmds) := S.Next(s.status, msg);
      (s.(status := status), statusCmds)
    case ErrorMsg(error) => (s.(err := Some(error)), multiset{})
    case OtherMsg => (s, multiset{})
  }

  /** The message ToggleLayoutCmd's closure returns for the layout it reads. */
  function Toggled(layout: int): (next: int)
    ensures layout == LayoutNormal ==> next == LayoutCompact
    ensures layout != LayoutNormal ==> next == LayoutNormal
  {
    if layout == LayoutNormal then LayoutCompact
    else if layout == LayoutCompact then LayoutNormal
    else LayoutNormal
  }

  /** What View draws, abstracted from styling: the error panel, or the dashboard's parts. */
  datatype Screen =
    | ErrorScreen(error: string)
    | Dashboard(packagesActive: bool, artifactsActive: bool, artifactsContent: bool, titleBar: bool, statusBar: bool)

  function View(s: AppState): (screen: Screen)
    ensures screen.ErrorScreen? <==> s.err.Some?
    ensures s.err.Some? ==> screen.error == s.err.value
    ensures screen.Dashboard? ==>
      (screen.packagesActive <==> s.activePane == PackagesPane) &&
      (screen.artifactsActive <==> s.activePane == ArtifactsPane) &&
      (screen.artifactsContent <==> s.showArtifacts) &&
      (screen.titleBar <==> s.layout != LayoutCompact) &&
      (screen.statusBar <==> s.layout != LayoutCompact)
  {
    match s.err
    case Some(error) => ErrorScreen(error)
    case None =>
      var bars := s.layout != LayoutCompact;
      Dashboard(s.activePane == PackagesPane, s.activePane == ArtifactsPane, s.showArtifacts, bars, bars)
  }

  class Model {
    const packages: P.Model
    const artifacts: A.Model
    const attributes: Attr.Model
    const tabs: T.Model
    const statusbar: S.Model
    const timeText: TimeText
    var layout: int
    var activePane: Pane
    var showArtifacts: bool
    var err: Option<string>

    ghost predicate Valid()
      reads this, tabs
    {
      tabs.Valid()
    }

    function Abs(): AppState
      reads this, packages, artifacts, attributes, tabs, statusbar
    {
      AppState(packages.packages, artifacts.Abs(), tabs.activeTabID, attributes.rows,
               statusbar.tenant, statusbar.message, layout, activePane, showArtifacts, err)
    }

    /** NewModel. */
    constructor (configLayout: string, tenantName: string, webUIURL: string, timeText: TimeText)
      ensures Valid() && Abs() == Initial(configLayout, tenantName, webUIURL) && this.timeText == timeText
      ensures fresh(packages) && fresh(artifacts) && fresh(attributes) && fresh(tabs) && fresh(statusbar)
    {
      packages := new P.Model();
      artifacts := new A.Model();
      attributes := new Attr.Model();
      tabs := new T.Model();
      statusbar := new S.Model(tenantName, webUIURL);
      this.timeText := timeText;
      var initialLayout := LayoutNormal;
      if configLayout == ConfigLayoutNormal {
        initialLayout := LayoutNormal;
      } else if configLayout == ConfigLayoutCompact {
        initialLayout := LayoutCompact;
      }
      layout := initialLayout;
      activePane := NoPane;
      showArtifacts := false;
      err := None;
    }

    method Init() returns (cmds: multiset<Cmd>)
      modifies artifacts, tabs
      ensures (Abs(), cmds) == InitStep(old(Abs()))
    {
      var packageCmds := packages.Init();
      var artifactCmds := artifacts.Init();
      var attributeCmds := attributes.Init();
      var tabCmds := tabs.Init();
      var statusCmds := statusbar.Init();
      cmds := multiset{SetWindowTitle} + packageCmds + artifactCmds + attributeCmds + tabCmds + statusCmds;
      assert cmds == multiset{SetWindowTitle, FetchPackages} + artifactCmds + multiset{Attr.AttributesInitCmd()};
    }

    /** The command pushing the selected package's attributes. */
    function PackageAttributes(): Cmd
      reads this, packages
    {
      PackageAttributesCmd(packages.packages, timeText)
    }

    /** The command pushing the selected artifact's attributes. */
    function ArtifactAttributes(): Cmd
      reads this, artifacts
    {
      ArtifactAttributesCmd(artifacts.Abs(), timeText)
    }

    /** ToggleLayoutCmd: the closure reads the layout of the copy Update works on, which no branch changes. */
    function ToggleLayoutCmd(): (cmd: Cmd)
      reads this
      ensures cmd.ToggleLayout? && cmd.layout == layout
    {
      ToggleLayout(layout)
    }

    method Update(msg: Msg) returns (cmds: multiset<Cmd>)
      requires Valid()
      modifies this, packages, artifacts, attributes, tabs, statusbar
      ensures Valid()
      ensures (Abs(), cmds) == Step(old(Abs()), msg, timeText)
    {
      if msg.KeyMsg? {
        cmds := UpdateKey(msg.key);
      } else {
        cmds := UpdateMessage(msg);
      }
    }

    /** The branches of Update for messages other than keys. */
    method UpdateMessage(msg: Msg) returns (cmds: multiset<Cmd>)
      requires Valid() && !msg.KeyMsg?
      modifies this, packages, artifacts, attributes, tabs, statusbar
      ensures Valid()
      ensures (Abs(), cmds) == MessageStep(old(Abs()), msg, timeText)
    {
      ghost var s := Abs();
      cmds := multiset{};
      match msg {
        case LayoutMsg(l) =>
          layout := l;
        case ContentPackagesMsg(_) =>
          cmds := UpdatePackagesMessage(msg);
        case ActiveTabMsg(_) =>
          cmds := UpdateActiveTab(msg);
        case ArtifactsMsg(_, _) =>
          cmds := UpdateArtifactsMessage(msg);
        case AttributesMsg(_) =>
          cmds := attributes.Update(msg);
          assert Abs() == s.(rows := Attr.Next(s.rows, msg).0);
        case StatusMsg(_) =>
          cmds := statusbar.Update(msg);
          assert Abs() == s.(status := S.Next(s.status, msg).0);
        case ErrorMsg(error) =>
          err := Some(error);
        case OtherMsg =>
      }
    }

    /** A new package list focuses the packages pane. */
    method UpdatePackagesMessage(msg: Msg) returns (cmds: multiset<Cmd>)
      requires msg.ContentPackagesMsg?
      modifies this, packages
      ensures (Abs(), cmds) == MessageStep(old(Abs()), msg, timeText)
    {
      ghost var s := Abs();
      activePane := PackagesPane;
      showArtifacts := false;
      var packageCmds := packages.Update(msg);
      cmds := packageCmds + multiset{PackageAttributes()};
      assert Abs() == s.(activePane := PackagesPane, showArtifacts := false, packages := P.Next(s.packages, msg).0);
    }

    /** The tab selector's kind reaches the artifacts pane only while it is focused. */
    method UpdateActiveTab(msg: Msg) returns (cmds: multiset<Cmd>)
      requires Valid() && msg.ActiveTabMsg?
      modifies this, artifacts, tabs
      ensures Valid()
      ensures (Abs(), cmds) == MessageStep(old(Abs()), msg, timeText)
    {
      ghost var s := Abs();
      cmds := multiset{};
      if activePane == ArtifactsPane {
        showArtifacts := true;
        var _ := tabs.Update(msg);
        var _ := artifacts.Update(msg);
        cmds := multiset{ArtifactAttributes()};
        assert Abs() == s.(showArtifacts := true, tabID := T.Next(s.tabID, msg).0, artifacts := A.Next(s.artifacts, msg).0);
      }
    }

    /** A kind's artifacts reach their list whatever the focus. */
    method UpdateArtifactsMessage(msg: Msg) returns (cmds: multiset<Cmd>)
      requires msg.ArtifactsMsg?
      modifies artifacts
      ensures (Abs(), cmds) == MessageStep(old(Abs()), msg, timeText)
    {
      ghost var s := Abs();
      var artifactCmds := artifacts.Update(msg);
      if activePane == ArtifactsPane {
        cmds := artifactCmds + multiset{ArtifactAttributes()};
      } else {
        cmds := artifactCmds + multiset{};
      }
      assert Abs() == s.(artifacts := A.Next(s.artifacts, msg).0);
    }

    /** The key branch of Update. */
    method UpdateKey(key: Key) returns (cmds: multiset<Cmd>)
      requires Valid()
      modifies this, packages, artifacts, tabs
      ensures Valid()
      ensures unchanged(attributes, statusbar)
      ensures (Abs(), cmds) == KeyStep(old(Abs()), key, timeText)
    {
      if key == Quit {
        cmds := multiset{QuitProgram};
      } else if key == Up || key == Down {
        cmds := UpdateUpDown(key);
      } else if key == Left || key == Right {
        cmds := UpdateRotate(key);
      } else if key == Enter {
        cmds := UpdateEnter();
      } else if key == Tab {
        cmds := UpdateTab();
      } else if key == Refresh {
        cmds := UpdateRefresh();
      } else if key == Open {
        cmds := UpdateOpen();
      } else if key == Layout {
        cmds := multiset{ToggleLayoutCmd()};
      } else {
        cmds := multiset{};
      }
    }

    method UpdateRotate(key: Key) returns (cmds: multiset<Cmd>)
      requires Valid() && (key == Left || key == Right)
      modifies this, tabs
      ensures Valid()
      ensures (Abs(), cmds) == RotateStep(old(Abs()), key)
    {
      cmds := multiset{};
      if activePane == ArtifactsPane {
        showArtifacts := true;
        cmds := tabs.Update(KeyMsg(key));
      }
    }

    method UpdateTab() returns (cmds: multiset<Cmd>)
      modifies this
      ensures (Abs(), cmds) == TabStep(old(Abs()), timeText)
    {
      cmds := multiset{};
      if activePane == PackagesPane {
        activePane := ArtifactsPane;
        showArtifacts := true;
        cmds := multiset{ArtifactAttributes()};
      } else if activePane == ArtifactsPane {
        activePane := PackagesPane;
        showArtifacts := false;
        cmds := multiset{PackageAttributes()};
      }
    }

    // In the three methods below the tab selector's Init joins the batch
    // without a command of its own.

    method UpdateUpDown(key: Key) returns (cmds: multiset<Cmd>)
      requires Valid() && (key == Up || key == Down)
      modifies this, packages, artifacts, tabs
      ensures Valid()
      ensures (Abs(), cmds) == UpDownStep(old(Abs()), key, timeText)
    {
      cmds := multiset{};
      if activePane == PackagesPane {
        cmds := UpdatePackagesCursor(key);
      } else if activePane == ArtifactsPane {
        cmds := UpdateArtifactsCursor(key);
      }
    }

    /** Up/Down on the packages pane: a new selection, so the artifacts are reset and hidden. */
    method UpdatePackagesCursor(key: Key) returns (cmds: multiset<Cmd>)
      requires Valid() && (key == Up || key == Down) && activePane == PackagesPane
      modifies this, packages, artifacts, tabs
      ensures Valid()
      ensures (Abs(), cmds) == UpDownStep(old(Abs()), key, timeText)
    {
      ghost var s := Abs();
      showArtifacts := false;
      var _ := packages.Update(KeyMsg(key));
      var artifactCmds := artifacts.Init();
      var _ := tabs.Init();
      cmds := artifactCmds + multiset{PackageAttributes()};
      assert Abs() == s.(showArtifacts := false, packages := P.Next(s.packages, KeyMsg(key)).0,
                         artifacts := A.InitState(s.artifacts).0, tabID := 0);
    }

    /** Up/Down on the artifacts pane: the shown list moves. */
    method UpdateArtifactsCursor(key: Key) returns (cmds: multiset<Cmd>)
      requires (key == Up || key == Down) && activePane == ArtifactsPane
      modifies this, artifacts
      ensures (Abs(), cmds) == UpDownStep(old(Abs()), key, timeText)
    {
      ghost var s := Abs();
      showArtifacts := true;
      var _ := artifacts.Update(KeyMsg(key));
      cmds := multiset{ArtifactAttributes()};
      assert Abs() == s.(showArtifacts := true, artifacts := A.Next(s.artifacts, KeyMsg(key)).0);
    }

    method UpdateEnter() returns (cmds: multiset<Cmd>)
      requires Valid()
      modifies this, artifacts, tabs
      ensures Valid()
      ensures (Abs(), cmds) == EnterStep(old(Abs()))
    {
      ghost var s := Abs();
      cmds := multiset{};
      if activePane == PackagesPane {
        showArtifacts := true;
        var artifactCmds := artifacts.Init();
        var _ := tabs.Init();
        cmds := artifactCmds + FetchesForSelection(packages.packages);
        assert Abs() == s.(showArtifacts := true, artifacts := A.InitState(s.artifacts).0, tabID := 0);
      }
    }

    method UpdateRefresh() returns (cmds: multiset<Cmd>)
      requires Valid()
      modifies artifacts, tabs
      ensures Valid()
      ensures (Abs(), cmds) == RefreshStep(old(Abs()))
    {
      ghost var s := Abs();
      cmds := multiset{};
      if activePane == PackagesPane {
        var artifactCmds := artifacts.Init();
        var _ := tabs.Init();
        cmds := artifactCmds + multiset{FetchPackages};
        assert Abs() == s.(artifacts := A.InitState(s.artifacts).0, tabID := 0);
      } else if activePane == ArtifactsPane {
        cmds := FetchesForSelection(packages.packages);
      }
    }

    method UpdateOpen() returns (cmds: multiset<Cmd>)
      ensures cmds == OpenCmds(Abs())
    {
      cmds := multiset{};
      if activePane == PackagesPane {
        match P.SelectedPackageID(packages.packages) {
          case Some(id) => cmds := multiset{OpenURL(PackageLink(id))};
          case None =>
        }
      } else if activePane == ArtifactsPane {
        match artifacts.Abs().SelectedArtifactID() {
          case Some(id) => cmds := multiset{OpenURL(ArtifactLink(artifacts.selectedArtifactType, id))};
          case None =>
        }
      }
    }
  }

  /** NewModel starts unfocused, with the artifacts pane hidden, no error, and compact only if configured so. */
  lemma InitialState(configLayout: string, tenantName: string, webUIURL: string)
    ensures var s := Initial(configLayout, tenantName, webUIURL);
      s.activePane == NoPane && !s.showArtifacts && s.err.None? &&
      (s.layout == LayoutCompact <==> configLayout == ConfigLayoutCompact) &&
      (s.layout == LayoutNormal <==> configLayout != ConfigLayoutCompact) &&
      s.artifacts.SelectedKind() == Some(IntegrationFlow) && s.tabID == 0 &&
      s.tenant == tenantName && s.status == webUIURL
  {
  }

  /** Tab moves focus Packages to Artifacts and back, showing or hiding the artifacts and pushing the focused pane's attributes. */
  lemma TabSwitchesFocus(s: AppState, timeText: TimeText)
    ensures s.activePane == PackagesPane ==>
      Step(s, KeyMsg(Tab), timeText) ==
        (s.(activePane := ArtifactsPane, showArtifacts := true), multiset{ArtifactAttributesCmd(s.artifacts, timeText)})
    ensures s.activePane == ArtifactsPane ==>
      Step(s, KeyMsg(Tab), timeText) ==
        (s.(activePane := PackagesPane, showArtifacts := false), multiset{PackageAttributesCmd(s.packages, timeText)})
    ensures s.activePane != PackagesPane && s.activePane != ArtifactsPane ==>
      Step(s, KeyMsg(Tab), timeText) == (s, multiset{})
  {
  }

  /** Two Tabs restore the focus, whatever it was. */
  lemma TwoTabsRestoreFocus(s: AppState, timeText: TimeText)
    ensures Step(Step(s, KeyMsg(Tab), timeText).0, KeyMsg(Tab), timeText).0.activePane == s.activePane
    ensures Step(Step(s, KeyMsg(Tab), timeText).0, KeyMsg(Tab), timeText).0.showArtifacts ==
      (if s.activePane == PackagesPane then false else if s.activePane == ArtifactsPane then true else s.showArtifacts)
  {
    TabSwitchesFocus(s, timeText);
    TabSwitchesFocus(Step(s, KeyMsg(Tab), timeText).0, timeText);
  }

  /** Left, Right and a pushed kind do nothing unless the artifacts pane has the focus. */
  lemma TabKeysNeedArtifactsFocus(s: AppState, artifactType: string, timeText: TimeText)
    requires s.activePane != ArtifactsPane
    ensures Step(s, KeyMsg(Left), timeText) == (s, multiset{})
    ensures Step(s, KeyMsg(Right), timeText) == (s, multiset{})
    ensures Step(s, ActiveTabMsg(artifactType), timeText) == (s, multiset{})
  {
  }

  /** With the artifacts pane focused, Left and Right rotate the tab and ask for the new kind to be reported. */
  lemma TabKeysRotateOnArtifactsFocus(s: AppState, key: Key, timeText: TimeText)
    requires s.activePane == ArtifactsPane && 0 <= s.tabID < T.TabCount
    requires key == Left || key == Right
    ensures var (r, cmds) := Step(s, KeyMsg(key), timeText);
      r == s.(showArtifacts := true, tabID := r.tabID) && 0 <= r.tabID < T.TabCount &&
      r.tabID == (if key == Right then (s.tabID + 1) % T.TabCount else (s.tabID + T.TabCount - 1) % T.TabCount) &&
      cmds == multiset{ActiveTab}
  {
    T.RotationIsModular(s.tabID);
  }

  /**
   * Enter on the packages pane shows the artifacts, resets tab and kind, and
   * fetches the four kinds for the selected package, or nothing without one.
   */
  lemma EnterOpensArtifacts(s: AppState, timeText: TimeText)
    requires s.activePane == PackagesPane
    ensures var (r, cmds) := Step(s, KeyMsg(Enter), timeText);
      r.showArtifacts && r.tabID == 0 && r.artifacts.SelectedKind() == Some(IntegrationFlow) &&
      r.activePane == PackagesPane && r.packages == s.packages &&
      (forall kind :: r.artifacts.ListOf(kind) == s.artifacts.ListOf(kind)) &&
      (forall kind :: cmds[InitArtifacts(kind)] == 1) &&
      (P.SelectedPackageID(s.packages).Some? ==>
        forall kind :: cmds[FetchArtifacts(P.SelectedPackageID(s.packages).value, kind)] == 1) &&
      (P.SelectedPackageID(s.packages).None? ==> forall c :: c in cmds ==> !c.FetchArtifacts?)
  {
    var (r, cmds) := Step(s, KeyMsg(Enter), timeText);
    A.InitSelectsIntegrationFlows(s.artifacts);
    forall kind ensures cmds[InitArtifacts(kind)] == 1 {
      A.InitCmdsOnePerKind(kind);
    }
    if P.SelectedPackageID(s.packages).Some? {
      var id := P.SelectedPackageID(s.packages).value;
      forall kind ensures cmds[FetchArtifacts(id, kind)] == 1 {
        A.ArtifactsByPackageOnePerKind(id, kind);
      }
    }
  }

  /** Enter does nothing off the packages pane. */
  lemma EnterNeedsPackagesFocus(s: AppState, timeText: TimeText)
    requires s.activePane != PackagesPane
    ensures Step(s, KeyMsg(Enter), timeText) == (s, multiset{})
  {
  }

  /**
   * Up/Down on the packages pane hides the artifacts, moves the package
   * cursor, resets tab and kind and pushes the new selection's attributes;
   * on the artifacts pane it moves the shown list's cursor; elsewhere nothing.
   */
  lemma UpDownFollowFocus(s: AppState, key: Key, timeText: TimeText)
    requires key == Up || key == Down
    ensures var (r, cmds) := Step(s, KeyMsg(key), timeText);
      (s.activePane == PackagesPane ==>
        !r.showArtifacts && r.packages == s.packages.Update(key) && r.tabID == 0 &&
        r.artifacts.SelectedKind() == Some(IntegrationFlow) &&
        PushAttributes(AsSlice(P.SelectedPackageAttributes(r.packages, timeText))) in cmds) &&
      (s.activePane == ArtifactsPane ==>
        r == s.(showArtifacts := true, artifacts := A.Next(s.artifacts, KeyMsg(key)).0) &&
        cmds == multiset{PushAttributes(AsSlice(r.artifacts.SelectedArtifactAttributes(timeText)))}) &&
      (s.activePane != PackagesPane && s.activePane != ArtifactsPane ==> r == s && cmds == multiset{})
  {
    A.InitSelectsIntegrationFlows(s.artifacts);
  }

  /** A packages message always focuses the packages pane and hides the artifacts, whatever the focus was. */
  lemma PackagesMessageFocusesPackages(s: AppState, fetched: seq<ContentPackage>, timeText: TimeText)
    ensures var (r, cmds) := Step(s, ContentPackagesMsg(fetched), timeText);
      r.activePane == PackagesPane && !r.showArtifacts &&
      r.packages == s.packages.SetItems(P.ItemsOf(fetched)) &&
      cmds == multiset{PushAttributes(AsSlice(P.SelectedPackageAttributes(r.packages, timeText)))}
  {
  }

  /** The layout key changes nothing by itself; it emits the toggle for the current layout. */
  lemma LayoutKeyDefersToggle(s: AppState, timeText: TimeText)
    ensures Step(s, KeyMsg(Layout), timeText) == (s, multiset{ToggleLayout(s.layout)})
  {
  }

  /** Toggling maps normal to compact and compact to normal, and twice restores a valid layout. */
  lemma ToggleTwiceRestores(layout: int)
    requires layout == LayoutNormal || layout == LayoutCompact
    ensures Toggled(layout) != layout
    ensures Toggled(Toggled(layout)) == layout
  {
  }

  /** Which branch of KeyStep each key takes. */
  lemma KeyStepCases(s: AppState, key: Key, timeText: TimeText)
    ensures key == Up || key == Down ==> KeyStep(s, key, timeText) == UpDownStep(s, key, timeText)
    ensures key == Left || key == Right ==> KeyStep(s, key, timeText) == RotateStep(s, key)
    ensures key == Enter ==> KeyStep(s, key, timeText) == EnterStep(s)
    ensures key == Tab ==> KeyStep(s, key, timeText) == TabStep(s, timeText)
    ensures key == Refresh ==> KeyStep(s, key, timeText) == RefreshStep(s)
    ensures key == Open ==> KeyStep(s, key, timeText) == (s, OpenCmds(s))
    ensures key == Quit || key == Layout || key == OtherKey ==> KeyStep(s, key, timeText).0 == s
  {
  }

  /** No key touches the stored error. */
  lemma KeysKeepError(s: AppState, key: Key, timeText: TimeText)
    ensures KeyStep(s, key, timeText).0.err == s.err
  {
    KeyStepCases(s, key, timeText);
    if key == Up || key == Down {
      assert UpDownStep(s, key, timeText).0.err == s.err;
    } else if key == Enter {
      assert EnterStep(s).0.err == s.err;
    } else if key == Refresh {
      assert RefreshStep(s).0.err == s.err;
    }
  }

  /** No message clears a stored error, and while it is stored only the error panel is drawn. */
  lemma ErrorIsSticky(s: AppState, msg: Msg, timeText: TimeText)
    requires s.err.Some?
    ensures Step(s, msg, timeText).0.err.Some?
    ensures View(Step(s, msg, timeText).0).ErrorScreen?
    ensures !msg.ErrorMsg? ==> Step(s, msg, timeText).0.err == s.err
  {
    if msg.KeyMsg? {
      KeysKeepError(s, msg.key, timeText);
    } else {
      assert MessageStep(s, msg, timeText).0.err == if msg.ErrorMsg? then Some(msg.error) else s.err;
    }
  }

  /** Quit changes nothing and asks the runtime to stop. */
  lemma QuitStops(s: AppState, timeText: TimeText)
    ensures Step(s, KeyMsg(Quit), timeText) == (s, multiset{QuitProgram})
  {
  }

  /** Artifact messages for different kinds commute, whatever the focus. */
  lemma ArtifactMessagesCommute(s: AppState, k1: ArtifactKind, a1: seq<IntegrationArtifact>,
                                k2: ArtifactKind, a2: seq<IntegrationArtifact>, timeText: TimeText)
    requires k1 != k2
    ensures Step(Step(s, ArtifactsMsg(k1, a1), timeText).0, ArtifactsMsg(k2, a2), timeText).0
         == Step(Step(s, ArtifactsMsg(k2, a2), timeText).0, ArtifactsMsg(k1, a1), timeText).0
  {
    A.ArtifactsMessagesCommute(s.artifacts, k1, a1, k2, a2);
  }
}
