/**
 * The event loop the program runs in, as a transition system: commands
 * returned by Update wait until the runtime performs them, their messages
 * wait until they are delivered, and both happen in any order. Fetches and
 * the browser are the environment: each run carries the response it got.
 */
module Runtime {
  import opened Wrappers
  import opened ApiTypes
  import opened Messages
  import opened ListWidget
  import opened Ui
  import A = IntegrationArtifactPane
  import T = TabSelector
  import Attr = AttributePanel
  import S = StatusBar

  /** What the environment answered to a fetch or to the browser launch. */
  datatype Response =
    | Succeeded(packages: seq<ContentPackage>, artifacts: seq<IntegrationArtifact>)
    | Failed(error: string)

  /** The running program: its state, the commands not yet run, the messages not yet delivered. */
  datatype System = System(app: AppState, pending: multiset<Cmd>, inbox: multiset<Msg>, running: bool)

  datatype Event =
    | Press(key: Key)
    | Run(cmd: Cmd, response: Response)
    | Deliver(msg: Msg)

  /**
   * What running a command does: the state the closure leaves behind (only
   * the init commands touch state) and the message it returns, if any.
   * ActiveTabCmd indexes the tab list with the current index.
   */
  function Perform(app: AppState, cmd: Cmd, response: Response): (AppState, Option<Msg>)
    requires cmd.ActiveTab? ==> 0 <= app.tabID < T.TabCount
  {
    match cmd
    case FetchPackages =>
      (app, Some(if response.Failed? then ErrorMsg(response.error) else ContentPackagesMsg(response.packages)))
    case FetchArtifacts(_, kind) =>
      (app, Some(if response.Failed? then ErrorMsg(response.error) else ArtifactsMsg(kind, response.artifacts)))
    case InitArtifacts(kind) =>
      var (artifacts, msg) := A.PerformInit(app.artifacts, kind);
      (app.(artifacts := artifacts), Some(msg))
    case PushAttributes(attributes) => (app, Some(AttributesMsg(attributes)))
    case ActiveTab => (app, Some(ActiveTabMsg(T.ArtifactTypeByActiveTab(app.tabID))))
    case PushStatus(message) => (app, Some(StatusMsg(message)))
    case OpenURL(_) => (app, if response.Failed? then Some(ErrorMsg(response.error)) else None)
    case ToggleLayout(layout) => (app, Some(LayoutMsg(Toggled(layout))))
    case SetWindowTitle => (app, None)
    case QuitProgram => (app, None)
  }

  function AsMultiset(msg: Option<Msg>): multiset<Msg> {
    match msg
    case None => multiset{}
    case Some(m) => multiset{m}
  }

  /** The program after NewModel and Init. */
  function Start(configLayout: string, tenantName: string, webUIURL: string): System {
    var (app, cmds) := InitStep(Initial(configLayout, tenantName, webUIURL));
    System(app, cmds, multiset{}, true)
  }

  /** The facts about the program state that every reachable state has. */
  ghost predicate AppInv(app: AppState) {
    && 0 <= app.tabID < T.TabCount
    && app.artifacts.SelectedKind().Some?
    && (app.layout == LayoutNormal || app.layout == LayoutCompact)
    && app.packages.Valid()
    && (forall kind :: app.artifacts.ListOf(kind).Valid())
  }

  /** The facts about a message in flight. */
  ghost predicate MsgInv(msg: Msg) {
    && (msg.ActiveTabMsg? ==> KindByName(msg.artifactType).Some?)
    && (msg.LayoutMsg? ==> msg.layout == LayoutNormal || msg.layout == LayoutCompact)
  }

  ghost predicate Inv(sys: System) {
    AppInv(sys.app) && forall msg :: msg in sys.inbox ==> MsgInv(msg)
  }

  /** ActiveTabCmd with an index outside the tab list: Go panics and the program stops. */
  predicate Panics(app: AppState, cmd: Cmd) {
    cmd.ActiveTab? && !(0 <= app.tabID < T.TabCount)
  }

  /**
   * One event; a stopped program ignores everything, and a command or
   * message that is not waiting leaves the program as it is.
   */
  function Apply(sys: System, ev: Event, timeText: TimeText): System {
    if !sys.running then sys
    else match ev
      case Press(key) => sys.(inbox := sys.inbox + multiset{KeyMsg(key)})
      case Run(cmd, response) =>
        if cmd in sys.pending && Panics(sys.app, cmd) then sys.(running := false)
        else if cmd in sys.pending then
          var (app, msg) := Perform(sys.app, cmd, response);
          System(app, sys.pending - multiset{cmd}, sys.inbox + AsMultiset(msg), cmd != QuitProgram)
        else sys
      case Deliver(msg) =>
        if msg in sys.inbox then
          var (app, cmds) := Step(sys.app, msg, timeText);
          System(app, sys.pending + cmds, sys.inbox - multiset{msg}, true)
        else sys
  }

  /** The program starts in a state that has the invariant. */
  lemma StartHasInv(configLayout: string, tenantName: string, webUIURL: string)
    ensures Inv(Start(configLayout, tenantName, webUIURL))
  {
    A.InitSelectsIntegrationFlows(Initial(configLayout, tenantName, webUIURL).artifacts);
  }

  /** The artifacts pane keeps its lists valid and its selected kind known. */
  lemma ArtifactsNextKeepsInv(a: A.State, msg: Msg)
    requires forall kind :: a.ListOf(kind).Valid()
    requires a.SelectedKind().Some? && MsgInv(msg)
    ensures forall kind :: A.Next(a, msg).0.ListOf(kind).Valid()
    ensures A.Next(a, msg).0.SelectedKind().Some?
  {
    var r := A.Next(a, msg).0;
    forall kind ensures r.ListOf(kind).Valid() {
      match msg {
        case KeyMsg(key) =>
          if (key == Up || key == Down) && kind == a.SelectedKind().value {
            assert r.ListOf(kind) == a.ListOf(kind).Update(key);
          } else {
            assert r.ListOf(kind) == a.ListOf(kind);
          }
        case ArtifactsMsg(k, artifacts) =>
          if kind == k {
            assert r.ListOf(kind) == a.ListOf(kind).SetItems(A.ItemsOf(artifacts));
          } else {
            assert r.ListOf(kind) == a.ListOf(kind);
          }
        case _ =>
          assert r.ListOf(kind) == a.ListOf(kind);
      }
    }
  }

  /** Init of the artifacts pane keeps its lists valid and selects a known kind. */
  lemma ArtifactsInitKeepsInv(a: A.State)
    requires forall kind :: a.ListOf(kind).Valid()
    ensures forall kind :: A.InitState(a).0.ListOf(kind).Valid()
    ensures A.InitState(a).0.SelectedKind().Some?
  {
    A.InitSelectsIntegrationFlows(a);
  }

  lemma UpDownKeepsAppInv(s: AppState, key: Key, timeText: TimeText)
    requires AppInv(s) && (key == Up || key == Down)
    ensures AppInv(UpDownStep(s, key, timeText).0)
  {
    ArtifactsInitKeepsInv(s.artifacts);
    ArtifactsNextKeepsInv(s.artifacts, KeyMsg(key));
  }

  lemma ResetKeysKeepAppInv(s: AppState)
    requires AppInv(s)
    ensures AppInv(EnterStep(s).0)
    ensures AppInv(RefreshStep(s).0)
  {
    ArtifactsInitKeepsInv(s.artifacts);
  }

  lemma KeyStepKeepsAppInv(s: AppState, key: Key, timeText: TimeText)
    requires AppInv(s)
    ensures AppInv(KeyStep(s, key, timeText).0)
  {
    KeyStepCases(s, key, timeText);
    if key == Up || key == Down {
      UpDownKeepsAppInv(s, key, timeText);
    } else if key == Left || key == Right {
      T.RotationInRange(s.tabID, key);
    } else if key == Enter || key == Refresh {
      ResetKeysKeepAppInv(s);
    }
  }

  /** Update keeps the invariant of the state for every message that can be in flight. */
  lemma StepKeepsAppInv(s: AppState, msg: Msg, timeText: TimeText)
    requires AppInv(s) && MsgInv(msg)
    ensures AppInv(Step(s, msg, timeText).0)
  {
    match msg {
      case KeyMsg(key) =>
        KeyStepKeepsAppInv(s, key, timeText);
      case ActiveTabMsg(artifactType) =>
        var kind := KindByName(artifactType).value;
        T.ResyncKnownKind(s.tabID, kind);
        ArtifactsNextKeepsInv(s.artifacts, msg);
      case ArtifactsMsg(_, _) =>
        ArtifactsNextKeepsInv(s.artifacts, msg);
      case _ =>
    }
  }

  /** Running a command keeps the invariant, and the message it returns can be in flight. */
  lemma PerformKeepsInv(app: AppState, cmd: Cmd, response: Response)
    requires AppInv(app)
    ensures AppInv(Perform(app, cmd, response).0)
    ensures forall msg :: msg in AsMultiset(Perform(app, cmd, response).1) ==> MsgInv(msg)
  {
    if cmd.ActiveTab? {
      T.ActiveTypeIsKnown(app.tabID);
    }
  }

  /** Every event keeps the invariant. */
  lemma ApplyKeepsInv(sys: System, ev: Event, timeText: TimeText)
    requires Inv(sys)
    ensures Inv(Apply(sys, ev, timeText))
  {
    if sys.running {
      match ev {
        case Press(key) =>
        case Run(cmd, response) =>
          PerformKeepsInv(sys.app, cmd, response);
        case Deliver(msg) =>
          if msg in sys.inbox {
            StepKeepsAppInv(sys.app, msg, timeText);
          }
      }
    }
  }

  /** A run of the program: the events in order. */
  function RunTrace(sys: System, events: seq<Event>, timeText: TimeText): System
    decreases |events|
  {
    if |events| == 0 then sys else RunTrace(Apply(sys, events[0], timeText), events[1..], timeText)
  }

  /** The invariant holds after any sequence of events. */
  lemma {:induction false} RunTraceKeepsInv(sys: System, events: seq<Event>, timeText: TimeText)
    requires Inv(sys)
    ensures Inv(RunTrace(sys, events, timeText))
    decreases |events|
  {
    if |events| > 0 {
      ApplyKeepsInv(sys, events[0], timeText);
      RunTraceKeepsInv(Apply(sys, events[0], timeText), events[1..], timeText);
    }
  }

  /**
   * Every state the program reaches has the invariant: the tab index is in
   * range, the selected kind is one of the four, the layout is normal or
   * compact, and every list's cursor is on an item or the list is empty.
   */
  lemma ReachableStatesHaveInv(configLayout: string, tenantName: string, webUIURL: string,
                               events: seq<Event>, timeText: TimeText)
    ensures Inv(RunTrace(Start(configLayout, tenantName, webUIURL), events, timeText))
  {
    StartHasInv(configLayout, tenantName, webUIURL);
    RunTraceKeepsInv(Start(configLayout, tenantName, webUIURL), events, timeText);
  }

  /** So ActiveTabCmd never indexes out of range in a reachable state. */
  lemma ReachableStatesNeverPanic(configLayout: string, tenantName: string, webUIURL: string,
                                  events: seq<Event>, timeText: TimeText, cmd: Cmd)
    ensures !Panics(RunTrace(Start(configLayout, tenantName, webUIURL), events, timeText).app, cmd)
  {
    ReachableStatesHaveInv(configLayout, tenantName, webUIURL, events, timeText);
  }

  /** AttributesCmd delivers exactly the attributes it was given, and the panel then shows one row per attribute. */
  lemma AttributesCmdRoundTrip(app: AppState, attributes: seq<Attribute>, response: Response, timeText: TimeText)
    ensures Perform(app, Attr.AttributesCmd(attributes), response) == (app, Some(AttributesMsg(attributes)))
    ensures Attr.AttributesOf(Step(app, AttributesMsg(attributes), timeText).0.rows) == attributes
  {
    Attr.RowsRoundTrip(attributes);
  }

  /** The attribute panel's Init command empties the table once delivered. */
  lemma AttributesInitEmptiesTable(app: AppState, response: Response, timeText: TimeText)
    ensures var (_, msg) := Perform(app, Attr.AttributesInitCmd(), response);
      msg.Some? && Step(app, msg.value, timeText).0.rows == []
  {
  }

  /** StatusMessageCmd delivers its text, which then replaces the status message. */
  lemma StatusCmdRoundTrip(app: AppState, message: string, response: Response, timeText: TimeText)
    ensures Perform(app, S.StatusMessageCmd(message), response) == (app, Some(StatusMsg(message)))
    ensures Step(app, StatusMsg(message), timeText).0 == app.(status := message)
  {
  }

  /** A package fetch completes as the fetched list or as an error, and changes no state. */
  lemma PackageFetchOutcome(app: AppState, response: Response)
    ensures Perform(app, FetchPackages, response).0 == app
    ensures Perform(app, FetchPackages, response).1 ==
      Some(if response.Failed? then ErrorMsg(response.error) else ContentPackagesMsg(response.packages))
  {
  }

  /** A per-kind artifact fetch completes as that kind's message or as an error, and changes no state. */
  lemma ArtifactFetchOutcome(app: AppState, packageID: string, kind: ArtifactKind, response: Response)
    ensures Perform(app, FetchArtifacts(packageID, kind), response).0 == app
    ensures var msg := Perform(app, FetchArtifacts(packageID, kind), response).1;
      msg.Some? && (msg.value.ErrorMsg? || (msg.value.ArtifactsMsg? && msg.value.kind == kind))
  {
  }

  /** The browser launch returns a message only when it fails. */
  lemma OpenURLOutcome(app: AppState, link: WebLink, response: Response)
    ensures Perform(app, OpenURL(link), response).0 == app
    ensures Perform(app, OpenURL(link), response).1.Some? <==> response.Failed?
  {
  }

  /** ActiveTabCmd reports the kind of the tab that is active when it runs. */
  lemma ActiveTabReportsActiveKind(app: AppState, response: Response)
    requires 0 <= app.tabID < T.TabCount
    ensures Perform(app, ActiveTab, response) == (app, Some(ActiveTabMsg(Name(Kinds[app.tabID]))))
  {
  }

  /**
   * Rotating the tab on the artifacts pane, running the command it returns
   * and delivering its message while the pane still has the focus leaves
   * the tab index and the shown kind in agreement.
   */
  lemma RotationResyncsKind(s: AppState, key: Key, response: Response, timeText: TimeText)
    requires AppInv(s) && s.activePane == ArtifactsPane
    requires key == Left || key == Right
    ensures var (s1, cmds) := Step(s, KeyMsg(key), timeText);
      ActiveTab in cmds &&
      var (s2, msg) := Perform(s1, ActiveTab, response);
      msg.Some? &&
      var s3 := Step(s2, msg.value, timeText).0;
      s3.tabID == s1.tabID && s3.artifacts.SelectedKind() == Some(Kinds[s1.tabID])
  {
    T.RotationInRange(s.tabID, key);
    var s1 := s.(showArtifacts := true, tabID := T.Next(s.tabID, KeyMsg(key)).0);
    KeyStepCases(s, key, timeText);
    assert RotateStep(s, key) == (s1, multiset{ActiveTab});
    var kind := Kinds[s1.tabID];
    var msg := ActiveTabMsg(Name(kind));
    ActiveTabReportsActiveKind(s1, response);
    T.ResyncKnownKind(s1.tabID, kind);
    assert T.PositionOf(kind) == s1.tabID;
    KindByNameOfName(kind);
    A.ActiveTabKeepsLists(s1.artifacts, Name(kind));
    assert MessageStep(s1, msg, timeText).0 ==
      s1.(showArtifacts := true, tabID := T.Next(s1.tabID, msg).0, artifacts := A.Next(s1.artifacts, msg).0);
  }

  /** The layout after pressing the layout key and letting its command and message run. */
  function AfterToggle(s: AppState, response: Response, timeText: TimeText): AppState {
    var (s1, cmds) := Step(s, KeyMsg(Layout), timeText);
    var (s2, msg) := Perform(s1, ToggleLayout(s.layout), response);
    if msg.Some? then Step(s2, msg.value, timeText).0 else s2
  }

  /** The toggle only takes effect when its message is handled, and two toggles restore the layout. */
  lemma ToggleRoundTrip(s: AppState, response: Response, timeText: TimeText)
    requires s.layout == LayoutNormal || s.layout == LayoutCompact
    ensures Step(s, KeyMsg(Layout), timeText) == (s, multiset{ToggleLayout(s.layout)})
    ensures AfterToggle(s, response, timeText) == s.(layout := Toggled(s.layout))
    ensures AfterToggle(AfterToggle(s, response, timeText), response, timeText) == s
  {
  }
}
