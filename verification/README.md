# cpi-navigator: a verified model of the terminal UI core

cpi-navigator is a terminal browser for the content of an SAP Cloud Integration
tenant. It shows content packages, the four kinds of design-time integration
artifacts inside the selected package, and the attributes of the selected
record. This project models the message-driven state machine at its centre and
the small rules around it, and proves properties of that model in Dafny:

- **Root coordinator** (`Ui`): the focused pane, whether the artifacts pane is
  shown, the layout and the sticky error. `Step` maps a state and a message to
  the new state and the multiset of commands the batch returns. `Ui.Model` is a
  class over the child objects, and its `Update` is proved equal to `Step`.
  `View` is kept only as the abstract screen it draws.
- **Panes** (`ContentPackagePane`, `IntegrationArtifactPane`): one package list,
  and four per-kind artifact lists plus the selected kind. The list widget of the
  UI library is abstracted as items plus a cursor (`ListWidget`).
- **Tab selector** (`TabSelector`), **attribute panel** (`AttributePanel`) and
  **status bar** (`StatusBar`). Each is a class whose methods are proved against
  a pure `Next` function.
- **Event loop** (`Runtime`): a transition system. Commands wait in a multiset
  until the runtime performs them, and their messages wait until they are
  delivered. Both can happen in any interleaving, and a fetch carries the
  response it got. An inductive invariant shows that every reachable state keeps:
  - the tab index in range;
  - the selected kind one of the four;
  - the layout normal or compact;
  - every cursor on an item.

  So the active-tab command never indexes out of range.
- **Generic sort** (`Sort`): the order name picks a direction, and the field name
  is resolved case-insensitively against a record schema. A selection sort on an
  `array` then reorders the records in place. It is proved sorted under the
  comparator and a permutation, and the comparator is proved a total preorder.
  Go's reflection is replaced by an explicit schema and a field-reading function.
- **Configuration** (`Config`): `checkMandatory` with its fixed report order and
  error text, `setDefaults` with its normalisation rules, and the getters.
- **Artifact-kind table** (`ApiTypes`): the four kind names and their entity
  sets.

Asynchronous work is data. A `Cmd` value describes what a command closure
would do, and `Runtime.Perform` says what running it yields. Timestamps are
rendered by a `TimeText` parameter. Go's `%`, which truncates toward zero, is
modelled by `TabSelector.GoRem`. The `uint` conversion in the status bar is
modelled by `StatusBar.AsUint64`.

ui.go calls `SelectedArtifactID`, `SelectedArtifactWebUIURL` and
`SelectedPackageWebUIURL`. Their URL building is not modelled.
`IntegrationArtifactPane.State.SelectedArtifactID` is taken to be the artifact
counterpart of `SelectedPackageID`: the ID of the shown list's selected item.
`OpenURL` carries a link descriptor (package, or artifact kind plus ID) instead
of the URL those functions build.

## Model

| member | source | states |
|---|---|---|
| ApiTypes.SupportedArtifactTypes | internal/cpi/api/types.go:17-33 | the table has four entries, one per kind in declaration order, each with that kind's name and entity set |
| ApiTypes.KindsEnumerateAll | internal/cpi/api/types.go:8-15 | every kind occurs in the kind list, and no kind occurs twice |
| ApiTypes.NamesDistinct | internal/cpi/api/types.go:20-29 | two kinds with the same name are the same kind, so lookup by name is unambiguous |
| ApiTypes.EntitySetNamesDistinct | internal/cpi/api/types.go:21-30 | two kinds with the same entity set are the same kind |
| ApiTypes.KindByName | internal/ui/components/artifactspane/integrationartifact/artifact.go:94-103 | a found kind has exactly the given name; no kind is found only when no kind has that name |
| ApiTypes.KindByNameOfName | internal/ui/components/artifactspane/integrationartifact/artifact.go:94-103 | looking up a kind's own name finds that kind |
| ApiTypes.EntitySetByArtifactType | internal/cpi/api/artifact.go:28-41 | a known type name gives its kind's entity set, and an unknown one gives "" |
| ListWidget.List.Selected | internal/ui/components/packagespane/contentpackage/package.go:97-99 | the selected item is the item under the cursor; on a valid list it is absent exactly when the list is empty |
| ListWidget.List.CursorDown | internal/ui/components/packagespane/contentpackage/package.go:36 | keeps the items and leaves a valid cursor, wrapping from the last item to the first |
| ListWidget.List.CursorUp | internal/ui/components/packagespane/contentpackage/package.go:36 | keeps the items and leaves a valid cursor, wrapping from the first item to the last |
| ListWidget.List.SetItems | internal/ui/components/packagespane/contentpackage/package.go:78 | the items are exactly the new ones, the cursor is valid, and a cursor still on an item stays put |
| ListWidget.List.Update | internal/ui/components/packagespane/contentpackage/package.go:70-71 | keeps the items and validity, and every key but Up/Down changes nothing |
| ListWidget.List.ResetSelected | internal/ui/components/artifactspane/integrationartifact/artifact.go:143 | keeps the items and puts the cursor on the first one |
| ListWidget.Empty | internal/ui/components/packagespane/contentpackage/package.go:28 | a new list is valid and has no selection |
| ListWidget.DownWrapsToFirst | internal/ui/components/packagespane/contentpackage/package.go:36 | Down on the last item selects the first |
| ListWidget.UpWrapsToLast | internal/ui/components/artifactspane/integrationartifact/artifact.go:48 | Up on the first item selects the last |
| ListWidget.UpDownInverse | internal/ui/components/packagespane/contentpackage/package.go:36 | on a valid list Up undoes Down and Down undoes Up |
| ListWidget.DownTimesCursor | internal/ui/components/packagespane/contentpackage/package.go:36 | k presses of Down, with k at most the length, advance the cursor by k modulo the length |
| ListWidget.DownFullCircle | internal/ui/components/packagespane/contentpackage/package.go:36 | one Down per item returns the list to where it was |
| TabSelector.DefaultTabs | internal/ui/components/artifactspane/tab/tab.go:29-34 | four tabs, the i-th selecting the i-th kind |
| TabSelector.IndexOfArtifactType | internal/ui/components/artifactspane/tab/tab.go:101-105 | the first tab with the given type, or -1 when no tab has it |
| TabSelector.GoRem | internal/ui/components/artifactspane/tab/tab.go:55-60 | Go's `%` on int, which truncates toward zero, so a negative dividend gives a negative remainder; `RotationInRange` shows the index stays in range anyway |
| TabSelector.Next | internal/ui/components/artifactspane/tab/tab.go:49-68 | the selector's reaction to a message: Left and Right rotate with `GoRem` and return the active-tab command, an `ActiveTabMsg` resynchronises the index by name, anything else changes nothing; its properties are the rotation and resync lemmas below |
| TabSelector.ArtifactTypeByActiveTab | internal/ui/components/artifactspane/tab/tab.go:97-99 | the kind name of the active tab, defined only for an index in range because Go indexes the tab slice; `ActiveTypeIsKnown` names the kind |
| TabSelector.Model.TabIDByArtifactType | internal/ui/components/artifactspane/tab/tab.go:101-105 | the position of the first tab with the given kind name, or -1; the class's own reading of `IndexOfArtifactType` |
| TabSelector.Model.constructor | internal/ui/components/artifactspane/tab/tab.go:26-41 | the four tabs in kind order, with the first active |
| TabSelector.Model.Init | internal/ui/components/artifactspane/tab/tab.go:43-47 | the first tab becomes active and no command is returned |
| TabSelector.Model.Update | internal/ui/components/artifactspane/tab/tab.go:49-68 | the new index and the commands are those of `Next`: Left/Right rotate with Go's remainder and return the active-tab command; a pushed kind name resynchronises the index |
| TabSelector.RotationInRange | internal/ui/components/artifactspane/tab/tab.go:55-60 | rotation from any index in [-1, 4) lands in [0, 4) and returns the active-tab command |
| TabSelector.RotationIsModular | internal/ui/components/artifactspane/tab/tab.go:55-60 | Right is (i+1) mod 4 and Left is (i+3) mod 4 |
| TabSelector.RightLeftRestores | internal/ui/components/artifactspane/tab/tab.go:55-60 | Right then Left, or Left then Right, restores the index |
| TabSelector.FourRightsRestore | internal/ui/components/artifactspane/tab/tab.go:58-60 | four presses of Right restore the index |
| TabSelector.PositionOf | internal/ui/components/artifactspane/tab/tab.go:29-34 | the tab position of a kind is in range and holds that kind |
| TabSelector.ResyncKnownKind | internal/ui/components/artifactspane/tab/tab.go:63-64 | a known kind's name moves the index to that kind's tab and emits nothing; that kind is then active |
| TabSelector.ResyncUnknownKind | internal/ui/components/artifactspane/tab/tab.go:101-105 | an unknown name leaves the index at -1 |
| TabSelector.ActiveTypeIsKnown | internal/ui/components/artifactspane/tab/tab.go:97-99 | the tab at a valid index names the kind at that index |
| AttributePanel.RowsOf | internal/ui/components/attributespane/attribute/attribute.go:54-57 | one row per attribute |
| AttributePanel.AttributesOf | internal/ui/components/attributespane/attribute/attribute.go:54-57 | one attribute per row (the inverse of `RowsOf`) |
| AttributePanel.RowsRoundTrip | internal/ui/components/attributespane/attribute/attribute.go:53-59 | reading the table back gives exactly the attribute list of the message |
| AttributePanel.Next | internal/ui/components/attributespane/attribute/attribute.go:49-63 | the panel's reaction to a message: an `AttributesMsg` replaces the rows with its list, anything else keeps them, and no command is ever returned; `AttributesMessageReplacesRows` and `OtherMessagesKeepRows` state this |
| AttributePanel.AttributesCmd | internal/ui/components/attributespane/attribute/attribute.go:73-77 | the command whose message carries exactly the given list; `Runtime.AttributesCmdRoundTrip` proves the delivered list is shown back |
| AttributePanel.AttributesInitCmd | internal/ui/components/attributespane/attribute/attribute.go:69-71 | the command whose message carries an empty list; `Runtime.AttributesInitEmptiesTable` proves it empties the table |
| AttributePanel.Model.constructor | internal/ui/components/attributespane/attribute/attribute.go:21-43 | the table starts empty |
| AttributePanel.Model.Init | internal/ui/components/attributespane/attribute/attribute.go:45-47 | Init returns the command carrying an empty attribute list |
| AttributePanel.Model.Update | internal/ui/components/attributespane/attribute/attribute.go:49-63 | the loop builds exactly the rows of `Next`: an attributes message replaces all rows, anything else keeps them |
| AttributePanel.AttributesMessageReplacesRows | internal/ui/components/attributespane/attribute/attribute.go:53-59 | after an attributes message the row count is the message length and row i is the i-th key and value |
| AttributePanel.OtherMessagesKeepRows | internal/ui/components/attributespane/attribute/attribute.go:52-62 | any other message leaves the rows as they were and returns no command |
| StatusBar.MessageBudget | internal/ui/components/statusbar/status_bar.go:40-44 | the budget plus the three frame sizes plus the tenant's length is the area width |
| StatusBar.AsUint64 | internal/ui/components/statusbar/status_bar.go:45 | `uint(width)`: a non-negative width is kept, a negative one wraps to at least 2^63, and the result is congruent to the width modulo 2^64 |
| StatusBar.DefaultBudget | internal/ui/components/statusbar/status_bar.go:40-44 | with the default styles the budget is 150 minus the tenant's length |
| StatusBar.Next | internal/ui/components/statusbar/status_bar.go:30-37 | the bar's reaction to a message: a `StatusMsg` replaces the message text, anything else keeps it, and no command is returned; `OnlyStatusMessagesChangeText` states this |
| StatusBar.StatusMessageCmd | internal/ui/components/statusbar/status_bar.go:54-58 | the command whose message is a `StatusMsg` with the given text; `Runtime.StatusCmdRoundTrip` proves the text reaches the bar |
| StatusBar.Model.constructor | internal/ui/components/statusbar/status_bar.go:18-24 | the tenant is the configured name and the message is the configured web UI URL |
| StatusBar.Model.Init | internal/ui/components/statusbar/status_bar.go:26-28 | no command |
| StatusBar.Model.Update | internal/ui/components/statusbar/status_bar.go:30-37 | the tenant never changes, and the message and commands are those of `Next` |
| StatusBar.OnlyStatusMessagesChangeText | internal/ui/components/statusbar/status_bar.go:30-37 | a status message replaces the text, every other message keeps it, and no command is ever returned |
| ContentPackagePane.ItemsOf | internal/ui/components/packagespane/contentpackage/package.go:58-65 | one item per package |
| ContentPackagePane.PackagesToList | internal/ui/components/packagespane/contentpackage/package.go:58-65 | the append loop produces exactly `ItemsOf`: item i wraps package i |
| ContentPackagePane.Next | internal/ui/components/packagespane/contentpackage/package.go:52-82 | the pane's reaction to a message: Up and Down move the list cursor, a packages message replaces the items with one per package, anything else changes nothing, and no command is returned; `PackagesMessageReplacesList` and `KeysOnlyMoveCursor` state this |
| ContentPackagePane.PackageAttributes | internal/ui/components/packagespane/contentpackage/package.go:120-131 | exactly ten pairs keyed ID … Modified at in display order; the string fields are copied verbatim and the two timestamps are rendered |
| ContentPackagePane.SelectedPackageID | internal/ui/components/packagespane/contentpackage/package.go:101-110 | absent exactly when nothing is selected, otherwise the selected package's ID |
| ContentPackagePane.SelectedPackageAttributes | internal/ui/components/packagespane/contentpackage/package.go:112-131 | absent exactly when nothing is selected, otherwise the selected package's ten attributes |
| ContentPackagePane.Model.constructor | internal/ui/components/packagespane/contentpackage/package.go:21-46 | the list starts empty |
| ContentPackagePane.Model.Init | internal/ui/components/packagespane/contentpackage/package.go:48-50 | Init returns just the package fetch |
| ContentPackagePane.Model.Update | internal/ui/components/packagespane/contentpackage/package.go:52-82 | the new list and commands are those of `Next`: Up/Down go to the list, a packages message replaces the items |
| ContentPackagePane.PackagesMessageReplacesList | internal/ui/components/packagespane/contentpackage/package.go:77-78 | after a packages message the list holds one item per package in message order, with a valid cursor |
| ContentPackagePane.KeysOnlyMoveCursor | internal/ui/components/packagespane/contentpackage/package.go:68-75 | keys never change the items, keys other than Up/Down change nothing, and no command is returned |
| IntegrationArtifactPane.ItemsOf | internal/ui/components/artifactspane/integrationartifact/artifact.go:81-88 | one item per artifact |
| IntegrationArtifactPane.ArtifactsToList | internal/ui/components/artifactspane/integrationartifact/artifact.go:81-88 | the append loop produces exactly `ItemsOf` |
| IntegrationArtifactPane.State.WithList | internal/ui/components/artifactspane/integrationartifact/artifact.go:111-121 | only the named kind's list changes; the other three and the selected kind stay |
| IntegrationArtifactPane.State.ShownList | internal/ui/components/artifactspane/integrationartifact/artifact.go:223-235 | the selected kind's list, falling back to the integration flows for an unknown kind |
| IntegrationArtifactPane.State.SelectedArtifactItem | internal/ui/components/artifactspane/integrationartifact/artifact.go:223-236 | the selected item of the list of the selected kind, falling back to integration flows for an unknown kind |
| IntegrationArtifactPane.State.SelectedArtifactAttributes | internal/ui/components/artifactspane/integrationartifact/artifact.go:238-272 | absent exactly without a selection; otherwise eight pairs for an integration flow and four for the other known kinds, with their values, and an empty list for an unknown kind |
| IntegrationArtifactPane.State.SelectedArtifactID | internal/ui/ui.go:193-198 | absent exactly without a selection, otherwise the selected artifact's ID |
| IntegrationArtifactPane.New | internal/ui/components/artifactspane/integrationartifact/artifact.go:33-62 | four empty lists, with integration flows selected |
| IntegrationArtifactPane.InitCmds | internal/ui/components/artifactspane/integrationartifact/artifact.go:67-72 | four commands, all per-kind resets |
| IntegrationArtifactPane.InitState | internal/ui/components/artifactspane/integrationartifact/artifact.go:64-73 | Init: the kind becomes integration flows at once, and the four per-kind resets are returned as commands; `InitSelectsIntegrationFlows` states what changes |
| IntegrationArtifactPane.PerformInit | internal/ui/components/artifactspane/integrationartifact/artifact.go:142-164 | what one per-kind init closure does when it runs: reset that list's cursor and return an empty message for that kind; `InitOneEmpties` and `InitInOrderEmpties` state its effect |
| IntegrationArtifactPane.InitCmdsOnePerKind | internal/ui/components/artifactspane/integrationartifact/artifact.go:67-72 | Init's batch holds exactly one reset per kind |
| IntegrationArtifactPane.ArtifactsByPackageCmd | internal/ui/components/artifactspane/integrationartifact/artifact.go:166-173 | four fetches, all for the given package |
| IntegrationArtifactPane.ArtifactsByPackageOnePerKind | internal/ui/components/artifactspane/integrationartifact/artifact.go:166-173 | the batch holds exactly one fetch per kind |
| IntegrationArtifactPane.Next | internal/ui/components/artifactspane/integrationartifact/artifact.go:75-125 | the pane's reaction to a message: Up and Down move only the list of the selected kind, an `ActiveTabMsg` stores the kind name, a per-kind message replaces that kind's list, and no command is returned; the lemmas below state each case |
| IntegrationArtifactPane.Model.constructor | internal/ui/components/artifactspane/integrationartifact/artifact.go:33-62 | the state is `New()` |
| IntegrationArtifactPane.Model.Init | internal/ui/components/artifactspane/integrationartifact/artifact.go:64-73 | selects integration flows at once and returns the four resets; the lists are untouched until those run |
| IntegrationArtifactPane.Model.Update | internal/ui/components/artifactspane/integrationartifact/artifact.go:75-125 | the string switch reaches exactly the state and commands of `Next` |
| IntegrationArtifactPane.Model.InitCmd | internal/ui/components/artifactspane/integrationartifact/artifact.go:142-164 | running a kind's init command resets that list's cursor and returns that kind's empty message |
| IntegrationArtifactPane.InitSelectsIntegrationFlows | internal/ui/components/artifactspane/integrationartifact/artifact.go:64-65 | after Init the selected kind is integration_flow and no list has changed |
| IntegrationArtifactPane.ActiveTabKeepsLists | internal/ui/components/artifactspane/integrationartifact/artifact.go:108-109 | a pushed kind name is stored as is and no list changes |
| IntegrationArtifactPane.ArtifactsMessageReplacesOneList | internal/ui/components/artifactspane/integrationartifact/artifact.go:111-121 | a kind's message replaces only that list, with one item per artifact in message order; the other lists and the selected kind stay |
| IntegrationArtifactPane.KeysMoveOnlySelectedList | internal/ui/components/artifactspane/integrationartifact/artifact.go:93-105 | keys never change items; only the selected kind's cursor can move, and under an unknown kind nothing moves |
| IntegrationArtifactPane.ArtifactsMessagesCommute | internal/ui/components/artifactspane/integrationartifact/artifact.go:111-121 | messages for two different kinds give the same state in either order |
| IntegrationArtifactPane.InitOneEmpties | internal/ui/components/artifactspane/integrationartifact/artifact.go:142-146 | one init command, run and delivered, empties its own list and leaves the rest alone |
| IntegrationArtifactPane.InitInOrderEmpties | internal/ui/components/artifactspane/integrationartifact/artifact.go:142-164 | after the init commands of some kinds run and are delivered, in any order, exactly those kinds' lists are empty |
| IntegrationArtifactPane.InitEmptiesAllLists | internal/ui/components/artifactspane/integrationartifact/artifact.go:64-73 | after Init and its four commands in any order, every list is empty and integration flows are selected |
| Ui.InitialLayout | internal/ui/ui.go:60-67 | compact exactly when the configured name is "compact", and always normal or compact |
| Ui.Initial | internal/ui/ui.go:59-82 | NewModel's state: empty package list, fresh artifact pane, first tab, empty table, the configured tenant and layout, no focus, artifacts hidden, no error; `InitialState` states it |
| Ui.InitStep | internal/ui/ui.go:84-94 | Init: the window title, the package fetch, the artifact pane's four resets and the empty attribute push, with the tab index reset at once; `Ui.Model.Init` is proved against it |
| Ui.FetchesForSelection | internal/ui/ui.go:143-147 | no fetch without a selected package, otherwise the four fetches for its ID |
| Ui.UpDownStep | internal/ui/ui.go:105-122 | Up and Down: on the packages pane the list moves, the artifacts are hidden and reset, and the new selection's attributes are pushed; on the artifacts pane the shown list moves and its attributes are pushed; otherwise nothing; `UpDownFollowFocus` states the cases |
| Ui.RotateStep | internal/ui/ui.go:124-133 | Left and Right: only with the artifacts pane focused, the tab selector rotates and its command is returned; `TabKeysNeedArtifactsFocus` and `TabKeysRotateOnArtifactsFocus` state both cases |
| Ui.EnterStep | internal/ui/ui.go:135-148 | Enter: only on the packages pane, the artifacts are shown and reset and fetched for the selected package; `EnterOpensArtifacts` and `EnterNeedsPackagesFocus` state both cases |
| Ui.TabStep | internal/ui/ui.go:150-165 | Tab: the focus moves between the two list panes and the newly focused selection's attributes are pushed; `TabSwitchesFocus` and `TwoTabsRestoreFocus` state it |
| Ui.RefreshStep | internal/ui/ui.go:167-182 | Refresh: on the packages pane, reset the artifacts and refetch the packages; on the artifacts pane, refetch the artifacts of the selected package; otherwise nothing |
| Ui.OpenCmds | internal/ui/ui.go:184-199 | Open: a browser command for the focused pane's selection, none without a selection or focus; `Runtime.OpenURLOutcome` states what running it yields |
| Ui.KeyStep | internal/ui/ui.go:100-203 | the reaction to a key: Quit, Up/Down, Left/Right, Enter, Tab, Refresh, Open and Layout dispatch to their branches, any other key changes nothing; `KeyStepCases` and `KeysKeepError` state the dispatch |
| Ui.MessageStep | internal/ui/ui.go:205-268 | the reaction to every non-key message: layout, packages, active tab, per-kind artifacts, attributes, status and error; `PackagesMessageFocusesPackages`, `ErrorIsSticky` and `ArtifactMessagesCommute` state its cases |
| Ui.Step | internal/ui/ui.go:96-270 | Update's new state and command batch for any message; `Ui.Model.Update` is proved equal to it and `Runtime.StepKeepsAppInv` proves it keeps the invariant |
| Ui.Toggled | internal/ui/ui.go:335-346 | normal becomes compact, and anything else becomes normal |
| Ui.View | internal/ui/ui.go:272-333 | the error panel exactly when an error is stored; otherwise which pane is drawn active, whether the artifacts are drawn, and title and status bars exactly outside the compact layout |
| Ui.Model.constructor | internal/ui/ui.go:59-82 | the object graph's state is `Initial` of the configuration, with fresh children |
| Ui.Model.Init | internal/ui/ui.go:84-94 | the new state and the batch are those of `InitStep`: window title, package fetch, four resets and the empty attribute push |
| Ui.Model.ToggleLayoutCmd | internal/ui/ui.go:335-346 | the command carries the layout read at the time it is built |
| Ui.Model.Update | internal/ui/ui.go:96-270 | updating the children in place yields exactly `Step` of the old state; the tab list stays valid |
| Ui.Model.UpdateKey | internal/ui/ui.go:100-203 | the key branch yields exactly `KeyStep` and never touches the attribute panel or the status bar |
| Ui.Model.UpdateMessage | internal/ui/ui.go:205-266 | every message other than a key yields exactly `MessageStep`, the non-key half of `Step` |
| Ui.Model.UpdatePackagesMessage | internal/ui/ui.go:208-220 | a package list yields exactly its branch of `MessageStep`: packages focused, artifacts hidden, list replaced, attributes pushed |
| Ui.Model.UpdateActiveTab | internal/ui/ui.go:222-230 | a pushed kind yields exactly its branch of `MessageStep`, and only while the artifacts pane is focused |
| Ui.Model.UpdateArtifactsMessage | internal/ui/ui.go:232-247 | an artifacts message yields exactly its branch of `MessageStep` whatever the focus |
| Ui.Model.UpdateUpDown | internal/ui/ui.go:105-122 | the Up/Down branch yields exactly `UpDownStep` |
| Ui.Model.UpdatePackagesCursor | internal/ui/ui.go:107-114 | Up/Down on the packages pane yields exactly `UpDownStep`: cursor moved, artifacts reset and hidden, attributes pushed |
| Ui.Model.UpdateArtifactsCursor | internal/ui/ui.go:116-121 | Up/Down on the artifacts pane yields exactly `UpDownStep`: the shown list moves and its attributes are pushed |
| Ui.Model.UpdateRotate | internal/ui/ui.go:124-133 | the Left/Right branch yields exactly `RotateStep` and keeps the tab list valid |
| Ui.Model.UpdateEnter | internal/ui/ui.go:135-148 | the Enter branch yields exactly `EnterStep` |
| Ui.Model.UpdateTab | internal/ui/ui.go:150-165 | the Tab branch yields exactly `TabStep` |
| Ui.Model.UpdateRefresh | internal/ui/ui.go:167-182 | the Refresh branch yields exactly `RefreshStep` |
| Ui.Model.UpdateOpen | internal/ui/ui.go:184-199 | the Open branch changes nothing and returns exactly `OpenCmds` |
| Ui.InitialState | internal/ui/ui.go:59-82 | no pane focused, artifacts hidden, no error, compact only if configured so, integration flows selected, tab 0, tenant and status from the configuration |
| Ui.TabSwitchesFocus | internal/ui/ui.go:150-165 | Tab moves Packages to Artifacts (shown) and Artifacts to Packages (hidden), pushing the newly focused pane's attributes; from other panes it does nothing |
| Ui.TwoTabsRestoreFocus | internal/ui/ui.go:150-165 | two Tabs restore the focus whatever it was |
| Ui.TabKeysNeedArtifactsFocus | internal/ui/ui.go:124-133 | without the artifacts pane focused, Left, Right and a pushed kind change nothing and return nothing |
| Ui.TabKeysRotateOnArtifactsFocus | internal/ui/ui.go:124-133 | with it focused, Left/Right rotate the tab modulo 4, show the artifacts and return only the active-tab command |
| Ui.EnterOpensArtifacts | internal/ui/ui.go:135-148 | Enter on packages shows the artifacts, resets tab and kind, and issues one reset per kind; with a selected package it adds one fetch per kind for it, and otherwise no fetch |
| Ui.EnterNeedsPackagesFocus | internal/ui/ui.go:135-136 | Enter off the packages pane does nothing |
| Ui.UpDownFollowFocus | internal/ui/ui.go:105-122 | on packages: artifacts hidden, cursor moved, tab and kind reset, the new selection's attributes pushed; on artifacts: the shown list's cursor moves and its attributes are pushed; elsewhere nothing |
| Ui.PackagesMessageFocusesPackages | internal/ui/ui.go:208-220 | a packages message focuses packages and hides the artifacts whatever the focus was, replaces the list and pushes the new selection's attributes |
| Ui.LayoutKeyDefersToggle | internal/ui/ui.go:201-202 | the layout key changes nothing and emits the toggle for the current layout |
| Ui.ToggleTwiceRestores | internal/ui/ui.go:335-346 | on a valid layout a toggle changes it and two toggles restore it |
| Ui.KeysKeepError | internal/ui/ui.go:100-203 | no key changes the stored error |
| Ui.ErrorIsSticky | internal/ui/ui.go:265-281 | no message clears a stored error, only a new error replaces it, and while one is stored only the error panel is drawn |
| Ui.QuitStops | internal/ui/ui.go:102-103 | Quit changes nothing and returns the quit command |
| Ui.ArtifactMessagesCommute | internal/ui/ui.go:232-247 | artifact messages of two different kinds reach the same state in either delivery order |
| Runtime.StartHasInv | internal/ui/ui.go:84-94 | the state after NewModel and Init has the invariant |
| Runtime.Perform | internal/ui/components/artifactspane/integrationartifact/artifact.go:142-221 | what running a command does: the per-kind init closures reset a list and return an empty message, the fetches return their list or an `ErrorMsg`, and the other commands return their message as their components build it; `PerformKeepsInv` and the outcome lemmas below state it |
| Runtime.ArtifactsNextKeepsInv | internal/ui/components/artifactspane/integrationartifact/artifact.go:75-125 | the pane keeps every list valid and the selected kind known for any message that can be in flight |
| Runtime.ArtifactsInitKeepsInv | internal/ui/components/artifactspane/integrationartifact/artifact.go:64-73 | Init keeps the lists valid and selects a known kind |
| Runtime.UpDownKeepsAppInv | internal/ui/ui.go:105-122 | Up/Down keep the invariant |
| Runtime.ResetKeysKeepAppInv | internal/ui/ui.go:135-182 | Enter and Refresh keep the invariant |
| Runtime.KeyStepKeepsAppInv | internal/ui/ui.go:100-203 | every key keeps the invariant |
| Runtime.StepKeepsAppInv | internal/ui/ui.go:96-270 | every message that can be in flight keeps the invariant |
| Runtime.PerformKeepsInv | internal/ui/components/artifactspane/tab/tab.go:93-99 | running a command keeps the invariant, and its message can be in flight |
| Runtime.ApplyKeepsInv | internal/ui/ui.go:96-270 | every event, whether a key press, a command run or a message delivery, keeps the invariant |
| Runtime.RunTraceKeepsInv | internal/ui/ui.go:96-270 | the invariant holds after any sequence of events |
| Runtime.ReachableStatesHaveInv | internal/ui/ui.go:21-29 | every state reachable from the start has the tab index in range, a known kind, a valid layout and valid cursors |
| Runtime.ReachableStatesNeverPanic | internal/ui/components/artifactspane/tab/tab.go:97-99 | in no reachable state does the active-tab command index outside the tab list |
| Runtime.AttributesCmdRoundTrip | internal/ui/components/attributespane/attribute/attribute.go:73-77 | the command delivers exactly its attributes, and the panel then shows them back unchanged |
| Runtime.AttributesInitEmptiesTable | internal/ui/components/attributespane/attribute/attribute.go:69-71 | the init command's message empties the table |
| Runtime.StatusCmdRoundTrip | internal/ui/components/statusbar/status_bar.go:54-58 | the command delivers its text, which then replaces the status message and nothing else |
| Runtime.PackageFetchOutcome | internal/ui/components/packagespane/contentpackage/package.go:88-95 | the fetch changes no state and completes as the fetched list or as the error |
| Runtime.ArtifactFetchOutcome | internal/ui/components/artifactspane/integrationartifact/artifact.go:175-221 | a per-kind fetch changes no state and completes as that kind's message or as an error |
| Runtime.OpenURLOutcome | internal/ui/ui.go:184-199 | the browser launch changes no state and returns a message exactly when it fails |
| Runtime.ActiveTabReportsActiveKind | internal/ui/components/artifactspane/tab/tab.go:93-99 | the active-tab command reports the name of the kind at the index current when it runs |
| Runtime.RotationResyncsKind | internal/ui/components/artifactspane/tab/tab.go:55-64 | rotating, running the command and delivering its message with the pane still focused leaves the tab index and the shown kind in agreement |
| Runtime.ToggleRoundTrip | internal/ui/ui.go:335-346 | the toggle takes effect only once its message is handled, and two full toggles restore the state |
| Text.LowerChar | internal/ui/common/sort/sort.go:78 | ASCII upper case moves down by 32, and the result is never upper case |
| Text.Lower | internal/ui/common/sort/sort.go:78 | same length, lower-casing each character |
| Text.LowerIdempotent | internal/config/config.go:205 | lower-casing twice is lower-casing once |
| Text.EqualFoldIsEquivalence | internal/ui/common/sort/sort.go:58-60 | matching up to case is reflexive, symmetric and transitive |
| Sort.DirectionOf | internal/ui/common/sort/sort.go:25-36 | descending exactly for "desc"; anything else is the zero value, ascending |
| Sort.Matches | internal/ui/common/sort/sort.go:58-60 | exactly the fields whose name matches up to case |
| Sort.FieldByName | internal/ui/common/sort/sort.go:51-67 | a resolved field is in the schema, matches up to case and is the only match; a struct that resolves nothing has zero or several matches |
| Sort.CompareText | internal/ui/common/sort/sort.go:78 | `cmp.Compare` on strings: -1, 0 or 1, and 0 exactly for equal strings |
| Sort.CompareInt | internal/ui/common/sort/sort.go:81 | negative, zero or positive exactly as x is less than, equal to or greater than y |
| Sort.CompareTextAntisymmetric | internal/ui/common/sort/sort.go:78 | swapping the strings negates the comparison |
| Sort.CompareTextTransitive | internal/ui/common/sort/sort.go:78 | string order is transitive |
| Sort.CompareAntisymmetric | internal/ui/common/sort/sort.go:69-96 | swapping the records negates the comparator, in either direction |
| Sort.CompareValuesTransitive | internal/ui/common/sort/sort.go:76-89 | the ascending comparison is transitive for every field kind |
| Sort.CompareTransitive | internal/ui/common/sort/sort.go:69-96 | the comparator is transitive in either direction |
| Sort.DescendingNegates | internal/ui/common/sort/sort.go:91-93 | descending is the negated ascending comparison |
| Sort.CompareValues | internal/ui/common/sort/sort.go:76-89 | the ascending comparison by field kind: strings lower-cased and compared, integers numerically, booleans by their lower-cased text; its laws are `CompareValuesTransitive`, `StringsIgnoreCase`, `IntegersCompareNumerically` and `FalseBeforeTrue` |
| Sort.Compare | internal/ui/common/sort/sort.go:69-96 | the comparator's result for two field values: the ascending comparison, negated for descending; `CompareAntisymmetric`, `CompareTransitive` and `DescendingNegates` state its laws |
| Sort.Comparator | internal/ui/common/sort/sort.go:69-75 | the comparator over two records, reading the resolved field of each; `ComparatorIsTotalPreorder` proves it is what the sort needs |
| Sort.StringsIgnoreCase | internal/ui/common/sort/sort.go:77-78 | string values equal up to case tie |
| Sort.IntegersCompareNumerically | internal/ui/common/sort/sort.go:79-81 | integer fields order numerically |
| Sort.FalseBeforeTrue | internal/ui/common/sort/sort.go:84-89 | boolean fields compare their text, so false comes before true |
| Sort.ComparatorIsTotalPreorder | internal/ui/common/sort/sort.go:69-96 | the record comparator is antisymmetric and transitive, as the in-place sort requires |
| Sort.MinIndex | internal/ui/common/sort/sort.go:48 | the index of an element no greater than any element from `lo` on |
| Sort.SelectionStep | internal/ui/common/sort/sort.go:48 | swapping a least remaining element into place extends the sorted, partitioned prefix |
| Sort.SortFunc | internal/ui/common/sort/sort.go:48 | the array ends sorted under the comparator and is a permutation of its old contents |
| Sort.SortBy | internal/ui/common/sort/sort.go:38-49 | an empty array, an empty name or an unresolved field leaves the array as it was; otherwise it ends sorted by the resolved field; always a permutation |
| Sort.SortWith | internal/ui/common/sort/sort.go:25-36 | the same, with the direction picked from the order name |
| Sort.Reversed | internal/ui/common/sort/sort.go:91-93 | the sequence read backwards: same length and elements, and position i holds the element at position length-1-i |
| Sort.StrictlySortedIsUnique | internal/ui/common/sort/sort.go:48 | a sequence strictly sorted under an antisymmetric comparison equals every sorted sequence with the same elements |
| Sort.ReversedDescendingIsAscending | internal/ui/common/sort/sort.go:91-93 | a sequence sorted descending, read backwards, is sorted ascending by the same field |
| Sort.AscendingThenDescendingReverses | internal/ui/common/sort/sort.go:69-96 | when no two records tie on the field, the descending sort of the same records is exactly the ascending sort reversed |
| Sort.FieldLookupIgnoresCase | internal/ui/common/sort/sort.go:58-60 | names equal up to case resolve to the same field |
| Sort.MatchesIgnoreCase | internal/ui/common/sort/sort.go:58-60 | names equal up to case match the same fields |
| Sort.NonStructNeverResolves | internal/ui/common/sort/sort.go:54-56 | a non-struct type resolves no field, so sorting it changes nothing |
| Sort.SingleMatch | internal/ui/common/sort/sort.go:58-64 | a name that exactly one field matches resolves to that field |
| Sort.PackageIDResolves | internal/ui/common/sort/sort.go:51-67 | the default field "ID" resolves on the package record |
| Sort.ArtifactIDResolves | internal/ui/common/sort/sort.go:51-67 | the default field "ID" resolves on the artifact record |
| Sort.PackageValue | internal/cpi/api/package.go:9-30 | the value of a named field of a content package, standing for reflection's FieldByName on the record; `PackageIDResolves` uses the schema that matches it |
| Sort.ArtifactValue | internal/cpi/api/artifact.go:9-19 | the value of a named field of an integration artifact, standing for reflection's FieldByName on the record; `ArtifactIDResolves` uses the schema that matches it |
| Config.Position | internal/config/config.go:166-187 | each mandatory parameter has a position in the report order |
| Config.ParameterAt | internal/config/config.go:166-187 | the parameter at a report position has that position |
| Config.MissingBefore | internal/config/config.go:166-187 | exactly the missing parameters whose check comes before position k |
| Config.MissingBeforeOrdered | internal/config/config.go:166-187 | those parameters come in strictly increasing check position, so each is reported once and in check order |
| Config.MissingParameters | internal/config/config.go:166-187 | exactly the missing parameters, each once, in the order webui_url, base_url, token_url, client_id, client_secret |
| Config.Names | internal/config/config.go:170-186 | the configuration key of each missing parameter, in order |
| Config.Join | internal/config/config.go:191 | `strings.Join`: "" for no parts, the part itself for one; `JoinAppend` states the separator placement for more |
| Config.JoinAppend | internal/config/config.go:189-192 | appending a part to a non-empty list of parts adds exactly one separator and then the part, so the separator stands between every two parts |
| Config.MissingParametersError | internal/config/config.go:189-195 | the error text: "missing parameters: " and the missing names joined by ", "; `MissingParametersText` and `TwoParametersText` state concrete cases |
| Config.FirstLabel | internal/config/config.go:201 | the longest prefix of the host name without a dot: followed by a dot or by the end |
| Config.DefaultedLayout | internal/config/config.go:204-212 | always "normal" or "compact": the lower-cased input if it is one of them, else "normal" |
| Config.DefaultedOrder | internal/config/config.go:219-227 | always "asc" or "desc": the lower-cased input if it is one of them, else "asc" |
| Config.DefaultedField | internal/config/config.go:214-217 | an empty field becomes "ID", and any other is kept verbatim |
| Config.DefaultedTenant | internal/config/config.go:199-202 | only the name can change: an empty name becomes the web UI host's first label, and a non-empty one is kept |
| Config.DefaultedSort | internal/config/config.go:214-227 | a pane's sort settings after setDefaults: the defaulted field and the defaulted order; `DefaultedSortResolves` states what they resolve to |
| Config.DefaultedUI | internal/config/config.go:204-242 | the UI settings after setDefaults: the defaulted layout and both panes' defaulted sort settings; `SetDefaultsIdempotent` proves a second pass changes nothing |
| Config.Configuration.constructor | internal/config/config.go:14-17 | holds the given tenant and UI sections |
| Config.Configuration.TenantName | internal/config/config.go:91-93 | the configured tenant name, after defaulting the first label of the web UI host when it was empty |
| Config.Configuration.TenantWebUIURL | internal/config/config.go:95-97 | the configured web UI URL, absent when not set |
| Config.Configuration.TenantBaseURL | internal/config/config.go:99-101 | the configured API base URL, absent when not set |
| Config.Configuration.TenantTokenURL | internal/config/config.go:103-105 | the configured token URL, absent when not set |
| Config.Configuration.TenantClientID | internal/config/config.go:107-109 | the configured client ID |
| Config.Configuration.TenantClientSecret | internal/config/config.go:111-113 | the configured client secret |
| Config.Configuration.UILayout | internal/config/config.go:115-117 | the configured layout, normal or compact after defaulting |
| Config.Configuration.UIPackagesPaneSortField | internal/config/config.go:119-121 | the packages pane's sort field, ID when unset |
| Config.Configuration.UIPackagesPaneSortOrder | internal/config/config.go:123-125 | the packages pane's sort order, asc or desc after defaulting |
| Config.Configuration.UIArtifactsPaneSortField | internal/config/config.go:127-129 | the artifacts pane's sort field, ID when unset |
| Config.Configuration.UIArtifactsPaneSortOrder | internal/config/config.go:131-133 | the artifacts pane's sort order, asc or desc after defaulting |
| Config.Configuration.CollectMissing | internal/config/config.go:167-187 | the five appends produce exactly the missing parameters in report order |
| Config.Configuration.CheckMandatory | internal/config/config.go:166-196 | an error exactly when some parameter is missing, with the text "missing parameters: " and the missing names joined by ", " |
| Config.Configuration.SetDefaults | internal/config/config.go:198-243 | the new tenant and UI sections are the defaulted ones |
| Config.AllParametersMissing | internal/config/config.go:166-187 | with everything missing, all five are reported in order |
| Config.BaseURLAndSecretMissing | internal/config/config.go:173-187 | with only the base URL and the secret missing, just those two are reported, in that order |
| Config.TwoParametersText | internal/config/config.go:189-192 | two missing parameters are reported comma separated, in order |
| Config.MissingParametersText | internal/config/config.go:189-192 | the error text for a missing base URL and secret is "missing parameters: tenant.base_url, tenant.client_secret" |
| Config.LowerKeepsKnownNames | internal/config/config.go:56-63 | the layout and order names are already lower case |
| Config.SetDefaultsIdempotent | internal/config/config.go:198-243 | a second run of the defaults changes neither section |
| Config.SetDefaultsKeepsConnection | internal/config/config.go:198-243 | the URLs and the credentials are never touched |
| Config.DefaultedSortResolves | internal/config/config.go:214-227 | the defaulted order is descending exactly for "desc" in any case, and an unset field sorts both records by ID |
| Config.ConfiguredLayoutReachesUi | internal/ui/ui.go:60-67 | after defaulting, the UI starts compact exactly when the configured layout is "compact" in any case |

## Left out

- Rendering is left out: lipgloss styles, the list widget's drawing, the tab captions' layout and the title bar. `Ui.View` keeps only which panel is drawn, which pane is active, whether the artifacts are drawn and whether the bars are present.
- The list widget is a library. Its behaviour is assumed, not proved: wrap-around navigation (lists are created with infinite scrolling), and `SetItems` keeping an in-range cursor while clamping any other to the last item. Pagination, filtering and window sizing are left out.
- HTTP, OAuth and the browser are left out. A fetch or browser launch is a command, and the response is an event parameter (`Runtime.Response`). The API layer's request building is not part of this model apart from its type-to-entity-set lookup.
- Concurrency is generalised. The runtime's goroutines are replaced by arbitrary interleavings of running pending commands and delivering waiting messages. Because of this, a stale fetch can overwrite a newer list, as it can in the program.
- The tab selector and the artifacts pane can drift apart, and the model keeps that as is. It happens when the focus leaves the artifacts pane before the tab's `ActiveTabMsg` arrives, because ui.go then drops the message. `Runtime.RotationResyncsKind` states the agreement only while the focus stays.
- Quitting is modelled as the system no longer running. A panic of the active-tab command also stops the system, and is proved unreachable.
- Window-size and other unhandled messages are all `OtherMsg`, and physical key bindings are an abstract `Key`.
- Timestamp rendering (epoch milliseconds to ISO 8601) is the `TimeText` parameter.
- Go's `int64` timestamps and integers are unbounded integers.
- The status bar's width uses the character count for Go's byte length. The message truncation itself is left out; only the budget and its `uint` conversion are modelled.
- Text.Lower: ASCII only, not Go's full Unicode case mapping, so `EqualFold` and the string comparator agree with Go on ASCII text only.
- Sort.CompareText: compares character codes, which for valid UTF-8 is the byte order `cmp.Compare` uses.
- Sort.CompareValues: the float branch and the unsigned branch are left out, because no record has a field of those kinds. The unsigned branch would also be rejected by reflection at run time.
- Sort.SortFunc: a selection sort stands for the library's sort. Only what the library promises is modelled, sortedness and permutation, not its particular order among ties.
- Reflection is replaced by an explicit field schema and a field-reading function per record (`Sort.PackageValue`, `Sort.ArtifactValue`). Embedded-struct depth rules of `FieldByNameFunc` are not needed, because the records are flat.
- Configuration loading, the decode hooks and `url.Parse` are left out: a configuration is whatever the loader produced. A URL is its text and host name. A missing tenant or UI section, which Go would dereference as nil, is not modelled.
- Config.Configuration.SetDefaults: requires a web UI URL when the tenant name is empty, where Go would dereference nil. The caller checks the mandatory parameters first.
- The command-line entry point (cmd/root.go), the application-info singleton, logging and the key map are not part of this model. cmd/root.go has its own defaulting rules, which are not merged into `Config`.
- The URL building of `SelectedArtifactWebUIURL` and `SelectedPackageWebUIURL` is not modelled; `OpenURL` carries a link descriptor instead. `SelectedArtifactID` is taken to be the ID of the shown list's selected item (see above).
