/**
 * Validation and defaulting of the loaded configuration
 * (internal/config/config.go). Loading the file is not modelled: a
 * configuration is whatever the loader produced, with an absent URL as None.
 */
module Config {
  import opened Wrappers
  import opened Text
  import Sort
  import Ui

  /** A parsed URL; only its host name is read here. */
  datatype Url = Url(text: string, hostname: string)

  datatype Tenant = Tenant(
    name: string,
    webUIURL: Option<Url>,
    baseURL: Option<Url>,
    tokenURL: Option<Url>,
    clientID: string,
    clientSecret: string)

  datatype SortConfig = SortConfig(field: string, order: string)

  datatype UI = UI(layout: string, packagesSort: SortConfig, artifactsSort: SortConfig)

  const LayoutNormal := "normal"
  const LayoutCompact := "compact"
  const SortOrderAscending := "asc"
  const SortOrderDescending := "desc"
  const DefaultSortField := "ID"

  /** A mandatory parameter of the tenant section. */
  datatype Parameter = WebUIURL | BaseURL | TokenURL | ClientID | ClientSecret

  /** The configuration key a missing parameter is reported as. */
  function ParameterName(p: Parameter): string {
    match p
    case WebUIURL => "tenant.webui_url"
    case BaseURL => "tenant.base_url"
    case TokenURL => "tenant.token_url"
    case ClientID => "tenant.client_id"
    case ClientSecret => "tenant.client_secret"
  }

  /** The position of each parameter in the order checkMandatory reports them. */
  function Position(p: Parameter): (k: nat)
    ensures k < 5
  {
    match p
    case WebUIURL => 0
    case BaseURL => 1
    case TokenURL => 2
    case ClientID => 3
    case ClientSecret => 4
  }

  function ParameterAt(k: nat): (p: Parameter)
    requires k < 5
    ensures Position(p) == k
  {
    if k == 0 then WebUIURL
    else if k == 1 then BaseURL
    else if k == 2 then TokenURL
    else if k == 3 then ClientID
    else ClientSecret
  }

  /** A URL parameter is missing when absent, a credential when empty. */
  predicate IsMissing(tenant: Tenant, p: Parameter) {
    match p
    case WebUIURL => tenant.webUIURL.None?
    case BaseURL => tenant.baseURL.None?
    case TokenURL => tenant.tokenURL.None?
    case ClientID => tenant.clientID == ""
    case ClientSecret => tenant.clientSecret == ""
  }

  /** The missing parameters before position k, in report order. */
  function MissingBefore(tenant: Tenant, k: nat): (missing: seq<Parameter>)
    requires k <= 5
    ensures forall p :: p in missing <==> IsMissing(tenant, p) && Position(p) < k
  {
    if k == 0 then []
    else
      var p := ParameterAt(k - 1);
      var before := MissingBefore(tenant, k - 1);
      assert forall q :: Position(q) == k - 1 ==> q == p;
      if IsMissing(tenant, p) then before + [p] else before
  }

  /** The parameters before position k are reported in strictly increasing position, hence each once. */
  lemma {:induction false} MissingBeforeOrdered(tenant: Tenant, k: nat)
    requires k <= 5
    ensures forall i, j :: 0 <= i < j < |MissingBefore(tenant, k)| ==>
      Position(MissingBefore(tenant, k)[i]) < Position(MissingBefore(tenant, k)[j])
  {
    if k > 0 {
      MissingBeforeOrdered(tenant, k - 1);
      var p := ParameterAt(k - 1);
      var before := MissingBefore(tenant, k - 1);
      assert forall i :: 0 <= i < |before| ==> before[i] in before;
      if IsMissing(tenant, p) {
        var missing := before + [p];
        assert MissingBefore(tenant, k) == missing;
        assert forall i :: 0 <= i < |before| ==> missing[i] == before[i];
      } else {
        assert MissingBefore(tenant, k) == before;
      }
    }
  }

  /**
   * The missing mandatory parameters: exactly the missing ones, each once,
   * in the fixed order web UI URL, base URL, token URL, client id, client secret.
   */
  function MissingParameters(tenant: Tenant): (missing: seq<Parameter>)
    ensures forall p :: p in missing <==> IsMissing(tenant, p)
    ensures forall i, j :: 0 <= i < j < |missing| ==> Position(missing[i]) < Position(missing[j])
  {
    MissingBeforeOrdered(tenant, 5);
    MissingBefore(tenant, 5)
  }

  /** The names of the missing parameters, as reported. */
  function Names(parameters: seq<Parameter>): (names: seq<string>)
    ensures |names| == |parameters|
    ensures forall i :: 0 <= i < |parameters| ==> names[i] == ParameterName(parameters[i])
  {
    if |parameters| == 0 then [] else [ParameterName(parameters[0])] + Names(parameters[1..])
  }

  /** strings.Join. */
  function Join(parts: seq<string>, separator: string): (r: string)
    ensures |parts| == 0 ==> r == ""
    ensures |parts| == 1 ==> r == parts[0]
  {
    if |parts| == 0 then ""
    else if |parts| == 1 then parts[0]
    else parts[0] + separator + Join(parts[1..], separator)
  }

  /** Appending a part to a non-empty join adds one separator and then the part. */
  lemma {:induction false} JoinAppend(parts: seq<string>, p: string, separator: string)
    requires |parts| > 0
    ensures Join(parts + [p], separator) == Join(parts, separator) + separator + p
    decreases |parts|
  {
    if |parts| == 1 {
      assert parts + [p] == [parts[0], p];
      assert (parts + [p])[1..] == [p];
    } else {
      assert (parts + [p])[1..] == parts[1..] + [p];
      JoinAppend(parts[1..], p, separator);
    }
  }

  /** The error text for a non-empty list of missing parameters. */
  function MissingParametersError(missing: seq<Parameter>): string {
    "missing parameters: " + Join(Names(missing), ", ")
  }

  /** strings.Split(hostname, ".")[0]: the host name up to its first dot. */
  function FirstLabel(hostname: string): (first: string)
    ensures |first| <= |hostname| && first == hostname[..|first|]
    ensures '.' !in first
    ensures |first| < |hostname| ==> hostname[|first|] == '.'
  {
    if |hostname| == 0 || hostname[0] == '.' then ""
    else
      var rest := FirstLabel(hostname[1..]);
      assert hostname[..|rest| + 1] == [hostname[0]] + rest;
      [hostname[0]] + rest
  }

  /** The layout setDefaults keeps: the lower-cased name if it is one of the two, else normal. */
  function DefaultedLayout(layout: string): (r: string)
    ensures r == LayoutNormal || r == LayoutCompact
    ensures Lower(layout) == LayoutNormal || Lower(layout) == LayoutCompact ==> r == Lower(layout)
    ensures Lower(layout) != LayoutNormal && Lower(layout) != LayoutCompact ==> r == LayoutNormal
  {
    var lowered := Lower(layout);
    if lowered == LayoutNormal || lowered == LayoutCompact then lowered else LayoutNormal
  }

  /** The sort order setDefaults keeps: the lower-cased order if it is one of the two, else ascending. */
  function DefaultedOrder(order: string): (r: string)
    ensures r == SortOrderAscending || r == SortOrderDescending
    ensures Lower(order) == SortOrderAscending || Lower(order) == SortOrderDescending ==> r == Lower(order)
    ensures Lower(order) != SortOrderAscending && Lower(order) != SortOrderDescending ==> r == SortOrderAscending
  {
    var lowered := Lower(order);
    if lowered == SortOrderAscending || lowered == SortOrderDescending then lowered else SortOrderAscending
  }

  /** The sort field setDefaults keeps: ID when empty, otherwise verbatim. */
  function DefaultedField(field: string): (r: string)
    ensures field == "" ==> r == DefaultSortField
    ensures field != "" ==> r == field
  {
    if field == "" then DefaultSortField else field
  }

  function DefaultedSort(sort: SortConfig): SortConfig {
    SortConfig(DefaultedField(sort.field), DefaultedOrder(sort.order))
  }

  /** The tenant after setDefaults: the name defaults to the web UI host's first label. */
  function DefaultedTenant(tenant: Tenant): (r: Tenant)
    requires tenant.name == "" ==> tenant.webUIURL.Some?
    ensures r == tenant.(name := r.name)
    ensures tenant.name != "" ==> r.name == tenant.name
    ensures tenant.name == "" ==> r.name == FirstLabel(tenant.webUIURL.value.hostname)
  {
    if tenant.name == "" then tenant.(name := FirstLabel(tenant.webUIURL.value.hostname)) else tenant
  }

  /** The UI settings after setDefaults. */
  function DefaultedUI(ui: UI): UI {
    UI(DefaultedLayout(ui.layout), DefaultedSort(ui.packagesSort), DefaultedSort(ui.artifactsSort))
  }

  class Configuration {
    var tenant: Tenant
    var ui: UI

    constructor (tenant: Tenant, ui: UI)
      ensures this.tenant == tenant && this.ui == ui
    {
      this.tenant := tenant;
      this.ui := ui;
    }

    function TenantName(): string reads this { tenant.name }
    function TenantWebUIURL(): Option<Url> reads this { tenant.webUIURL }
    function TenantBaseURL(): Option<Url> reads this { tenant.baseURL }
    function TenantTokenURL(): Option<Url> reads this { tenant.tokenURL }
    function TenantClientID(): string reads this { tenant.clientID }
    function TenantClientSecret(): string reads this { tenant.clientSecret }
    function UILayout(): string reads this { ui.layout }
    function UIPackagesPaneSortField(): string reads this { ui.packagesSort.field }
    function UIPackagesPaneSortOrder(): string reads this { ui.packagesSort.order }
    function UIArtifactsPaneSortField(): string reads this { ui.artifactsSort.field }
    function UIArtifactsPaneSortOrder(): string reads this { ui.artifactsSort.order }

    /** The appends of checkMandatory: one check per parameter, in order. */
    method CollectMissing() returns (missing: seq<Parameter>)
      ensures forall p :: p in missing <==> IsMissing(tenant, p)
      ensures missing == MissingParameters(tenant)
    {
      missing := [];
      if tenant.webUIURL.None? {
        missing := missing + [WebUIURL];
      }
      assert missing == MissingBefore(tenant, 1);
      if tenant.baseURL.None? {
        missing := missing + [BaseURL];
      }
      assert missing == MissingBefore(tenant, 2);
      if tenant.tokenURL.None? {
        missing := missing + [TokenURL];
      }
      assert missing == MissingBefore(tenant, 3);
      if tenant.clientID == "" {
        missing := missing + [ClientID];
      }
      assert missing == MissingBefore(tenant, 4);
      if tenant.clientSecret == "" {
        missing := missing + [ClientSecret];
      }
      assert missing == MissingBefore(tenant, 5);
    }

    /**
     * checkMandatory: an error exactly when a parameter is missing, naming
     * the missing ones in the fixed order of MissingParameters.
     */
    method CheckMandatory() returns (err: Option<string>)
      ensures err.None? <==> forall p :: !IsMissing(tenant, p)
      ensures err.Some? ==> err.value == MissingParametersError(MissingParameters(tenant))
    {
      var missing := CollectMissing();
      if |missing| > 0 {
        assert missing[0] in missing;
        err := Some(MissingParametersError(missing));
      } else {
        err := None;
      }
    }

    /** setDefaults. Go dereferences the web UI URL for an empty name; its caller checks it first. */
    method SetDefaults()
      requires tenant.name == "" ==> tenant.webUIURL.Some?
      modifies this
      ensures tenant == DefaultedTenant(old(tenant))
      ensures ui == DefaultedUI(old(ui))
    {
      if tenant.name == "" {
        tenant := tenant.(name := FirstLabel(tenant.webUIURL.value.hostname));
      }

      ghost var ui0 := ui;
      var layout := Lower(ui.layout);
      if layout == LayoutNormal || layout == LayoutCompact {
        ui := ui.(layout := layout);
      } else {
        ui := ui.(layout := LayoutNormal);
      }
      assert ui == ui0.(layout := DefaultedLayout(ui0.layout));

      if ui.packagesSort.field == "" {
        ui := ui.(packagesSort := ui.packagesSort.(field := DefaultSortField));
      }

      var packagesSortOrder := Lower(ui.packagesSort.order);
      if packagesSortOrder == SortOrderAscending || packagesSortOrder == SortOrderDescending {
        ui := ui.(packagesSort := ui.packagesSort.(order := packagesSortOrder));
      } else {
        ui := ui.(packagesSort := ui.packagesSort.(order := SortOrderAscending));
      }
      assert ui == ui0.(layout := DefaultedLayout(ui0.layout), packagesSort := DefaultedSort(ui0.packagesSort));

      if ui.artifactsSort.field == "" {
        ui := ui.(artifactsSort := ui.artifactsSort.(field := DefaultSortField));
      }

      var artifactsSortOrder := Lower(ui.artifactsSort.order);
      if artifactsSortOrder == SortOrderAscending || artifactsSortOrder == SortOrderDescending {
        ui := ui.(artifactsSort := ui.artifactsSort.(order := artifactsSortOrder));
      } else {
        ui := ui.(artifactsSort := ui.artifactsSort.(order := SortOrderAscending));
      }
    }
  }

  /** With every parameter missing, all five are reported in check order. */
  lemma AllParametersMissing(tenant: Tenant)
    requires tenant.webUIURL.None? && tenant.baseURL.None? && tenant.tokenURL.None?
    requires tenant.clientID == "" && tenant.clientSecret == ""
    ensures MissingParameters(tenant) == [WebUIURL, BaseURL, TokenURL, ClientID, ClientSecret]
  {
    assert MissingBefore(tenant, 1) == [WebUIURL];
    assert MissingBefore(tenant, 2) == [WebUIURL, BaseURL];
    assert MissingBefore(tenant, 3) == [WebUIURL, BaseURL, TokenURL];
    assert MissingBefore(tenant, 4) == [WebUIURL, BaseURL, TokenURL, ClientID];
  }

  /** Only the base URL and the client secret are missing here. */
  lemma BaseURLAndSecretMissing(tenant: Tenant)
    requires tenant.webUIURL.Some? && tenant.baseURL.None? && tenant.tokenURL.Some?
    requires tenant.clientID != "" && tenant.clientSecret == ""
    ensures MissingParameters(tenant) == [BaseURL, ClientSecret]
  {
    assert MissingBefore(tenant, 1) == MissingBefore(tenant, 0) == [];
    assert MissingBefore(tenant, 2) == [] + [BaseURL];
    assert MissingBefore(tenant, 3) == MissingBefore(tenant, 2);
    assert MissingBefore(tenant, 4) == MissingBefore(tenant, 3);
    assert MissingBefore(tenant, 5) == MissingBefore(tenant, 4) + [ClientSecret];
  }

  /** Two missing parameters are reported comma separated, in the given order. */
  lemma TwoParametersText(p: Parameter, q: Parameter)
    ensures MissingParametersError([p, q]) == "missing parameters: " + ParameterName(p) + ", " + ParameterName(q)
  {
    var names := Names([p, q]);
    assert names == [ParameterName(p), ParameterName(q)];
    assert names[1..] == [ParameterName(q)];
  }

  /** The error text for a tenant lacking its base URL and client secret. */
  lemma MissingParametersText(tenant: Tenant)
    requires tenant.webUIURL.Some? && tenant.baseURL.None? && tenant.tokenURL.Some?
    requires tenant.clientID != "" && tenant.clientSecret == ""
    ensures MissingParametersError(MissingParameters(tenant)) ==
      "missing parameters: tenant.base_url, tenant.client_secret"
  {
    BaseURLAndSecretMissing(tenant);
    TwoParametersText(BaseURL, ClientSecret);
  }

  /** Lower-casing leaves the already lower-case names alone. */
  lemma LowerKeepsKnownNames()
    ensures Lower(LayoutNormal) == LayoutNormal && Lower(LayoutCompact) == LayoutCompact
    ensures Lower(SortOrderAscending) == SortOrderAscending && Lower(SortOrderDescending) == SortOrderDescending
  {
    assert Lower(LayoutNormal) == LayoutNormal;
    assert Lower(LayoutCompact) == LayoutCompact;
    assert Lower(SortOrderAscending) == SortOrderAscending;
    assert Lower(SortOrderDescending) == SortOrderDescending;
  }

  /** setDefaults is idempotent: a second run changes nothing. */
  lemma SetDefaultsIdempotent(tenant: Tenant, ui: UI)
    requires tenant.name == "" ==> tenant.webUIURL.Some?
    ensures var once := DefaultedTenant(tenant);
      (once.name == "" ==> once.webUIURL.Some?) && DefaultedTenant(once) == once
    ensures DefaultedUI(DefaultedUI(ui)) == DefaultedUI(ui)
  {
    LowerKeepsKnownNames();
  }

  /** setDefaults never touches the URLs or the credentials. */
  lemma SetDefaultsKeepsConnection(tenant: Tenant)
    requires tenant.name == "" ==> tenant.webUIURL.Some?
    ensures var r := DefaultedTenant(tenant);
      r.webUIURL == tenant.webUIURL && r.baseURL == tenant.baseURL && r.tokenURL == tenant.tokenURL &&
      r.clientID == tenant.clientID && r.clientSecret == tenant.clientSecret
  {
  }

  /** After setDefaults, the sort order of each pane picks its direction as configured, and an unset field sorts by ID. */
  lemma DefaultedSortResolves(sort: SortConfig)
    ensures var d := DefaultedSort(sort);
      (Sort.DirectionOf(d.order) == Sort.Descending <==> Lower(sort.order) == SortOrderDescending) &&
      (sort.field == "" ==>
        Sort.FieldByName(Some(Sort.PackageFields), d.field) == Some(Sort.Field("ID", Sort.StringField)) &&
        Sort.FieldByName(Some(Sort.ArtifactFields), d.field) == Some(Sort.Field("ID", Sort.StringField)))
  {
    LowerKeepsKnownNames();
    Sort.PackageIDResolves();
    Sort.ArtifactIDResolves();
  }

  /** The defaulted layout name reaches the UI as compact exactly when its lower-cased form is compact. */
  lemma ConfiguredLayoutReachesUi(layout: string)
    ensures Ui.InitialLayout(DefaultedLayout(layout)) == Ui.LayoutCompact <==> Lower(layout) == LayoutCompact
    ensures Ui.InitialLayout(DefaultedLayout(layout)) == Ui.LayoutNormal <==> Lower(layout) != LayoutCompact
  {
    LowerKeepsKnownNames();
  }
}
