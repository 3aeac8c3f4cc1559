/** backend-api.ts: the backend's base URL and the workspace selection kept in `localStorage`. */
module BackendApi {
  import opened Wrappers

  /** The configured base when it is set and non-empty, else the default. */
  function ChosenBase(configured: Option<string>): (b: string)
    ensures configured.None? || configured == Some("") ==> b == "/api"
    ensures configured.Some? && configured.value != "" ==> b == configured.value
  {
    if configured.Some? && |configured.value| > 0 then configured.value else "/api"
  }

  predicate EndsWithSlash(s: string) {
    |s| > 0 && s[|s| - 1] == '/'
  }

  /** `getBackendApiBaseUrl()` for the environment value `configured`: the chosen base with one
      trailing slash removed (`replace(/\/$/, "")`). */
  function BaseUrl(configured: Option<string>): (r: string)
    ensures configured.None? || configured == Some("") ==> r == "/api"
    ensures var b := ChosenBase(configured); r == b || r + "/" == b
    ensures var b := ChosenBase(configured); EndsWithSlash(b) <==> r + "/" == b
    ensures !EndsWithSlash(ChosenBase(configured)) ==> r == ChosenBase(configured)
  {
    var b := ChosenBase(configured);
    if EndsWithSlash(b) then b[..|b| - 1] else b
  }

  /** `BaseUrl` removes at most one slash: a base ending in two keeps the second to last. */
  lemma BaseUrlKeepsInnerSlash(configured: Option<string>)
    requires var b := ChosenBase(configured); |b| >= 2 && b[|b| - 1] == '/' && b[|b| - 2] == '/'
    ensures EndsWithSlash(BaseUrl(configured))
  {
  }

  const WorkspaceStorageKey: string := "opencut_workspace_id"

  /** `getSelectedWorkspaceId()`: `null` without a window or when the stored value is missing or
      empty, else the stored value. */
  function SelectedWorkspaceId(hasWindow: bool, items: map<string, string>): (r: Option<string>)
    ensures r.Some? <==> hasWindow && WorkspaceStorageKey in items && items[WorkspaceStorageKey] != ""
    ensures r.Some? ==> r.value == items[WorkspaceStorageKey] && r.value != ""
  {
    if hasWindow && WorkspaceStorageKey in items && items[WorkspaceStorageKey] != "" then
      Some(items[WorkspaceStorageKey])
    else
      None
  }

  /** `localStorage`, with whether the code runs under a window at all. */
  class WorkspaceStorage {
    const hasWindow: bool
    var items: map<string, string>

    constructor (hasWindow: bool, items: map<string, string>)
      ensures this.hasWindow == hasWindow && this.items == items
    {
      this.hasWindow := hasWindow;
      this.items := items;
    }

    method GetSelectedWorkspaceId() returns (r: Option<string>)
      ensures r == SelectedWorkspaceId(hasWindow, items)
    {
      if !hasWindow {
        return None;
      }
      if WorkspaceStorageKey in items && items[WorkspaceStorageKey] != "" {
        r := Some(items[WorkspaceStorageKey]);
      } else {
        r := None;
      }
    }

    /** `setSelectedWorkspaceId`: writes the key under a window, changes nothing without one. */
    method SetSelectedWorkspaceId(workspaceId: string)
      modifies this
      ensures items == if hasWindow then old(items)[WorkspaceStorageKey := workspaceId] else old(items)
    {
      if !hasWindow {
        return;
      }
      items := items[WorkspaceStorageKey := workspaceId];
    }
  }

  /** A non-empty id written under a window is what the next read returns. */
  lemma SetThenGet(items: map<string, string>, workspaceId: string)
    requires workspaceId != ""
    ensures SelectedWorkspaceId(true, items[WorkspaceStorageKey := workspaceId]) == Some(workspaceId)
  {
  }
}
