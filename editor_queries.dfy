/** The paths with query strings that the `editorCloudApi` endpoints of editor-api.ts build with
    `URLSearchParams`. */
module EditorQueries {
  import opened Wrappers
  import opened Json
  import Text
  import UrlSearch

  /** The query of `listProjects`: `offset` (default 0) and `limit` (default 50), then `search`
      when it is a non-empty string. */
  function ListProjectsParams(offset: Option<int>, limit: Option<int>, search: Option<string>): (p: UrlSearch.Params)
    ensures |p| == (if TruthyString(search) then 3 else 2)
    ensures p[0] == ("offset", Text.IntToString(offset.GetOr(0)))
    ensures p[1] == ("limit", Text.IntToString(limit.GetOr(50)))
    ensures |p| == 3 ==> p[2] == ("search", search.value)
  {
    var params := [("offset", Text.IntToString(offset.GetOr(0))), ("limit", Text.IntToString(limit.GetOr(50)))];
    if TruthyString(search) then UrlSearch.Set(params, "search", search.value) else params
  }

  function ListProjectsPath(offset: Option<int>, limit: Option<int>, search: Option<string>): string {
    "/editor/projects?" + UrlSearch.Serialize(ListProjectsParams(offset, limit, search))
  }

  /** The query of `listFiles`: `limit` (default 100), then `search` when non-empty. */
  function ListFilesParams(limit: Option<int>, search: Option<string>): (p: UrlSearch.Params)
    ensures |p| == (if TruthyString(search) then 2 else 1)
    ensures p[0] == ("limit", Text.IntToString(limit.GetOr(100)))
    ensures |p| == 2 ==> p[1] == ("search", search.value)
  {
    var params := [("limit", Text.IntToString(limit.GetOr(100)))];
    if TruthyString(search) then UrlSearch.Set(params, "search", search.value) else params
  }

  function ListFilesPath(limit: Option<int>, search: Option<string>): string {
    "/files?" + UrlSearch.Serialize(ListFilesParams(limit, search))
  }

  /** The query of `signFileByKey`: the key, then `redirect` as `String(redirect)`, default false. */
  function SignFileByKeyParams(key: string, redirect: Option<bool>): (p: UrlSearch.Params)
    ensures p == [("key", key), ("redirect", if redirect == Some(true) then "true" else "false")]
  {
    [("key", key), ("redirect", if redirect.GetOr(false) then "true" else "false")]
  }

  function SignFileByKeyPath(key: string, redirect: Option<bool>): string {
    "/files/sign?" + UrlSearch.Serialize(SignFileByKeyParams(key, redirect))
  }

  /** `listProjects` with every default asks for `offset=0` and `limit=50`. */
  lemma ListProjectsDefaults()
    ensures ListProjectsParams(None, None, None) == [("offset", "0"), ("limit", "50")]
  {
    assert Text.IntToString(50) == "50" by {
      assert Text.NatToString(50) == Text.NatToString(5) + [Text.DigitChar(0)];
    }
  }

  /** `listFiles` with every default asks for `limit=100`. */
  lemma ListFilesDefaults()
    ensures ListFilesParams(None, None) == [("limit", "100")]
  {
    assert Text.IntToString(100) == "100" by {
      assert Text.NatToString(100) == Text.NatToString(10) + [Text.DigitChar(0)];
      assert Text.NatToString(10) == Text.NatToString(1) + [Text.DigitChar(0)];
    }
  }
}
