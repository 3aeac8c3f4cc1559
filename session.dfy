/** session.ts: the process-wide access-token slot. */
module Session {
  import opened Wrappers

  class AuthSession {
    /** `accessToken`; `None` is `null`. */
    var accessToken: Option<string>

    /** The slot starts out empty. */
    constructor ()
      ensures accessToken == None
    {
      accessToken := None;
    }

    method GetToken() returns (token: Option<string>)
      ensures token == accessToken
    {
      token := accessToken;
    }

    /** Overwrites whatever the slot held: the last write wins. */
    method SetToken(token: string)
      modifies this
      ensures accessToken == Some(token)
    {
      accessToken := Some(token);
    }

    method Clear()
      modifies this
      ensures accessToken == None
    {
      accessToken := None;
    }
  }
}
