/**
 * The session client: the headers every REST call carries and the body of
 * the sign-in request. The HTTP calls themselves (sign-in, sign-out) are
 * not modelled; where a token is needed it is obtained from a function
 * parameter standing for the server.
 */
module Session {
  import opened Wrappers

  const ContentType := "Content-Type"
  const Accept := "Accept"
  const TableauAuth := "X-Tableau-Auth"
  const ApplicationJson := "application/json"

  /** Headers for a REST call; the auth header is added only for an authenticated call. */
  method RequestHeaders(token: Option<string>) returns (headers: map<string, string>)
    ensures headers.Keys == {ContentType, Accept} + (if token.Some? then {TableauAuth} else {})
    ensures headers[ContentType] == ApplicationJson && headers[Accept] == ApplicationJson
    ensures TableauAuth in headers <==> token.Some?
    ensures token.Some? ==> headers[TableauAuth] == token.value
    ensures token.Some? ==> headers == AuthorizedHeaders(token.value)
  {
    headers := map[ContentType := ApplicationJson, Accept := ApplicationJson];
    if token.Some? {
      headers := headers[TableauAuth := token.value];
    }
  }

  /**
   * The headers of a call made with a session token: what `RequestHeaders`
   * returns for `Some(token)`, as a function specifications can use.
   */
  function AuthorizedHeaders(token: string): map<string, string>
  {
    map[ContentType := ApplicationJson, Accept := ApplicationJson, TableauAuth := token]
  }

  /** `{"credentials": {"name": ..., "password": ..., "site": {"contentUrl": ...}}}` */
  datatype SiteScope = SiteScope(contentUrl: string)
  datatype SignInCredentials = SignInCredentials(name: string, password: string, site: SiteScope)
  datatype SignInBody = SignInBody(credentials: SignInCredentials)

  /** The sign-in body: the default site unless a content URL is given. */
  method SignInPayload(username: string, password: string, contentUrl: Option<string>) returns (payload: SignInBody)
    ensures payload.credentials.name == username && payload.credentials.password == password
    ensures contentUrl.None? ==> payload.credentials.site.contentUrl == ""
    ensures contentUrl.Some? ==> payload.credentials.site.contentUrl == contentUrl.value
  {
    payload := SignInBody(SignInCredentials(username, password, SiteScope("")));
    if contentUrl.Some? {
      payload := payload.(credentials := payload.credentials.(site := SiteScope(contentUrl.value)));
    }
  }

  /**
   * The token the server hands out for a sign-in to the site with content
   * URL `contentUrl`: `signIn` applied to the body `SignInPayload` builds for
   * `Some(contentUrl)` (lemma `SignInPayloadToken`).
   */
  function SiteToken(signIn: SignInBody -> string, username: string, password: string, contentUrl: string): string
  {
    signIn(SignInBody(SignInCredentials(username, password, SiteScope(contentUrl))))
  }

  /** The token of a sign-in with the body `SignInPayload` built is the site's `SiteToken`. */
  lemma SignInPayloadToken(signIn: SignInBody -> string, username: string, password: string, contentUrl: string,
                           payload: SignInBody)
    requires payload.credentials.name == username && payload.credentials.password == password
    requires payload.credentials.site.contentUrl == contentUrl
    ensures signIn(payload) == SiteToken(signIn, username, password, contentUrl)
  {
    assert payload == SignInBody(SignInCredentials(username, password, SiteScope(contentUrl)));
  }
}
