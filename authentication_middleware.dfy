/** The HTTP authentication gate. The auth-header parser and the identity
    provider are collaborators whose answers are given as functions; the
    middleware is a fixed-order decision over those answers. `I` is the
    parsed auth info, which the middleware never looks inside. */
module Apis {
  import opened Wrappers

  /** An error from the authorization package, seen through its two
      classifiers `IsNotAuthenticated` and `IsInvalidAuth` (both may hold). */
  datatype AuthError = AuthError(notAuthenticated: bool, invalidAuth: bool, message: string)

  datatype ParseResult<I> = Parsed(info: I) | ParseFailed(err: AuthError)

  /** The identity the provider resolves is discarded by the middleware; only
      success or the error matters. */
  datatype IdentityResult = Identified | IdentityFailed(err: AuthError)

  /** The part of a request context the middleware touches: the auth info. */
  datatype Context<I> = Context(authInfo: Option<I>)

  /** A request: URL path, value of the Authorization header ("" when absent)
      and context. */
  datatype Request<I> = Request(path: string, authorization: string, ctx: Context<I>)

  /** Exactly one of these ends every request the middleware sees. */
  datatype Response<I> =
    | Next(request: Request<I>)
    | NotAuthenticatedError
    | InvalidAuthError
    | UnknownError

  /** A call the middleware makes into a collaborator. */
  datatype Call<I> = ParseCall(header: string) | GetIdentityCall(ctx: Context<I>, info: I)

  /** The response and the collaborator calls made on the way, in order. */
  datatype Handled<I> = Handled(response: Response<I>, calls: seq<Call<I>>)

  datatype AuthenticationMiddleware<!I> = AuthenticationMiddleware(
    authInfoParser: string -> ParseResult<I>,
    identityProvider: (Context<I>, I) -> IdentityResult,
    unauthenticatedEndpoints: set<string>)

  function NewAuthenticationMiddleware<I>(
    authInfoParser: string -> ParseResult<I>,
    identityProvider: (Context<I>, I) -> IdentityResult): AuthenticationMiddleware<I>
  {
    AuthenticationMiddleware(authInfoParser, identityProvider, {"/", "/v3"})
  }

  /** `authorization.NewContext`: the context carrying the parsed auth info. */
  function WithAuthInfo<I>(ctx: Context<I>, info: I): Context<I>
  {
    ctx.(authInfo := Some(info))
  }

  /** The response written for a parse error: NotAuthenticated is tested first. */
  function ParseErrorResponse<I>(err: AuthError): Response<I>
  {
    if err.notAuthenticated then NotAuthenticatedError
    else if err.invalidAuth then InvalidAuthError
    else UnknownError
  }

  /** The response written for an identity error: only InvalidAuth is singled out. */
  function IdentityErrorResponse<I>(err: AuthError): Response<I>
  {
    if err.invalidAuth then InvalidAuthError else UnknownError
  }

  /** What the wrapped handler does with one request. */
  function Serve<I>(m: AuthenticationMiddleware<I>, r: Request<I>): Handled<I>
  {
    if r.path in m.unauthenticatedEndpoints then Handled(Next(r), [])
    else
      match m.authInfoParser(r.authorization)
      case ParseFailed(err) =>
        Handled(ParseErrorResponse(err), [ParseCall(r.authorization)])
      case Parsed(info) =>
        var r' := r.(ctx := WithAuthInfo(r.ctx, info));
        var calls := [ParseCall(r.authorization), GetIdentityCall(r'.ctx, info)];
        match m.identityProvider(r'.ctx, info)
        case IdentityFailed(err) => Handled(IdentityErrorResponse(err), calls)
        case Identified => Handled(Next(r'), calls)
  }

  /** The endpoints that need no authentication are exactly "/" and "/v3". */
  lemma ExemptEndpoints<I>(
    authInfoParser: string -> ParseResult<I>,
    identityProvider: (Context<I>, I) -> IdentityResult,
    path: string)
    ensures path in NewAuthenticationMiddleware(authInfoParser, identityProvider).unauthenticatedEndpoints
            <==> path == "/" || path == "/v3"
  {
  }

  /** An exempt path is forwarded unchanged, with no collaborator consulted:
      the outcome does not depend on the parser or the identity provider. */
  lemma ExemptPathPassesThrough<I>(m1: AuthenticationMiddleware<I>, m2: AuthenticationMiddleware<I>, r: Request<I>)
    requires m1.unauthenticatedEndpoints == m2.unauthenticatedEndpoints
    requires r.path in m1.unauthenticatedEndpoints
    ensures Serve(m1, r) == Serve(m2, r) == Handled(Next(r), [])
  {
  }

  /** Any other path, such as "/v3/apps", starts by parsing the Authorization header. */
  lemma OtherPathsAreAuthenticated<I>(
    authInfoParser: string -> ParseResult<I>,
    identityProvider: (Context<I>, I) -> IdentityResult,
    r: Request<I>)
    requires r.path != "/" && r.path != "/v3"
    ensures var h := Serve(NewAuthenticationMiddleware(authInfoParser, identityProvider), r);
      |h.calls| >= 1 && h.calls[0] == ParseCall(r.authorization)
  {
  }

  /** A parse error ends the request after the one parse call; NotAuthenticated
      wins over InvalidAuth, and any other error is an unknown error. */
  lemma ParseErrorClassified<I>(m: AuthenticationMiddleware<I>, r: Request<I>, err: AuthError)
    requires r.path !in m.unauthenticatedEndpoints
    requires m.authInfoParser(r.authorization) == ParseFailed(err)
    ensures Serve(m, r).calls == [ParseCall(r.authorization)]
    ensures Serve(m, r).response == NotAuthenticatedError <==> err.notAuthenticated
    ensures Serve(m, r).response == InvalidAuthError <==> !err.notAuthenticated && err.invalidAuth
    ensures Serve(m, r).response == UnknownError <==> !err.notAuthenticated && !err.invalidAuth
  {
  }

  /** After a successful parse the identity provider is asked exactly once,
      with a context carrying the parsed info; an InvalidAuth error gives the
      invalid-auth response and every other error, NotAuthenticated included,
      the unknown-error response. */
  lemma IdentityErrorClassified<I>(m: AuthenticationMiddleware<I>, r: Request<I>, info: I, err: AuthError)
    requires r.path !in m.unauthenticatedEndpoints
    requires m.authInfoParser(r.authorization) == Parsed(info)
    requires m.identityProvider(WithAuthInfo(r.ctx, info), info) == IdentityFailed(err)
    ensures Serve(m, r).calls == [ParseCall(r.authorization), GetIdentityCall(WithAuthInfo(r.ctx, info), info)]
    ensures Serve(m, r).calls[1].ctx.authInfo == Some(info)
    ensures Serve(m, r).response == InvalidAuthError <==> err.invalidAuth
    ensures Serve(m, r).response == UnknownError <==> !err.invalidAuth
  {
  }

  /** The next handler is reached exactly when the path is exempt or both the
      parse and the identity lookup succeed; it then gets the request, with
      the parsed info in its context when authentication ran. */
  lemma NextIffAuthenticated<I>(m: AuthenticationMiddleware<I>, r: Request<I>)
    ensures Serve(m, r).response.Next? <==>
      || r.path in m.unauthenticatedEndpoints
      || (m.authInfoParser(r.authorization).Parsed? &&
          var info := m.authInfoParser(r.authorization).info;
          m.identityProvider(WithAuthInfo(r.ctx, info), info).Identified?)
    ensures Serve(m, r).response.Next? && r.path !in m.unauthenticatedEndpoints ==>
      Serve(m, r).response.request == r.(ctx := WithAuthInfo(r.ctx, m.authInfoParser(r.authorization).info))
  {
  }

  /** The identity provider is consulted only after a successful parse. */
  lemma IdentityOnlyAfterParse<I>(m: AuthenticationMiddleware<I>, r: Request<I>)
    ensures (exists k :: 0 <= k < |Serve(m, r).calls| && Serve(m, r).calls[k].GetIdentityCall?) <==>
      r.path !in m.unauthenticatedEndpoints && m.authInfoParser(r.authorization).Parsed?
  {
    if r.path !in m.unauthenticatedEndpoints && m.authInfoParser(r.authorization).Parsed? {
      assert Serve(m, r).calls[1].GetIdentityCall?;
    }
  }
}
