/**
 * Which browser origins the API server accepts (server/config/security.js):
 * the list of allowed origins, taken from the environment, and the `origin`
 * callback the CORS middleware consults on every request.
 */
module CorsPolicy {
  import opened Wrappers
  import opened JsString

  /** The environment variables the policy reads; `None` for an unset one. */
  datatype Env = Env(allowedOrigins: Option<string>, nodeEnv: Option<string>, clientUrl: Option<string>)

  predicate IsProduction(env: Env) {
    env.nodeEnv == Some("production")
  }

  const DefaultDomain := "https://your-domain.vercel.app"
  const DevelopmentOrigins := ["http://localhost:3000", "http://localhost:5173", "http://127.0.0.1:3000", "http://127.0.0.1:5173"]

  /** `list.map(origin => origin.trim())`. */
  function TrimAll(parts: seq<string>): (r: seq<string>)
    ensures |r| == |parts|
    ensures forall i | 0 <= i < |r| :: r[i] == Trim(parts[i])
  {
    seq(|parts|, i requires 0 <= i < |parts| => Trim(parts[i]))
  }

  /** `getAllowedOrigins()`. */
  function AllowedOrigins(env: Env): (r: seq<string>)
    ensures Truthy(env.allowedOrigins) ==> r == TrimAll(Split(env.allowedOrigins.value, ','))
    ensures !Truthy(env.allowedOrigins) && IsProduction(env) ==> r == [OrElse(env.clientUrl, DefaultDomain)]
    ensures !Truthy(env.allowedOrigins) && !IsProduction(env) ==> r == DevelopmentOrigins
  {
    if Truthy(env.allowedOrigins) then TrimAll(Split(env.allowedOrigins.value, ','))
    else if IsProduction(env) then [OrElse(env.clientUrl, DefaultDomain)]
    else DevelopmentOrigins
  }

  /**
   * `ALLOWED_ORIGINS` is read as a list: one entry per comma-separated piece,
   * in order, each the piece with its surrounding white space removed, and
   * no entry holds a comma or is padded.
   */
  lemma ConfiguredOriginsAreThePieces(env: Env)
    requires Truthy(env.allowedOrigins)
    ensures var pieces := Split(env.allowedOrigins.value, ',');
      var r := AllowedOrigins(env);
      Join(pieces, ",") == env.allowedOrigins.value && |r| == |pieces|
      && forall i | 0 <= i < |r| :: r[i] == Trim(pieces[i]) && ',' !in r[i] && Trim(r[i]) == r[i]
  {
    var pieces := Split(env.allowedOrigins.value, ',');
    var r := AllowedOrigins(env);
    forall i | 0 <= i < |r|
      ensures ',' !in r[i] && Trim(r[i]) == r[i]
    {
      var _, _ := TrimSlice(pieces[i]);
      TrimNoop(r[i]);
    }
  }

  /** Without `ALLOWED_ORIGINS`, production allows exactly one origin, which is never empty. */
  lemma ProductionAllowsOneOrigin(env: Env)
    requires !Truthy(env.allowedOrigins) && IsProduction(env)
    ensures |AllowedOrigins(env)| == 1 && AllowedOrigins(env)[0] != ""
    ensures Truthy(env.clientUrl) ==> AllowedOrigins(env) == [env.clientUrl.value]
  {
  }

  const CorsRejection := "Not allowed by CORS"

  /** What the CORS middleware is told: `callback(null, true)` or `callback(new Error(message))`. */
  datatype Verdict = Allow | Reject(message: string)

  /** The `origin` option of `corsOptions`; a missing or empty `Origin` header is `None` or "". */
  function CheckOrigin(env: Env, origin: Option<string>): (r: Verdict)
    ensures r.Reject? ==> r.message == CorsRejection
  {
    if !Truthy(origin) && !IsProduction(env) then Allow
    else if !Truthy(origin) then Allow
    else if origin.value in AllowedOrigins(env) then Allow
    else Reject(CorsRejection)
  }

  /**
   * A request is allowed exactly when it carries no origin or one that is in
   * the list verbatim; both environments treat a missing origin alike.
   */
  lemma OriginAllowedIff(env: Env, origin: Option<string>)
    ensures CheckOrigin(env, origin) == Allow <==> !Truthy(origin) || origin.value in AllowedOrigins(env)
    ensures !Truthy(origin) ==> CheckOrigin(env, origin) == CheckOrigin(env.(nodeEnv := None), origin)
  {
  }

  /** In development with no configured list, exactly the four local origins get through. */
  lemma DevelopmentAllowsLocalhost(env: Env, origin: string)
    requires !Truthy(env.allowedOrigins) && !IsProduction(env) && origin != ""
    ensures CheckOrigin(env, Some(origin)) == Allow <==> origin in DevelopmentOrigins
  {
  }

  /** `o` does not end in white space. */
  predicate Unpadded(o: string) {
    o == [] || !IsWhitespace(o[|o| - 1])
  }

  /** No configured entry ends in white space. */
  lemma ConfiguredOriginsUnpadded(env: Env)
    requires Truthy(env.allowedOrigins)
    ensures forall o | o in AllowedOrigins(env) :: o == [] || !IsWhitespace(o[|o| - 1])
  {
    TrimAllUnpadded(Split(env.allowedOrigins.value, ','));
  }

  lemma TrimAllUnpadded(parts: seq<string>)
    ensures forall o | o in TrimAll(parts) :: Unpadded(o)
  {
    var r := TrimAll(parts);
    forall o | o in r
      ensures Unpadded(o)
    {
      var i :| 0 <= i < |r| && r[i] == o;
      TrimUnpadded(parts[i], o);
    }
  }

  lemma TrimUnpadded(p: string, o: string)
    requires o == Trim(p)
    ensures Unpadded(o)
  {
  }

  /** An origin that ends in white space is refused when a list is configured: the comparison is exact. */
  lemma PaddedOriginRefused(env: Env, origin: string)
    requires Truthy(env.allowedOrigins)
    requires origin != [] && IsWhitespace(origin[|origin| - 1])
    ensures CheckOrigin(env, Some(origin)) == Reject(CorsRejection)
  {
    assert origin !in AllowedOrigins(env) by {
      ConfiguredOriginsUnpadded(env);
    }
    UnlistedRefused(env, origin);
  }

  lemma UnlistedRefused(env: Env, origin: string)
    requires origin != [] && origin !in AllowedOrigins(env)
    ensures CheckOrigin(env, Some(origin)) == Reject(CorsRejection)
  {
  }
}
