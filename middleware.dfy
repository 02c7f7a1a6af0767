/** The request gate in front of every page (lib/supabase/middleware.ts,
    `updateSession`): outside the admin area, or without a configured store,
    requests pass; an admin path without a signed-in user is sent to the
    login page. */
module Middleware {
  import opened Opt
  import JsText

  /** The four environment variables the gate reads. */
  datatype Env = Env(
    publicUrl: Option<string>,     // NEXT_PUBLIC_SUPABASE_URL
    serverUrl: Option<string>,     // SUPABASE_URL
    publicKey: Option<string>,     // NEXT_PUBLIC_SUPABASE_ANON_KEY
    serverKey: Option<string>)     // SUPABASE_ANON_KEY

  /** The parts of `request.nextUrl` that matter here. */
  datatype Url = Url(origin: string, pathname: string, search: string)

  /** What `supabase.auth.getUser()` came to: a user, no user, or an exception. */
  datatype Lookup = SignedIn(userId: string) | Anonymous | Threw

  /** The client the gate builds: the store's address, its key, and the extra headers. */
  datatype ClientConfig = ClientConfig(url: string, key: string, headers: map<string, string>)

  /** `NextResponse.next()` or `NextResponse.redirect(url)`. */
  datatype Response = PassThrough | Redirect(to: Url)

  /** The response, and the client when one was built. */
  datatype Outcome = Outcome(response: Response, client: Option<ClientConfig>)

  /** `a || b` on two optional strings. */
  function OrElse(a: Option<string>, b: Option<string>): (r: Option<string>)
    ensures JsText.Truthy(a) ==> r == a
    ensures !JsText.Truthy(a) ==> r == b
  {
    if JsText.Truthy(a) then a else b
  }

  /** The gate sees a store only when both an address and a key are set. */
  predicate Configured(env: Env)
    ensures Configured(env) <==>
              (JsText.Truthy(env.publicUrl) || JsText.Truthy(env.serverUrl))
              && (JsText.Truthy(env.publicKey) || JsText.Truthy(env.serverKey))
  {
    JsText.Truthy(OrElse(env.publicUrl, env.serverUrl)) && JsText.Truthy(OrElse(env.publicKey, env.serverKey))
  }

  /** `pathname.startsWith(prefix)`. */
  predicate StartsWith(s: string, prefix: string) {
    |prefix| <= |s| && s[..|prefix|] == prefix
  }

  const AdminPrefix := "/admin"
  const LoginPath := "/auth/login"
  const TokenCookie := "sb-access-token"

  /** `request.cookies.get("sb-access-token")?.value`. */
  function Token(cookies: map<string, string>): (t: Option<string>)
    ensures t.Some? <==> TokenCookie in cookies
    ensures t.Some? ==> t.value == cookies[TokenCookie]
  {
    if TokenCookie in cookies then Some(cookies[TokenCookie]) else None
  }

  /** The headers sent to the store: `Authorization: Bearer <token>` when the
      token cookie has a truthy value, none otherwise. */
  function Headers(token: Option<string>): (h: map<string, string>)
    ensures |h| <= 1
    ensures "Authorization" in h <==> JsText.Truthy(token)
    ensures "Authorization" in h ==> h["Authorization"] == "Bearer " + token.value
  {
    if JsText.Truthy(token) then map["Authorization" := "Bearer " + token.value] else map[]
  }

  /** `updateSession`. `cookies` are the request's cookies; `lookup` is
      what the user lookup with that client answered.
      Without an address or a key every request passes and no client is
      built. Otherwise the client takes the public variables when they are
      set and the server ones when not, and carries the bearer header
      exactly when the token cookie is set. A request is redirected exactly
      when the store is configured, the path starts with "/admin" and the
      lookup found no user, and the redirect goes to the same URL with the
      login path. */
  function Gate(env: Env, url: Url, cookies: map<string, string>, lookup: Lookup): (o: Outcome)
    ensures !Configured(env) ==> o == Outcome(PassThrough, None)
    ensures Configured(env) ==>
              o.client.Some?
              && o.client.value.url == (if JsText.Truthy(env.publicUrl) then env.publicUrl.value else env.serverUrl.value)
              && o.client.value.key == (if JsText.Truthy(env.publicKey) then env.publicKey.value else env.serverKey.value)
              && ("Authorization" in o.client.value.headers <==> JsText.Truthy(Token(cookies)))
              && (JsText.Truthy(Token(cookies)) ==> o.client.value.headers["Authorization"] == "Bearer " + Token(cookies).value)
    ensures o.response.Redirect? <==> Configured(env) && StartsWith(url.pathname, AdminPrefix) && lookup == Anonymous
    ensures o.response.Redirect? ==> o.response.to == Url(url.origin, LoginPath, url.search)
  {
    if !Configured(env) then Outcome(PassThrough, None)
    else
      var client := ClientConfig(OrElse(env.publicUrl, env.serverUrl).value, OrElse(env.publicKey, env.serverKey).value, Headers(Token(cookies)));
      if lookup.Threw? then Outcome(PassThrough, Some(client))
      else if StartsWith(url.pathname, AdminPrefix) && lookup.Anonymous? then
        Outcome(Redirect(url.(pathname := LoginPath)), Some(client))
      else Outcome(PassThrough, Some(client))
  }

  /** A signed-in user, a path outside the admin prefix, or a failed lookup
      always passes. */
  lemma NeverRedirected(env: Env, url: Url, cookies: map<string, string>, lookup: Lookup)
    requires lookup.SignedIn? || !StartsWith(url.pathname, AdminPrefix) || lookup.Threw?
    ensures Gate(env, url, cookies, lookup).response == PassThrough
  {
  }

  /** The prefix test gates "/administrator" as well. */
  lemma PrefixGatesLongerNames(env: Env, origin: string, search: string, cookies: map<string, string>)
    requires Configured(env)
    ensures Gate(env, Url(origin, "/administrator", search), cookies, Anonymous).response
         == Redirect(Url(origin, LoginPath, search))
  {
    assert "/administrator"[..|AdminPrefix|] == AdminPrefix;
  }
}
