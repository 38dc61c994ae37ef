/**
 * The authentication controller (src/hooks/useAuthentication.ts): its four
 * observable fields, the effect that decides whether to exchange the OAuth
 * `code` for a token, the settlement of that exchange, and sign-out.
 *
 * React's scheduling is replaced by explicit events: the constructor is the
 * first render, Commit is the effect phase after a render (the effect body
 * runs only when `token`, its one dependency, differs from the last run),
 * Settle is the exchange's promise chain settling, SignOut is the callback.
 */
module Authentication {
  import opened Wrappers
  import opened Web
  import Json
  import Helpers

  /** The code exchange: `POST ${apiURL}/auth?code=${code}`, with no body and no headers. */
  function ExchangeRequest(apiUrl: string, code: string): (r: Request)
    ensures r.verb == Post && r.headers == [] && r.target.Literal?
    ensures var n := |apiUrl + "/auth?code="|;
            |r.target.text| == n + |code| && r.target.text[..n] == apiUrl + "/auth?code="
            && r.target.text[n..] == code
  {
    Request(Post, Literal(apiUrl + "/auth?code=" + code), [])
  }

  /** The effect's guard: exchange unless already authenticated or `code` is falsy. */
  predicate ShouldExchange(isAuthenticated: bool, code: Option<string>)
    ensures ShouldExchange(isAuthenticated, code) ==> code.Some? && |code.value| > 0
    ensures isAuthenticated || code.None? || code == Some("") ==> !ShouldExchange(isAuthenticated, code)
  {
    !isAuthenticated && Truthy(code)
  }

  /**
   * `state?.prevPath`: the path decoded from a truthy `state` parameter,
   * absent when the page has no (or an empty) `state` parameter.
   */
  function RedirectPath(search: seq<Param>): (p: Option<string>)
    ensures !Truthy(QueryGet(search, "state")) ==> p == None
    ensures Truthy(QueryGet(search, "state")) ==> p == Json.DecodeState(QueryGet(search, "state").value)
  {
    var state := QueryGet(search, "state");
    if Truthy(state) then Json.DecodeState(state.value) else None
  }

  /**
   * What localStorage holds after `setItem(key, data.token)`: the token, or
   * the text "undefined" when the body has no `token` field.
   */
  function StoredText(token: Option<string>): (t: string)
    ensures token.Some? ==> t == token.value
    ensures token.None? ==> t == "undefined"
  {
    token.GetOr("undefined")
  }

  /**
   * The value of the hook's `token`: `null` when nothing was stored,
   * `undefined` after a success body without a `token` field, or a text.
   * React compares effect dependencies with `Object.is`, so the three kinds
   * are different values.
   */
  datatype TokenValue = Null | Undefined | Token(text: string)

  /** `getTokenFromLS()` as a token value: a stored text, or null. */
  function FromStore(stored: Option<string>): (v: TokenValue)
    ensures v.Null? <==> stored.None?
    ensures stored.Some? ==> v == Token(stored.value)
  {
    if stored.Some? then Token(stored.value) else Null
  }

  /** `data.token` as a token value: the field's text, or undefined when it is missing. */
  function FromBody(token: Option<string>): (v: TokenValue)
    ensures v.Undefined? <==> token.None?
    ensures token.Some? ==> v == Token(token.value)
  {
    if token.Some? then Token(token.value) else Undefined
  }

  /**
   * After the provider redirects back with the `state` value of the login
   * URL, the redirect path is the path the login started from.
   */
  lemma RedirectPathAfterLogin(clientId: string, scopes: Option<seq<string>>, pathname: string,
                               callback: seq<Param>)
    requires QueryGet(callback, "state") == QueryGet(Helpers.LoginUrl(clientId, scopes, pathname).query, "state")
    ensures RedirectPath(callback) == Some(pathname)
  {
    var q := Helpers.LoginUrl(clientId, scopes, pathname).query;
    assert q[0].0 != "state";
    assert QueryGet(q, "state") == QueryGet(q[1..], "state");
    assert QueryGet(callback, "state") == Some(Json.StateJson(pathname));
    Json.StateRoundTrip(pathname);
  }

  class Controller {
    const apiUrl: string
    /** The token store, shared with every other controller of the page. */
    const store: Helpers.TokenStore
    /** The page's `code` query parameter. */
    const code: Option<string>
    /** The returned `redirectPath`. */
    const redirectPath: Option<string>

    var token: TokenValue
    var loading: bool
    var error: Option<string>
    var isAuthenticated: bool
    /** The `token` the effect last ran with; None before its first run. */
    var effectRanFor: Option<TokenValue>

    /** The first render: both `token` and `isAuthenticated` come from the store. */
    constructor (apiUrl: string, store: Helpers.TokenStore, search: seq<Param>)
      ensures this.apiUrl == apiUrl && this.store == store
      ensures token == FromStore(store.Get()) && (isAuthenticated <==> store.Get().Some?)
      ensures loading && error == None
      ensures code == QueryGet(search, "code") && redirectPath == RedirectPath(search)
      ensures effectRanFor == None
    {
      this.apiUrl := apiUrl;
      this.store := store;
      token := FromStore(store.Get());
      loading := true;
      error := None;
      isAuthenticated := store.Get() != None;
      code := QueryGet(search, "code");
      redirectPath := RedirectPath(search);
      effectRanFor := None;
    }

    /** The effect runs after the first render and after every render that changed `token`. */
    predicate EffectDue()
      reads this
    {
      effectRanFor != Some(token)
    }

    /**
     * The effect phase. When the effect is due it either issues exactly one
     * exchange request (leaving `loading` as it is) or, when authenticated
     * or without a truthy code, issues none and clears `loading`; nothing
     * else changes and the store is not touched.
     */
    method Commit() returns (sent: Option<Request>)
      modifies this
      ensures !old(EffectDue()) ==> sent == None && unchanged(this)
      ensures old(EffectDue()) ==> effectRanFor == Some(token)
      ensures token == old(token) && error == old(error) && isAuthenticated == old(isAuthenticated)
      ensures old(EffectDue()) && ShouldExchange(isAuthenticated, code) ==>
                sent == Some(ExchangeRequest(apiUrl, code.value)) && loading == old(loading)
      ensures old(EffectDue()) && !ShouldExchange(isAuthenticated, code) ==>
                sent == None && !loading
    {
      sent := None;
      if EffectDue() {
        effectRanFor := Some(token);
        if isAuthenticated || !Truthy(code) {
          loading := false;
        } else {
          sent := Some(ExchangeRequest(apiUrl, code.value));
        }
      }
    }

    /**
     * The exchange settles. On a body without a truthy `error` the token is
     * written to the store and to `token`; on an error body or a rejection
     * the message goes to `error` and the store's token is removed while
     * `token` keeps its value. Either way `loading` ends false, and
     * `isAuthenticated` is never changed.
     */
    method Settle(reply: Settled<Body<Option<string>>>)
      modifies this, store
      ensures !loading
      ensures isAuthenticated == old(isAuthenticated) && effectRanFor == old(effectRanFor)
      ensures FailureOf(reply).Some? ==>
                error == FailureOf(reply) && token == old(token)
                && store.entries == old(store.entries) - {store.key} && store.Get() == None
      ensures FailureOf(reply).None? ==>
                token == FromBody(reply.value.rest) && error == old(error)
                && store.entries == old(store.entries)[store.key := StoredText(reply.value.rest)]
                && store.Get() == Some(StoredText(reply.value.rest))
    {
      var failure := FailureOf(reply);
      if failure.None? {
        store.Set(StoredText(reply.value.rest));
        token := FromBody(reply.value.rest);
        loading := false;
      } else {
        loading := false;
        error := failure;
        store.Remove();
      }
    }

    /**
     * Sign-out: the store's token is removed and `isAuthenticated` becomes
     * false; `token`, `loading` and `error` keep their values, no request is
     * made, and the effect does not become due.
     */
    method SignOut()
      modifies this, store
      ensures store.entries == old(store.entries) - {store.key} && store.Get() == None
      ensures !isAuthenticated
      ensures token == old(token) && loading == old(loading) && error == old(error)
      ensures effectRanFor == old(effectRanFor)
    {
      store.Remove();
      isAuthenticated := false;
    }
  }

  /**
   * A stored token wins over a `code` in the URL: the first commit issues no
   * request, clears `loading` and the controller reports authenticated.
   */
  method StoredTokenSkipsExchange(apiUrl: string, key: string, entries: map<string, string>,
                                  search: seq<Param>)
    returns (sent: Option<Request>, loading: bool, isAuthenticated: bool, token: TokenValue)
    requires key in entries
    ensures sent == None && !loading && isAuthenticated && token == Token(entries[key])
  {
    var store := new Helpers.TokenStore(key, entries);
    var auth := new Controller(apiUrl, store, search);
    sent := auth.Commit();
    loading, isAuthenticated, token := auth.loading, auth.isAuthenticated, auth.token;
  }

  /**
   * Without a stored token and with a truthy `code`, exactly one exchange
   * is issued. Its success stores the token but leaves `isAuthenticated`
   * false; and because `token` changed, the effect runs again and issues
   * the same exchange a second time while the `code` is still in the URL.
   */
  method SuccessfulExchangeRepeats(apiUrl: string, key: string, entries: map<string, string>,
                                   search: seq<Param>, newToken: string)
    returns (first: Option<Request>, stored: Option<string>, isAuthenticated: bool,
             second: Option<Request>)
    requires key !in entries
    requires Truthy(QueryGet(search, "code"))
    ensures first == Some(ExchangeRequest(apiUrl, QueryGet(search, "code").value))
    ensures stored == Some(newToken)
    ensures !isAuthenticated
    ensures second == first
  {
    var store := new Helpers.TokenStore(key, entries);
    var auth := new Controller(apiUrl, store, search);
    first := auth.Commit();
    auth.Settle(Resolved(Body(None, Some(newToken))));
    stored := store.Get();
    isAuthenticated := auth.isAuthenticated;
    second := auth.Commit();
  }

  /**
   * A success body without a `token` field stores the text "undefined" and
   * turns `token` from null into undefined; that change re-runs the effect,
   * which, still unauthenticated with the `code` in the URL, sends the same
   * exchange again.
   */
  method TokenlessSuccessRepeats(apiUrl: string, key: string, entries: map<string, string>,
                                 search: seq<Param>)
    returns (first: Option<Request>, stored: Option<string>, token: TokenValue,
             isAuthenticated: bool, second: Option<Request>)
    requires key !in entries
    requires Truthy(QueryGet(search, "code"))
    ensures first == Some(ExchangeRequest(apiUrl, QueryGet(search, "code").value))
    ensures stored == Some("undefined") && token == Undefined && !isAuthenticated
    ensures second == first
  {
    var store := new Helpers.TokenStore(key, entries);
    var auth := new Controller(apiUrl, store, search);
    first := auth.Commit();
    auth.Settle(Resolved(Body(None, None)));
    stored, token, isAuthenticated := store.Get(), auth.token, auth.isAuthenticated;
    second := auth.Commit();
  }

  /**
   * An exchange answered with an `error` body: the message is surfaced, the
   * store ends without a token, `token` stays null, `loading` ends false,
   * and since `token` did not change no further exchange is issued.
   */
  method FailedExchange(apiUrl: string, key: string, entries: map<string, string>,
                        search: seq<Param>, message: string)
    returns (error: Option<string>, stored: Option<string>, token: TokenValue,
             loading: bool, second: Option<Request>)
    requires key !in entries
    requires Truthy(QueryGet(search, "code"))
    requires message != ""
    ensures error == Some(message) && stored == None && token == Null && !loading
    ensures second == None
  {
    var store := new Helpers.TokenStore(key, entries);
    var auth := new Controller(apiUrl, store, search);
    var first := auth.Commit();
    auth.Settle(Resolved(Body(Some(message), None)));
    error, stored, token, loading := auth.error, store.Get(), auth.token, auth.loading;
    second := auth.Commit();
  }

  /**
   * Signing out with a stored token empties the store and clears
   * `isAuthenticated`, but `token` still holds the old token and no
   * request follows.
   */
  method SignOutKeepsToken(apiUrl: string, key: string, entries: map<string, string>,
                           search: seq<Param>)
    returns (stored: Option<string>, isAuthenticated: bool, token: TokenValue,
             next: Option<Request>)
    requires key in entries
    ensures stored == None && !isAuthenticated && token == Token(entries[key]) && next == None
  {
    var store := new Helpers.TokenStore(key, entries);
    var auth := new Controller(apiUrl, store, search);
    var first := auth.Commit();
    auth.SignOut();
    stored, isAuthenticated, token := store.Get(), auth.isAuthenticated, auth.token;
    next := auth.Commit();
  }
}
