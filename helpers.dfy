/**
 * The token store over the browser's key-value storage, and the builder of
 * the GitHub OAuth authorize URL (src/helpers.ts).
 */
module Helpers {
  import opened Wrappers
  import opened Web
  import Text
  import Json

  /**
   * The browser's `localStorage`, of which the library uses one entry: the
   * one under `key` (the library's TOKEN_KEY) holds the bearer token.
   */
  class TokenStore {
    /** TOKEN_KEY; its value is defined in src/const.ts, which is not part of this model. */
    const key: string
    /** Every entry of the storage, the token's and any other. */
    var entries: map<string, string>

    /** The storage as it is found at page load. */
    constructor (key: string, entries: map<string, string>)
      ensures this.key == key && this.entries == entries
    {
      this.key := key;
      this.entries := entries;
    }

    /** getTokenFromLS: the stored token, or null when nothing is stored under the key. */
    function Get(): (t: Option<string>)
      reads this
      ensures t.None? <==> key !in entries
      ensures t.Some? ==> t.value == entries[key]
    {
      if key in entries then Some(entries[key]) else None
    }

    /** setTokenToLS: overwrites the token entry; reading it back yields `token`. */
    method Set(token: string)
      modifies this
      ensures entries == old(entries)[key := token]
      ensures Get() == Some(token)
      ensures forall k :: k != key ==> (k in entries <==> k in old(entries))
      ensures forall k :: k != key && k in entries ==> entries[k] == old(entries)[k]
    {
      entries := entries[key := token];
    }

    /**
     * removeTokenFromLS: drops the token entry, if any (removing from a store
     * without a token changes nothing); reading it back yields null.
     */
    method Remove()
      modifies this
      ensures entries == old(entries) - {key}
      ensures Get() == None
      ensures old(Get()) == None ==> entries == old(entries)
      ensures forall k :: k != key ==> (k in entries <==> k in old(entries))
      ensures forall k :: k != key && k in entries ==> entries[k] == old(entries)[k]
    {
      entries := entries - {key};
    }
  }

  const AuthorizeEndpoint: string := "https://github.com/login/oauth/authorize"

  /** The scopes every login asks for, ahead of the caller's. */
  const BaseScopes: seq<string> := ["project", "repo"]

  /** The requested scopes: the base scopes, then the caller's (absent = none). */
  function Scopes(scopes: Option<seq<string>>): seq<string>
  {
    BaseScopes + scopes.GetOr([])
  }

  /** The value of the `scope` query parameter: the scopes joined by single spaces. */
  function ScopeParam(scopes: Option<seq<string>>): string
  {
    Text.Join(Scopes(scopes), ' ')
  }

  /**
   * githubLoginUrl: the authorize endpoint with exactly the parameters
   * client_id (verbatim), state (the JSON of `{prevPath: pathname}`, which
   * decodes back to `pathname`) and scope, in that order.
   */
  function LoginUrl(clientId: string, scopes: Option<seq<string>>, pathname: string): (u: Url)
    ensures u.base == AuthorizeEndpoint
    ensures |u.query| == 3
    ensures u.query[0] == ("client_id", clientId)
    ensures u.query[1].0 == "state" && Json.DecodeState(u.query[1].1) == Some(pathname)
    ensures u.query[2] == ("scope", ScopeParam(scopes))
    ensures QueryGet(u.query, "client_id") == Some(clientId)
  {
    Json.StateRoundTrip(pathname);
    Url(AuthorizeEndpoint, [("client_id", clientId),
                            ("state", Json.StateJson(pathname)),
                            ("scope", ScopeParam(scopes))])
  }

  /**
   * The scope parameter is "project repo", followed, when the caller gave
   * scopes, by a space and the caller's scopes joined by spaces.
   */
  lemma ScopeParamSpelledOut(scopes: Option<seq<string>>)
    ensures ScopeParam(scopes) ==
            "project repo" + (if scopes.GetOr([]) == [] then "" else " " + Text.Join(scopes.GetOr([]), ' '))
  {
    var extra := scopes.GetOr([]);
    assert Text.Join(BaseScopes, ' ') == "project repo";
    if extra == [] {
      assert Scopes(scopes) == BaseScopes;
    } else {
      Text.JoinAppend(BaseScopes, extra, ' ');
    }
  }

  /**
   * Splitting the scope parameter at its spaces gives back the base scopes
   * followed by every caller scope, in order and with repeats kept, as long
   * as no caller scope itself holds a space.
   */
  lemma ScopeParamRoundTrip(scopes: Option<seq<string>>)
    requires forall i :: 0 <= i < |scopes.GetOr([])| ==> ' ' !in scopes.GetOr([])[i]
    ensures Text.Split(ScopeParam(scopes), ' ') == BaseScopes + scopes.GetOr([])
  {
    var all := Scopes(scopes);
    forall i | 0 <= i < |all| ensures ' ' !in all[i] {
      if i >= 2 {
        assert all[i] == scopes.GetOr([])[i - 2];
      }
    }
    Text.SplitJoin(all, ' ');
  }
}
