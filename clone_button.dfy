/**
 * The clone-button controller (src/hooks/useCloneButton.ts): `clone`
 * POSTs to the clone endpoint of a module, or of one issue of it, with the
 * bearer token, and records the outcome in `loading`, `error` and `success`.
 */
module CloneButton {
  import opened Wrappers
  import opened Web
  import Text

  /** `success`: `false` until a clone succeeds, then the body's `message` (maybe undefined). */
  datatype CloneSuccess = NotCloned | Cloned(message: Option<string>)

  /** JavaScript truthiness of the optional issue number: absent and 0 are falsy. */
  predicate IssueTruthy(issue: Option<int>)
    ensures issue == None || issue == Some(0) ==> !IssueTruthy(issue)
    ensures IssueTruthy(issue) ==> issue.Some? && issue.value != 0
  {
    issue.Some? && issue.value != 0
  }

  /** The endpoint that clones a whole module. */
  function ModulePath(apiUrl: string, moduleName: string): (p: string)
    ensures |p| == |apiUrl| + |"/github/clone/"| + |moduleName|
    ensures p[..|apiUrl|] == apiUrl && p[|p| - |moduleName|..] == moduleName
    ensures p[|apiUrl|..|p| - |moduleName|] == "/github/clone/"
  {
    apiUrl + "/github/clone/" + moduleName
  }

  /**
   * The clone URL: the module path, followed, for a truthy issue only, by
   * one more path segment holding the issue number in decimal, which reads
   * back as that number. Issue 0 and an absent issue give the module path.
   */
  function ClonePath(apiUrl: string, moduleName: string, issue: Option<int>): (p: string)
    ensures !IssueTruthy(issue) ==> p == ModulePath(apiUrl, moduleName)
    ensures IssueTruthy(issue) ==>
              var m := |ModulePath(apiUrl, moduleName)|;
              |p| > m + 1 && p[..m] == ModulePath(apiUrl, moduleName) && p[m] == '/'
              && '/' !in p[m + 1..] && Text.ParseDecimal(p[m + 1..]) == Some(issue.value)
  {
    if IssueTruthy(issue) then
      var segment := Text.IntToDecimal(issue.value);
      Text.DecimalRoundTrip(issue.value);
      var p := ModulePath(apiUrl, moduleName) + "/" + segment;
      assert p[|ModulePath(apiUrl, moduleName)| + 1..] == segment;
      p
    else ModulePath(apiUrl, moduleName)
  }

  /** Two different truthy issues of one module are cloned through different URLs. */
  lemma DistinctIssuesDistinctPaths(apiUrl: string, moduleName: string, i: int, j: int)
    requires i != 0 && j != 0 && i != j
    ensures ClonePath(apiUrl, moduleName, Some(i)) != ClonePath(apiUrl, moduleName, Some(j))
  {
    var m := |ModulePath(apiUrl, moduleName)|;
    var p, q := ClonePath(apiUrl, moduleName, Some(i)), ClonePath(apiUrl, moduleName, Some(j));
    assert Text.ParseDecimal(p[m + 1..]) != Text.ParseDecimal(q[m + 1..]);
  }

  /** The clone request: a POST carrying `Authorization: Bearer <token>`. */
  function CloneRequest(apiUrl: string, token: string, moduleName: string, issue: Option<int>): (r: Request)
    ensures r.verb == Post
    ensures r.target.Literal? && r.target.text == ClonePath(apiUrl, moduleName, issue)
    ensures QueryGet(r.headers, "Authorization") == Some("Bearer " + token)
  {
    Request(Post, Literal(ClonePath(apiUrl, moduleName, issue)), [("Authorization", "Bearer " + token)])
  }

  class Controller {
    const apiUrl: string
    const token: string
    const moduleName: string
    const issue: Option<int>

    var loading: bool
    /** `null` until a clone fails. */
    var error: Option<string>
    var success: CloneSuccess

    constructor (apiUrl: string, token: string, moduleName: string, issue: Option<int>)
      ensures this.apiUrl == apiUrl && this.token == token && this.moduleName == moduleName
      ensures this.issue == issue
      ensures !loading && error == None && success == NotCloned
    {
      this.apiUrl, this.token, this.moduleName, this.issue := apiUrl, token, moduleName, issue;
      loading, error, success := false, None, NotCloned;
    }

    /**
     * `clone`: sets `loading` and issues exactly one clone request; `error`
     * and `success` keep their values until it settles.
     */
    method Clone() returns (sent: Request)
      modifies this
      ensures loading && error == old(error) && success == old(success)
      ensures sent == CloneRequest(apiUrl, token, moduleName, issue)
    {
      loading := true;
      sent := CloneRequest(apiUrl, token, moduleName, issue);
    }

    /**
     * The request settles. A body without a truthy `error` puts its
     * `message` in `success` and leaves `error`; an error body or a
     * rejection puts the message in `error` and leaves `success`.
     * Either way `loading` ends false.
     */
    method Settle(reply: Settled<Body<Option<string>>>)
      modifies this
      ensures !loading
      ensures FailureOf(reply).None? ==> success == Cloned(reply.value.rest) && error == old(error)
      ensures FailureOf(reply).Some? ==> error == FailureOf(reply) && success == old(success)
    {
      var failure := FailureOf(reply);
      if failure.None? {
        loading := false;
        success := Cloned(reply.value.rest);
      } else {
        loading := false;
        error := failure;
      }
    }
  }

  /**
   * A clone that succeeds and then one that fails leave both fields set:
   * the failure's message in `error` and the earlier message in `success`.
   */
  method FailureKeepsEarlierSuccess(apiUrl: string, token: string, moduleName: string,
                                    issue: Option<int>, message: string, failure: string)
    returns (loading: bool, error: Option<string>, success: CloneSuccess)
    ensures !loading && error == Some(failure) && success == Cloned(Some(message))
  {
    var hook := new Controller(apiUrl, token, moduleName, issue);
    var first := hook.Clone();
    hook.Settle(Resolved(Body(None, Some(message))));
    var second := hook.Clone();
    hook.Settle(Rejected(failure));
    loading, error, success := hook.loading, hook.error, hook.success;
  }
}
