/**
 * The issue-listing controller (src/hooks/useIssues.ts): an effect keyed
 * on `module` and `week` GETs the issues endpoint and records the outcome
 * in `data`, `loading` and `error`.
 *
 * React's scheduling is replaced by explicit events: the constructor is the
 * first render, Render is a later render with new arguments, Commit is the
 * effect phase (the effect body runs only when `module` or `week` differs
 * from its last run), Settle is the request's promise chain settling.
 */
module Issues {
  import opened Wrappers
  import opened Web

  /** The issues endpoint with exactly one query parameter, `repo` = the module. */
  function IssuesUrl(apiUrl: string, moduleName: string): (u: Url)
    ensures u.base == apiUrl + "/github/issues"
    ensures |u.query| == 1 && QueryGet(u.query, "repo") == Some(moduleName)
  {
    Url(apiUrl + "/github/issues", [("repo", moduleName)])
  }

  /** The issue listing: a GET of the issues URL with no headers. */
  function IssuesRequest(apiUrl: string, moduleName: string): (r: Request)
    ensures r.verb == Get && r.headers == []
    ensures r.target.Built? && r.target.url.base == apiUrl + "/github/issues"
    ensures QueryGet(r.target.url.query, "repo") == Some(moduleName)
  {
    Request(Get, Built(IssuesUrl(apiUrl, moduleName)), [])
  }

  /** The hook's state; `T` is the parsed response body. */
  class Controller<T> {
    var apiUrl: string
    var moduleName: string
    var week: string

    var data: Option<T>
    var loading: bool
    var error: Option<string>
    /** The (module, week) the effect last ran with; None before its first run. */
    var ranWith: Option<(string, string)>

    constructor (apiUrl: string, moduleName: string, week: string)
      ensures this.apiUrl == apiUrl && this.moduleName == moduleName && this.week == week
      ensures data == None && loading && error == None
      ensures ranWith == None
    {
      this.apiUrl, this.moduleName, this.week := apiUrl, moduleName, week;
      data, loading, error := None, true, None;
      ranWith := None;
    }

    /** The effect runs after the first render and after every render that changed `module` or `week`. */
    predicate EffectDue()
      reads this
    {
      ranWith != Some((moduleName, week))
    }

    /** A re-render with new hook arguments; the observable state is untouched. */
    method Render(apiUrl: string, moduleName: string, week: string)
      modifies this
      ensures this.apiUrl == apiUrl && this.moduleName == moduleName && this.week == week
      ensures data == old(data) && loading == old(loading) && error == old(error)
      ensures ranWith == old(ranWith)
    {
      this.apiUrl, this.moduleName, this.week := apiUrl, moduleName, week;
    }

    /**
     * The effect phase. When due, it sets `loading` and issues exactly one
     * GET of the issues URL for the current module; otherwise nothing
     * happens. `data` and `error` are not touched.
     */
    method Commit() returns (sent: Option<Request>)
      modifies this
      ensures !old(EffectDue()) ==> sent == None && unchanged(this)
      ensures old(EffectDue()) ==>
                sent == Some(IssuesRequest(apiUrl, moduleName)) && loading
                && ranWith == Some((moduleName, week))
      ensures data == old(data) && error == old(error)
      ensures apiUrl == old(apiUrl) && moduleName == old(moduleName) && week == old(week)
    {
      sent := None;
      if EffectDue() {
        ranWith := Some((moduleName, week));
        loading := true;
        sent := Some(IssuesRequest(apiUrl, moduleName));
      }
    }

    /**
     * The request settles. A body without a truthy `error` becomes `data`
     * and leaves `error`; an error body or a rejection puts the message in
     * `error` and leaves `data`. Either way `loading` ends false.
     */
    method Settle(reply: Settled<Body<T>>)
      modifies this
      ensures !loading
      ensures FailureOf(reply).None? ==> data == Some(reply.value.rest) && error == old(error)
      ensures FailureOf(reply).Some? ==> error == FailureOf(reply) && data == old(data)
      ensures apiUrl == old(apiUrl) && moduleName == old(moduleName) && week == old(week)
      ensures ranWith == old(ranWith)
    {
      var failure := FailureOf(reply);
      if failure.None? {
        loading := false;
        data := Some(reply.value.rest);
      } else {
        loading := false;
        error := failure;
      }
    }
  }

  /**
   * The listing is fetched on the first commit, not again after a re-render
   * that changes only the API URL, and again after one that changes `week`.
   */
  method RefetchOnlyOnDependencyChange<T>(apiUrl: string, otherApiUrl: string, moduleName: string,
                                          week: string, nextWeek: string, body: T)
    returns (first: Option<Request>, second: Option<Request>, third: Option<Request>)
    requires week != nextWeek
    ensures first == Some(IssuesRequest(apiUrl, moduleName))
    ensures second == None
    ensures third == Some(IssuesRequest(otherApiUrl, moduleName))
  {
    var hook := new Controller<T>(apiUrl, moduleName, week);
    first := hook.Commit();
    hook.Settle(Resolved(Body(None, body)));
    hook.Render(otherApiUrl, moduleName, week);
    second := hook.Commit();
    hook.Render(otherApiUrl, moduleName, nextWeek);
    third := hook.Commit();
  }

  /**
   * A listing that succeeds and a later one that fails leave the earlier
   * body in `data` beside the failure's message in `error`.
   */
  method FailureKeepsEarlierData<T>(apiUrl: string, moduleName: string, week: string,
                                    nextWeek: string, body: T, failure: string)
    returns (data: Option<T>, loading: bool, error: Option<string>)
    requires week != nextWeek
    ensures data == Some(body) && !loading && error == Some(failure)
  {
    var hook := new Controller<T>(apiUrl, moduleName, week);
    var first := hook.Commit();
    hook.Settle(Resolved(Body(None, body)));
    hook.Render(apiUrl, moduleName, nextWeek);
    var second := hook.Commit();
    hook.Settle(Rejected(failure));
    data, loading, error := hook.data, hook.loading, hook.error;
  }
}
