/**
 * The clone-mutation controller (src/hooks/useCloneMutation.ts): `clone`
 * calls the library's `cloneIssue` with the hook's bound arguments and
 * records the outcome in `loading`, `error` and `success`. `cloneIssue`
 * itself is not part of this model: a call is represented by its
 * arguments, and its outcome by the Settled value handed to Settle.
 */
module CloneMutation {
  import opened Wrappers
  import opened Web

  /** One call `cloneIssue(apiURL, token, module, sprint, issue)`. */
  datatype CloneIssueCall = CloneIssueCall(apiUrl: string, token: string, moduleName: string,
                                           sprint: Option<string>, issue: Option<int>)

  /** The hook's state; `T` is whatever `cloneIssue` resolves with. */
  class Controller<T> {
    const apiUrl: string
    const token: string
    const moduleName: string
    const sprint: Option<string>
    const issue: Option<int>

    var loading: bool
    /** `undefined` until a call is rejected. */
    var error: Option<string>
    /** `null` until a call resolves. */
    var success: Option<T>

    constructor (apiUrl: string, token: string, moduleName: string, sprint: Option<string>, issue: Option<int>)
      ensures this.apiUrl == apiUrl && this.token == token && this.moduleName == moduleName
      ensures this.sprint == sprint && this.issue == issue
      ensures !loading && error == None && success == None
    {
      this.apiUrl, this.token, this.moduleName := apiUrl, token, moduleName;
      this.sprint, this.issue := sprint, issue;
      loading, error, success := false, None, None;
    }

    /**
     * `clone`: sets `loading` and makes exactly one `cloneIssue` call with
     * the bound arguments; `error` and `success` keep their values until
     * the call settles.
     */
    method Clone() returns (call: CloneIssueCall)
      modifies this
      ensures loading && error == old(error) && success == old(success)
      ensures call.apiUrl == apiUrl && call.token == token && call.moduleName == moduleName
      ensures call.sprint == sprint && call.issue == issue
    {
      loading := true;
      call := CloneIssueCall(apiUrl, token, moduleName, sprint, issue);
    }

    /**
     * The call settles (`then`/`catch`, then `finally`). A resolution sets
     * `success` to the result and leaves a previous `error` in place; a
     * rejection sets `error` to its message and clears `success`. Every
     * settlement ends with `loading` false.
     */
    method Settle(outcome: Settled<T>)
      modifies this
      ensures !loading
      ensures outcome.Resolved? ==> success == Some(outcome.value) && error == old(error)
      ensures outcome.Rejected? ==> error == Some(outcome.message) && success == None
    {
      if outcome.Resolved? {
        success := Some(outcome.value);
      } else {
        error := Some(outcome.message);
        success := None;
      }
      loading := false;
    }
  }

  /**
   * A failed clone followed by a successful one leaves both fields set:
   * the new result in `success` and the stale message in `error`.
   */
  method StaleErrorAfterSuccess<T>(apiUrl: string, token: string, moduleName: string,
                                   sprint: Option<string>, issue: Option<int>,
                                   message: string, data: T)
    returns (loading: bool, error: Option<string>, success: Option<T>)
    ensures !loading && error == Some(message) && success == Some(data)
  {
    var hook := new Controller<T>(apiUrl, token, moduleName, sprint, issue);
    var first := hook.Clone();
    hook.Settle(Rejected(message));
    var second := hook.Clone();
    hook.Settle(Resolved(data));
    loading, error, success := hook.loading, hook.error, hook.success;
  }

  /**
   * While a second clone is outstanding, the first one's result is still
   * shown: `loading` is true and `success` holds the earlier result.
   */
  method PendingCloneKeepsResult<T>(apiUrl: string, token: string, moduleName: string,
                                    sprint: Option<string>, issue: Option<int>, data: T)
    returns (loading: bool, error: Option<string>, success: Option<T>, call: CloneIssueCall)
    ensures loading && error == None && success == Some(data)
    ensures call == CloneIssueCall(apiUrl, token, moduleName, sprint, issue)
  {
    var hook := new Controller<T>(apiUrl, token, moduleName, sprint, issue);
    var first := hook.Clone();
    hook.Settle(Resolved(data));
    call := hook.Clone();
    loading, error, success := hook.loading, hook.error, hook.success;
  }
}
