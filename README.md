# coursework-helper-hooks, modelled in Dafny

This project models the logic of a small React hook library that signs a
user in to GitHub through OAuth and then lists and clones coursework issues
with the bearer token it obtained. Once React and the network are stripped
away, the library consists of five state machines and a few string builders:

- **Token store** (`Helpers.TokenStore`): the single `localStorage` entry
  under TOKEN_KEY, with get, set and remove. It is modelled as a class over
  the whole storage map, so that "nothing else changes" can be stated.
- **Login URL builder** (`Helpers.LoginUrl`): the GitHub authorize URL with
  its `client_id`, `state` and `scope` parameters. The `state` payload is
  `JSON.stringify({prevPath})` (module `Json`), and the scope list is the
  base scopes followed by the caller's, joined by spaces (module `Text`).
- **Authentication controller** (`Authentication.Controller`): the fields
  `token`, `loading`, `error` and `isAuthenticated`, plus the effect that
  decides whether to exchange the OAuth `code`, the settlement of that
  exchange, and `signOut`.
- **Clone mutation** (`CloneMutation.Controller`), **clone button**
  (`CloneButton.Controller`) and **issue listing** (`Issues.Controller`):
  three instances of the start → loading → success | error pattern. Each has
  its own request shape and its own rule for which fields a settlement
  overwrites.

React's scheduling is replaced by explicit events. A constructor is the
first render, and `Render` is a later render with new hook arguments.
`Commit` is the effect phase: the effect body runs only when its
dependencies differ from the values it last ran with, which the controller
records. `Settle` is a promise chain settling, and settlements may arrive in
any order. Module `Web` holds the shared vocabulary. A URL is a base plus
ordered query pairs. `fetch` outcomes are `Settled<Body<T>>` values: a
resolved body with its `error` field, or a rejection with a message.
`Web.FailureOf` captures how each hook's `if (data.error) throw` / `catch`
chain reduces such an outcome to a failure message.

## Behaviour as coded

The model follows the code where it departs from the library's stated
design:

- A successful code exchange stores the token but never sets
  `isAuthenticated`. Because the effect is keyed on `token`, the same
  exchange is then issued a second time while `code` stays in the URL
  (`Authentication.SuccessfulExchangeRepeats`).
- A failed exchange removes the stored token but leaves `token` as it was.
  `signOut` also leaves `token`, `loading` and `error` alone.
- No settlement clears the other field: a success leaves an earlier `error`
  in place, and a failure leaves an earlier `success`/`data` in place. The
  one exception is `useCloneMutation`'s rejection, which clears `success`.
- The clone button's URL has no `sprint` query. That parameter belongs to
  `cloneIssue`, which `useCloneMutation` calls and which is not part of this
  model. Issue `0` is falsy, so it clones the whole module.
- `useAuthentication` stores the caught `Error` object in `error`, while its
  test expects the message string. The model stores the message text.
- A success body without a `token` field makes `localStorage.setItem` store
  the text `"undefined"` (`Authentication.StoredText`), and it turns `token`
  from `null` into `undefined`. React tells those two apart, so the effect
  runs again and the same exchange is sent a second time
  (`Authentication.TokenlessSuccessRepeats`).

## Model

| member | source | states |
|---|---|---|
| `Helpers.TokenStore.constructor` | src/helpers.ts:1 | the store starts as the storage found at page load, with TOKEN_KEY as its key |
| `Helpers.TokenStore.Get` | src/helpers.ts:7-9 | returns the token entry, and null exactly when nothing is stored under the key |
| `Helpers.TokenStore.Set` | src/helpers.ts:15-17 | afterwards Get returns the token; every other key keeps its presence and value |
| `Helpers.TokenStore.Remove` | src/helpers.ts:22-24 | afterwards Get returns null; removing from an empty store changes nothing; other keys are untouched |
| `Helpers.LoginUrl` | src/helpers.ts:32-38 | the base is the GitHub authorize endpoint; the parameters are exactly client_id (verbatim), state (decodes back to the pathname) and scope, in that order |
| `Helpers.ScopeParamSpelledOut` | src/helpers.ts:36 | the scope value is "project repo", then a space and the caller's scopes joined by spaces when there are any; absent scopes count as none |
| `Helpers.ScopeParamRoundTrip` | src/helpers.ts:36 | when no caller scope holds a space, splitting the scope value at spaces gives the base scopes followed by the caller's, in order and with repeats kept |
| `Json.EscapeRoundTrip` | src/helpers.ts:35 | the JSON string escaping of any path decodes back to that path |
| `Json.UnescapeChar` | src/helpers.ts:35 | decoding the escape of one character yields that character, followed by the decoding of the rest |
| `Json.StateRoundTrip` | src/helpers.ts:35 | the state payload `{"prevPath": path}` decodes back to `path` |
| `Json.EscapeChar` | src/helpers.ts:35 | one character as JSON.stringify writes it: itself unless it is a quote, a backslash or a control character, which become a backslash escape; no control character is written |
| `Json.Escape` | src/helpers.ts:35 | the escaped string holds no control character and is at least as long as the original |
| `Json.StateJson` | src/helpers.ts:35 | the payload opens with `{"prevPath":"`, closes with `"}` and holds no control character |
| `Json.Unescape` | src/hooks/useAuthentication.ts:12 | a successful decoding is never longer than the escaped text |
| `Json.DecodeState` | src/hooks/useAuthentication.ts:12 | a path is decoded only from text with the payload's opening and closing, and is shorter than that text |
| `Json.HexDigit` | src/helpers.ts:35 | the hexadecimal digit written in a \u00xx escape reads back as its value |
| `Text.Join` | src/helpers.ts:36 | the joined text is as long as all elements plus one separator between each pair, and starts with the first element |
| `Text.IntToDecimal` | src/hooks/useCloneButton.ts:10 | a leading '-' exactly for negative numbers, then decimal digits, with no leading zero except for 0 itself |
| `Text.SplitJoin` | src/helpers.ts:36 | splitting the join of a non-empty list restores the list when no element holds the separator |
| `Text.JoinAppend` | src/helpers.ts:36 | joining two non-empty lists one after the other puts exactly one separator between their joins |
| `Text.DecimalRoundTrip` | src/hooks/useCloneButton.ts:10 | the decimal text of an issue number reads back as that number and contains no '/' |
| `Web.QueryGet` | src/hooks/useAuthentication.ts:10-12 | returns the value of the first pair with the key, and null exactly when no pair has it |
| `Web.Truthy` | src/hooks/useAuthentication.ts:15 | definition of JavaScript truthiness for a string-or-null value: a query value is truthy exactly when it is present and non-empty |
| `Web.FailureOf` | src/hooks/useCloneButton.ts:18-29 | a rejection fails with its message, a body with a truthy error field fails with that field, and every other body succeeds |
| `Authentication.RedirectPath` | src/hooks/useAuthentication.ts:10-12 | absent without a truthy state parameter; otherwise the decoding of that parameter's value |
| `Authentication.RedirectPathAfterLogin` | src/hooks/useAuthentication.ts:12 | when the callback carries the login URL's state, the redirect path is the path the login started from |
| `Authentication.Controller.constructor` | src/hooks/useAuthentication.ts:4-12 | token is the stored token; isAuthenticated holds exactly when one is stored; loading is true; error is null |
| `Authentication.Controller.Commit` | src/hooks/useAuthentication.ts:14-37 | runs only when token changed since the last run; when authenticated or without a truthy code it clears loading and sends nothing, otherwise it sends exactly one POST to apiURL/auth?code=code |
| `Authentication.Controller.Settle` | src/hooks/useAuthentication.ts:23-36 | success: the body's token goes to the store (the text "undefined" when missing) and to token (undefined when missing), and error is kept; failure: error is set, the stored token is removed and token is kept; loading ends false; isAuthenticated never changes |
| `Authentication.Controller.SignOut` | src/hooks/useAuthentication.ts:39-42 | the store loses its token and isAuthenticated becomes false; token, loading and error are unchanged; the effect does not become due |
| `Authentication.StoredTokenSkipsExchange` | src/hooks/useAuthentication.ts:15-18 | with a stored token, even with a code present, no request is made, loading ends false and the controller is authenticated |
| `Authentication.ExchangeRequest` | src/hooks/useAuthentication.ts:20-22 | definition of the exchange request: a POST with no headers to apiURL + "/auth?code=", followed by the code verbatim |
| `Authentication.ShouldExchange` | src/hooks/useAuthentication.ts:15 | an exchange happens only with a non-empty code; never when authenticated, without a code, or with an empty code |
| `Authentication.StoredText` | src/hooks/useAuthentication.ts:28 | definition of the coercion `setItem` applies: the text localStorage keeps: the token, or "undefined" when the body has none |
| `Authentication.FromStore` | src/hooks/useAuthentication.ts:5 | definition: the initial token is null exactly when nothing is stored, otherwise the stored text |
| `Authentication.FromBody` | src/hooks/useAuthentication.ts:29 | definition: the token after a success is undefined exactly when the body has no token field, otherwise its text |
| `Authentication.TokenlessSuccessRepeats` | src/hooks/useAuthentication.ts:28-37 | a success body without a token stores "undefined", makes token undefined, leaves isAuthenticated false, and the same exchange is sent again |
| `Authentication.SuccessfulExchangeRepeats` | src/hooks/useAuthentication.ts:20-37 | one exchange POST is issued; success stores the token but leaves isAuthenticated false; the token change causes the same exchange again |
| `Authentication.FailedExchange` | src/hooks/useAuthentication.ts:24-36 | an error body surfaces its message, leaves the store without a token, token null and loading false, and no further request follows |
| `Authentication.SignOutKeepsToken` | src/hooks/useAuthentication.ts:39-42 | after sign-out the store is empty and isAuthenticated is false, token still holds the old token, and no request follows |
| `CloneMutation.Controller.constructor` | src/hooks/useCloneMutation.ts:31-34 | loading is false, error is undefined and success is null |
| `CloneMutation.Controller.Clone` | src/hooks/useCloneMutation.ts:36-39 | sets loading and makes one cloneIssue call with the bound apiURL, token, module, sprint and issue; error and success are kept |
| `CloneMutation.Controller.Settle` | src/hooks/useCloneMutation.ts:40-49 | resolution: success becomes the result and error is kept; rejection: error becomes the message and success becomes null; loading ends false |
| `CloneMutation.StaleErrorAfterSuccess` | src/hooks/useCloneMutation.ts:40-49 | a rejected clone followed by a resolved one leaves both the stale error and the new success |
| `CloneMutation.PendingCloneKeepsResult` | src/hooks/useCloneMutation.ts:36-42 | while a second clone is pending, loading is true and the first result is still in success |
| `CloneButton.IssueTruthy` | src/hooks/useCloneButton.ts:10 | definition of the issue's truthiness: an absent issue and issue 0 are falsy; a truthy issue is present and non-zero |
| `CloneButton.ModulePath` | src/hooks/useCloneButton.ts:10 | the module URL starts with apiURL and ends with the module name, with "/github/clone/" between |
| `CloneButton.ClonePath` | src/hooks/useCloneButton.ts:10 | an absent issue or issue 0 gives apiURL/github/clone/module; a truthy issue adds one '/'-free segment that reads back as the issue |
| `CloneButton.DistinctIssuesDistinctPaths` | src/hooks/useCloneButton.ts:10 | two different truthy issues of one module get different URLs |
| `CloneButton.CloneRequest` | src/hooks/useCloneButton.ts:10-17 | a POST to the clone path carrying Authorization: Bearer token |
| `CloneButton.Controller.constructor` | src/hooks/useCloneButton.ts:3-6 | loading is false, error is null and success is false |
| `CloneButton.Controller.Clone` | src/hooks/useCloneButton.ts:8-17 | sets loading and sends the clone request; error and success are kept |
| `CloneButton.Controller.Settle` | src/hooks/useCloneButton.ts:18-29 | success: success becomes the body's message and error is kept; failure: error becomes the message and success is kept; loading ends false |
| `CloneButton.FailureKeepsEarlierSuccess` | src/hooks/useCloneButton.ts:19-29 | a successful clone followed by a failed one leaves the earlier message beside the new error |
| `Issues.IssuesUrl` | src/hooks/useIssues.ts:8-9 | the base is apiURL/github/issues, with exactly one query parameter: repo = module |
| `Issues.IssuesRequest` | src/hooks/useIssues.ts:13 | a GET with no headers of the issues URL, whose repo parameter is the module |
| `Issues.Controller.constructor` | src/hooks/useIssues.ts:3-6 | data is null, loading is true and error is null |
| `Issues.Controller.Render` | src/hooks/useIssues.ts:3 | rebinds the hook arguments without touching data, loading or error; the effect is due exactly when module or week differ from its last run |
| `Issues.Controller.Commit` | src/hooks/useIssues.ts:11-26 | runs only when module or week changed; it then sets loading and sends exactly one GET of the issues URL; data and error are kept |
| `Issues.Controller.Settle` | src/hooks/useIssues.ts:14-25 | success: data becomes the body and error is kept; failure: error becomes the message and data is kept; loading ends false |
| `Issues.RefetchOnlyOnDependencyChange` | src/hooks/useIssues.ts:26 | the first commit fetches; a render that changes only apiURL does not refetch; a change of week refetches |
| `Issues.FailureKeepsEarlierData` | src/hooks/useIssues.ts:15-25 | a successful listing followed by a failed one leaves the earlier data beside the new error |

## Left out

- React's scheduling is replaced by the explicit events above. Batching,
  render timing and overlapping calls are not modelled, beyond settlements
  being events that may come in any order. As a result, no race fencing is
  modelled either.
- `fetch`, `res.json()` and the transport are not modelled. Their outcome is
  a `Settled<Body<T>>` parameter. The `error` field is modelled as text;
  non-string error values are not modelled.
- Percent-encoding by `URL`/`URLSearchParams`, and the exception `new URL`
  throws on an invalid base, are not modelled. Query values are raw text.
- `location.pathname` and `window.location.search` are parameters. The
  model reads the query string once, in the constructor, whereas
  `useAuthentication` re-reads it and re-parses `state` on every render. A
  change of the location, or of `apiURL`, between renders is not modelled.
- The clone hooks take their arguments once, at construction. Re-renders with
  new arguments are not modelled for them.
- Authentication.RedirectPath: it recognises only the compact
  `{"prevPath":"…"}` text that `LoginUrl` writes. Other JSON that
  `JSON.parse` accepts (whitespace, extra fields) yields no path, and
  malformed text, on which the source throws during rendering, also yields
  no path instead of an exception.
- Json.EscapeRoundTrip: it covers Unicode scalar values only. Lone UTF-16
  surrogates, which `JSON.stringify` writes as \uXXXX, cannot occur in a
  Dafny string.
- `cloneIssue` is not part of this model. It is imported by
  src/hooks/useCloneMutation.ts but defined elsewhere, so a call is
  represented only by its arguments.
- TOKEN_KEY is defined in src/const.ts, which is not part of this model. The
  store takes the key as a parameter.
- `reFetch` is not modelled. It is used by the issue-listing tests but not
  defined in src/hooks/useIssues.ts.
- A JSON `null` token, which `localStorage.setItem` would store as `"null"`,
  is not modelled. A missing `token` field is modelled: the store gets
  `"undefined"` and `token` becomes `undefined`.
- Issue numbers are integers. Fractional numbers and NaN are not modelled.
- CloneButton.ClonePath: its read-back clause holds of the source only for
  |issue| < 10^21. From 10^21 up, a template literal writes a JavaScript
  number in exponent form (`1e+21`). Above 2^53 a number no longer holds
  every integer exactly. The model writes every decimal digit instead.
- Text.IntToDecimal: it gives the digit form for every integer, so it matches
  JavaScript's number-to-text only for magnitudes below 10^21.
- Failures of `localStorage` itself (storage unavailable) are not modelled.
  The source does not handle them.
- The components `SignInButton` and `RedirectWithTimeout` are not modelled:
  they are rendering, `window.open` and timer-driven navigation. Neither
  are `src/index.ts` (re-exports) and `jest.config.ts`.
