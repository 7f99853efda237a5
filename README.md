# Sign-in intent state machine of the DevLogix sign-in page

This project models the logic of the `SignIn` page component in DevLogix
(`app/auth/sign-in/page.tsx`). The page lets a user start an OAuth sign-in with
GitHub or Google. The model covers:

- **State** (`SignIn.SignInPage`): the three `useState` hooks. These are
  `isGoogleLoading`, `isGithubLoading` (both start `false`) and
  `repoAccessType` (starts `"public"`). A trace field `calls` records every call
  of the external next-auth `signIn`, together with both loading flags at the
  moment of the call.
- **Scope derivation** (`Scopes.GitHubScopes`): the ternary that turns the
  access type into the GitHub scope string. `repoAccessType` is a plain string:
  every value other than `"private"` gives the public scopes.
- **The meaning of the scope string**: a scope string is a space-delimited list
  of permission names (section 3.3 of RFC 6749). `Scopes.Join` and
  `Scopes.Split` encode and decode that list, and they are proved inverse. The
  lemmas then state which permissions each access type requests.
- **Handlers** (`HandleGitHubSignIn`, `HandleGoogleSignIn`): the outcome of the
  awaited `signIn` call is a parameter (`Resolved` or `Rejected`). Each handler
  returns the request it sent and makes exactly one call. It sets its own flag
  first and clears it again only when the call is rejected. It touches nothing
  else.
- **Buttons** (`ClickGitHub`, `ClickGoogle`): each button is rendered with
  `disabled={...Loading}`. The handlers therefore require their flag to be
  `false`. The click methods model a click on a disabled button as doing
  nothing.
- **Scenarios**: small client methods that build a fresh page and run a
  sequence of steps. They show: a retry after a rejection; a swallowed click
  after a successful hand-off; that the last access type written wins; and
  that no mutual exclusion exists between the two providers.

Files: `wrappers.dfy` (an `Option` type), `scopes.dfy` (the pure scope logic)
and `sign_in.dfy` (the page state and its operations).

Three facts of the code shape the model:
- `repoAccessType` is an unchecked string, and its setter validates nothing
  (app/auth/sign-in/page.tsx:41).
- Google requests carry no scope (app/auth/sign-in/page.tsx:64-66).
- Neither handler rejects a re-entry. Only the `disabled` buttons guard them
  (app/auth/sign-in/page.tsx:141, 176).

## Model

| member | source | states |
|---|---|---|
| `Scopes.GitHubScopes` | app/auth/sign-in/page.tsx:46-49 | the scope ternary itself; it has no contract of its own, and its meaning is stated by `ScopesEncodePermissions`, `RepoRequestedIffPrivate`, `IdentityAlwaysRequested` and `PrivateExtendsPublic` |
| `Scopes.ScopesEncodePermissions` | app/auth/sign-in/page.tsx:46-49 | the GitHub scope string is the space-delimited encoding of `read:user`, `user:email`, then `repo` only for `"private"`, and it decodes back to exactly that list |
| `Scopes.RepoRequestedIffPrivate` | app/auth/sign-in/page.tsx:46-49 | the `repo` permission is among the requested scopes if and only if the access type is `"private"`, for every string |
| `Scopes.IdentityAlwaysRequested` | app/auth/sign-in/page.tsx:46-49 | `read:user` and `user:email` are requested for every access type, including unknown ones |
| `Scopes.PrivateExtendsPublic` | app/auth/sign-in/page.tsx:47-49 | the private scope string is the public one (the one any non-`"private"` value yields) followed by `" repo"` |
| `Scopes.SplitJoin` | app/auth/sign-in/page.tsx:46-49 | models the format of the scope string (space-delimited, section 3.3 of RFC 6749): a non-empty list of space-free permission names survives encoding into one scope string and decoding back |
| `Scopes.JoinSplit` | app/auth/sign-in/page.tsx:46-49 | models the format of the scope string: every scope string survives decoding into names and re-encoding |
| `Scopes.SplitTokens` | app/auth/sign-in/page.tsx:46-49 | models the format of the scope string: decoding yields at least one name, and no name contains a space |
| `SignIn.GitHubRequest` | app/auth/sign-in/page.tsx:51-54 | the arguments of the GitHub `signIn` call; it has no contract of its own, and its meaning is stated by `GitHubRequestShape` |
| `SignIn.GoogleRequest` | app/auth/sign-in/page.tsx:64-66 | the arguments of the Google `signIn` call; it has no contract of its own, and its meaning is stated by `GoogleRequestShape` |
| `SignIn.GitHubRequestShape` | app/auth/sign-in/page.tsx:51-54 | the GitHub request names provider `github` and callback `/dashboard`, always has a scope, and that scope decodes to the access type's permissions (`repo` iff `"private"`) |
| `SignIn.GoogleRequestShape` | app/auth/sign-in/page.tsx:64-66 | the Google request names provider `google`, has the same `/dashboard` callback as GitHub, and has no scope whatever the access type |
| `SignIn.SignInPage.constructor` | app/auth/sign-in/page.tsx:38-41 | a new page has both loading flags `false`, access type `"public"` and no calls made |
| `SignIn.SignInPage.SetRepoAccessType` | app/auth/sign-in/page.tsx:41 | the setter stores any string unvalidated and changes neither flag nor the trace |
| `SignIn.SignInPage.HandleGitHubSignIn` | app/auth/sign-in/page.tsx:43-59 | appends exactly one call, the GitHub request for the current access type, made while `isGithubLoading` is `true`; afterwards `isGithubLoading` holds iff the call resolved; `isGoogleLoading` and `repoAccessType` are unchanged |
| `SignIn.SignInPage.HandleGoogleSignIn` | app/auth/sign-in/page.tsx:61-71 | appends exactly one call, the scope-less Google request, made while `isGoogleLoading` is `true`; afterwards `isGoogleLoading` holds iff the call resolved; `isGithubLoading` and `repoAccessType` are unchanged |
| `SignIn.SignInPage.ClickGitHub` | app/auth/sign-in/page.tsx:139-141 | a click while GitHub is loading makes no call and changes nothing; otherwise it behaves as `HandleGitHubSignIn` |
| `SignIn.SignInPage.ClickGoogle` | app/auth/sign-in/page.tsx:172-176 | a click while Google is loading makes no call and changes nothing; otherwise it behaves as `HandleGoogleSignIn` |
| `SignIn.GitHubTwiceOnFreshPage` | app/auth/sign-in/page.tsx:38-59 | on a fresh page the first GitHub click sends the public scopes; after a resolved call a second click makes no call (one call in all), after a rejected call it retries the same request (two calls); every call is made with GitHub loading and Google idle |
| `SignIn.LastAccessTypeWins` | app/auth/sign-in/page.tsx:41-49 | setting `"private"` then `"public"` makes the next GitHub request ask for the public scopes, without `repo` |
| `SignIn.PrivateRejected` | app/auth/sign-in/page.tsx:43-58 | with access type `"private"` a rejected GitHub sign-in sent `read:user user:email repo` and leaves `isGithubLoading` `false` |
| `SignIn.BothProvidersLoading` | app/auth/sign-in/page.tsx:43-71 | after a resolved GitHub sign-in the Google handler still runs; both flags end `true`, and the Google call was made while GitHub was loading |

## Left out

- The rendering: JSX, styling, the `features` list and the `siteConfig` texts. These are presentation only.
- The repository-access dialog, which is commented out in the page. Only the setter it would have used is modelled (`SetRepoAccessType`).
- The internals of next-auth `signIn`. They are a foreign library call. The model keeps only the request sent and an outcome parameter. What happens after a resolved call (the browser leaving for the provider) is not modelled. The page simply stays loading.
- The `console.error` logging in both catch blocks. It is I/O and does not affect state.
- React's asynchronous re-rendering and the scheduling of `await`. Each handler is one atomic step that ends in its outcome. So one handler cannot interleave with another, and a click cannot land while a handler is suspended.
- Re-entry rejection, mutual exclusion between providers and timeouts. The page has none of these, so the model has none either.
