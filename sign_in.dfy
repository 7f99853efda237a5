/**
 * The sign-in intent state machine of the SignIn page: two per-provider
 * loading flags, the repository-access type, and the two handlers that start
 * an external OAuth sign-in.
 *
 * The external `signIn` call is not modelled; each handler takes its outcome
 * as a parameter (it either resolves, and the browser leaves for the
 * provider's consent page, or it rejects) and returns the request it sends.
 * A trace records every call together with the loading flags as they
 * stood at the moment of the call.
 */
module SignIn {
  import opened Wrappers
  import opened Scopes

  const GITHUB := "github"
  const GOOGLE := "google"
  /** Where the identity provider sends the user back after signing in. */
  const DASHBOARD_PATH := "/dashboard"

  /** How the awaited `signIn` call ended. */
  datatype Outcome = Resolved | Rejected

  /** The arguments of one `signIn(provider, {callbackUrl, scope?})` call. */
  datatype SignInRequest = SignInRequest(provider: string, callbackUrl: string, scope: Option<string>)

  /** One call of the external `signIn`, with the page's loading flags at that moment. */
  datatype Call = Call(request: SignInRequest, githubLoading: bool, googleLoading: bool)

  /** The request the GitHub handler sends for a given repository-access type. */
  function GitHubRequest(accessType: string): SignInRequest
  {
    SignInRequest(GITHUB, DASHBOARD_PATH, Some(GitHubScopes(accessType)))
  }

  /** The request the Google handler sends; it carries no scope. */
  function GoogleRequest(): SignInRequest
  {
    SignInRequest(GOOGLE, DASHBOARD_PATH, None)
  }

  /** Every GitHub request goes to the dashboard and asks exactly for the
      permissions of the access type, the repository permission only for "private". */
  lemma GitHubRequestShape(accessType: string)
    ensures GitHubRequest(accessType).provider == GITHUB
    ensures GitHubRequest(accessType).callbackUrl == DASHBOARD_PATH
    ensures GitHubRequest(accessType).scope.Some?
    ensures Split(GitHubRequest(accessType).scope.value) == RequestedPermissions(accessType)
    ensures REPO in Split(GitHubRequest(accessType).scope.value) <==> accessType == "private"
  {
    ScopesEncodePermissions(accessType);
    RepoRequestedIffPrivate(accessType);
  }

  /** The Google request does not depend on the access type: no scope, same callback. */
  lemma GoogleRequestShape(accessType: string)
    ensures GoogleRequest().provider == GOOGLE
    ensures GoogleRequest().callbackUrl == GitHubRequest(accessType).callbackUrl
    ensures GoogleRequest().scope.None?
  {
  }

  /** The state of one SignIn page: the three `useState` hooks. */
  class SignInPage {
    var isGoogleLoading: bool
    var isGithubLoading: bool
    /** A plain string: the page never restricts it to "public" or "private". */
    var repoAccessType: string
    /** Every `signIn` call made so far, oldest first (a record of the external
        effect; the page itself keeps no such list). */
    var calls: seq<Call>

    /** A freshly mounted page: nothing loading, public access, no call made. */
    constructor ()
      ensures !isGoogleLoading && !isGithubLoading
      ensures repoAccessType == "public"
      ensures calls == []
    {
      isGoogleLoading := false;
      isGithubLoading := false;
      repoAccessType := "public";
      calls := [];
    }

    /** The `setRepoAccessType` setter: overwrites the access type, without validation. */
    method SetRepoAccessType(value: string)
      modifies this
      ensures repoAccessType == value
      ensures isGoogleLoading == old(isGoogleLoading) && isGithubLoading == old(isGithubLoading)
      ensures calls == old(calls)
    {
      repoAccessType := value;
    }

    /** `handleGitHubSignIn`: mark GitHub as loading, make exactly one GitHub call
        with the scopes of the current access type, and clear the flag again only
        if that call rejects. Callable only while the GitHub button is enabled. */
    method HandleGitHubSignIn(outcome: Outcome) returns (request: SignInRequest)
      requires !isGithubLoading
      modifies this
      ensures request == GitHubRequest(old(repoAccessType))
      ensures calls == old(calls) + [Call(request, true, old(isGoogleLoading))]
      ensures isGithubLoading <==> outcome == Resolved
      ensures isGoogleLoading == old(isGoogleLoading)
      ensures repoAccessType == old(repoAccessType)
    {
      isGithubLoading := true;
      request := GitHubRequest(repoAccessType);
      calls := calls + [Call(request, isGithubLoading, isGoogleLoading)];
      if outcome == Rejected {
        isGithubLoading := false;
      }
    }

    /** `handleGoogleSignIn`: mark Google as loading, make exactly one Google call
        without a scope, and clear the flag again only if that call rejects.
        Callable only while the Google button is enabled. */
    method HandleGoogleSignIn(outcome: Outcome) returns (request: SignInRequest)
      requires !isGoogleLoading
      modifies this
      ensures request == GoogleRequest()
      ensures calls == old(calls) + [Call(request, old(isGithubLoading), true)]
      ensures isGoogleLoading <==> outcome == Resolved
      ensures isGithubLoading == old(isGithubLoading)
      ensures repoAccessType == old(repoAccessType)
    {
      isGoogleLoading := true;
      request := GoogleRequest();
      calls := calls + [Call(request, isGithubLoading, isGoogleLoading)];
      if outcome == Rejected {
        isGoogleLoading := false;
      }
    }

    /** A click on the "Continue with GitHub" button: a disabled button (GitHub
        loading) does nothing; an enabled one runs the handler. */
    method ClickGitHub(outcome: Outcome) returns (request: Option<SignInRequest>)
      modifies this
      ensures old(isGithubLoading) ==> request == None && calls == old(calls) && isGithubLoading
      ensures !old(isGithubLoading) ==> request == Some(GitHubRequest(old(repoAccessType)))
      ensures !old(isGithubLoading) ==>
                calls == old(calls) + [Call(request.value, true, old(isGoogleLoading))] &&
                (isGithubLoading <==> outcome == Resolved)
      ensures isGoogleLoading == old(isGoogleLoading)
      ensures repoAccessType == old(repoAccessType)
    {
      if isGithubLoading {
        request := None;
      } else {
        var sent := HandleGitHubSignIn(outcome);
        request := Some(sent);
      }
    }

    /** A click on the "Continue with Google" button: a disabled button (Google
        loading) does nothing; an enabled one runs the handler. */
    method ClickGoogle(outcome: Outcome) returns (request: Option<SignInRequest>)
      modifies this
      ensures old(isGoogleLoading) ==> request == None && calls == old(calls) && isGoogleLoading
      ensures !old(isGoogleLoading) ==> request == Some(GoogleRequest())
      ensures !old(isGoogleLoading) ==>
                calls == old(calls) + [Call(request.value, old(isGithubLoading), true)] &&
                (isGoogleLoading <==> outcome == Resolved)
      ensures isGithubLoading == old(isGithubLoading)
      ensures repoAccessType == old(repoAccessType)
    {
      if isGoogleLoading {
        request := None;
      } else {
        var sent := HandleGoogleSignIn(outcome);
        request := Some(sent);
      }
    }
  }

  /** On a fresh page the first GitHub sign-in asks for the public scopes; if it
      resolves, the button stays disabled and a second click makes no call; if it
      rejects, the second click retries with the same request. */
  method GitHubTwiceOnFreshPage(outcome: Outcome)
    returns (first: Option<SignInRequest>, second: Option<SignInRequest>, calls: seq<Call>)
    ensures first == Some(SignInRequest(GITHUB, DASHBOARD_PATH, Some("read:user user:email")))
    ensures outcome == Resolved ==> second == None && |calls| == 1
    ensures outcome == Rejected ==> second == first && |calls| == 2
    ensures forall j :: 0 <= j < |calls| ==> calls[j].githubLoading && !calls[j].googleLoading
  {
    var page := new SignInPage();
    first := page.ClickGitHub(outcome);
    second := page.ClickGitHub(Resolved);
    calls := page.calls;
  }

  /** Choosing "private" and then "public" before signing in with GitHub requests
      the public scopes: the last value written wins. */
  method LastAccessTypeWins(outcome: Outcome) returns (request: SignInRequest)
    ensures request.scope == Some("read:user user:email")
    ensures REPO !in Split(request.scope.value)
  {
    var page := new SignInPage();
    page.SetRepoAccessType("private");
    page.SetRepoAccessType("public");
    request := page.HandleGitHubSignIn(outcome);
    RepoRequestedIffPrivate("public");
  }

  /** With the private access type a rejected GitHub sign-in still sent the
      repository permission, and leaves the GitHub button enabled again. */
  method PrivateRejected() returns (request: SignInRequest, githubLoading: bool)
    ensures request.scope == Some("read:user user:email repo")
    ensures REPO in Split(request.scope.value)
    ensures !githubLoading
  {
    var page := new SignInPage();
    page.SetRepoAccessType("private");
    request := page.HandleGitHubSignIn(Rejected);
    githubLoading := page.isGithubLoading;
    RepoRequestedIffPrivate("private");
  }

  /** Nothing excludes the two providers from each other: after a resolved
      GitHub sign-in the Google button still works, and both flags end up set,
      with the Google call made while GitHub was loading. */
  method BothProvidersLoading() returns (githubLoading: bool, googleLoading: bool, googleCall: Call)
    ensures githubLoading && googleLoading
    ensures googleCall.request == GoogleRequest() && googleCall.githubLoading
  {
    var page := new SignInPage();
    var _ := page.HandleGitHubSignIn(Resolved);
    var _ := page.HandleGoogleSignIn(Resolved);
    githubLoading, googleLoading := page.isGithubLoading, page.isGoogleLoading;
    googleCall := page.calls[1];
  }
}
