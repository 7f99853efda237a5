/**
 * The OAuth scope string the sign-in page asks GitHub for.
 *
 * The page encodes the scope as one string of space-separated permission
 * names (the space-delimited form of section 3.3 of RFC 6749). Beside the
 * page's own ternary this module defines that encoding both ways (Join and
 * Split), proves the two inverse, and uses them to state which permissions
 * each repository-access type requests.
 */
module Scopes {

  /** Permissions requested whatever the repository-access type. */
  const READ_USER := "read:user"
  const USER_EMAIL := "user:email"
  /** The extra permission that grants access to private repositories. */
  const REPO := "repo"

  /** The scope string of the GitHub sign-in request, as the page computes it:
      any value other than "private" yields the public scopes. */
  function GitHubScopes(accessType: string): string
  {
    if accessType == "private" then "read:user user:email repo" else "read:user user:email"
  }

  /** Reference definition: the permissions each access type stands for. */
  function RequestedPermissions(accessType: string): seq<string>
  {
    [READ_USER, USER_EMAIL] + (if accessType == "private" then [REPO] else [])
  }

  /** A permission name as it may appear inside a space-delimited scope string. */
  predicate IsScopeToken(t: string)
  {
    ' ' !in t
  }

  /** Space-delimited encoding of a list of permission names. */
  function Join(tokens: seq<string>): string
  {
    if |tokens| == 0 then ""
    else if |tokens| == 1 then tokens[0]
    else tokens[0] + " " + Join(tokens[1..])
  }

  /** Index of the first space in s, or |s| when there is none. */
  function FirstSpace(s: string): (i: nat)
    ensures i <= |s|
    ensures i < |s| ==> s[i] == ' '
    ensures forall k :: 0 <= k < i ==> s[k] != ' '
  {
    if s == [] then 0
    else if s[0] == ' ' then 0
    else 1 + FirstSpace(s[1..])
  }

  /** Decoding of a space-delimited scope string into its permission names. */
  function Split(s: string): seq<string>
    decreases |s|
  {
    var i := FirstSpace(s);
    if i == |s| then [s] else [s[..i]] + Split(s[i + 1..])
  }

  /** Splitting a scope string always yields at least one name, none containing a space. */
  lemma {:induction false} SplitTokens(s: string)
    ensures |Split(s)| > 0
    ensures forall j :: 0 <= j < |Split(s)| ==> IsScopeToken(Split(s)[j])
    decreases |s|
  {
    var i := FirstSpace(s);
    if i < |s| {
      SplitTokens(s[i + 1..]);
      var rest := Split(s[i + 1..]);
      assert Split(s) == [s[..i]] + rest;
      forall j | 0 <= j < |Split(s)| ensures IsScopeToken(Split(s)[j]) {
        if j == 0 {
          assert forall k :: 0 <= k < i ==> s[..i][k] != ' ';
        } else {
          assert Split(s)[j] == rest[j - 1];
        }
      }
    } else {
      assert forall k :: 0 <= k < |s| ==> s[k] != ' ';
    }
  }

  /** A permission name followed by a space: its first space is the one after it. */
  lemma FirstSpaceAfterToken(x: string, rest: string)
    requires IsScopeToken(x)
    ensures FirstSpace(x + " " + rest) == |x|
  {
    assert (x + " " + rest)[|x|] == ' ';
  }

  /** A permission name alone contains no space. */
  lemma FirstSpaceOfToken(x: string)
    requires IsScopeToken(x)
    ensures FirstSpace(x) == |x|
  {
  }

  /** Encoding then decoding a non-empty list of permission names gives the list back. */
  lemma {:induction false} SplitJoin(tokens: seq<string>)
    requires |tokens| > 0
    requires forall j :: 0 <= j < |tokens| ==> IsScopeToken(tokens[j])
    ensures Split(Join(tokens)) == tokens
    decreases |tokens|
  {
    var x := tokens[0];
    assert IsScopeToken(x);
    if |tokens| == 1 {
      FirstSpaceOfToken(x);
    } else {
      var rest := tokens[1..];
      var s := x + " " + Join(rest);
      assert Join(tokens) == s;
      FirstSpaceAfterToken(x, Join(rest));
      assert s[..|x|] == x;
      assert s[|x| + 1..] == Join(rest);
      assert forall j :: 0 <= j < |rest| ==> rest[j] == tokens[j + 1];
      SplitJoin(rest);
      assert [x] + rest == tokens;
    }
  }

  /** Encoding a name in front of a non-empty list puts one space between them. */
  lemma JoinCons(x: string, rest: seq<string>)
    requires |rest| > 0
    ensures Join([x] + rest) == x + " " + Join(rest)
  {
    assert ([x] + rest)[1..] == rest;
  }

  /** Decoding then encoding any string gives the string back. */
  lemma {:induction false} JoinSplit(s: string)
    ensures Join(Split(s)) == s
    decreases |s|
  {
    var i := FirstSpace(s);
    if i < |s| {
      var rest := Split(s[i + 1..]);
      JoinSplit(s[i + 1..]);
      SplitTokens(s[i + 1..]);
      JoinCons(s[..i], rest);
      assert s == s[..i] + " " + s[i + 1..];
    }
  }

  /** The scope string requested for an access type encodes exactly its permissions. */
  lemma ScopesEncodePermissions(accessType: string)
    ensures GitHubScopes(accessType) == Join(RequestedPermissions(accessType))
    ensures Split(GitHubScopes(accessType)) == RequestedPermissions(accessType)
  {
    var perms := RequestedPermissions(accessType);
    if accessType == "private" {
      assert Join(perms[2..]) == REPO;
      assert Join(perms[1..]) == USER_EMAIL + " " + REPO;
    } else {
      assert Join(perms[1..]) == USER_EMAIL;
    }
    assert Join(perms) == GitHubScopes(accessType);
    assert forall j :: 0 <= j < |perms| ==> IsScopeToken(perms[j]);
    SplitJoin(perms);
  }

  /** The repository permission is requested exactly when the access type is "private". */
  lemma RepoRequestedIffPrivate(accessType: string)
    ensures REPO in Split(GitHubScopes(accessType)) <==> accessType == "private"
  {
    ScopesEncodePermissions(accessType);
    assert REPO != READ_USER && REPO != USER_EMAIL;
  }

  /** Both identity permissions are requested for every access type. */
  lemma IdentityAlwaysRequested(accessType: string)
    ensures READ_USER in Split(GitHubScopes(accessType))
    ensures USER_EMAIL in Split(GitHubScopes(accessType))
  {
    ScopesEncodePermissions(accessType);
  }

  /** The private scopes are the public scopes followed by " repo", for every
      value that selects the public scopes. */
  lemma PrivateExtendsPublic(accessType: string)
    requires accessType != "private"
    ensures GitHubScopes("private") == GitHubScopes(accessType) + " " + REPO
  {
  }
}
