/** The route guard run before every page: the exhibitor area needs an
    access token, and the login page sends a signed-in user on to it. The
    cookie is a parameter; a missing or empty token reads as none. */
module Middleware {
  import opened Wrappers

  datatype Decision = RedirectTo(location: string) | Next

  const PROTECTED_PREFIX: string := "/exhibitor"
  const LOGIN: string := "/login"

  predicate HasToken(token: Option<string>) {
    token.Some? && token.value != ""
  }

  predicate IsProtected(path: string) {
    PROTECTED_PREFIX <= path
  }

  /** `middleware`'s decision for a request path and its token cookie. */
  function Decide(path: string, token: Option<string>): (d: Decision)
    ensures d == RedirectTo(LOGIN) <==> IsProtected(path) && !HasToken(token)
    ensures d == RedirectTo(PROTECTED_PREFIX) <==> path == LOGIN && HasToken(token)
    ensures d == Next <==> !(IsProtected(path) && !HasToken(token)) && !(path == LOGIN && HasToken(token))
  {
    if IsProtected(path) && !HasToken(token) then RedirectTo(LOGIN)
    else if path == LOGIN && HasToken(token) then RedirectTo(PROTECTED_PREFIX)
    else Next
  }

  /** The login page is not in the protected area, so the two redirects
      never compete: without a token the login page is served. */
  lemma LoginIsPublic(token: Option<string>)
    ensures !IsProtected(LOGIN)
    ensures !HasToken(token) ==> Decide(LOGIN, token) == Next
  {
    assert LOGIN[1] != PROTECTED_PREFIX[1];
  }

  /** The protected test is a prefix test: `/exhibitor-2` and every page
      under `/exhibitor/` need a token as well. */
  lemma PrefixIsProtected(rest: string, token: Option<string>)
    requires !HasToken(token)
    ensures Decide(PROTECTED_PREFIX + rest, token) == RedirectTo(LOGIN)
    ensures Decide("/exhibitor-2", token) == RedirectTo(LOGIN)
  {
    assert PROTECTED_PREFIX <= PROTECTED_PREFIX + rest;
    assert "/exhibitor-2" == PROTECTED_PREFIX + "-2";
    assert PROTECTED_PREFIX <= PROTECTED_PREFIX + "-2";
  }

  /** An empty cookie is treated like a missing one. */
  lemma EmptyTokenIsNone(path: string)
    ensures Decide(path, Some("")) == Decide(path, None)
  {
  }

  /** With a token every page but the login page is served. */
  lemma TokenPassesElsewhere(path: string, token: Option<string>)
    requires HasToken(token) && path != LOGIN
    ensures Decide(path, token) == Next
  {
  }
}
