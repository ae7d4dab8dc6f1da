/** The access decision of middleware.ts: public prefixes and file-like paths
    pass, every other request needs a non-empty `session` cookie and is
    otherwise redirected to the login page. */
module Middleware {
  import opened Wrappers
  import opened Seqs

  const PublicPaths: seq<string> := ["/login", "/_next", "/favicon.ico"]
  const LoginPath := "/login"

  /** `isPublic`: equal to, or starting with, one of the public paths. */
  predicate IsPublic(pathname: string) {
    exists i :: 0 <= i < |PublicPaths| && (pathname == PublicPaths[i] || StartsWith(pathname, PublicPaths[i]))
  }

  /** The characters JavaScript's `.` does not match and `$` stops at. */
  predicate IsLineTerminator(c: char) {
    c == '\n' || c == '\r' || c == '\U{2028}' || c == '\U{2029}'
  }

  /** `pathname.match(/\.(.*)$/)` succeeds: some dot is followed only by
      characters other than line terminators up to the end. */
  predicate MatchesDotSuffix(pathname: string) {
    exists i :: 0 <= i < |pathname| && pathname[i] == '.' &&
      forall j :: i < j < |pathname| ==> !IsLineTerminator(pathname[j])
  }

  /** `!session` is false: the cookie is present and not empty. */
  predicate HasSession(session: Option<string>) {
    session.Some? && session.value != ""
  }

  /** `NextResponse.next()` or a redirect to `pathname` with `?next=`. */
  datatype Decision = Next | Redirect(pathname: string, next: string)

  /** `middleware(req)` for the request's pathname and `session` cookie. */
  function Decide(pathname: string, session: Option<string>): (d: Decision)
    ensures d.Redirect? ==> d.pathname == LoginPath && d.next == pathname
  {
    if IsPublic(pathname) then Next
    else if MatchesDotSuffix(pathname) then Next
    else if !HasSession(session) then Redirect(LoginPath, pathname)
    else Next
  }

  /** The public test is a prefix test on three strings, so "/loginx" is public too. */
  lemma IsPublicIff(pathname: string)
    ensures IsPublic(pathname) <==>
      StartsWith(pathname, "/login") || StartsWith(pathname, "/_next") || StartsWith(pathname, "/favicon.ico")
  {
    if StartsWith(pathname, "/login") {
      assert pathname == PublicPaths[0] || StartsWith(pathname, PublicPaths[0]);
    } else if StartsWith(pathname, "/_next") {
      assert pathname == PublicPaths[1] || StartsWith(pathname, PublicPaths[1]);
    } else if StartsWith(pathname, "/favicon.ico") {
      assert pathname == PublicPaths[2] || StartsWith(pathname, PublicPaths[2]);
    }
  }

  /** "/loginx" passes without a session; "/" does not. */
  lemma PrefixExamples()
    ensures Decide("/loginx", None) == Next
    ensures Decide("/", None) == Redirect(LoginPath, "/")
  {
    IsPublicIff("/loginx");
    IsPublicIff("/");
    assert !MatchesDotSuffix("/");
  }

  /** A path without line terminators matches the static-file pattern iff it contains a dot. */
  lemma DotSuffixIffDot(pathname: string)
    requires forall j :: 0 <= j < |pathname| ==> !IsLineTerminator(pathname[j])
    ensures MatchesDotSuffix(pathname) <==> '.' in pathname
  {
    if '.' in pathname {
      var i :| 0 <= i < |pathname| && pathname[i] == '.';
      assert forall j :: i < j < |pathname| ==> !IsLineTerminator(pathname[j]);
    }
  }

  /** Public paths pass whatever the cookie. */
  lemma PublicPathsPass(pathname: string, session: Option<string>)
    requires IsPublic(pathname)
    ensures Decide(pathname, session) == Next
  {
  }

  /** A path with a dot and no line terminator passes without a session. */
  lemma DottedPathsPass(pathname: string, session: Option<string>)
    requires '.' in pathname
    requires forall j :: 0 <= j < |pathname| ==> !IsLineTerminator(pathname[j])
    ensures Decide(pathname, session) == Next
  {
    DotSuffixIffDot(pathname);
  }

  /** A redirect happens exactly for a private, dot-free path without a session. */
  lemma RedirectIff(pathname: string, session: Option<string>)
    requires forall j :: 0 <= j < |pathname| ==> !IsLineTerminator(pathname[j])
    ensures Decide(pathname, session).Redirect? <==>
      && !StartsWith(pathname, "/login") && !StartsWith(pathname, "/_next") && !StartsWith(pathname, "/favicon.ico")
      && '.' !in pathname
      && !HasSession(session)
  {
    IsPublicIff(pathname);
    DotSuffixIffDot(pathname);
  }

  /** With a session cookie nothing is redirected. */
  lemma SessionNeverRedirected(pathname: string, session: Option<string>)
    requires HasSession(session)
    ensures Decide(pathname, session) == Next
  {
  }

  /** The redirect target is public, so following a redirect is never redirected again. */
  lemma NoRedirectLoop(pathname: string, session: Option<string>, again: Option<string>)
    requires Decide(pathname, session).Redirect?
    ensures Decide(Decide(pathname, session).pathname, again) == Next
  {
    IsPublicIff(LoginPath);
  }
}
