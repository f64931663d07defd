/** The route guard of `src/middleware.ts`: `withAuth` runs on the two
    dashboard sections named by the matcher, sends a request without a
    session token to the sign-in page, and otherwise runs the inner
    function, which turns everyone but an administrator away from the
    admin section. */
module Middleware {
  import opened Wrappers
  import Strings

  const AdminSection: string := "/dashboard/admin"
  const ClientSection: string := "/dashboard/client"
  const SignInPath: string := "/auth/signin"
  const AdminRole: string := "ADMIN"

  /** The session token; only its role is read. */
  datatype Token = Token(role: Option<string>)

  /** What happens to a request: it passes, it is redirected by the inner
      function, or `withAuth` sends it to the sign-in page it is configured
      with. */
  datatype Decision = Pass | Redirect(target: string) | ToSignInPage

  /** `'<section>/:path*'`: the section itself or anything below it. */
  predicate Under(path: string, section: string) {
    path == section || Strings.StartsWith(path, section + "/")
  }

  /** The matcher. */
  predicate Matched(path: string) {
    Under(path, AdminSection) || Under(path, ClientSection)
  }

  /** The inner `middleware` function, on the path prefix tests it makes. */
  function Inner(path: string, token: Option<Token>): (d: Decision)
    ensures d != ToSignInPage
    ensures d == Redirect(ClientSection) <==>
              Strings.StartsWith(path, AdminSection) && (token.None? || token.value.role != Some(AdminRole))
  {
    if Strings.StartsWith(path, AdminSection) && (token.None? || token.value.role != Some(AdminRole)) then
      Redirect(ClientSection)
    else if Strings.StartsWith(path, ClientSection) && token.None? then Redirect(SignInPath)
    else Pass
  }

  /** The whole guard: unmatched paths pass untouched; `authorized` demands
      a token on a matched path; then the inner function decides. */
  function Guard(path: string, token: Option<Token>): (d: Decision)
    ensures !Matched(path) ==> d == Pass
    ensures Matched(path) && token.None? ==> d == ToSignInPage
  {
    if !Matched(path) then Pass
    else if token.None? then ToSignInPage
    else Inner(path, token)
  }

  lemma UnderStartsWith(path: string, section: string)
    requires Under(path, section)
    ensures Strings.StartsWith(path, section)
  {
    if path != section {
      assert path[..|section|] == (section + "/")[..|section|];
    }
  }

  /** The section paths never start one another. */
  lemma SectionsDisjoint(path: string)
    requires Strings.StartsWith(path, ClientSection)
    ensures !Strings.StartsWith(path, AdminSection)
  {
    assert path[11] == ClientSection[11];
  }

  /** An administrator is never redirected. */
  lemma AdminNeverRedirected(path: string)
    ensures Guard(path, Some(Token(Some(AdminRole)))) == Pass
  {
    if Matched(path) && Under(path, ClientSection) {
      UnderStartsWith(path, ClientSection);
    }
  }

  /** Anyone else with a session is sent from the admin section to the
      client dashboard; the client section lets any session through. */
  lemma NonAdminsLeaveAdminSection(path: string, role: Option<string>)
    requires role != Some(AdminRole)
    ensures Under(path, AdminSection) ==> Guard(path, Some(Token(role))) == Redirect(ClientSection)
    ensures Under(path, ClientSection) ==> Guard(path, Some(Token(role))) == Pass
  {
    if Under(path, AdminSection) {
      UnderStartsWith(path, AdminSection);
    }
    if Under(path, ClientSection) {
      UnderStartsWith(path, ClientSection);
      SectionsDisjoint(path);
    }
  }

  /** The inner redirect to `/auth/signin` never happens: `withAuth` turns a
      request without a token away before the inner function runs. */
  lemma InnerSignInUnreachable(path: string, token: Option<Token>)
    ensures Guard(path, token) != Redirect(SignInPath)
  {
  }

  /** The inner prefix test alone would also guard `/dashboard/administrator`;
      the matcher keeps such a path out of the guard. */
  lemma PrefixWithoutSlashNotGuarded()
    ensures Inner("/dashboard/administrator", Some(Token(None))) == Redirect(ClientSection)
    ensures Guard("/dashboard/administrator", Some(Token(None))) == Pass
  {
    var path := "/dashboard/administrator";
    assert path[..|AdminSection|] == AdminSection;
    assert path[|AdminSection|] == 'i';
    assert !Strings.StartsWith(path, AdminSection + "/");
    assert path[11] != ClientSection[11];
    assert !Strings.StartsWith(path, ClientSection + "/");
  }
}
