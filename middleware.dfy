/**
 * The route guard (src/middleware.ts): public and static paths pass, every
 * other path needs a session cookie whose token verifies, and the client and
 * validator areas are kept to their roles.
 */
module Middleware {
  import opened Wrappers

  const PublicRoutes: seq<string> := ["/login", "/registrar", "/api/auth"]
  const ClienteRoutes: seq<string> := ["/vouchers", "/voucher", "/meus-vouchers"]
  const ValidadorRoutes: seq<string> := ["/validar"]
  const LoginPage := "/login"
  const ValidarPage := "/validar"
  const VouchersPage := "/vouchers"
  const WebhookPath := "/api/webhooks/asaas"

  /** What the guard answers: let the request through, or redirect (deleting the cookie or not). */
  datatype Decision = Next | Redirect(location: string, deleteCookie: bool)

  /**
   * What verifying the cookie's token gives: it fails (bad signature,
   * expired) or yields the `role` claim, which may be absent.
   */
  datatype Verification = Invalid | Verified(role: Option<string>)

  /** `prefixes.some((r) => path.startsWith(r))`. */
  predicate StartsWithAny(path: string, prefixes: seq<string>) {
    exists i :: 0 <= i < |prefixes| && prefixes[i] <= path
  }

  /** Framework assets, the favicon and the home page. */
  predicate IsStatic(path: string) {
    "/_next" <= path || "/favicon" <= path || path == "/"
  }

  /** Whether a verified role may open the path: the two areas are kept to their roles. */
  predicate RoleAllowed(path: string, role: Option<string>) {
    && (StartsWithAny(path, ClienteRoutes) ==> role == Some("cliente"))
    && (StartsWithAny(path, ValidadorRoutes) ==> role == Some("validador"))
  }

  /**
   * The guard for a list of public route prefixes; `verify` is the token
   * check, consulted only when a cookie is present.
   */
  function Decide(publicRoutes: seq<string>, path: string, cookie: Option<string>, verify: string -> Verification): (d: Decision)
    // a request passes exactly when it is public or static, or carries a verified token whose role may open the path
    ensures d == Next <==>
      StartsWithAny(path, publicRoutes) || IsStatic(path) ||
      (Truthy(cookie) && verify(cookie.value).Verified? && RoleAllowed(path, verify(cookie.value).role))
    // every redirect goes to one of the three entry pages, and only a bad token loses the cookie
    ensures d.Redirect? ==> d.location in {LoginPage, ValidarPage, VouchersPage}
    ensures d.Redirect? && d.deleteCookie ==> d.location == LoginPage && cookie.Some? && verify(cookie.value).Invalid?
  {
    if StartsWithAny(path, publicRoutes) then Next
    else if IsStatic(path) then Next
    else if !Truthy(cookie) then Redirect(LoginPage, false)
    else
      match verify(cookie.value)
      case Invalid => Redirect(LoginPage, true)
      case Verified(role) =>
        if StartsWithAny(path, ClienteRoutes) && role != Some("cliente") then Redirect(ValidarPage, false)
        else if StartsWithAny(path, ValidadorRoutes) && role != Some("validador") then Redirect(VouchersPage, false)
        else Next
  }

  /** `middleware` as written, over its three public prefixes. */
  function Guard(path: string, cookie: Option<string>, verify: string -> Verification): (d: Decision)
    ensures d == Next <==>
      LoginPage <= path || "/registrar" <= path || "/api/auth" <= path || IsStatic(path) ||
      (Truthy(cookie) && verify(cookie.value).Verified? && RoleAllowed(path, verify(cookie.value).role))
    ensures d.Redirect? && d.deleteCookie ==> cookie.Some? && verify(cookie.value).Invalid?
  {
    assert StartsWithAny(path, PublicRoutes) <==> LoginPage <= path || "/registrar" <= path || "/api/auth" <= path by {
      assert |PublicRoutes| == 3;
      assert PublicRoutes[0] == LoginPage && PublicRoutes[1] == "/registrar" && PublicRoutes[2] == "/api/auth";
    }
    Decide(PublicRoutes, path, cookie, verify)
  }

  /** Sign-in, registration and the auth API pass before any token is read. */
  lemma PublicPathsPass(path: string, cookie: Option<string>, verify: string -> Verification)
    requires LoginPage <= path || "/registrar" <= path || "/api/auth" <= path
    ensures Guard(path, cookie, verify) == Next
  {
    if LoginPage <= path { assert PublicRoutes[0] <= path; }
    else if "/registrar" <= path { assert PublicRoutes[1] <= path; }
    else { assert PublicRoutes[2] <= path; }
  }

  /** Any other path without a cookie is sent to the sign-in page, the cookie left alone. */
  lemma MissingCookieRedirects(path: string, cookie: Option<string>, verify: string -> Verification)
    requires !StartsWithAny(path, PublicRoutes) && !IsStatic(path) && !Truthy(cookie)
    ensures Guard(path, cookie, verify) == Redirect(LoginPage, false)
  {
  }

  /** A token that fails to verify sends the request to sign in and deletes the cookie. */
  lemma InvalidTokenDeletesCookie(path: string, token: string, verify: string -> Verification)
    requires !StartsWithAny(path, PublicRoutes) && !IsStatic(path) && token != ""
    requires verify(token).Invalid?
    ensures Guard(path, Some(token), verify) == Redirect(LoginPage, true)
  {
  }

  /**
   * Only a client opens the client area (validators go to `/validar`), only
   * a validator the validator area (others go to `/vouchers`).
   */
  lemma AreasKeptToRoles(path: string, token: string, verify: string -> Verification)
    requires !StartsWithAny(path, PublicRoutes) && !IsStatic(path) && token != ""
    requires verify(token).Verified?
    ensures var d := Guard(path, Some(token), verify);
      var role := verify(token).role;
      && (StartsWithAny(path, ClienteRoutes) && role != Some("cliente") ==> d == Redirect(ValidarPage, false))
      && (StartsWithAny(path, ValidadorRoutes) && role != Some("validador") ==> d == Redirect(VouchersPage, false))
      && (RoleAllowed(path, role) ==> d == Next)
  {
    assert !(StartsWithAny(path, ClienteRoutes) && StartsWithAny(path, ValidadorRoutes)) by {
      if StartsWithAny(path, ValidadorRoutes) {
        assert path[..2] == "/v" && path[2] == 'a';
      }
    }
  }

  /**
   * Redirects do not loop: the page a role is sent to lets that role in, and
   * the sign-in page lets everyone in.
   */
  lemma RedirectTargetsPass(token: string, verify: string -> Verification, tail: string)
    requires token != ""
    ensures verify(token) == Verified(Some("validador")) ==> Guard(ValidarPage + tail, Some(token), verify) == Next
    ensures verify(token) == Verified(Some("cliente")) ==> Guard(VouchersPage + tail, Some(token), verify) == Next
    ensures forall c: Option<string> :: Guard(LoginPage + tail, c, verify) == Next
  {
    var validar := ValidarPage + tail;
    var vouchers := VouchersPage + tail;
    assert validar[..|ValidarPage|] == ValidarPage && vouchers[..|VouchersPage|] == VouchersPage;
    // both pages start "/v", which no public or static prefix does
    OutsidePublicAndStatic(validar);
    OutsidePublicAndStatic(vouchers);
    // "/validar" continues with 'a', every client prefix with 'o' or 'e'
    assert !StartsWithAny(validar, ClienteRoutes) by {
      DiffersAt(ClienteRoutes[0], validar, 2);
      DiffersAt(ClienteRoutes[1], validar, 2);
      DiffersAt(ClienteRoutes[2], validar, 1);
    }
    assert !StartsWithAny(vouchers, ValidadorRoutes) by {
      DiffersAt(ValidadorRoutes[0], vouchers, 2);
    }
    assert StartsWithAny(validar, ValidadorRoutes) by { assert ValidadorRoutes[0] <= validar; }
    assert StartsWithAny(vouchers, ClienteRoutes) by { assert ClienteRoutes[0] <= vouchers; }
    forall c: Option<string> ensures Guard(LoginPage + tail, c, verify) == Next {
      PublicPathsPass(LoginPage + tail, c, verify);
    }
  }

  /** A string differing from `p` at a position both have does not start with `p`. */
  lemma DiffersAt(p: string, s: string, k: nat)
    requires k < |p| && k < |s| && p[k] != s[k]
    ensures !(p <= s)
  {
  }

  /** A path starting "/v" is neither public nor static. */
  lemma OutsidePublicAndStatic(path: string)
    requires |path| >= 2 && path[0] == '/' && path[1] == 'v'
    ensures !StartsWithAny(path, PublicRoutes) && !IsStatic(path)
  {
    DiffersAt(PublicRoutes[0], path, 1);
    DiffersAt(PublicRoutes[1], path, 1);
    DiffersAt(PublicRoutes[2], path, 1);
    DiffersAt("/_next", path, 1);
    DiffersAt("/favicon", path, 1);
  }

  /**
   * The gateway's notification carries no session cookie, and the guard as
   * written sends it to the sign-in page instead of the webhook route.
   */
  lemma WebhookRedirectedToLogin(verify: string -> Verification)
    ensures Guard(WebhookPath, None, verify) == Redirect(LoginPage, false)
  {
    DiffersAt(PublicRoutes[0], WebhookPath, 1);
    DiffersAt(PublicRoutes[1], WebhookPath, 1);
    DiffersAt(PublicRoutes[2], WebhookPath, 5);
    DiffersAt("/_next", WebhookPath, 1);
    DiffersAt("/favicon", WebhookPath, 1);
  }

  /** The public prefixes with the gateway's webhook path added. */
  const PublicRoutesWithWebhook: seq<string> := PublicRoutes + ["/api/webhooks"]

  /** The guard with the webhook exempted, as its own secret check expects. */
  function GuardExemptingWebhook(path: string, cookie: Option<string>, verify: string -> Verification): (d: Decision)
    ensures "/api/webhooks" <= path ==> d == Next
    // nothing else changes
    ensures !("/api/webhooks" <= path) ==> d == Guard(path, cookie, verify)
  {
    assert PublicRoutesWithWebhook[3] == "/api/webhooks";
    assert !("/api/webhooks" <= path) ==> (StartsWithAny(path, PublicRoutesWithWebhook) <==> StartsWithAny(path, PublicRoutes)) by {
      if !("/api/webhooks" <= path) {
        assert forall i :: 0 <= i < |PublicRoutes| ==> PublicRoutesWithWebhook[i] == PublicRoutes[i];
      }
    }
    Decide(PublicRoutesWithWebhook, path, cookie, verify)
  }

  /** With the exemption the gateway's notification reaches the webhook route. */
  lemma WebhookReachesRoute(verify: string -> Verification)
    ensures GuardExemptingWebhook(WebhookPath, None, verify) == Next
  {
    assert "/api/webhooks" <= WebhookPath;
  }
}
