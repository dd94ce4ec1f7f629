/**
 * The access guard that wraps every role-restricted screen
 * (src/components/ProtectedRoute.tsx).
 */
module ProtectedRoute {
  import opened Outcomes
  import opened Session

  /** The screen paths the guard redirects to. */
  const LoginPath: string := "/login"
  const UnauthorizedPath: string := "/unauthorized"

  /**
   * What the guard renders: its children, a redirect, or nothing at all
   * because `jwtDecode` threw while rendering (the component has no
   * `try`, so a malformed token is NOT treated like a missing one).
   */
  datatype Decision = Allow | Redirect(to: string) | DecodeThrows

  /**
   * The guard's decision for a screen that admits `roles`, given the
   * current storage contents.  It is a function of the stored items, so
   * running it can neither write nor clear the token.
   */
  function Authorize(items: map<string, string>, roles: seq<string>, decode: JwtDecoder): (d: Decision)
    // no usable token: to the login screen, whatever the roles are
    ensures !HasToken(items) <==> d == Redirect(LoginPath)
    // the login check comes first: without a token there is no other outcome
    ensures !HasToken(items) ==> d != Redirect(UnauthorizedPath) && d != Allow
    // a token the decoder rejects makes rendering fail
    ensures d == DecodeThrows <==> HasToken(items) && decode(items[TokenKey]).None?
    // a decoded role claim that is among the admitted roles lets the children through
    ensures d == Allow <==>
              HasToken(items) && decode(items[TokenKey]).Some? &&
              RoleAdmitted(decode(items[TokenKey]).value.role, roles)
    // a decoded token whose role claim is absent or not admitted is refused
    ensures d == Redirect(UnauthorizedPath) <==>
              HasToken(items) && decode(items[TokenKey]).Some? &&
              !RoleAdmitted(decode(items[TokenKey]).value.role, roles)
  {
    if !HasToken(items) then
      Redirect(LoginPath)
    else
      var payload := decode(items[TokenKey]);
      if payload.None? then
        DecodeThrows
      else if !RoleAdmitted(payload.value.role, roles) then
        Redirect(UnauthorizedPath)
      else
        Allow
  }

  /**
   * `roles.includes(userRole)`: an `undefined` (or non-string) claim never
   * equals an element of a list of strings.
   */
  predicate RoleAdmitted(role: Option<string>, roles: seq<string>)
  {
    role.Some? && role.value in roles
  }

  /** A missing role claim is refused by every role list, the empty one included. */
  lemma MissingRoleIsUnauthorized(items: map<string, string>, roles: seq<string>, decode: JwtDecoder)
    requires HasToken(items)
    requires decode(items[TokenKey]) == Some(Claims(None))
    ensures Authorize(items, roles, decode) == Redirect(UnauthorizedPath)
  {
  }

  /** An empty role list lets nobody through: every outcome is a redirect or a failure. */
  lemma EmptyRoleListNeverAllows(items: map<string, string>, decode: JwtDecoder)
    ensures Authorize(items, [], decode) != Allow
  {
  }

  /**
   * Widening the admitted roles can only turn a refusal into an admission:
   * the guard never lets a role through a list and then refuses it on a
   * longer list.
   */
  lemma AdmissionIsMonotone(items: map<string, string>, roles: seq<string>, more: seq<string>, decode: JwtDecoder)
    requires Authorize(items, roles, decode) == Allow
    ensures Authorize(items, roles + more, decode) == Allow
  {
  }
}
