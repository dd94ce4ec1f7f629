/**
 * The route table of the console (src/App.tsx): which element each path
 * renders, and what a visit to a path shows once the guard has run.
 */
module App {
  import opened Outcomes
  import opened Session
  import opened ProtectedRoute

  const MerchantsPath: string := "/merchants"
  const TransactionsPath: string := "/transactions"
  const RootPath: string := "/"

  const AdminRole: string := "ADMIN"
  const MerchantRole: string := "MERCHANT"

  /** The screens the router can mount. */
  datatype Screen = LoginScreen | MerchantManagementScreen | TransactionsScreen | UnauthorizedScreen

  /** The element a route renders. */
  datatype RouteElement =
    | Open(screen: Screen)                          // rendered as is
    | Guarded(roles: seq<string>, screen: Screen)   // wrapped in the access guard
    | NavigateTo(target: string)                    // an unconditional `<Navigate replace>`

  /** The `<Routes>` table; `None` for a path no route matches. */
  function RouteFor(path: string): (r: Option<RouteElement>)
    // exactly five paths are routed
    ensures r.Some? <==> path in {LoginPath, MerchantsPath, TransactionsPath, UnauthorizedPath, RootPath}
    // only the merchant and transaction screens are guarded, each by one role
    ensures r.Some? && r.value.Guarded? ==>
              (path == MerchantsPath && r.value.roles == [AdminRole]) ||
              (path == TransactionsPath && r.value.roles == [MerchantRole])
    // the only redirecting route sends "/" to the login screen
    ensures r.Some? && r.value.NavigateTo? <==> path == RootPath
    ensures r.Some? && r.value.NavigateTo? ==> r.value.target == LoginPath
    // what each routed path mounts
    ensures path == LoginPath ==> r == Some(Open(LoginScreen))
    ensures path == MerchantsPath ==> r == Some(Guarded([AdminRole], MerchantManagementScreen))
    ensures path == TransactionsPath ==> r == Some(Guarded([MerchantRole], TransactionsScreen))
    ensures path == UnauthorizedPath ==> r == Some(Open(UnauthorizedScreen))
    ensures path == RootPath ==> r == Some(NavigateTo(LoginPath))
  {
    if path == LoginPath then Some(Open(LoginScreen))
    else if path == MerchantsPath then Some(Guarded([AdminRole], MerchantManagementScreen))
    else if path == TransactionsPath then Some(Guarded([MerchantRole], TransactionsScreen))
    else if path == UnauthorizedPath then Some(Open(UnauthorizedScreen))
    else if path == RootPath then Some(NavigateTo(LoginPath))
    else None
  }

  /** What the browser shows after one render of `path`. */
  datatype View =
    | Shows(screen: Screen)
    | RedirectsTo(target: string)
    | RenderFails          // the guard's `jwtDecode` threw
    | ShowsNothing         // no route matched

  /** One render of `path`: the route's element, passed through the guard when it has one. */
  function Visit(path: string, items: map<string, string>, decode: JwtDecoder): (v: View)
    // open routes ignore the session entirely
    ensures path in {LoginPath, UnauthorizedPath} ==> v.Shows? && v.screen == RouteFor(path).value.screen
    // a guarded screen is shown exactly when the guard allows it
    ensures RouteFor(path).Some? && RouteFor(path).value.Guarded? ==>
              (v == Shows(RouteFor(path).value.screen) <==>
                 Authorize(items, RouteFor(path).value.roles, decode) == Allow)
  {
    match RouteFor(path)
    case None => ShowsNothing
    case Some(Open(screen)) => Shows(screen)
    case Some(NavigateTo(target)) => RedirectsTo(target)
    case Some(Guarded(roles, screen)) =>
      match Authorize(items, roles, decode)
      case Allow => Shows(screen)
      case Redirect(target) => RedirectsTo(target)
      case DecodeThrows => RenderFails
  }

  /** A stored token whose role claim is `role`. */
  predicate SignedInAs(items: map<string, string>, decode: JwtDecoder, role: string)
  {
    HasToken(items) && decode(items[TokenKey]) == Some(Claims(Some(role)))
  }

  /** An administrator sees the merchant screen and is turned away from the transaction screen. */
  lemma AdminScenario(items: map<string, string>, decode: JwtDecoder)
    requires SignedInAs(items, decode, AdminRole)
    ensures Visit(MerchantsPath, items, decode) == Shows(MerchantManagementScreen)
    ensures Visit(TransactionsPath, items, decode) == RedirectsTo(UnauthorizedPath)
  {
  }

  /** A merchant is the mirror image of an administrator. */
  lemma MerchantScenario(items: map<string, string>, decode: JwtDecoder)
    requires SignedInAs(items, decode, MerchantRole)
    ensures Visit(TransactionsPath, items, decode) == Shows(TransactionsScreen)
    ensures Visit(MerchantsPath, items, decode) == RedirectsTo(UnauthorizedPath)
  {
  }

  /** Without a usable token every guarded path, and "/", leads to the login screen. */
  lemma SignedOutLandsOnLogin(path: string, items: map<string, string>, decode: JwtDecoder)
    requires !HasToken(items)
    requires path in {MerchantsPath, TransactionsPath, RootPath}
    ensures Visit(path, items, decode) == RedirectsTo(LoginPath)
  {
  }

  /**
   * Redirects never chain: the target of any redirect is a route that
   * renders a screen whatever the session holds, so navigation settles
   * after at most one redirect.
   */
  lemma RedirectsSettle(path: string, items: map<string, string>, decode: JwtDecoder, later: map<string, string>)
    requires Visit(path, items, decode).RedirectsTo?
    ensures Visit(Visit(path, items, decode).target, later, decode).Shows?
  {
    var target := Visit(path, items, decode).target;
    assert target in {LoginPath, UnauthorizedPath};
  }
}
