/** The navigation bar's logout handler (src/components/Navbar.tsx). */
module Navbar {
  import opened Outcomes
  import opened Session
  import opened ProtectedRoute
  import opened App

  /** The storage after a logout: the token is gone and nothing else is touched. */
  function SignedOut(items: map<string, string>): (r: map<string, string>)
    ensures TokenKey !in r && !HasToken(r)
    ensures forall k :: k != TokenKey ==> GetItem(r, k) == GetItem(items, k)
  {
    items - {TokenKey}
  }

  /** `handleLogout`: removes the token and navigates to the login screen. */
  method HandleLogout(storage: LocalStorage) returns (nav: string)
    modifies storage
    ensures storage.items == SignedOut(old(storage.items))
    ensures nav == LoginPath
  {
    storage.RemoveItem(TokenKey);
    nav := LoginPath;
  }

  /** Logging out twice leaves the same storage as logging out once. */
  lemma LogoutIsIdempotent(items: map<string, string>)
    ensures SignedOut(SignedOut(items)) == SignedOut(items)
  {
  }

  /** The merchant record that the transaction screen reads survives a logout. */
  lemma LogoutKeepsMerchantRecord(items: map<string, string>)
    ensures GetItem(SignedOut(items), MerchantKey) == GetItem(items, MerchantKey)
  {
  }

  /** After a logout every guarded screen, and "/", leads to the login screen. */
  lemma LoggedOutLandsOnLogin(items: map<string, string>, decode: JwtDecoder, path: string)
    requires path in {MerchantsPath, TransactionsPath, RootPath}
    ensures Visit(path, SignedOut(items), decode) == RedirectsTo(LoginPath)
  {
    SignedOutLandsOnLogin(path, SignedOut(items), decode);
  }
}
