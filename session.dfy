/**
 * The browser's `localStorage` as the console uses it, and the claims the
 * `jwt-decode` library reads out of a bearer token.
 */
module Session {
  import opened Outcomes

  /** The storage key under which the login flow keeps the bearer token. */
  const TokenKey: string := "token"

  /** The storage key of the merchant record the transactions screen reads. */
  const MerchantKey: string := "merchant"

  /**
   * The claims of a decoded token.  `role` is `None` when the payload has no
   * `role` entry or when it is not a string: neither can equal a string.
   */
  datatype Claims = Claims(role: Option<string>)

  /**
   * `jwtDecode`: a decoder that either yields the token's claims or throws
   * (`None`).  The library is foreign code, so every member that decodes a
   * token takes the decoder as a parameter.
   */
  type JwtDecoder = string -> Option<Claims>

  /**
   * The value `localStorage.getItem(key)` yields: the stored string, or
   * `None` for JavaScript's `null`.
   */
  function GetItem(items: map<string, string>, key: string): (r: Option<string>)
    ensures r.Some? <==> key in items
    ensures r.Some? ==> r.value == items[key]
  {
    if key in items then Some(items[key]) else None
  }

  /**
   * Whether the stored token passes the guard's `!token` test: `null` and the
   * empty string are both falsy in JavaScript, so both count as "no token".
   */
  predicate HasToken(items: map<string, string>)
  {
    TokenKey in items && items[TokenKey] != ""
  }

  /** The single `localStorage` object shared by every view of the console. */
  class LocalStorage {
    var items: map<string, string>

    constructor (initial: map<string, string>)
      ensures items == initial
    {
      items := initial;
    }

    /** `localStorage.setItem(key, value)`. */
    method SetItem(key: string, value: string)
      modifies this
      ensures items == old(items)[key := value]
    {
      items := items[key := value];
    }

    /** `localStorage.removeItem(key)`: a missing key is not an error. */
    method RemoveItem(key: string)
      modifies this
      ensures items == old(items) - {key}
    {
      items := items - {key};
    }
  }
}
