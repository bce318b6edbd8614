/**
 * The browser side of authentication: the token kept in local storage (a
 * map from keys to strings), its checks, `logout` and the rule of the 401
 * response interceptor. A page change is the browser's location.
 */
module ClientAuth {
  import opened Wrappers
  import opened Strings

  type Storage = map<string, string>

  /** Local storage and the current location. */
  datatype Browser = Browser(storage: Storage, location: string)

  const TokenKey: string := "token"

  /** The keys `logout` removes. */
  const SessionKeys: set<string> := {"token", "user", "userData"}

  /** `localStorage.getItem(key)`. */
  function GetItem(storage: Storage, key: string): Option<string> {
    if key in storage then Some(storage[key]) else None
  }

  /** The stored token, absent when the key is missing. */
  function Token(b: Browser): Option<string> {
    GetItem(b.storage, TokenKey)
  }

  /** `isAuthenticated`: a stored token that is not blank and is not one of
      the strings a stringified `null` or `undefined` leaves behind. */
  function IsAuthenticated(b: Browser): (ok: bool)
    ensures ok <==> Token(b).Some? && !AllWhitespace(Token(b).value) && Token(b).value !in {"null", "undefined"}
  {
    var t := Token(b);
    t.Some? && Trim(t.value) != "" && t.value != "null" && t.value != "undefined"
  }

  /** `isValidToken`: a non-empty string with three `.`-separated parts. */
  function IsValidToken(token: Option<string>): (ok: bool)
    ensures ok <==> Present(token) && Count(token.value, '.') == 2
  {
    Present(token) && |Split(token.value, '.')| == 3
  }

  /** `logout`: the session keys are removed and the page goes to "/". */
  function Logout(b: Browser): (r: Browser)
    ensures forall k :: k in SessionKeys ==> k !in r.storage
    ensures forall k :: k !in SessionKeys ==> GetItem(r.storage, k) == GetItem(b.storage, k)
    ensures r.location == "/"
  {
    Browser(b.storage - SessionKeys, "/")
  }

  /** `logout` twice is `logout` once. */
  lemma LogoutIdempotent(b: Browser)
    ensures Logout(Logout(b)) == Logout(b)
  {
    assert Logout(b).storage - SessionKeys == Logout(b).storage;
  }

  /** `isValidAuthenticated`: whether the session is usable, and the browser
      afterwards; a present but malformed token logs the user out. */
  function IsValidAuthenticated(b: Browser): (r: (bool, Browser))
    ensures r.0 <==> IsAuthenticated(b) && IsValidToken(Token(b))
    ensures IsAuthenticated(b) && !IsValidToken(Token(b)) ==> r.1 == Logout(b)
    ensures !(IsAuthenticated(b) && !IsValidToken(Token(b))) ==> r.1 == b
  {
    if !IsAuthenticated(b) then (false, b)
    else if !IsValidToken(Token(b)) then (false, Logout(b))
    else (true, b)
  }

  /** Asking again gives the same answer and changes nothing more: after a
      logout there is no token left to reject. */
  lemma ValidAuthenticatedStable(b: Browser)
    ensures var (ok, b1) := IsValidAuthenticated(b);
      IsValidAuthenticated(b1) == (ok, b1)
  {
    var (ok, b1) := IsValidAuthenticated(b);
    if b1 != b {
      assert TokenKey in SessionKeys;
      assert Token(b1).None?;
    }
  }

  /** A failed HTTP response as the interceptor sees it. */
  datatype HttpError = HttpError(status: Option<int>)

  datatype Intercepted = Intercepted(browser: Browser, rejection: HttpError)

  /** The response-error interceptor: a 401 logs out; every error is passed
      on to the caller as a rejection. */
  function OnResponseError(b: Browser, e: HttpError): (r: Intercepted)
    ensures r.rejection == e
    ensures e.status == Some(401) ==> r.browser == Logout(b)
    ensures e.status != Some(401) ==> r.browser == b
  {
    if e.status == Some(401) then Intercepted(Logout(b), e) else Intercepted(b, e)
  }

  /** After a 401 the session is over: no token is left, so the user is no
      longer authenticated and is on the home page. */
  lemma UnauthorizedEndsSession(b: Browser, e: HttpError)
    requires e.status == Some(401)
    ensures var r := OnResponseError(b, e).browser;
      !IsAuthenticated(r) && !IsValidAuthenticated(r).0 && r.location == "/"
  {
    assert TokenKey in SessionKeys;
  }
}
