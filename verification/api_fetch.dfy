/**
 * utils/apiFetch.ts: a `fetch` wrapper that, on an HTTP 401 (Unauthorized,
 * section 15.5.2 of RFC 9110), forgets the stored token and sends the browser
 * to the login page. The network call itself is the `settled` parameter.
 */
module ApiFetch {
  import opened Http
  import opened Session

  method ApiFetch(browser: BrowserState, settled: Exchange) returns (r: Exchange)
    modifies browser
    ensures r == settled
    ensures IsUnauthorized(settled) ==>
      browser.storage == old(browser.storage) - {TokenKey} && browser.location == LoginPath
    ensures !IsUnauthorized(settled) ==>
      browser.storage == old(browser.storage) && browser.location == old(browser.location)
  {
    if IsUnauthorized(settled) {
      browser.RemoveToken();
      browser.Navigate(LoginPath);
    }
    r := settled;
  }
}
