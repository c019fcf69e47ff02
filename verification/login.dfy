/**
 * components/Login.tsx: how the login page reads the answer to its POST to
 * /login. It uses plain `fetch`, so a 401 here does not go through the
 * apiFetch handling.
 */
module Login {
  import opened Http
  import opened Session
  import opened Wrappers

  /** What the page makes of a settled request. */
  datatype Decision = LoggedIn(token: string) | Failed(message: string)

  function Decide(e: Exchange): (d: Decision)
    ensures d.LoggedIn? <==>
      e.Answered? && e.response.status == 200 && e.response.body.Json? && e.response.body.accessToken != ""
    ensures d.LoggedIn? ==> d.token == e.response.body.accessToken
    ensures d == Failed("Invalid credentials") <==>
      e.Answered? && (e.response.status == 401
        || (e.response.status == 200 && e.response.body.Json? && e.response.body.accessToken == ""))
    ensures d.Failed? ==> d.message == "Invalid credentials" || d.message == "Network error"
  {
    match e
    case NetworkError => Failed("Network error")
    case Answered(res) =>
      if res.status == 200 then
        match res.body
        case Malformed => Failed("Network error")
        case Json(_, token) => if token != "" then LoggedIn(token) else Failed("Invalid credentials")
      else if res.status == 401 then Failed("Invalid credentials")
      else Failed("Network error")
  }

  /** Only a 200 answer can log the user in; a 5xx or a 201 is reported as a network error. */
  lemma OnlyOkLogsIn(e: Exchange)
    requires e.Answered? && e.response.status != 200 && e.response.status != 401
    ensures Decide(e) == Failed("Network error")
  {
  }

  /** The state of the login page; `authed` is the flag of hooks/useAuth.ts it sets. */
  class LoginPage {
    var error: Option<string>
    var success: bool
    var authed: bool

    constructor (browser: BrowserState)
      ensures error.None? && !success && authed == browser.IsAuthenticated()
    {
      error := None;
      success := false;
      authed := browser.IsAuthenticated();
    }

    /**
     * `onSubmit`: clears the previous outcome, then either stores the token,
     * marks the session authenticated and goes to /tasks, or shows a message.
     */
    method Submit(browser: BrowserState, settled: Exchange)
      modifies this, browser
      ensures Decide(settled).LoggedIn? ==>
        browser.storage == old(browser.storage)[TokenKey := Decide(settled).token]
        && browser.IsAuthenticated() && browser.location == TasksPath
        && success && authed && error.None?
      ensures Decide(settled).Failed? ==>
        browser.storage == old(browser.storage) && browser.location == old(browser.location)
        && !success && authed == old(authed) && error == Some(Decide(settled).message)
    {
      error := None;
      success := false;
      match Decide(settled)
      case LoggedIn(token) =>
        browser.StoreToken(token);
        success := true;
        authed := true;
        browser.Navigate(TasksPath);
      case Failed(message) =>
        error := Some(message);
    }
  }
}
