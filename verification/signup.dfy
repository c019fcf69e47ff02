/**
 * components/Signup.tsx: the field rules the form library checks before
 * submitting, the e-mail pattern `^[^\s@]+@[^\s@]+\.[^\s@]+$`, and what the
 * page shows once the register request settles.
 */
module Signup {
  import opened Wrappers
  import opened Http
  import opened Session
  import ApiFetch

  /** JavaScript's `\s`: the white-space and line-terminator characters. */
  predicate IsJsSpace(c: char) {
    || c == ' ' || c == '\t' || c == '\n' || c == '\U{B}' || c == '\U{C}' || c == '\r'
    || c == '\U{A0}' || c == '\U{1680}' || ('\U{2000}' <= c <= '\U{200A}')
    || c == '\U{2028}' || c == '\U{2029}' || c == '\U{202F}' || c == '\U{205F}'
    || c == '\U{3000}' || c == '\U{FEFF}'
  }

  /** The class `[^\s@]`. */
  predicate Plain(c: char) {
    c != '@' && !IsJsSpace(c)
  }

  /** Every character of s[a..b] is in `[^\s@]`. */
  predicate PlainRange(s: string, a: nat, b: nat)
    requires a <= b <= |s|
  {
    forall k :: a <= k < b ==> Plain(s[k])
  }

  /**
   * The strings the pattern matches: s = A + "@" + B + "." + C with A, B and C
   * non-empty runs of `[^\s@]` (B and C may themselves contain dots).
   */
  ghost predicate EmailShape(s: string) {
    exists i, j :: 0 < i && i + 1 < j && j + 1 < |s| && s[i] == '@' && s[j] == '.'
      && PlainRange(s, 0, i) && PlainRange(s, i + 1, j) && PlainRange(s, j + 1, |s|)
  }

  /** States of a left-to-right matcher for the pattern. */
  datatype Scan =
    | LocalStart  // nothing read
    | InLocal     // at least one character before '@'
    | DomainStart // just read '@'
    | InDomain    // at least one character after '@', no usable '.' yet
    | AfterDot    // read a '.' that has a character before it
    | InTld       // at least one character after that '.': accepting
    | Stuck       // no continuation can match

  function Step(st: Scan, c: char): Scan {
    match st
    case LocalStart => if Plain(c) then InLocal else Stuck
    case InLocal => if c == '@' then DomainStart else if Plain(c) then InLocal else Stuck
    case DomainStart => if Plain(c) then InDomain else Stuck
    case InDomain => if c == '.' then AfterDot else if Plain(c) then InDomain else Stuck
    case AfterDot => if Plain(c) then InTld else Stuck
    case InTld => if Plain(c) then InTld else Stuck
    case Stuck => Stuck
  }

  /** The state reached from `st` after reading s[p..]. */
  function Run(st: Scan, s: string, p: nat): Scan
    requires p <= |s|
    decreases |s| - p
  {
    if p == |s| then st else Run(Step(st, s[p]), s, p + 1)
  }

  /** `isValidEmail`. */
  predicate IsValidEmail(s: string) {
    Run(LocalStart, s, 0) == InTld
  }

  /** A '.' at position lo or later with at least one character after it. */
  ghost predicate DotBeforeEnd(s: string, lo: nat) {
    exists j :: lo <= j && j + 1 < |s| && s[j] == '.'
  }

  lemma {:induction false} RunStuck(s: string, p: nat)
    requires p <= |s|
    ensures Run(Stuck, s, p) == Stuck
    decreases |s| - p
  {
    if p < |s| {
      RunStuck(s, p + 1);
    }
  }

  lemma {:induction false} RunInTld(s: string, p: nat)
    requires p <= |s|
    ensures Run(InTld, s, p) == InTld <==> PlainRange(s, p, |s|)
    decreases |s| - p
  {
    if p < |s| {
      if Plain(s[p]) {
        RunInTld(s, p + 1);
      } else {
        RunStuck(s, p + 1);
      }
    }
  }

  lemma RunAfterDot(s: string, p: nat)
    requires p <= |s|
    ensures Run(AfterDot, s, p) == InTld <==> p < |s| && PlainRange(s, p, |s|)
  {
    if p < |s| {
      if Plain(s[p]) {
        RunInTld(s, p + 1);
      } else {
        RunStuck(s, p + 1);
      }
    }
  }

  lemma {:induction false} RunInDomain(s: string, p: nat)
    requires p <= |s|
    ensures Run(InDomain, s, p) == InTld <==> PlainRange(s, p, |s|) && DotBeforeEnd(s, p)
    decreases |s| - p
  {
    if p == |s| {
      return;
    }
    if !Plain(s[p]) {
      RunStuck(s, p + 1);
    } else if s[p] == '.' {
      RunAfterDot(s, p + 1);
      if p + 1 < |s| {
        assert DotBeforeEnd(s, p) by { assert s[p] == '.'; }
      }
    } else {
      RunInDomain(s, p + 1);
      if DotBeforeEnd(s, p) {
        var j :| p <= j && j + 1 < |s| && s[j] == '.';
        assert DotBeforeEnd(s, p + 1) by { assert j != p; }
      }
    }
  }

  lemma RunDomainStart(s: string, p: nat)
    requires p <= |s|
    ensures Run(DomainStart, s, p) == InTld <==> PlainRange(s, p, |s|) && DotBeforeEnd(s, p + 1)
  {
    if p == |s| {
      return;
    }
    if !Plain(s[p]) {
      RunStuck(s, p + 1);
    } else {
      RunInDomain(s, p + 1);
    }
  }

  /** An '@' at position lo or later ends a plain local part begun at p and is followed by a domain. */
  ghost predicate LocalThenDomain(s: string, p: nat, lo: nat)
    requires p <= |s|
  {
    exists i :: lo <= i < |s| && p <= i && s[i] == '@'
      && PlainRange(s, p, i) && PlainRange(s, i + 1, |s|) && DotBeforeEnd(s, i + 2)
  }

  lemma {:induction false} RunInLocal(s: string, p: nat)
    requires p <= |s|
    ensures Run(InLocal, s, p) == InTld <==> LocalThenDomain(s, p, p)
    decreases |s| - p
  {
    if p == |s| {
      return;
    }
    if s[p] == '@' {
      RunDomainStart(s, p + 1);
      if PlainRange(s, p + 1, |s|) && DotBeforeEnd(s, p + 2) {
        assert LocalThenDomain(s, p, p) by { assert PlainRange(s, p, p); }
      }
    } else if !Plain(s[p]) {
      RunStuck(s, p + 1);
    } else {
      RunInLocal(s, p + 1);
      if LocalThenDomain(s, p, p) {
        var i :| p <= i < |s| && s[i] == '@' && PlainRange(s, p, i) && PlainRange(s, i + 1, |s|) && DotBeforeEnd(s, i + 2);
        assert i > p;
        assert LocalThenDomain(s, p + 1, p + 1);
      }
      if LocalThenDomain(s, p + 1, p + 1) {
        var i :| p + 1 <= i < |s| && s[i] == '@' && PlainRange(s, p + 1, i) && PlainRange(s, i + 1, |s|) && DotBeforeEnd(s, i + 2);
        assert LocalThenDomain(s, p, p);
      }
    }
  }

  /** The matcher accepts exactly the strings of the pattern's shape. */
  lemma IsValidEmailMatchesShape(s: string)
    ensures IsValidEmail(s) <==> EmailShape(s)
  {
    if s == [] {
      return;
    }
    if !Plain(s[0]) {
      RunStuck(s, 1);
      return;
    }
    RunInLocal(s, 1);
    if LocalThenDomain(s, 1, 1) {
      var i :| 1 <= i < |s| && s[i] == '@' && PlainRange(s, 1, i) && PlainRange(s, i + 1, |s|) && DotBeforeEnd(s, i + 2);
      var j :| i + 2 <= j && j + 1 < |s| && s[j] == '.';
      assert PlainRange(s, 0, i);
      assert PlainRange(s, i + 1, j);
      assert PlainRange(s, j + 1, |s|);
      assert EmailShape(s);
    }
    if EmailShape(s) {
      var i, j :| 0 < i && i + 1 < j && j + 1 < |s| && s[i] == '@' && s[j] == '.'
        && PlainRange(s, 0, i) && PlainRange(s, i + 1, j) && PlainRange(s, j + 1, |s|);
      assert DotBeforeEnd(s, i + 2);
      assert PlainRange(s, i + 1, |s|) by {
        forall k | i + 1 <= k < |s|
          ensures Plain(s[k])
        {
          if k == j {
            assert s[k] == '.';
          }
        }
      }
      assert LocalThenDomain(s, 1, 1);
    }
  }

  // ---------------------------------------------------------------------
  // The form and its field rules.

  datatype SignupForm = SignupForm(username: string, email: string, password: string, confirmPassword: string)

  /** The form's `defaultValues`, which `reset()` restores. */
  const EmptySignup := SignupForm("", "", "", "")

  datatype SignupField = Username | Email | Password | ConfirmPassword

  /** The message shown under each field, if any. */
  datatype FieldErrors = FieldErrors(
    username: Option<string>, email: Option<string>, password: Option<string>, confirmPassword: Option<string>)
  {
    predicate None() {
      username.None? && email.None? && password.None? && confirmPassword.None?
    }
  }

  const NoFieldErrors := FieldErrors(Option.None, Option.None, Option.None, Option.None)

  /** `required: 'Username is required'`. */
  function UsernameError(v: string): (r: Option<string>)
    ensures r.None? <==> v != ""
    ensures r.Some? ==> r.value == "Username is required"
  {
    if v == "" then Some("Username is required") else Option.None
  }

  /** `required`, then the `isValidEmail` check. */
  function EmailError(v: string): (r: Option<string>)
    ensures r.None? <==> EmailShape(v)
    ensures r == Some("Email is required") <==> v == ""
    ensures r.Some? && v != "" ==> r.value == "Email is invalid"
  {
    IsValidEmailMatchesShape(v);
    if v == "" then Some("Email is required")
    else if !IsValidEmail(v) then Some("Email is invalid")
    else Option.None
  }

  /** `required`, then `minLength: 8` (which the form library skips on an empty value). */
  function PasswordError(v: string): (r: Option<string>)
    ensures r.None? <==> |v| >= 8
    ensures r == Some("Password is required") <==> v == ""
    ensures r.Some? && v != "" ==> r.value == "Password must be at least 8 characters"
  {
    if v == "" then Some("Password is required")
    else if |v| < 8 then Some("Password must be at least 8 characters")
    else Option.None
  }

  /** `required`, then equality with the watched password value. */
  function ConfirmError(v: string, password: string): (r: Option<string>)
    ensures r.None? <==> v != "" && v == password
    ensures r == Some("Please confirm your password") <==> v == ""
    ensures r.Some? && v != "" ==> r.value == "Passwords do not match"
  {
    if v == "" then Some("Please confirm your password")
    else if v != password then Some("Passwords do not match")
    else Option.None
  }

  /** Every rule checked on submit; the request is sent only when none fails. */
  function Validate(f: SignupForm): (e: FieldErrors)
    ensures e.None() <==>
      f.username != "" && EmailShape(f.email) && |f.password| >= 8 && f.confirmPassword == f.password
    ensures e.username == UsernameError(f.username) && e.email == EmailError(f.email)
    ensures e.password == PasswordError(f.password) && e.confirmPassword == ConfirmError(f.confirmPassword, f.password)
  {
    FieldErrors(UsernameError(f.username), EmailError(f.email), PasswordError(f.password),
                ConfirmError(f.confirmPassword, f.password))
  }

  /** Submitting the untouched form shows a "required" message under all four fields. */
  lemma EmptyFormShowsFourErrors()
    ensures Validate(EmptySignup) == FieldErrors(Some("Username is required"), Some("Email is required"),
                                                 Some("Password is required"), Some("Please confirm your password"))
  {
  }

  /** The text shown above the button when the register request did not succeed. */
  function SignupErrorText(e: Exchange): (r: string)
    requires !(e.Answered? && e.response.Ok())
    ensures r != ""
    ensures e.Answered? && e.response.body.Json? ==>
      r == if e.response.body.message != "" then e.response.body.message else "Signup failed"
    ensures e.NetworkError? || e.response.body.Malformed? ==> r == "Network error"
  {
    match e
    case NetworkError => "Network error"
    case Answered(res) =>
      match res.body
      case Malformed => "Network error"
      case Json(message, _) => if message != "" then message else "Signup failed"
  }

  /** `type` of a password input under the show/hide toggle. */
  function InputType(show: bool): (t: string)
    ensures t == if show then "text" else "password"
    ensures t == "text" <==> show
  {
    if show then "text" else "password"
  }

  /** The state of the signup page. */
  class SignupPage {
    var form: SignupForm
    var errors: FieldErrors
    var success: bool
    var apiError: Option<string>
    var showPassword: bool
    var showConfirmPassword: bool

    constructor ()
      ensures form == EmptySignup && errors == NoFieldErrors && !success && apiError.None?
      ensures !showPassword && !showConfirmPassword
    {
      form := EmptySignup;
      errors := NoFieldErrors;
      success := false;
      apiError := Option.None;
      showPassword := false;
      showConfirmPassword := false;
    }

    /** Typing into one input changes that value only. */
    method Input(field: SignupField, value: string)
      modifies this`form
      ensures form == match field
        case Username => old(form).(username := value)
        case Email => old(form).(email := value)
        case Password => old(form).(password := value)
        case ConfirmPassword => old(form).(confirmPassword := value)
    {
      match field
      case Username => form := form.(username := value);
      case Email => form := form.(email := value);
      case Password => form := form.(password := value);
      case ConfirmPassword => form := form.(confirmPassword := value);
    }

    method TogglePassword()
      modifies this`showPassword
      ensures showPassword == !old(showPassword)
    {
      showPassword := !showPassword;
    }

    method ToggleConfirmPassword()
      modifies this`showConfirmPassword
      ensures showConfirmPassword == !old(showConfirmPassword)
    {
      showConfirmPassword := !showConfirmPassword;
    }

    /**
     * `handleSubmit(onSubmit)`. An invalid form only shows its errors. A valid
     * one is posted to /register as it stands (`sent`); `settled` is how that
     * request ended. Success shows the banner and resets the form; a failure
     * shows the server's message or a fallback.
     */
    method Submit(browser: BrowserState, settled: Exchange) returns (sent: Option<SignupForm>)
      modifies this, browser
      ensures errors == Validate(old(form))
      ensures sent.Some? <==> errors.None()
      ensures sent.Some? ==> sent.value == old(form)
      ensures showPassword == old(showPassword) && showConfirmPassword == old(showConfirmPassword)
      ensures sent.None? ==>
        form == old(form) && success == old(success) && apiError == old(apiError)
        && browser.storage == old(browser.storage) && browser.location == old(browser.location)
      ensures sent.Some? && settled.Answered? && settled.response.Ok() ==>
        success && form == EmptySignup && apiError.None?
      ensures sent.Some? && !(settled.Answered? && settled.response.Ok()) ==>
        form == old(form) && success == old(success) && apiError == Some(SignupErrorText(settled))
      ensures sent.Some? && IsUnauthorized(settled) ==>
        browser.storage == old(browser.storage) - {TokenKey} && browser.location == LoginPath
      ensures !(sent.Some? && IsUnauthorized(settled)) ==>
        browser.storage == old(browser.storage) && browser.location == old(browser.location)
    {
      errors := Validate(form);
      if !errors.None() {
        sent := Option.None;
        return;
      }
      sent := Some(form);
      apiError := Option.None;
      var r := ApiFetch.ApiFetch(browser, settled);
      if r.Answered? && r.response.Ok() {
        success := true;
        form := EmptySignup;
      } else {
        apiError := Some(SignupErrorText(r));
      }
    }
  }
}
