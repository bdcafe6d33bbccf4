/** The login screen (src/app/features/auth/login/login.component.ts):
    the return-URL logic of initialisation, the submit sequence (CSRF
    cookie first, then the login request with the credentials captured at
    submit time), and the choice of the error message.

    Navigations are kept as a log of the URLs navigated to, in order. The
    half-second delay before the post-login navigation is not modelled: the
    navigation is logged when the success answer arrives. */
module Login {
  import opened Common
  import opened Models
  import Auth

  const DefaultReturnUrl := "/dashboard"

  const DefaultErrorMessage := "Email ou mot de passe incorrect. Veuillez réessayer."

  /** The `error` field of a failed HTTP answer, when it is an object. */
  datatype ErrorBody = ErrorBody(message: Option<string>, error: Option<string>)

  /** The message shown after a failed login: the server's `message` if it
      is a non-empty string, else its `error` if so, else the default. */
  function ErrorMessage(body: Option<ErrorBody>): string
  {
    if body.Some? && TruthyStr(body.value.message) then body.value.message.value
    else if body.Some? && TruthyStr(body.value.error) then body.value.error.value
    else DefaultErrorMessage
  }

  /** The precedence, stated case by case: a non-empty `message` always
      wins; `error` is shown only when `message` is absent or empty; the
      user never sees an empty message. */
  lemma ErrorPrecedence(body: Option<ErrorBody>)
    ensures ErrorMessage(body) != ""
    ensures body.Some? && TruthyStr(body.value.message) ==> ErrorMessage(body) == body.value.message.value
    ensures ErrorMessage(body) == DefaultErrorMessage || (body.Some? && (Some(ErrorMessage(body)) == body.value.message || Some(ErrorMessage(body)) == body.value.error))
    ensures body.Some? && body.value.error.Some? && ErrorMessage(body) == body.value.error.value && ErrorMessage(body) != DefaultErrorMessage ==>
              !TruthyStr(body.value.message) || body.value.message == body.value.error
    ensures body.None? || (!TruthyStr(body.value.message) && !TruthyStr(body.value.error)) ==> ErrorMessage(body) == DefaultErrorMessage
  {
  }

  /** The credentials captured from the form at submit time. */
  datatype Credentials = Credentials(email: string, password: string)

  /** How the login request ended. */
  datatype LoginOutcome = Success(response: Auth.AuthResponse) | Failure(body: Option<ErrorBody>)

  /** The `errorMessage` variable of the error handler, reassigned step by
      step. */
  method ChooseErrorMessage(body: Option<ErrorBody>) returns (errorMessage: string)
    ensures errorMessage == ErrorMessage(body)
  {
    errorMessage := DefaultErrorMessage;
    if body.Some? && TruthyStr(body.value.message) {
      errorMessage := body.value.message.value;
    } else if body.Some? && TruthyStr(body.value.error) {
      errorMessage := body.value.error.value;
    }
  }

  class LoginComponent {
    var loading: bool
    var returnUrl: string
    var formBuilt: bool
    var touched: bool
    var email: string
    var password: string
    var navigations: seq<string>
    /** The CSRF-cookie requests issued, with the credentials each submit
        captured. */
    var csrfIssued: seq<Credentials>
    /** For each login request issued, the CSRF request whose answer
        triggered it. */
    var loginIssued: seq<nat>
    var lastError: Option<string>

    /** Every login request follows the answer of a distinct CSRF request
        issued before it. */
    ghost predicate Valid()
      reads this
    {
      (forall j :: 0 <= j < |loginIssued| ==> loginIssued[j] < |csrfIssued|) &&
      (forall i, j :: 0 <= i < j < |loginIssued| ==> loginIssued[i] != loginIssued[j])
    }

    constructor ()
      ensures Valid()
      ensures !loading && returnUrl == DefaultReturnUrl && !formBuilt && !touched
      ensures navigations == [] && csrfIssued == [] && loginIssued == [] && lastError.None?
      ensures email == "" && password == ""
    {
      loading := false;
      returnUrl := DefaultReturnUrl;
      formBuilt := false;
      touched := false;
      email := "";
      password := "";
      navigations := [];
      csrfIssued := [];
      loginIssued := [];
      lastError := None;
    }

    /** `ngOnInit`: an authenticated user is sent to the current return URL
        at once, before the query parameter is read and without a form;
        otherwise the form is built and the return URL is the query's
        `returnUrl` when non-empty, else the dashboard. */
    method NgOnInit(auth: Auth.AuthService, queryReturnUrl: Option<string>)
      modifies this`navigations, this`formBuilt, this`returnUrl
      ensures auth.IsAuthenticated() ==>
        navigations == old(navigations) + [old(returnUrl)] && formBuilt == old(formBuilt) && returnUrl == old(returnUrl)
      ensures !auth.IsAuthenticated() ==> navigations == old(navigations) && formBuilt
      ensures !auth.IsAuthenticated() ==> returnUrl == if TruthyStr(queryReturnUrl) then queryReturnUrl.value else DefaultReturnUrl
    {
      if auth.IsAuthenticated() {
        navigations := navigations + [returnUrl];
        return;
      }
      formBuilt := true;
      returnUrl := if TruthyStr(queryReturnUrl) then queryReturnUrl.value else DefaultReturnUrl;
    }

    /** `Validators.required` on both fields and `Validators.email` on the
        address; the email syntax check is Angular's and enters as
        `emailSyntaxOk`. */
    predicate FormValid(emailSyntaxOk: bool)
      reads this`email, this`password
    {
      email != "" && password != "" && emailSyntaxOk
    }

    /** `onSubmit`: an invalid form only marks its controls touched; a valid
        one turns the spinner on and asks for the CSRF cookie, capturing the
        credentials. No login request goes out here. */
    method OnSubmit(emailSyntaxOk: bool)
      requires Valid()
      modifies this`touched, this`loading, this`csrfIssued
      ensures Valid()
      ensures !FormValid(emailSyntaxOk) ==> touched && loading == old(loading) && csrfIssued == old(csrfIssued)
      ensures FormValid(emailSyntaxOk) ==> loading && csrfIssued == old(csrfIssued) + [Credentials(email, password)]
      ensures FormValid(emailSyntaxOk) ==> touched == old(touched)
    {
      if !FormValid(emailSyntaxOk) {
        touched := true;
        return;
      }
      loading := true;
      csrfIssued := csrfIssued + [Credentials(email, password)];
    }

    /** The CSRF cookie for request `k` arrives: the login request goes out
        with the credentials captured when `k` was issued. */
    method OnCsrfResponse(k: nat) returns (request: Credentials)
      requires Valid()
      requires k < |csrfIssued| && k !in loginIssued
      modifies this`loginIssued
      ensures Valid()
      ensures loginIssued == old(loginIssued) + [k]
      ensures request == csrfIssued[k]
    {
      loginIssued := loginIssued + [k];
      request := csrfIssued[k];
    }

    /** The login answer. On success the service's `tap` runs first; the
        welcome toast reads the user's names, so without a user it throws
        and no navigation is scheduled; with one, the screen goes to the
        return URL and the spinner stays on. On failure the spinner stops
        and the chosen message is shown. */
    method OnLoginOutcome(auth: Auth.AuthService, outcome: LoginOutcome)
      requires auth.Valid()
      modifies auth, this`navigations, this`loading, this`lastError
      ensures auth.Valid()
      ensures outcome.Success? ==> auth.State() == Auth.AfterLogin(old(auth.State()), outcome.response)
      ensures outcome.Success? ==> loading == old(loading) && lastError == old(lastError)
      ensures outcome.Success? && outcome.response.user.Some? ==> navigations == old(navigations) + [returnUrl]
      ensures outcome.Success? && outcome.response.user.None? ==> navigations == old(navigations)
      ensures outcome.Failure? ==> auth.State() == old(auth.State()) && navigations == old(navigations)
      ensures outcome.Failure? ==> !loading && lastError == Some(ErrorMessage(outcome.body))
    {
      if outcome.Success? {
        auth.Login(Ok(outcome.response));
        if outcome.response.user.Some? {
          navigations := navigations + [returnUrl];
        }
      } else {
        loading := false;
        var errorMessage := ChooseErrorMessage(outcome.body);
        lastError := Some(errorMessage);
      }
    }
  }

  /** The set of values of a list. */
  function Values(s: seq<nat>): (r: set<nat>)
    ensures forall x :: x in r <==> x in s
  {
    if s == [] then {} else {s[0]} + Values(s[1..])
  }

  /** The values of a list without repetition are as many as its length. */
  lemma {:induction false} DistinctValues(s: seq<nat>)
    requires forall i, j :: 0 <= i < j < |s| ==> s[i] != s[j]
    ensures |Values(s)| == |s|
  {
    if s != [] {
      var tail := s[1..];
      assert forall i, j :: 0 <= i < j < |tail| ==> tail[i] == s[i + 1] && tail[j] == s[j + 1];
      DistinctValues(tail);
      forall j | 0 <= j < |tail| ensures tail[j] != s[0] {
        assert tail[j] == s[j + 1];
      }
      assert s[0] !in Values(tail);
    }
  }

  /** The naturals below `n`, in order. */
  function Range(n: nat): (r: seq<nat>)
    ensures |r| == n
    ensures forall i :: 0 <= i < n ==> r[i] == i
  {
    seq(n, i requires 0 <= i < n => i)
  }

  /** Every login request answers a distinct CSRF request, so there are
      never more login requests than CSRF requests issued. */
  lemma LoginsBoundedByCsrf(c: LoginComponent)
    requires c.Valid()
    ensures |c.loginIssued| <= |c.csrfIssued|
  {
    var n := |c.csrfIssued|;
    DistinctValues(c.loginIssued);
    DistinctValues(Range(n));
    forall x | x in Values(c.loginIssued) ensures x in Values(Range(n)) {
      assert Range(n)[x] == x;
    }
    SubsetCard(Values(c.loginIssued), Values(Range(n)));
  }

  lemma {:induction false} SubsetCard(a: set<nat>, b: set<nat>)
    requires a <= b
    ensures |a| <= |b|
    decreases |b|
  {
    if a != {} {
      var x :| x in a;
      SubsetCard(a - {x}, b - {x});
    }
  }

  /** A client of the screen: an authenticated user opening the login page
      with a return URL still goes to the dashboard, and no form is built. */
  method AlreadyAuthenticatedScenario(auth: Auth.AuthService, q: string)
    requires auth.IsAuthenticated()
  {
    var c := new LoginComponent();
    c.NgOnInit(auth, Some(q));
    assert c.navigations == [DefaultReturnUrl] && !c.formBuilt;
  }
}
