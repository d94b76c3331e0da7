/**
 * The sign-in page: email and password checks, then a POST to `/auth/login` with the
 * email as `username`. On success the token and the flag `isAuthenticated` are written
 * to local storage and the page moves to `/home`; on failure a general message is shown.
 * The token is stored as `String(token)`, so a reply without one stores "undefined" and
 * a `null` token stores "null".
 *
 * The failure path merges the general message into the error map the page was rendered
 * with when the button was clicked, not into the empty map validation has just produced,
 * so entries from before the click (blanked field messages, an earlier general message)
 * are kept.
 */
module Login {
  import opened JsValues
  import opened Api
  import opened FormRules

  /** `validateForm`'s new error map. */
  function ValidateForm(email: string, password: string): (errors: map<string, string>)
    ensures errors.Keys <= {"email", "password"}
    ensures "email" in errors <==> email == "" || !PatternOccurs(email)
    ensures "password" in errors <==> Utf16Length(password) < 6
    ensures forall k :: k in errors ==> errors[k] != ""
  {
    Put(Put(map[], "email", EmailError(email)), "password", PasswordError(password))
  }

  /** The form is accepted exactly when the email matches the pattern and the password has at least six code units. */
  lemma ValidIff(email: string, password: string)
    ensures |ValidateForm(email, password)| == 0 <==>
      email != "" && PatternOccurs(email) && Utf16Length(password) >= 6
  {
    var errors := ValidateForm(email, password);
    if |errors| == 0 {
      assert "email" !in errors && "password" !in errors;
    }
    if "email" !in errors && "password" !in errors {
      assert errors.Keys == {};
    }
  }

  /** The body of the sign-in request. */
  datatype Credentials = Credentials(username: string, password: string)

  /** `response.data` of a successful sign-in; `token` may be missing or `null`. */
  datatype LoginReply = LoginReply(token: JsonString)

  /** The general message: the first `non_field_errors` entry when it is non-empty, otherwise the fallback. */
  function GeneralError(e: ApiError): (m: string)
    ensures m != ""
    ensures (e.body.Some? && e.body.value.nonFieldErrors.Some? && |e.body.value.nonFieldErrors.value| > 0
             && e.body.value.nonFieldErrors.value[0] != "") ==> m == e.body.value.nonFieldErrors.value[0]
    ensures (e.body.None? || e.body.value.nonFieldErrors.None? || |e.body.value.nonFieldErrors.value| == 0
             || e.body.value.nonFieldErrors.value[0] == "") ==> m == "Failed to login. Please try again."
  {
    var first :=
      if e.body.Some? && e.body.value.nonFieldErrors.Some? && |e.body.value.nonFieldErrors.value| > 0
      then Some(e.body.value.nonFieldErrors.value[0]) else None;
    OrElse(first, "Failed to login. Please try again.")
  }

  class LoginForm {
    var email: string
    var password: string
    var errors: map<string, string>
    var isLoading: bool
    /** `localStorage`. */
    var storage: map<string, string>
    /** The route navigated to, if any. */
    var location: Option<string>

    constructor (storage: map<string, string>)
      ensures this.storage == storage
      ensures email == "" && password == "" && errors == map[] && !isLoading && location == None
    {
      email, password := "", "";
      errors := map[];
      isLoading := false;
      this.storage := storage;
      location := None;
    }

    method EditEmail(value: string)
      modifies this
      ensures email == value && errors == ClearError(old(errors), "email")
      ensures password == old(password) && storage == old(storage)
      ensures isLoading == old(isLoading) && location == old(location)
    {
      email := value;
      errors := ClearError(errors, "email");
    }

    method EditPassword(value: string)
      modifies this
      ensures password == value && errors == ClearError(old(errors), "password")
      ensures email == old(email) && storage == old(storage)
      ensures isLoading == old(isLoading) && location == old(location)
    {
      password := value;
      errors := ClearError(errors, "password");
    }

    /**
     * `handleLogin`, with `reply` the server's answer to the request. An invalid form
     * sends nothing and shows its errors. A valid one sends the credentials; success
     * stores the token and the flag and moves to `/home`, failure adds the general
     * message to the errors showing at the click and leaves storage alone.
     */
    method HandleLogin(reply: Outcome<LoginReply>) returns (sent: Option<Credentials>)
      modifies this
      ensures email == old(email) && password == old(password)
      ensures var checked := ValidateForm(old(email), old(password));
        if |checked| != 0 then
          && sent.None? && errors == checked
          && storage == old(storage) && location == old(location) && isLoading == old(isLoading)
        else
          && sent == Some(Credentials(email, password))
          && !isLoading
          && match reply
             case Succeeded(r) =>
               && storage == old(storage)["token" := StringOf(r.token)]["isAuthenticated" := "true"]
               && location == Some("/home") && errors == checked
             case Failed(e) =>
               && errors == old(errors)["general" := GeneralError(e)]
               && storage == old(storage) && location == old(location)
    {
      var rendered := errors;
      var checked := ValidateForm(email, password);
      errors := checked;
      if |checked| != 0 {
        return None;
      }
      isLoading := true;
      sent := Some(Credentials(email, password));
      match reply {
        case Succeeded(r) =>
          storage := storage["token" := StringOf(r.token)];
          storage := storage["isAuthenticated" := "true"];
          location := Some("/home");
        case Failed(e) =>
          errors := rendered["general" := GeneralError(e)];
      }
      isLoading := false;
    }
  }
}
