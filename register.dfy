/**
 * The sign-up page: email, password and confirmation fields, validation on submit, and a
 * simulated registration that ends on the verification page. The two-second pause is
 * not modelled; the handler's end state is.
 */
module Register {
  import opened JsValues
  import opened FormRules

  /** The confirmation check: required, then equal to the password. */
  function ConfirmError(confirmPassword: string, password: string): (r: Option<string>)
    ensures r.None? <==> confirmPassword != "" && confirmPassword == password
    ensures confirmPassword == "" ==> r == Some("Please confirm your password")
    ensures confirmPassword != "" && confirmPassword != password ==> r == Some("Passwords do not match")
  {
    if confirmPassword == "" then Some("Please confirm your password")
    else if confirmPassword != password then Some("Passwords do not match")
    else None
  }

  /** `validateForm`'s new error map. */
  function ValidateForm(email: string, password: string, confirmPassword: string): (errors: map<string, string>)
    ensures errors.Keys <= {"email", "password", "confirmPassword"}
    ensures "email" in errors <==> email == "" || !PatternOccurs(email)
    ensures "password" in errors <==> Utf16Length(password) < 6
    ensures "confirmPassword" in errors <==> confirmPassword == "" || confirmPassword != password
    ensures forall k :: k in errors ==> errors[k] != ""
  {
    Put(Put(Put(map[], "email", EmailError(email)), "password", PasswordError(password)),
        "confirmPassword", ConfirmError(confirmPassword, password))
  }

  /**
   * The form is accepted exactly when the email matches the pattern, the password has at
   * least six code units and the confirmation repeats it.
   */
  lemma ValidIff(email: string, password: string, confirmPassword: string)
    ensures |ValidateForm(email, password, confirmPassword)| == 0 <==>
      email != "" && PatternOccurs(email) && Utf16Length(password) >= 6 && confirmPassword == password
  {
    var errors := ValidateForm(email, password, confirmPassword);
    if |errors| == 0 {
      assert "email" !in errors && "password" !in errors && "confirmPassword" !in errors;
    }
    if Utf16Length(password) >= 6 {
      assert password != "";
    }
    if "email" !in errors && "password" !in errors && "confirmPassword" !in errors {
      assert errors.Keys == {};
    }
  }

  class RegisterForm {
    var email: string
    var password: string
    var confirmPassword: string
    var errors: map<string, string>
    var isLoading: bool
    /** The route navigated to, if any. */
    var location: Option<string>

    constructor ()
      ensures email == "" && password == "" && confirmPassword == ""
      ensures errors == map[] && !isLoading && location == None
    {
      email, password, confirmPassword := "", "", "";
      errors := map[];
      isLoading := false;
      location := None;
    }

    method EditEmail(value: string)
      modifies this
      ensures email == value && errors == ClearError(old(errors), "email")
      ensures password == old(password) && confirmPassword == old(confirmPassword)
      ensures isLoading == old(isLoading) && location == old(location)
    {
      email := value;
      errors := ClearError(errors, "email");
    }

    method EditPassword(value: string)
      modifies this
      ensures password == value && errors == ClearError(old(errors), "password")
      ensures email == old(email) && confirmPassword == old(confirmPassword)
      ensures isLoading == old(isLoading) && location == old(location)
    {
      password := value;
      errors := ClearError(errors, "password");
    }

    method EditConfirmPassword(value: string)
      modifies this
      ensures confirmPassword == value && errors == ClearError(old(errors), "confirmPassword")
      ensures email == old(email) && password == old(password)
      ensures isLoading == old(isLoading) && location == old(location)
    {
      confirmPassword := value;
      errors := ClearError(errors, "confirmPassword");
    }

    /** `handleRegister`: the errors are replaced by the validation result, and a valid form moves to `/verify`. */
    method HandleRegister()
      modifies this
      ensures email == old(email) && password == old(password) && confirmPassword == old(confirmPassword)
      ensures errors == ValidateForm(email, password, confirmPassword)
      ensures |errors| == 0 ==> !isLoading && location == Some("/verify")
      ensures |errors| != 0 ==> isLoading == old(isLoading) && location == old(location)
    {
      errors := ValidateForm(email, password, confirmPassword);
      if |errors| != 0 {
        return;
      }
      // the loading flag is raised for the simulated two-second call and lowered after it
      isLoading := false;
      location := Some("/verify");
    }
  }
}
