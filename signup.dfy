/** The sign-up form: password checks in a fixed order, then the account
    store's sign-up. */
module Signup {
  import opened Wrappers
  import Auth
  import Numerals

  const MismatchError: string := "Passwords do not match"
  const TooShortError: string := "Password must be at least 6 characters"
  const FailurePrefix: string := "Failed to create an account. "

  /** The form's checks: the confirmation is compared first, the length second;
      None means both passed. */
  function ValidateSignup(password: string, confirmPassword: string): (error: Option<string>)
    ensures error == Some(MismatchError) <==> password != confirmPassword
    ensures error == Some(TooShortError) <==> password == confirmPassword && |password| < 6
    ensures error.None? <==> password == confirmPassword && |password| >= 6
  {
    if password != confirmPassword then Some(MismatchError)
    else if |password| < 6 then Some(TooShortError)
    else None
  }

  /** A mismatch is reported even when the password is also too short. */
  lemma MismatchTakesPrecedence()
    ensures ValidateSignup("abc", "abd") == Some(MismatchError)
  {
  }

  class SignupForm {
    var error: string
    var loading: bool
    /** Whether the form has moved on to the features page. */
    var navigated: bool

    constructor ()
      ensures error == [] && !loading && !navigated
    {
      error := [];
      loading := false;
      navigated := false;
    }

    method HandleSubmit(auth: Auth.AuthService, name: string, email: string, password: string,
                        confirmPassword: string, now: int)
      requires auth.Valid()
      modifies this, auth
      ensures auth.Valid()
      ensures ValidateSignup(password, confirmPassword).Some? ==>
                error == ValidateSignup(password, confirmPassword).value && loading == old(loading)
                && auth.accounts == old(auth.accounts) && auth.user == old(auth.user)
                && navigated == old(navigated)
      ensures ValidateSignup(password, confirmPassword).None? ==>
                var found := Auth.FindFirst(old(auth.accounts), Auth.HasEmail(email));
                !loading
                && (found.Some? ==>
                      (error == FailurePrefix + "Email already exists"
                       && auth.accounts == old(auth.accounts) && auth.user == old(auth.user)
                       && navigated == old(navigated)))
                && (found.None? ==>
                      var created := Auth.Account(Numerals.NatToString(|old(auth.accounts)| + 1), name, email,
                                                  password, Some(Auth.Free), Some(Auth.PlanEnd(Auth.Free, now)));
                      (error == [] && navigated
                       && auth.accounts == old(auth.accounts) + [created]
                       && auth.user == Some(Auth.ProfileOf(created))))
    {
      if password != confirmPassword {
        error := MismatchError;
        return;
      }
      if |password| < 6 {
        error := TooShortError;
        return;
      }
      error := [];
      loading := true;
      var r := auth.Signup(name, email, password, now);
      if r.Success? {
        navigated := true;
      } else {
        error := FailurePrefix + r.error;
      }
      loading := false;
    }
  }
}
