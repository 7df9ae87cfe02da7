/** The sign-in form: error codes turned into messages, sign-in with the
    trimmed address, and the password-reset request with its guard. */
module Login {
  import opened Common
  import Text

  const MSG_BAD_CREDENTIALS: string := "Incorrect email or password. Please try again."
  const MSG_NO_ACCOUNT: string := "No account found with this email."
  const MSG_BAD_EMAIL: string := "Please enter a valid email address."
  const MSG_TOO_MANY: string := "Too many attempts. Please wait and try again."
  const MSG_NETWORK: string := "Network error. Check your internet connection and try again."
  const MSG_LOGIN_FAILED: string := "Login failed. Please try again."
  const MSG_ENTER_EMAIL: string := "Please enter your email first."

  const KNOWN_CODES: set<string> := {
    "auth/invalid-credential", "auth/wrong-password", "auth/user-not-found",
    "auth/invalid-email", "auth/too-many-requests", "auth/network-request-failed" }

  /** `friendlyAuthError(code)`; `None` is a failure without a code. */
  function FriendlyAuthError(code: Option<string>): (r: string)
    ensures code.None? || code.value !in KNOWN_CODES ==> r == MSG_LOGIN_FAILED
  {
    if code.None? then MSG_LOGIN_FAILED
    else
      match code.value
      case "auth/invalid-credential" => MSG_BAD_CREDENTIALS
      case "auth/wrong-password" => MSG_BAD_CREDENTIALS
      case "auth/user-not-found" => MSG_NO_ACCOUNT
      case "auth/invalid-email" => MSG_BAD_EMAIL
      case "auth/too-many-requests" => MSG_TOO_MANY
      case "auth/network-request-failed" => MSG_NETWORK
      case _ => MSG_LOGIN_FAILED
  }

  /** Two known codes share a message exactly when both are about the
      credentials; no known code gets the generic message. */
  lemma FriendlyAuthErrorDistinct(a: string, b: string)
    requires a in KNOWN_CODES && b in KNOWN_CODES
    ensures FriendlyAuthError(Some(a)) != MSG_LOGIN_FAILED
    ensures FriendlyAuthError(Some(a)) == FriendlyAuthError(Some(b)) <==>
      a == b || {a, b} == {"auth/invalid-credential", "auth/wrong-password"}
  {
  }

  /** The reset confirmation. */
  function ResetSentText(to: string): string {
    "Password reset email sent to " + to + ". If you don't see it, check your Spam or Junk folder."
  }

  class LoginForm {
    var email: string
    var password: string
    var error: string
    var resetMsg: string
    var loading: bool
    /** The (address, password) pairs sign-in was attempted with. */
    ghost var signIns: seq<(string, string)>
    /** The addresses a reset was requested for. */
    ghost var resetRequests: seq<string>

    constructor()
      ensures email == "" && password == "" && error == "" && resetMsg == "" && !loading
      ensures signIns == [] && resetRequests == []
    {
      email, password, error, resetMsg, loading := "", "", "", "", false;
      signIns, resetRequests := [], [];
    }

    /** Records the sign-in attempt made with the typed address (trimmed)
        and password. */
    method LogSignIn()
      modifies this
      ensures signIns == old(signIns) + [(Text.Trim(email), password)]
      ensures unchanged(this`email, this`password, this`resetRequests)
      ensures unchanged(this`error, this`resetMsg, this`loading)
    {
      signIns := signIns + [(Text.Trim(email), password)];
    }

    /** Submitting the form. `failure` is the outcome of the sign-in and
        the session call after it: `None` on success, else the error's code
        (itself `None` when it has none). */
    method OnSubmit(failure: Option<Option<string>>)
      modifies this
      ensures signIns == old(signIns) + [(Text.Trim(old(email)), old(password))]
      ensures resetMsg == "" && !loading
      ensures failure.None? ==> error == ""
      ensures failure.Some? ==> error == FriendlyAuthError(failure.value)
      ensures unchanged(this`email, this`password, this`resetRequests)
    {
      error, resetMsg := "", "";
      loading := true;
      LogSignIn();
      if failure.Some? {
        error := FriendlyAuthError(failure.value);
      }
      loading := false;
    }

    /** "Forgot password?": a blank address is refused before anything is
        sent; otherwise a reset is requested for the trimmed address. */
    method SendReset(failure: Option<Option<string>>)
      modifies this
      ensures Text.Trim(old(email)) == "" ==>
        error == MSG_ENTER_EMAIL && resetMsg == "" && unchanged(this`resetRequests)
      ensures Text.Trim(old(email)) != "" ==> resetRequests == old(resetRequests) + [Text.Trim(old(email))]
      ensures Text.Trim(old(email)) != "" && failure.None? ==>
        error == "" && resetMsg == ResetSentText(Text.Trim(old(email)))
      ensures Text.Trim(old(email)) != "" && failure.Some? ==>
        error == FriendlyAuthError(failure.value) && resetMsg == ""
      ensures unchanged(this`email, this`password, this`signIns, this`loading)
    {
      var to := Text.Trim(email);
      if to != "" {
        RequestReset(to, failure);
      } else {
        error, resetMsg := MSG_ENTER_EMAIL, "";
      }
    }

    /** The reset request for the non-blank address `to`, and the message
        its outcome leaves. */
    method RequestReset(to: string, failure: Option<Option<string>>)
      modifies this
      ensures resetRequests == old(resetRequests) + [to]
      ensures failure.None? ==> error == "" && resetMsg == ResetSentText(to)
      ensures failure.Some? ==> error == FriendlyAuthError(failure.value) && resetMsg == ""
      ensures unchanged(this`email, this`password, this`signIns, this`loading)
    {
      resetRequests := resetRequests + [to];
      if failure.None? {
        error, resetMsg := "", ResetSentText(to);
      } else {
        error, resetMsg := FriendlyAuthError(failure.value), "";
      }
    }
  }
}
