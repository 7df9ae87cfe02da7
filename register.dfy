/** The registration form: error codes turned into messages, the submit
    guard, and the profile document written for a new account unless one
    already exists. */
module Register {
  import opened Common
  import Text
  import Profile
  import AdminDashboard

  const MSG_IN_USE: string := "This email is already registered. Please log in instead."
  const MSG_WEAK: string := "Password is too weak. Please use at least 6 characters."
  const MSG_BAD_EMAIL: string := "Please enter a valid email address."
  const MSG_NETWORK: string := "Network error. Check your connection and try again."
  const MSG_REGISTER_FAILED: string := "Registration failed. Please try again."

  const KNOWN_CODES: set<string> := {
    "auth/email-already-in-use", "auth/weak-password", "auth/invalid-email", "auth/network-request-failed" }

  /** `friendlyAuthError(code)` of the registration form. */
  function FriendlyAuthError(code: Option<string>): (r: string)
    ensures code.None? || code.value !in KNOWN_CODES ==> r == MSG_REGISTER_FAILED
  {
    if code.None? then MSG_REGISTER_FAILED
    else
      match code.value
      case "auth/email-already-in-use" => MSG_IN_USE
      case "auth/weak-password" => MSG_WEAK
      case "auth/invalid-email" => MSG_BAD_EMAIL
      case "auth/network-request-failed" => MSG_NETWORK
      case _ => MSG_REGISTER_FAILED
  }

  /** Each known code has a message of its own, never the generic one. */
  lemma FriendlyAuthErrorDistinct(a: string, b: string)
    requires a in KNOWN_CODES && b in KNOWN_CODES
    ensures FriendlyAuthError(Some(a)) != MSG_REGISTER_FAILED
    ensures FriendlyAuthError(Some(a)) == FriendlyAuthError(Some(b)) <==> a == b
  {
  }

  /** `disabled`: a field blank after trimming. */
  function Disabled(name: string, email: string, password: string): (r: bool)
    ensures r <==> Text.AllSpace(name) || Text.AllSpace(email) || Text.AllSpace(password)
  {
    Text.TrimEmptyIff(name);
    Text.TrimEmptyIff(email);
    Text.TrimEmptyIff(password);
    Text.Trim(name) == "" || Text.Trim(email) == "" || Text.Trim(password) == ""
  }

  /** The profile document written for a new account. */
  function NewProfileDoc(accountEmail: Option<string>, typedEmail: string, name: string, serverTime: int): (r: Record)
    ensures r.Keys == {"email", "displayName", "isAdmin", "createdAt"}
    ensures r["isAdmin"] == Bool(false) && r["displayName"] == Str(Text.Trim(name))
    ensures r["email"] == Str(if accountEmail.Some? then accountEmail.value else Text.Trim(typedEmail))
  {
    map[
      "email" := Str(accountEmail.GetOr(Text.Trim(typedEmail))),
      "displayName" := Str(Text.Trim(name)),
      "isAdmin" := Bool(false),
      "createdAt" := Stamp(serverTime)]
  }

  /** A new account's profile is read back with the typed name (trimmed)
      when there is one, and never as an admin, by either test. */
  lemma NewProfileReadsBack(u: AuthUser, typedEmail: string, name: string, serverTime: int)
    ensures
      var d := NewProfileDoc(u.email, typedEmail, name, serverTime);
      var p := Profile.ProfileFromSnapshot(u, Some(d));
      && (Text.Trim(name) != "" ==> p.displayName == Text.Trim(name))
      && !p.isAdmin && !AdminDashboard.AdminFlag(Present(d))
  {
    var d := NewProfileDoc(u.email, typedEmail, name, serverTime);
    Text.TrimIdempotent(name);
    assert Get(d, "displayName") == Some(Str(Text.Trim(name)));
    assert Get(d, "isAdmin") == Some(Bool(false));
  }

  class RegisterForm {
    var name: string
    var email: string
    var password: string
    var error: string
    var loading: bool
    /** The (address, password) pairs accounts were requested with. */
    ghost var signUps: seq<(string, string)>
    /** The `users` collection. */
    var userDocs: map<string, Record>

    constructor()
      ensures name == "" && email == "" && password == "" && error == "" && !loading
      ensures signUps == [] && userDocs == map[]
    {
      name, email, password, error, loading := "", "", "", "", false;
      signUps, userDocs := [], map[];
    }

    /** Records the account request made with the typed address (trimmed)
        and password. */
    method LogSignUp()
      modifies this
      ensures signUps == old(signUps) + [(Text.Trim(email), password)]
      ensures unchanged(this`name, this`email, this`password)
      ensures unchanged(this`error, this`loading, this`userDocs)
    {
      signUps := signUps + [(Text.Trim(email), password)];
    }

    /** Submitting the form. `createFailure` is the account creation's
        outcome (`None` on success, else the error's code); `uid` and
        `accountEmail` describe the created account; `profileFailure` is
        the outcome of the profile read and write (a failed read writes
        nothing); `sessionFails` says whether the `/api/login` call then
        rejects, which carries no error code. */
    method OnSubmit(uid: string, accountEmail: Option<string>, createFailure: Option<Option<string>>,
                    profileFailure: Option<Option<string>>, sessionFails: bool, serverTime: int)
      modifies this
      ensures signUps == old(signUps) + [(Text.Trim(old(email)), old(password))]
      ensures !loading
      ensures createFailure.Some? ==> error == FriendlyAuthError(createFailure.value) && unchanged(this`userDocs)
      ensures createFailure.None? && profileFailure.Some? ==>
        error == FriendlyAuthError(profileFailure.value) && unchanged(this`userDocs)
      ensures createFailure.None? && profileFailure.None? ==>
        && userDocs == (if uid in old(userDocs) then old(userDocs)
                        else old(userDocs)[uid := NewProfileDoc(accountEmail, old(email), old(name), serverTime)])
        && error == (if sessionFails then FriendlyAuthError(None) else "")
      ensures unchanged(this`name, this`email, this`password)
    {
      error := "";
      loading := true;
      LogSignUp();
      if createFailure.Some? {
        error := FriendlyAuthError(createFailure.value);
      } else if profileFailure.Some? {
        error := FriendlyAuthError(profileFailure.value);
      } else {
        if uid !in userDocs {
          var d := NewProfileDoc(accountEmail, email, name, serverTime);
          userDocs := userDocs[uid := d];
        }
        if sessionFails {
          error := FriendlyAuthError(None);
        }
      }
      loading := false;
    }
  }
}
