/** The signed-in account's profile: its address is merged into the
    `users` document, and the document (or a failed read of it) gives the
    name and admin flag the rest of the site shows. */
module Profile {
  import opened Common
  import Text
  import AdminDashboard

  /** `emailPrefix(email)` */
  function EmailPrefix(email: Option<string>): (r: string)
    ensures email.None? || email == Some("") ==> r == "User"
    ensures email.Some? && email.value != "" ==> r == Text.BeforeFirst(email.value, '@')
    ensures email.Some? && email.value != "" && '@' !in email.value ==> r == email.value
    ensures '@' !in r
    ensures r == "" ==> email.Some? && email.value != "" && email.value[0] == '@'
  {
    if email.None? || email.value == "" then "User"
    else
      var e := email.value;
      if '@' in e then Text.BeforeFirst(e, '@') else e
  }

  datatype UserProfile = UserProfile(uid: string, email: Option<string>, displayName: string, isAdmin: bool)

  /** `String(data.displayName ?? "").trim()` */
  function StoredName(data: Record): (r: string)
    ensures Nullish(Get(data, "displayName")) ==> r == ""
    ensures "displayName" in data && data["displayName"].Str? ==> r == Text.Trim(data["displayName"].s)
  {
    Text.Trim(ValueToStr(Coalesce(Get(data, "displayName"), Str(""))))
  }

  /** The profile built from a snapshot of the user's document (`None`
      when it does not exist). */
  function ProfileFromSnapshot(u: AuthUser, doc: Option<Record>): (p: UserProfile)
    ensures p.uid == u.uid && p.email == u.email
    ensures StoredName(doc.GetOr(map[])) != "" ==> p.displayName == StoredName(doc.GetOr(map[]))
    ensures StoredName(doc.GetOr(map[])) == "" ==> p.displayName == EmailPrefix(u.email)
    ensures p.isAdmin <==> doc.Some? && Truthy(Get(doc.value, "isAdmin"))
  {
    var data := doc.GetOr(map[]);
    var stored := StoredName(data);
    UserProfile(u.uid, u.email, if stored != "" then stored else EmailPrefix(u.email), Truthy(Get(data, "isAdmin")))
  }

  /** The profile after a failed read: no admin flag and the address
      prefix as name. */
  function ProfileOnError(u: AuthUser): (p: UserProfile)
    ensures p.uid == u.uid && p.email == u.email && !p.isAdmin
    ensures p.displayName == EmailPrefix(u.email)
  {
    UserProfile(u.uid, u.email, EmailPrefix(u.email), false)
  }

  /** A missing document gives the same profile as a failed read. */
  lemma MissingDocLikeError(u: AuthUser)
    ensures ProfileFromSnapshot(u, None) == ProfileOnError(u)
  {
    var data: Record := map[];
    assert StoredName(data) == "";
  }

  /** The profile's flag follows truthiness, which is looser than the admin
      pages' test: a stored "true" text counts here but not there. */
  lemma ProfileAdminIsLooser(u: AuthUser, data: Record)
    requires "isAdmin" in data && data["isAdmin"] == Str("true")
    ensures ProfileFromSnapshot(u, Some(data)).isAdmin
    ensures !AdminDashboard.AdminFlag(Present(data))
  {
  }

  /** A stored `true` counts on both. */
  lemma AdminPagesAgreeOnTrue(u: AuthUser, data: Record)
    requires AdminDashboard.AdminFlag(Present(data))
    ensures ProfileFromSnapshot(u, Some(data)).isAdmin
  {
  }

  /** The hook's state. */
  class ProfileHook {
    var loading: bool
    var user: Option<AuthUser>
    var profile: Option<UserProfile>
    /** The `users` collection. */
    var userDocs: map<string, Record>

    constructor()
      ensures loading && user.None? && profile.None? && userDocs == map[]
    {
      loading, user, profile, userDocs := true, None, None, map[];
    }

    /** The sign-in listener. With an account, its address (null when it
        has none) is merged into its document; a failed write is ignored.
        `serverTime` is the server clock. */
    method OnAuthChange(u: Option<AuthUser>, writeFailure: Option<StoreError>, serverTime: int)
      modifies this
      ensures user == u
      ensures u.None? ==> profile.None? && !loading && unchanged(this`userDocs)
      ensures u.Some? ==> loading && unchanged(this`profile)
      ensures u.Some? && writeFailure.Some? ==> unchanged(this`userDocs)
      ensures u.Some? && writeFailure.None? ==>
        var email := if u.value.email.Some? then Str(u.value.email.value) else Null;
        userDocs == MergeField(MergeField(old(userDocs), u.value.uid, "email", email), u.value.uid, "createdAt", Stamp(serverTime))
    {
      user := u;
      if u.None? {
        profile := None;
        loading := false;
        return;
      }
      loading := true;
      if writeFailure.None? {
        var email := if u.value.email.Some? then Str(u.value.email.value) else Null;
        userDocs := MergeField(userDocs, u.value.uid, "email", email);
        userDocs := MergeField(userDocs, u.value.uid, "createdAt", Stamp(serverTime));
      }
    }

    /** A snapshot of the signed-in user's document arrives. */
    method OnSnapshot(u: AuthUser, doc: Option<Record>)
      modifies this
      ensures profile == Some(ProfileFromSnapshot(u, doc))
      ensures !loading && unchanged(this`user, this`userDocs)
    {
      loading := false;
      profile := Some(ProfileFromSnapshot(u, doc));
    }

    /** The document listener fails. */
    method OnSnapshotError(u: AuthUser)
      modifies this
      ensures profile == Some(ProfileOnError(u)) && !loading
      ensures unchanged(this`user, this`userDocs)
    {
      profile := Some(ProfileOnError(u));
      loading := false;
    }
  }
}
