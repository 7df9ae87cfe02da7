/** The admin dashboard: who may use it, how categories and user names are
    shown, the add-product form's guard, the "+1 Stock" patch, the users
    list edits, and the message line inside each of its four boxes. */
module AdminDashboard {
  import opened Common
  import Text
  import Sorting

  // ---------------------------------------------------------------------
  // Categories

  /** `String(raw ?? "").trim()`: the text a category is shown from. */
  function CategoryText(raw: Option<Value>): (c: string)
    ensures c == "" || (!Text.IsSpace(c[0]) && !Text.IsSpace(c[|c| - 1]))
    ensures raw.None? ==> c == ""
  {
    Text.Trim(ToStr(Some(Coalesce(raw, Str("")))))
  }

  /** The misspelling test: "generall" or "general " in any casing. */
  predicate MisspeltGeneral(c: string) {
    var lower := Text.Lower(c);
    lower == "generall" || lower == "general "
  }

  /** `normaliseCategory(raw)`: the trimmed text, with blank text and any
      casing of the misspelling "generall" shown as "General". */
  function NormaliseCategory(raw: Option<Value>): (r: string)
    ensures r != ""
    ensures CategoryText(raw) == "" ==> r == "General"
    ensures Text.Lower(CategoryText(raw)) == "generall" ==> r == "General"
    ensures CategoryText(raw) != "" && Text.Lower(CategoryText(raw)) != "generall" ==> r == CategoryText(raw)
    ensures !Text.IsSpace(r[0]) && !Text.IsSpace(r[|r| - 1])
  {
    var c := CategoryText(raw);
    GeneralWithSpaceUnreachable(c);
    if c == "" || MisspeltGeneral(c) then "General" else c
  }

  /** The test against "general " never succeeds: the text it looks at has
      been trimmed, so it cannot end in a space. */
  lemma GeneralWithSpaceUnreachable(c: string)
    requires c == "" || !Text.IsSpace(c[|c| - 1])
    ensures Text.Lower(c) != "general "
  {
    if |c| == 8 {
      assert Text.Lower(c)[7] == Text.LowerChar(c[7]);
    }
  }

  /** Normalising a shown category again changes nothing. */
  lemma NormaliseCategoryIdempotent(raw: Option<Value>)
    ensures NormaliseCategory(Some(Str(NormaliseCategory(raw)))) == NormaliseCategory(raw)
  {
    var r := NormaliseCategory(raw);
    Text.TrimNoEdges(r);
    assert ToStr(Some(Coalesce(Some(Str(r)), Str("")))) == r;
    assert CategoryText(Some(Str(r))) == r;
    if r == "General" {
      // "General" is seven letters; both misspellings are eight.
      assert |Text.Lower(r)| == 7;
    }
  }

  // ---------------------------------------------------------------------
  // Users

  /** A user as listed: `email` is `None` for a stored null or a missing
      field. */
  datatype AppUser = AppUser(id: string, email: Option<string>, displayName: string, isAdmin: bool, disabled: bool)

  /** The list entry `loadUsers` builds from a `users` document. */
  function UserFromDoc(id: string, data: Record): (u: AppUser)
    ensures u.id == id
    ensures u.email.None? <==> Nullish(Get(data, "email"))
    ensures "email" in data && data["email"].Str? ==> u.email == Some(data["email"].s)
    ensures Nullish(Get(data, "displayName")) ==> u.displayName == ""
    ensures u.isAdmin == Truthy(Get(data, "isAdmin")) && u.disabled == Truthy(Get(data, "disabled"))
  {
    AppUser(
      id,
      if Nullish(Get(data, "email")) then None else Some(ValueToStr(data["email"])),
      ValueToStr(Coalesce(Get(data, "displayName"), Str(""))),
      Truthy(Get(data, "isAdmin")),
      Truthy(Get(data, "disabled")))
  }

  /** `String(u.email ?? "")`, the text users are sorted by. */
  function EmailKey(u: AppUser): string {
    u.email.GetOr("")
  }

  /** `loadUsers()`: every document as a list entry, sorted by email, users
      without an email first. */
  function LoadUsers(docs: seq<(string, Record)>): (r: seq<AppUser>)
    ensures |r| == |docs|
    ensures Sorting.SortedBy(r, EmailKey)
    ensures multiset(r) == multiset(seq(|docs|, i requires 0 <= i < |docs| => UserFromDoc(docs[i].0, docs[i].1)))
  {
    Sorting.SortBy(seq(|docs|, i requires 0 <= i < |docs| => UserFromDoc(docs[i].0, docs[i].1)), EmailKey)
  }

  /** The name shown for a user (`UserLabel`): the trimmed display name,
      else the part of the email before "@", else "(no email)". */
  function UserLabel(u: AppUser): (r: string)
    ensures r != ""
    ensures Text.Trim(u.displayName) != "" ==> r == Text.Trim(u.displayName)
    ensures Text.Trim(u.displayName) == "" && r != "(no email)" ==>
      u.email.Some? && r == Text.BeforeFirst(u.email.value, '@') && '@' !in r
    ensures Text.Trim(u.displayName) == "" && u.email.Some? && u.email.value != "" && u.email.value[0] != '@' ==>
      r == Text.BeforeFirst(u.email.value, '@')
  {
    var email := u.email.GetOr("");
    var prefix := if Text.Contains(email, "@") then Text.BeforeFirst(email, '@') else email;
    assert !Text.Contains(email, "@") ==> '@' !in email by {
      if '@' in email {
        var k :| 0 <= k < |email| && email[k] == '@';
        assert email[k..k + 1] == "@";
        Text.ContainsAt(email, "@", k);
      }
    }
    var name := Text.Trim(u.displayName);
    if name != "" then name else if prefix != "" then prefix else "(no email)"
  }

  /** `users.map((x) => x.id === id ? { ...x, displayName: name } : x)` */
  function WithDisplayName(users: seq<AppUser>, id: string, name: string): (r: seq<AppUser>)
    ensures |r| == |users|
    ensures forall i :: 0 <= i < |users| ==>
      r[i] == if users[i].id == id then users[i].(displayName := name) else users[i]
  {
    seq(|users|, i requires 0 <= i < |users| =>
      if users[i].id == id then users[i].(displayName := name) else users[i])
  }

  /** `users.map((x) => x.id === id ? { ...x, disabled } : x)` */
  function WithDisabled(users: seq<AppUser>, id: string, disabled: bool): (r: seq<AppUser>)
    ensures |r| == |users|
    ensures forall i :: 0 <= i < |users| ==>
      r[i] == if users[i].id == id then users[i].(disabled := disabled) else users[i]
  {
    seq(|users|, i requires 0 <= i < |users| =>
      if users[i].id == id then users[i].(disabled := disabled) else users[i])
  }

  /** Renaming or disabling a user keeps every entry's id and email in
      place, so the list stays sorted by email. */
  lemma UserEditsKeepOrder(users: seq<AppUser>, id: string, name: string, disabled: bool)
    requires Sorting.SortedBy(users, EmailKey)
    ensures Sorting.SortedBy(WithDisplayName(users, id, name), EmailKey)
    ensures Sorting.SortedBy(WithDisabled(users, id, disabled), EmailKey)
    ensures forall i :: 0 <= i < |users| ==>
      WithDisplayName(users, id, name)[i].id == users[i].id && WithDisabled(users, id, disabled)[i].id == users[i].id
  {
    var a := WithDisplayName(users, id, name);
    var b := WithDisabled(users, id, disabled);
    assert forall i :: 0 <= i < |users| ==> EmailKey(a[i]) == EmailKey(users[i]) && EmailKey(b[i]) == EmailKey(users[i]);
  }

  // ---------------------------------------------------------------------
  // Access

  /** `snap.exists() && snap.data().isAdmin === true`: only a stored `true`
      counts, not a truthy value such as "true" or 1. A failed read grants
      nothing. */
  function AdminFlag(read: DocRead): (r: bool)
    ensures r <==> read.Present? && "isAdmin" in read.data && read.data["isAdmin"] == Bool(true)
  {
    read.Present? && Get(read.data, "isAdmin") == Some(Bool(true))
  }

  lemma TruthyIsNotAdmin(data: Record)
    requires "isAdmin" in data && (data["isAdmin"] == Str("true") || data["isAdmin"] == Num(1))
    ensures !AdminFlag(Present(data))
    ensures Truthy(Get(data, "isAdmin"))
  {
  }

  /** What the page shows. */
  datatype AdminView = CheckingView | AccessDenied | Panel

  /** The view for the `checking` and `isAdmin` flags: the panel exactly
      when `canUseAdmin = !checking && isAdmin`. */
  function ViewFor(checking: bool, isAdmin: bool): (v: AdminView)
    ensures v == Panel <==> !checking && isAdmin
    ensures v == CheckingView <==> checking
  {
    if checking then CheckingView else if !(!checking && isAdmin) then AccessDenied else Panel
  }

  // ---------------------------------------------------------------------
  // Products

  /** `addDisabled`: any of the four fields blank after trimming. */
  function AddDisabled(name: string, price: string, category: string, stock: string): (r: bool)
    ensures r <==> Text.AllSpace(name) || Text.AllSpace(price) || Text.AllSpace(category) || Text.AllSpace(stock)
  {
    Text.TrimEmptyIff(name);
    Text.TrimEmptyIff(price);
    Text.TrimEmptyIff(category);
    Text.TrimEmptyIff(stock);
    Text.Trim(name) == "" || Text.Trim(price) == "" || Text.Trim(category) == "" || Text.Trim(stock) == ""
  }

  /** "+1 Stock": `(p.stock ?? 0) + 1`; a stored NaN stays NaN. */
  function PlusOneStock(stock: Option<JsNum>): (r: JsNum)
    ensures stock.None? ==> r == Finite(1)
    ensures stock.Some? && stock.value.Finite? ==> r == Finite(stock.value.v + 1)
    ensures r.NonFinite? <==> stock == Some(NonFinite)
  {
    match stock
    case None => Finite(1)
    case Some(Finite(s)) => Finite(s + 1)
    case Some(NonFinite) => NonFinite
  }

  /** The patch `updateProduct` writes: a `category` field, when present, is
      turned into trimmed text; every other field goes through as given. */
  function SafePatch(patch: Record): (r: Record)
    ensures r.Keys == patch.Keys
    ensures "category" in patch ==> r["category"] == Str(CategoryText(Get(patch, "category")))
    ensures forall k :: k in patch && k != "category" ==> r[k] == patch[k]
  {
    if "category" in patch then patch["category" := Str(CategoryText(Get(patch, "category")))]
    else patch
  }

  // ---------------------------------------------------------------------
  // The dashboard

  datatype Section = AddProductSection | ManageProductsSection | OrdersSection | UsersSection

  const MSG_NO_EMAIL: string := "This user does not have an email saved."

  function ResetSentText(email: string): string {
    "Password reset email sent to " + email + ". If you don't see it, check your Spam or Junk folder."
  }

  class Dashboard {
    var checking: bool
    var isAdmin: bool
    var addProductMsg: Option<Msg>
    var manageProductsMsg: Option<Msg>
    var ordersMsg: Option<Msg>
    var usersMsg: Option<Msg>
    var users: seq<AppUser>
    /** The `users` collection. */
    var userDocs: map<string, Record>
    /** The addresses password-reset emails were sent to. */
    ghost var resetsSent: seq<string>

    constructor()
      ensures checking && !isAdmin && users == [] && userDocs == map[] && resetsSent == []
      ensures forall s :: SectionMsg(s).None?
    {
      checking := true;
      isAdmin := false;
      addProductMsg, manageProductsMsg, ordersMsg, usersMsg := None, None, None, None;
      users := [];
      userDocs := map[];
      resetsSent := [];
    }

    function SectionMsg(s: Section): Option<Msg>
      reads this
    {
      match s
      case AddProductSection => addProductMsg
      case ManageProductsSection => manageProductsMsg
      case OrdersSection => ordersMsg
      case UsersSection => usersMsg
    }

    method SetSection(section: Section, m: Option<Msg>)
      modifies this
      ensures SectionMsg(section) == m
      ensures forall s :: s != section ==> SectionMsg(s) == old(SectionMsg(s))
      ensures unchanged(this`checking, this`isAdmin)
      ensures unchanged(this`users, this`userDocs, this`resetsSent)
    {
      match section
      case AddProductSection => addProductMsg := m;
      case ManageProductsSection => manageProductsMsg := m;
      case OrdersSection => ordersMsg := m;
      case UsersSection => usersMsg := m;
    }

    /** `setSectionError(section, text)` */
    method SetSectionError(section: Section, text: string)
      modifies this
      ensures SectionMsg(section) == Some(Msg(Error, text))
      ensures forall s :: s != section ==> SectionMsg(s) == old(SectionMsg(s))
      ensures unchanged(this`checking, this`isAdmin)
      ensures unchanged(this`users, this`userDocs, this`resetsSent)
    {
      SetSection(section, Some(Msg(Error, text)));
    }

    /** `setSectionSuccess(section, text)` */
    method SetSectionSuccess(section: Section, text: string)
      modifies this
      ensures SectionMsg(section) == Some(Msg(Success, text))
      ensures forall s :: s != section ==> SectionMsg(s) == old(SectionMsg(s))
      ensures unchanged(this`checking, this`isAdmin)
      ensures unchanged(this`users, this`userDocs, this`resetsSent)
    {
      SetSection(section, Some(Msg(Success, text)));
    }

    /** `clearSectionMsg(section)` */
    method ClearSectionMsg(section: Section)
      modifies this
      ensures SectionMsg(section).None?
      ensures forall s :: s != section ==> SectionMsg(s) == old(SectionMsg(s))
      ensures unchanged(this`checking, this`isAdmin)
      ensures unchanged(this`users, this`userDocs, this`resetsSent)
    {
      SetSection(section, None);
    }

    /** The sign-in listener: everything is cleared; with an account, its
        profile document decides the admin flag, and an admin gets the
        users list (`usersRead` is the read of the collection). Any failed
        read is reported in the users box. */
    method OnAuthChange(user: Option<AuthUser>, profile: DocRead, usersRead: Result<seq<(string, Record)>>)
      modifies this
      ensures !checking
      ensures isAdmin == (user.Some? && AdminFlag(profile))
      ensures ViewFor(checking, isAdmin) == Panel ==> user.Some? && AdminFlag(profile)
      ensures SectionMsg(AddProductSection).None? && SectionMsg(ManageProductsSection).None? && SectionMsg(OrdersSection).None?
      ensures user.Some? && profile.ReadError? ==> usersMsg == Some(Msg(Error, ErrorText(profile.error, "Failed to check admin role")))
      ensures user.Some? && AdminFlag(profile) && usersRead.ReadFailed? ==> usersMsg == Some(Msg(Error, ErrorText(usersRead.error, "Failed to check admin role")))
      ensures user.None? || (!profile.ReadError? && !(AdminFlag(profile) && usersRead.ReadFailed?)) ==> usersMsg.None?
      ensures users == if user.Some? && AdminFlag(profile) && usersRead.Read? then LoadUsers(usersRead.value) else []
      ensures unchanged(this`userDocs, this`resetsSent)
    {
      checking := true;
      isAdmin := false;
      addProductMsg, manageProductsMsg, ordersMsg, usersMsg := None, None, None, None;
      users := [];
      if user.None? {
        checking := false;
        return;
      }
      if profile.ReadError? {
        usersMsg := Some(Msg(Error, ErrorText(profile.error, "Failed to check admin role")));
      } else {
        var adminFlag := AdminFlag(profile);
        isAdmin := adminFlag;
        if adminFlag {
          match usersRead
          case Read(docs) => users := LoadUsers(docs);
          case ReadFailed(e) => usersMsg := Some(Msg(Error, ErrorText(e, "Failed to check admin role")));
        }
      }
      checking := false;
    }

    /** "Save Name" for `u`: the trimmed name is merged into the user's
        document and shown in the list; `failure` is the write's outcome. */
    method SaveUser(u: AppUser, failure: Option<StoreError>)
      modifies this
      ensures var name := Text.Trim(u.displayName);
        failure.None? ==>
          && userDocs == MergeField(old(userDocs), u.id, "displayName", Str(name))
          && users == WithDisplayName(old(users), u.id, name)
          && usersMsg == Some(Msg(Success, "User name updated successfully."))
      ensures failure.Some? ==>
        && unchanged(this`userDocs, this`users)
        && usersMsg == Some(Msg(Error, ErrorText(failure.value, "Failed to update user")))
      ensures forall s :: s != UsersSection ==> SectionMsg(s) == old(SectionMsg(s))
      ensures unchanged(this`checking, this`isAdmin, this`resetsSent)
    {
      ClearSectionMsg(UsersSection);
      if failure.Some? {
        SetSectionError(UsersSection, ErrorText(failure.value, "Failed to update user"));
        return;
      }
      var name := Text.Trim(u.displayName);
      userDocs := MergeField(userDocs, u.id, "displayName", Str(name));
      users := WithDisplayName(users, u.id, name);
      SetSectionSuccess(UsersSection, "User name updated successfully.");
    }

    /** "Send reset" for a user with the stored `email`. */
    method SendReset(email: Option<string>, failure: Option<StoreError>)
      modifies this
      ensures email.None? || email == Some("") ==>
        unchanged(this`resetsSent) && usersMsg == Some(Msg(Error, MSG_NO_EMAIL))
      ensures email.Some? && email.value != "" && failure.None? ==>
        resetsSent == old(resetsSent) + [email.value] && usersMsg == Some(Msg(Success, ResetSentText(email.value)))
      ensures email.Some? && email.value != "" && failure.Some? ==>
        unchanged(this`resetsSent) && usersMsg == Some(Msg(Error, ErrorText(failure.value, "Failed to send password reset email")))
      ensures forall s :: s != UsersSection ==> SectionMsg(s) == old(SectionMsg(s))
      ensures unchanged(this`checking, this`isAdmin, this`users, this`userDocs)
    {
      ClearSectionMsg(UsersSection);
      if email.None? || email.value == "" {
        SetSectionError(UsersSection, MSG_NO_EMAIL);
        return;
      }
      if failure.Some? {
        SetSectionError(UsersSection, ErrorText(failure.value, "Failed to send password reset email"));
        return;
      }
      resetsSent := resetsSent + [email.value];
      SetSectionSuccess(UsersSection, ResetSentText(email.value));
    }

    /** "Disable"/"Enable" for the user `uid`. */
    method SetUserDisabled(uid: string, disabled: bool, failure: Option<StoreError>)
      modifies this
      ensures failure.None? ==>
        && userDocs == MergeField(old(userDocs), uid, "disabled", Bool(disabled))
        && users == WithDisabled(old(users), uid, disabled)
        && usersMsg == Some(Msg(Success, if disabled then "User disabled." else "User enabled."))
      ensures failure.Some? ==>
        && unchanged(this`userDocs, this`users)
        && usersMsg == Some(Msg(Error, ErrorText(failure.value, "Failed to update user status")))
      ensures forall s :: s != UsersSection ==> SectionMsg(s) == old(SectionMsg(s))
      ensures unchanged(this`checking, this`isAdmin, this`resetsSent)
    {
      ClearSectionMsg(UsersSection);
      if failure.Some? {
        SetSectionError(UsersSection, ErrorText(failure.value, "Failed to update user status"));
        return;
      }
      userDocs := MergeField(userDocs, uid, "disabled", Bool(disabled));
      users := WithDisabled(users, uid, disabled);
      SetSectionSuccess(UsersSection, if disabled then "User disabled." else "User enabled.");
    }
  }
}
