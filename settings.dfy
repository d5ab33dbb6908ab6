/** The settings page's two forms: the profile form, which edits a copy
    of the signed-in user's profile and submits it whole, and the team's
    user form, which adds a user or edits the six fields of one. The date
    of today (`new Date().toISOString().split('T')[0]`), the new user's id
    and the browser's confirmation answer are parameters. */
module Settings {
  import opened Wrappers
  import opened AppContext

  // ---------------------------------------------------------------------
  // the profile form

  /** The profile's text inputs. */
  datatype ProfileField = Name | Email | Phone | Department | Position | Timezone

  /** The four notification switches, by the key the form uses. */
  datatype NotificationFlag = EmailFlag | PushFlag | DealsFlag | TasksFlag

  function ProfileValue(p: UserProfile, f: ProfileField): string {
    match f
    case Name => p.name
    case Email => p.email
    case Phone => p.phone
    case Department => p.department
    case Position => p.position
    case Timezone => p.timezone
  }

  /** `{ ...prev, [field]: value }` on the profile copy. */
  function SetProfileValue(p: UserProfile, f: ProfileField, v: string): (r: UserProfile)
    ensures ProfileValue(r, f) == v
    ensures forall g :: g != f ==> ProfileValue(r, g) == ProfileValue(p, g)
    ensures r.id == p.id && r.avatar == p.avatar && r.notifications == p.notifications
  {
    match f
    case Name => p.(name := v)
    case Email => p.(email := v)
    case Phone => p.(phone := v)
    case Department => p.(department := v)
    case Position => p.(position := v)
    case Timezone => p.(timezone := v)
  }

  function FlagValue(n: Notifications, f: NotificationFlag): bool {
    match f
    case EmailFlag => n.email
    case PushFlag => n.push
    case DealsFlag => n.deals
    case TasksFlag => n.tasks
  }

  /** `{ ...prev.notifications, [field]: value }`. */
  function SetFlag(n: Notifications, f: NotificationFlag, v: bool): (r: Notifications)
    ensures FlagValue(r, f) == v
    ensures forall g :: g != f ==> FlagValue(r, g) == FlagValue(n, g)
  {
    match f
    case EmailFlag => n.(email := v)
    case PushFlag => n.(push := v)
    case DealsFlag => n.(deals := v)
    case TasksFlag => n.(tasks := v)
  }

  /** Two switch records that agree on every flag are the same record. */
  lemma FlagsDetermine(n: Notifications, m: Notifications)
    requires forall f :: FlagValue(n, f) == FlagValue(m, f)
    ensures n == m
  {
    assert FlagValue(n, EmailFlag) == FlagValue(m, EmailFlag);
    assert FlagValue(n, PushFlag) == FlagValue(m, PushFlag);
    assert FlagValue(n, DealsFlag) == FlagValue(m, DealsFlag);
    assert FlagValue(n, TasksFlag) == FlagValue(m, TasksFlag);
  }

  /** Setting a flag to the value it has changes nothing, and setting it
      back undoes a change. */
  lemma SetFlagUndo(n: Notifications, f: NotificationFlag, v: bool)
    ensures SetFlag(n, f, FlagValue(n, f)) == n
    ensures SetFlag(SetFlag(n, f, v), f, FlagValue(n, f)) == n
  {
    FlagsDetermine(SetFlag(n, f, FlagValue(n, f)), n);
    FlagsDetermine(SetFlag(SetFlag(n, f, v), f, FlagValue(n, f)), n);
  }

  class ProfileSettings {
    /** The form's copy of the profile. */
    var formData: UserProfile
    var showSuccess: bool

    /** The form starts as a copy of the current profile. */
    constructor (app: AppState)
      ensures formData == app.currentUser && !showSuccess
    {
      formData := app.currentUser;
      showSuccess := false;
    }

    /** `handleInputChange`: one text field of the copy changes. */
    method HandleInputChange(f: ProfileField, value: string)
      modifies this
      ensures formData == SetProfileValue(old(formData), f, value)
      ensures showSuccess == old(showSuccess)
    {
      formData := SetProfileValue(formData, f, value);
    }

    /** `handleNotificationChange`: one switch of the copy changes; every
        other switch and every other field stays. */
    method HandleNotificationChange(f: NotificationFlag, value: bool)
      modifies this
      ensures formData == old(formData).(notifications := SetFlag(old(formData).notifications, f, value))
      ensures showSuccess == old(showSuccess)
    {
      formData := formData.(notifications := SetFlag(formData.notifications, f, value));
    }

    /** `handleSubmit`: the whole copy goes to `updateProfile` and the
        success note shows. Submitting an unedited copy leaves the profile
        as it was. */
    method HandleSubmit(app: AppState)
      modifies this, app
      ensures app.currentUser == MergeProfile(old(app.currentUser), AsPatch(old(formData)))
      ensures app.savedProfile == Some(app.currentUser)
      ensures old(formData) == old(app.currentUser) ==> app.currentUser == old(app.currentUser)
      ensures app.users == old(app.users) && app.language == old(app.language) && app.theme == old(app.theme)
      ensures app.savedLanguage == old(app.savedLanguage) && app.savedTheme == old(app.savedTheme)
      ensures formData == old(formData) && showSuccess
    {
      app.UpdateProfile(AsPatch(formData));
      MergeWholeProfile(old(app.currentUser), old(formData));
      showSuccess := true;
    }
  }

  // ---------------------------------------------------------------------
  // the user form

  /** The user form's six fields. */
  datatype UserForm = UserForm(
    name: string,
    email: string,
    role: Role,
    department: string,
    phone: string,
    status: UserStatus)

  /** The empty form: role `'user'`, status `'active'`. */
  const EmptyUserForm := UserForm("", "", Regular, "", "", Active)

  /** A new user's permissions: everything for an admin, deals and
      contacts for every other role. */
  function Permissions(role: Role): seq<string> {
    if role == Admin then ["all"] else ["deals", "contacts"]
  }

  /** What `addUser` receives: the form, today as the join date, the role's
      permissions and no avatar. */
  function NewUserFrom(form: UserForm, today: string): NewUser {
    NewUser(form.name, form.email, form.role, None, form.department, form.phone, today,
            form.status, Permissions(form.role))
  }

  /** What `updateUser` receives: the six form fields and nothing else. */
  function FormPatch(form: UserForm): UserPatch {
    UserPatch(None, Some(form.name), Some(form.email), Some(form.role), None,
              Some(form.department), Some(form.phone), None, Some(form.status), None)
  }

  /** The form loaded with a user's six fields. */
  function FormOf(u: User): UserForm {
    UserForm(u.name, u.email, u.role, u.department, u.phone, u.status)
  }

  /** Exactly the admin role gets `['all']`; the others get deals and
      contacts. */
  lemma PermissionsRule(role: Role)
    ensures Permissions(role) == ["all"] <==> role == Admin
    ensures role != Admin <==> Permissions(role) == ["deals", "contacts"]
  {
    if role != Admin {
      assert Permissions(role)[0] == "deals";
      assert "deals" != "all";
    }
  }

  /** A new user carries the form's six fields, today's date, the role's
      permissions and the given id. */
  lemma NewUserFields(form: UserForm, today: string, id: string)
    ensures FormOf(CreateUser(NewUserFrom(form, today), id)) == form
    ensures CreateUser(NewUserFrom(form, today), id).id == id
    ensures CreateUser(NewUserFrom(form, today), id).joinDate == today
    ensures CreateUser(NewUserFrom(form, today), id).permissions == Permissions(form.role)
  {
  }

  /** An edit takes the form's six fields and keeps the user's id, avatar,
      join date and permissions, even when the role changes. */
  lemma EditKeepsIdentity(u: User, form: UserForm)
    ensures FormOf(MergeUser(u, FormPatch(form))) == form
    ensures MergeUser(u, FormPatch(form)).id == u.id
    ensures MergeUser(u, FormPatch(form)).avatar == u.avatar
    ensures MergeUser(u, FormPatch(form)).joinDate == u.joinDate
    ensures MergeUser(u, FormPatch(form)).permissions == u.permissions
  {
  }

  /** Opening a user for editing and saving without a change leaves the
      user as it was. */
  lemma UneditedEditKeepsUser(u: User)
    ensures MergeUser(u, FormPatch(FormOf(u))) == u
  {
  }

  class UserManagement {
    var isFormOpen: bool
    var editingUser: Option<User>
    var formData: UserForm

    constructor ()
      ensures !isFormOpen && editingUser.None? && formData == EmptyUserForm
    {
      isFormOpen := false;
      editingUser := None;
      formData := EmptyUserForm;
    }

    /** `resetForm`: the empty form, nobody being edited, the dialog shut. */
    method ResetForm()
      modifies this
      ensures formData == EmptyUserForm && editingUser.None? && !isFormOpen
    {
      formData := EmptyUserForm;
      editingUser := None;
      isFormOpen := false;
    }

    /** `handleEdit`: loads the user's six fields and opens the dialog. */
    method HandleEdit(user: User)
      modifies this
      ensures formData == FormOf(user) && editingUser == Some(user) && isFormOpen
    {
      formData := FormOf(user);
      editingUser := Some(user);
      isFormOpen := true;
    }

    /** `handleSubmit`: an edit updates the edited user with the six fields
        and adds no one; otherwise a user is added at the end of the list.
        Either way the form is reset. */
    method HandleSubmit(app: AppState, today: string, id: string)
      modifies this, app
      ensures old(editingUser).Some? ==>
                app.users == UpdateUsers(old(app.users), old(editingUser).value.id, FormPatch(old(formData)))
      ensures old(editingUser).None? ==>
                app.users == old(app.users) + [CreateUser(NewUserFrom(old(formData), today), id)]
      ensures app.currentUser == old(app.currentUser) && app.language == old(app.language)
      ensures app.theme == old(app.theme)
      ensures app.savedLanguage == old(app.savedLanguage) && app.savedTheme == old(app.savedTheme)
      ensures app.savedProfile == old(app.savedProfile)
      ensures formData == EmptyUserForm && editingUser.None? && !isFormOpen
    {
      if editingUser.Some? {
        app.UpdateUser(editingUser.value.id, FormPatch(formData));
      } else {
        app.AddUser(NewUserFrom(formData, today), id);
      }
      ResetForm();
    }

    /** `handleDelete`: the user goes only when the confirmation says yes. */
    method HandleDelete(app: AppState, userId: string, confirmed: bool)
      modifies app
      ensures confirmed ==> app.users == DeleteUsers(old(app.users), userId)
      ensures !confirmed ==> app.users == old(app.users)
      ensures app.currentUser == old(app.currentUser) && app.language == old(app.language)
      ensures app.theme == old(app.theme)
      ensures app.savedLanguage == old(app.savedLanguage) && app.savedTheme == old(app.savedTheme)
      ensures app.savedProfile == old(app.savedProfile)
    {
      if confirmed {
        app.DeleteUser(userId);
      }
    }
  }
}
