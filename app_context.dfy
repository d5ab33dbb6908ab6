/** The application context: the interface language and theme, the
    signed-in user's profile, the team's user list, and the translation
    function `t`. Browser storage is modelled by three fields holding what
    was last written under `crm-language`, `crm-theme` and `crm-profile`;
    what the load at start-up reads is passed in, with JSON parsing as a
    partial function. */
module AppContext {
  import opened Wrappers
  import Seqs

  // ---------------------------------------------------------------------
  // records

  /** A team member's role; `Regular` is the role coded `'user'`. */
  datatype Role = Admin | Manager | Sales | Regular

  datatype UserStatus = Active | Inactive

  datatype User = User(
    id: string,
    name: string,
    email: string,
    role: Role,
    avatar: Option<string>,
    department: string,
    phone: string,
    joinDate: string,
    status: UserStatus,
    permissions: seq<string>)

  /** `Omit<User, 'id'>`: what `addUser` receives. */
  datatype NewUser = NewUser(
    name: string,
    email: string,
    role: Role,
    avatar: Option<string>,
    department: string,
    phone: string,
    joinDate: string,
    status: UserStatus,
    permissions: seq<string>)

  /** `Partial<User>`. */
  datatype UserPatch = UserPatch(
    id: Option<string>,
    name: Option<string>,
    email: Option<string>,
    role: Option<Role>,
    avatar: Option<string>,
    department: Option<string>,
    phone: Option<string>,
    joinDate: Option<string>,
    status: Option<UserStatus>,
    permissions: Option<seq<string>>)

  /** The four notification switches of a profile. */
  datatype Notifications = Notifications(email: bool, push: bool, deals: bool, tasks: bool)

  datatype UserProfile = UserProfile(
    id: string,
    name: string,
    email: string,
    phone: string,
    department: string,
    position: string,
    avatar: Option<string>,
    timezone: string,
    notifications: Notifications)

  /** `Partial<UserProfile>`: `notifications`, when present, is a whole
      record. */
  datatype ProfilePatch = ProfilePatch(
    id: Option<string>,
    name: Option<string>,
    email: Option<string>,
    phone: Option<string>,
    department: Option<string>,
    position: Option<string>,
    avatar: Option<string>,
    timezone: Option<string>,
    notifications: Option<Notifications>)

  const EmptyProfilePatch := ProfilePatch(None, None, None, None, None, None, None, None, None)

  // ---------------------------------------------------------------------
  // defaults

  const DefaultLanguage := "en"
  const DefaultTheme := "light"

  const DefaultProfile := UserProfile(
    "1", "John Doe", "john.doe@company.com", "+1 (555) 123-4567", "Sales",
    "Sales Manager", None, "America/New_York", Notifications(true, true, true, true))

  const MockUsers: seq<User> := [
    User("1", "John Doe", "john.doe@company.com", Admin, None, "Sales",
         "+1 (555) 123-4567", "2023-01-15", Active, ["all"]),
    User("2", "Jane Smith", "jane.smith@company.com", Manager, None, "Sales",
         "+1 (555) 234-5678", "2023-03-20", Active, ["deals", "contacts", "tasks"]),
    User("3", "Mike Johnson", "mike.johnson@company.com", Sales, None, "Sales",
         "+1 (555) 345-6789", "2023-06-10", Active, ["deals", "contacts"])
  ]

  // ---------------------------------------------------------------------
  // translations

  /** The English table. */
  function EnEntry(key: string): Option<string> {
    match key
    case "dashboard" => Some("Dashboard")
    case "pipeline" => Some("Pipeline")
    case "contacts" => Some("Contacts")
    case "deals" => Some("Deals")
    case "tasks" => Some("Tasks")
    case "settings" => Some("Settings")
    case "profile" => Some("Profile")
    case "users" => Some("User Management")
    case "language" => Some("Language")
    case "theme" => Some("Theme")
    case "notifications" => Some("Notifications")
    case "general" => Some("General")
    case "security" => Some("Security")
    case "appearance" => Some("Appearance")
    case "save" => Some("Save")
    case "cancel" => Some("Cancel")
    case "edit" => Some("Edit")
    case "delete" => Some("Delete")
    case "add" => Some("Add")
    case "search" => Some("Search")
    case "filter" => Some("Filter")
    case "name" => Some("Name")
    case "email" => Some("Email")
    case "phone" => Some("Phone")
    case "company" => Some("Company")
    case "position" => Some("Position")
    case "department" => Some("Department")
    case "role" => Some("Role")
    case "status" => Some("Status")
    case "active" => Some("Active")
    case "inactive" => Some("Inactive")
    case "admin" => Some("Admin")
    case "manager" => Some("Manager")
    case "sales" => Some("Sales")
    case "user" => Some("User")
    case "light" => Some("Light")
    case "dark" => Some("Dark")
    case "blue" => Some("Blue")
    case "green" => Some("Green")
    case "purple" => Some("Purple")
    case "english" => Some("English")
    case "spanish" => Some("Spanish")
    case "french" => Some("French")
    case "german" => Some("German")
    case "timezone" => Some("Timezone")
    case "emailNotifications" => Some("Email Notifications")
    case "pushNotifications" => Some("Push Notifications")
    case "dealNotifications" => Some("Deal Notifications")
    case "taskNotifications" => Some("Task Notifications")
    case "profileUpdated" => Some("Profile updated successfully")
    case "userAdded" => Some("User added successfully")
    case "userUpdated" => Some("User updated successfully")
    case "userDeleted" => Some("User deleted successfully")
    case _ => None
  }

  /** The Spanish table. */
  function EsEntry(key: string): Option<string> {
    match key
    case "dashboard" => Some("Panel")
    case "pipeline" => Some("Pipeline")
    case "contacts" => Some("Contactos")
    case "deals" => Some("Ofertas")
    case "tasks" => Some("Tareas")
    case "settings" => Some("Configuración")
    case "profile" => Some("Perfil")
    case "users" => Some("Gestión de Usuarios")
    case "language" => Some("Idioma")
    case "theme" => Some("Tema")
    case "notifications" => Some("Notificaciones")
    case "general" => Some("General")
    case "security" => Some("Seguridad")
    case "appearance" => Some("Apariencia")
    case "save" => Some("Guardar")
    case "cancel" => Some("Cancelar")
    case "edit" => Some("Editar")
    case "delete" => Some("Eliminar")
    case "add" => Some("Añadir")
    case "search" => Some("Buscar")
    case "filter" => Some("Filtrar")
    case "name" => Some("Nombre")
    case "email" => Some("Email")
    case "phone" => Some("Teléfono")
    case "company" => Some("Empresa")
    case "position" => Some("Posición")
    case "department" => Some("Departamento")
    case "role" => Some("Rol")
    case "status" => Some("Estado")
    case "active" => Some("Activo")
    case "inactive" => Some("Inactivo")
    case "admin" => Some("Administrador")
    case "manager" => Some("Gerente")
    case "sales" => Some("Ventas")
    case "user" => Some("Usuario")
    case "light" => Some("Claro")
    case "dark" => Some("Oscuro")
    case "blue" => Some("Azul")
    case "green" => Some("Verde")
    case "purple" => Some("Morado")
    case "english" => Some("Inglés")
    case "spanish" => Some("Español")
    case "french" => Some("Francés")
    case "german" => Some("Alemán")
    case "timezone" => Some("Zona Horaria")
    case "emailNotifications" => Some("Notificaciones por Email")
    case "pushNotifications" => Some("Notificaciones Push")
    case "dealNotifications" => Some("Notificaciones de Ofertas")
    case "taskNotifications" => Some("Notificaciones de Tareas")
    case "profileUpdated" => Some("Perfil actualizado exitosamente")
    case "userAdded" => Some("Usuario añadido exitosamente")
    case "userUpdated" => Some("Usuario actualizado exitosamente")
    case "userDeleted" => Some("Usuario eliminado exitosamente")
    case _ => None
  }

  /** The French table. */
  function FrEntry(key: string): Option<string> {
    match key
    case "dashboard" => Some("Tableau de Bord")
    case "pipeline" => Some("Pipeline")
    case "contacts" => Some("Contacts")
    case "deals" => Some("Affaires")
    case "tasks" => Some("Tâches")
    case "settings" => Some("Paramètres")
    case "profile" => Some("Profil")
    case "users" => Some("Gestion des Utilisateurs")
    case "language" => Some("Langue")
    case "theme" => Some("Thème")
    case "notifications" => Some("Notifications")
    case "general" => Some("Général")
    case "security" => Some("Sécurité")
    case "appearance" => Some("Apparence")
    case "save" => Some("Enregistrer")
    case "cancel" => Some("Annuler")
    case "edit" => Some("Modifier")
    case "delete" => Some("Supprimer")
    case "add" => Some("Ajouter")
    case "search" => Some("Rechercher")
    case "filter" => Some("Filtrer")
    case "name" => Some("Nom")
    case "email" => Some("Email")
    case "phone" => Some("Téléphone")
    case "company" => Some("Entreprise")
    case "position" => Some("Position")
    case "department" => Some("Département")
    case "role" => Some("Rôle")
    case "status" => Some("Statut")
    case "active" => Some("Actif")
    case "inactive" => Some("Inactif")
    case "admin" => Some("Administrateur")
    case "manager" => Some("Gestionnaire")
    case "sales" => Some("Ventes")
    case "user" => Some("Utilisateur")
    case "light" => Some("Clair")
    case "dark" => Some("Sombre")
    case "blue" => Some("Bleu")
    case "green" => Some("Vert")
    case "purple" => Some("Violet")
    case "english" => Some("Anglais")
    case "spanish" => Some("Espagnol")
    case "french" => Some("Français")
    case "german" => Some("Allemand")
    case "timezone" => Some("Fuseau Horaire")
    case "emailNotifications" => Some("Notifications Email")
    case "pushNotifications" => Some("Notifications Push")
    case "dealNotifications" => Some("Notifications d'Affaires")
    case "taskNotifications" => Some("Notifications de Tâches")
    case "profileUpdated" => Some("Profil mis à jour avec succès")
    case "userAdded" => Some("Utilisateur ajouté avec succès")
    case "userUpdated" => Some("Utilisateur mis à jour avec succès")
    case "userDeleted" => Some("Utilisateur supprimé avec succès")
    case _ => None
  }

  /** The German table. */
  function DeEntry(key: string): Option<string> {
    match key
    case "dashboard" => Some("Dashboard")
    case "pipeline" => Some("Pipeline")
    case "contacts" => Some("Kontakte")
    case "deals" => Some("Geschäfte")
    case "tasks" => Some("Aufgaben")
    case "settings" => Some("Einstellungen")
    case "profile" => Some("Profil")
    case "users" => Some("Benutzerverwaltung")
    case "language" => Some("Sprache")
    case "theme" => Some("Design")
    case "notifications" => Some("Benachrichtigungen")
    case "general" => Some("Allgemein")
    case "security" => Some("Sicherheit")
    case "appearance" => Some("Erscheinungsbild")
    case "save" => Some("Speichern")
    case "cancel" => Some("Abbrechen")
    case "edit" => Some("Bearbeiten")
    case "delete" => Some("Löschen")
    case "add" => Some("Hinzufügen")
    case "search" => Some("Suchen")
    case "filter" => Some("Filtern")
    case "name" => Some("Name")
    case "email" => Some("E-Mail")
    case "phone" => Some("Telefon")
    case "company" => Some("Unternehmen")
    case "position" => Some("Position")
    case "department" => Some("Abteilung")
    case "role" => Some("Rolle")
    case "status" => Some("Status")
    case "active" => Some("Aktiv")
    case "inactive" => Some("Inaktiv")
    case "admin" => Some("Administrator")
    case "manager" => Some("Manager")
    case "sales" => Some("Vertrieb")
    case "user" => Some("Benutzer")
    case "light" => Some("Hell")
    case "dark" => Some("Dunkel")
    case "blue" => Some("Blau")
    case "green" => Some("Grün")
    case "purple" => Some("Lila")
    case "english" => Some("Englisch")
    case "spanish" => Some("Spanisch")
    case "french" => Some("Französisch")
    case "german" => Some("Deutsch")
    case "timezone" => Some("Zeitzone")
    case "emailNotifications" => Some("E-Mail-Benachrichtigungen")
    case "pushNotifications" => Some("Push-Benachrichtigungen")
    case "dealNotifications" => Some("Geschäfts-Benachrichtigungen")
    case "taskNotifications" => Some("Aufgaben-Benachrichtigungen")
    case "profileUpdated" => Some("Profil erfolgreich aktualisiert")
    case "userAdded" => Some("Benutzer erfolgreich hinzugefügt")
    case "userUpdated" => Some("Benutzer erfolgreich aktualisiert")
    case "userDeleted" => Some("Benutzer erfolgreich gelöscht")
    case _ => None
  }
  /** The languages that have a table. */
  predicate KnownLanguage(language: string) {
    language == "en" || language == "es" || language == "fr" || language == "de"
  }

  /** `translations[language][key]`: the entry, if the table has one. */
  function Entry(language: string, key: string): Option<string> {
    match language
    case "en" => EnEntry(key)
    case "es" => EsEntry(key)
    case "fr" => FrEntry(key)
    case "de" => DeEntry(key)
    case _ => None
  }

  /** `t(key)`: the active language's entry for `key` when it is a
      non-empty string, and `key` itself otherwise. A language code with
      no table (one adopted unchecked from storage) makes the lookup throw;
      that is `None` here. */
  function Translate(language: string, key: string): (r: Option<string>)
    ensures r.None? <==> !KnownLanguage(language)
    ensures r.Some? && Entry(language, key).Some? && Entry(language, key).value != "" ==>
              r.value == Entry(language, key).value
    ensures r.Some? && (Entry(language, key).None? || Entry(language, key).value == "") ==>
              r.value == key
  {
    if !KnownLanguage(language) then None
    else
      match Entry(language, key)
      case Some(s) => if s != "" then Some(s) else Some(key)
      case None => Some(key)
  }

  /** A known language translates every non-empty key to something
      non-empty. */
  lemma TranslateNonEmpty(language: string, key: string)
    requires KnownLanguage(language) && key != ""
    ensures Translate(language, key).Some? && Translate(language, key).value != ""
  {
  }

  /** The four tables define the same keys, so a key that falls back to
      itself in one language falls back in all of them. */
  lemma TablesShareKeys(key: string)
    ensures EnEntry(key).Some? <==> EsEntry(key).Some?
    ensures EnEntry(key).Some? <==> FrEntry(key).Some?
    ensures EnEntry(key).Some? <==> DeEntry(key).Some?
  {
    EsSharesKeys(key);
    FrSharesKeys(key);
    DeSharesKeys(key);
  }

  lemma EsSharesKeys(key: string)
    ensures EnEntry(key).Some? <==> EsEntry(key).Some?
  {
  }

  lemma FrSharesKeys(key: string)
    ensures EnEntry(key).Some? <==> FrEntry(key).Some?
  {
  }

  lemma DeSharesKeys(key: string)
    ensures EnEntry(key).Some? <==> DeEntry(key).Some?
  {
  }

  /** Some entries, as the tables define them. */
  lemma TranslateExamples()
    ensures Translate("es", "dashboard") == Some("Panel")
    ensures Translate("en", "dashboard") == Some("Dashboard")
    ensures Translate("de", "users") == Some("Benutzerverwaltung")
    ensures Translate("fr", "noSuchKey") == Some("noSuchKey")
    ensures Translate("it", "dashboard") == None
  {
  }

  // ---------------------------------------------------------------------
  // merges

  /** `{ ...currentUser, ...updates }`: each named property replaces the
      old one; `notifications` is replaced as a whole, not merged. */
  function MergeProfile(p: UserProfile, u: ProfilePatch): UserProfile {
    UserProfile(u.id.GetOr(p.id), u.name.GetOr(p.name), u.email.GetOr(p.email),
                u.phone.GetOr(p.phone), u.department.GetOr(p.department),
                u.position.GetOr(p.position),
                if u.avatar.Some? then u.avatar else p.avatar,
                u.timezone.GetOr(p.timezone), u.notifications.GetOr(p.notifications))
  }

  /** A whole profile, used as an update (the settings form submits its
      copy of the profile this way); an absent avatar is an absent key. */
  function AsPatch(p: UserProfile): ProfilePatch {
    ProfilePatch(Some(p.id), Some(p.name), Some(p.email), Some(p.phone),
                 Some(p.department), Some(p.position), p.avatar, Some(p.timezone),
                 Some(p.notifications))
  }

  /** The shallow merge: what the update names is taken, the rest kept. */
  lemma MergeProfileFields(p: UserProfile, u: ProfilePatch)
    ensures u.name.None? ==> MergeProfile(p, u).name == p.name
    ensures u.name.Some? ==> MergeProfile(p, u).name == u.name.value
    ensures u.notifications.None? ==> MergeProfile(p, u).notifications == p.notifications
    ensures u.notifications.Some? ==> MergeProfile(p, u).notifications == u.notifications.value
    ensures MergeProfile(p, EmptyProfilePatch) == p
    ensures MergeProfile(MergeProfile(p, u), u) == MergeProfile(p, u)
  {
  }

  /** Submitting a whole profile makes it the current one, whatever came
      before, except that an absent avatar keeps the old one. */
  lemma MergeWholeProfile(current: UserProfile, p: UserProfile)
    ensures MergeProfile(current, AsPatch(p))
         == p.(avatar := if p.avatar.Some? then p.avatar else current.avatar)
    ensures MergeProfile(p, AsPatch(p)) == p
  {
  }

  /** `{ ...userData, id }`. */
  function CreateUser(data: NewUser, id: string): User {
    User(id, data.name, data.email, data.role, data.avatar, data.department,
         data.phone, data.joinDate, data.status, data.permissions)
  }

  /** The user without its id. */
  function UserWithoutId(u: User): NewUser {
    NewUser(u.name, u.email, u.role, u.avatar, u.department, u.phone, u.joinDate,
            u.status, u.permissions)
  }

  /** `{ ...user, ...updates }`. */
  function MergeUser(u: User, p: UserPatch): User {
    User(p.id.GetOr(u.id), p.name.GetOr(u.name), p.email.GetOr(u.email),
         p.role.GetOr(u.role), if p.avatar.Some? then p.avatar else u.avatar,
         p.department.GetOr(u.department), p.phone.GetOr(u.phone),
         p.joinDate.GetOr(u.joinDate), p.status.GetOr(u.status),
         p.permissions.GetOr(u.permissions))
  }

  /** The list `updateUser` leaves. */
  function UpdateUsers(users: seq<User>, userId: string, p: UserPatch): (r: seq<User>)
    ensures |r| == |users|
  {
    seq(|users|, i requires 0 <= i < |users| =>
      if users[i].id == userId then MergeUser(users[i], p) else users[i])
  }

  /** The list `deleteUser` leaves. */
  function DeleteUsers(users: seq<User>, userId: string): seq<User> {
    Seqs.Filter(users, (u: User) => u.id != userId)
  }

  function UserIds(users: seq<User>): set<string> {
    set i | 0 <= i < |users| :: users[i].id
  }

  /** The value the load adopts: a stored string when there is one and it
      is non-empty (no check that it is a valid code), else the current. */
  function Adopt(current: string, stored: Option<string>): (r: string)
    ensures stored.Some? && stored.value != "" ==> r == stored.value
    ensures stored.None? || stored.value == "" ==> r == current
  {
    if stored.Some? && stored.value != "" then stored.value else current
  }

  /** The profile the load adopts: the parsed stored profile when there is
      a non-empty stored string and it parses, else the current. */
  function AdoptProfile(current: UserProfile, stored: Option<string>,
                        parse: string -> Option<UserProfile>): (r: UserProfile)
    ensures stored.Some? && stored.value != "" && parse(stored.value).Some? ==>
              r == parse(stored.value).value
    ensures stored.None? || stored.value == "" || parse(stored.value).None? ==> r == current
  {
    if stored.Some? && stored.value != "" then parse(stored.value).GetOr(current) else current
  }

  /** Loading the same storage twice is loading it once. */
  lemma AdoptIdempotent(current: UserProfile, lang: string, stored: Option<string>,
                        storedProfile: Option<string>, parse: string -> Option<UserProfile>)
    ensures Adopt(Adopt(lang, stored), stored) == Adopt(lang, stored)
    ensures AdoptProfile(AdoptProfile(current, storedProfile, parse), storedProfile, parse)
         == AdoptProfile(current, storedProfile, parse)
  {
  }

  // ---------------------------------------------------------------------
  // the provider's state

  class AppState {
    var language: string
    var theme: string
    var users: seq<User>
    var currentUser: UserProfile
    /** What storage holds under `crm-language`, `crm-theme`, `crm-profile`. */
    var savedLanguage: Option<string>
    var savedTheme: Option<string>
    var savedProfile: Option<UserProfile>

    /** The state before the load: English, light theme, the three sample
        users, the sample profile with every notification on. */
    constructor ()
      ensures language == DefaultLanguage && theme == DefaultTheme
      ensures users == MockUsers && currentUser == DefaultProfile
      ensures currentUser.notifications == Notifications(true, true, true, true)
      ensures savedLanguage.None? && savedTheme.None? && savedProfile.None?
    {
      language := DefaultLanguage;
      theme := DefaultTheme;
      users := MockUsers;
      currentUser := DefaultProfile;
      savedLanguage := None;
      savedTheme := None;
      savedProfile := None;
    }

    /** The start-up effect: adopt the stored language, theme and profile. */
    method LoadSettings(storedLanguage: Option<string>, storedTheme: Option<string>,
                        storedProfile: Option<string>, parse: string -> Option<UserProfile>)
      modifies this
      ensures language == Adopt(old(language), storedLanguage)
      ensures theme == Adopt(old(theme), storedTheme)
      ensures currentUser == AdoptProfile(old(currentUser), storedProfile, parse)
      ensures users == old(users)
      ensures savedLanguage == old(savedLanguage) && savedTheme == old(savedTheme)
      ensures savedProfile == old(savedProfile)
    {
      if storedLanguage.Some? && storedLanguage.value != "" {
        language := storedLanguage.value;
      }
      if storedTheme.Some? && storedTheme.value != "" {
        theme := storedTheme.value;
      }
      if storedProfile.Some? && storedProfile.value != "" {
        match parse(storedProfile.value)
        case Some(p) => currentUser := p;
        case None =>
      }
    }

    /** `setLanguage`: the new code is the state and what is stored. */
    method SetLanguage(lang: string)
      modifies this
      ensures language == lang && savedLanguage == Some(lang)
      ensures theme == old(theme) && users == old(users) && currentUser == old(currentUser)
      ensures savedTheme == old(savedTheme) && savedProfile == old(savedProfile)
    {
      language := lang;
      savedLanguage := Some(lang);
    }

    /** `setTheme`: the new code is the state and what is stored. */
    method SetTheme(newTheme: string)
      modifies this
      ensures theme == newTheme && savedTheme == Some(newTheme)
      ensures language == old(language) && users == old(users) && currentUser == old(currentUser)
      ensures savedLanguage == old(savedLanguage) && savedProfile == old(savedProfile)
    {
      theme := newTheme;
      savedTheme := Some(newTheme);
    }

    /** `updateProfile`: the merged profile becomes current and is stored. */
    method UpdateProfile(updates: ProfilePatch)
      modifies this
      ensures currentUser == MergeProfile(old(currentUser), updates)
      ensures savedProfile == Some(currentUser)
      ensures language == old(language) && theme == old(theme) && users == old(users)
      ensures savedLanguage == old(savedLanguage) && savedTheme == old(savedTheme)
    {
      currentUser := MergeProfile(currentUser, updates);
      savedProfile := Some(currentUser);
    }

    /** `addUser`: the new user goes to the END of the list. */
    method AddUser(data: NewUser, id: string)
      modifies this
      ensures users == old(users) + [CreateUser(data, id)]
      ensures language == old(language) && theme == old(theme) && currentUser == old(currentUser)
      ensures savedLanguage == old(savedLanguage) && savedTheme == old(savedTheme)
      ensures savedProfile == old(savedProfile)
    {
      users := users + [CreateUser(data, id)];
    }

    /** `updateUser`. */
    method UpdateUser(userId: string, updates: UserPatch)
      modifies this
      ensures users == UpdateUsers(old(users), userId, updates)
      ensures language == old(language) && theme == old(theme) && currentUser == old(currentUser)
      ensures savedLanguage == old(savedLanguage) && savedTheme == old(savedTheme)
      ensures savedProfile == old(savedProfile)
    {
      users := UpdateUsers(users, userId, updates);
    }

    /** `deleteUser`. */
    method DeleteUser(userId: string)
      modifies this
      ensures users == DeleteUsers(old(users), userId)
      ensures language == old(language) && theme == old(theme) && currentUser == old(currentUser)
      ensures savedLanguage == old(savedLanguage) && savedTheme == old(savedTheme)
      ensures savedProfile == old(savedProfile)
    {
      users := DeleteUsers(users, userId);
    }
  }

  // ---------------------------------------------------------------------
  // what the user operations promise

  /** The new user is the data plus the id, nothing else, and appending
      it adds exactly that id to the list's ids. */
  lemma CreateUserFields(users: seq<User>, data: NewUser, id: string)
    ensures UserWithoutId(CreateUser(data, id)) == data
    ensures CreateUser(data, id).id == id
    ensures UserIds(users + [CreateUser(data, id)]) == UserIds(users) + {id}
  {
    var r := users + [CreateUser(data, id)];
    assert r[|users|].id == id;
    forall x | x in UserIds(r) ensures x in UserIds(users) + {id} {
      var i :| 0 <= i < |r| && r[i].id == x;
      if i < |users| { assert r[i] == users[i]; }
    }
    forall x | x in UserIds(users) ensures x in UserIds(r) {
      var i :| 0 <= i < |users| && users[i].id == x;
      assert r[i] == users[i];
    }
  }

  /** Updating a user touches the users with that id only, and an absent
      id changes nothing. */
  lemma UpdateUsersSpec(users: seq<User>, userId: string, p: UserPatch)
    ensures forall i :: 0 <= i < |users| && users[i].id != userId ==>
              UpdateUsers(users, userId, p)[i] == users[i]
    ensures forall i :: 0 <= i < |users| && users[i].id == userId ==>
              UpdateUsers(users, userId, p)[i] == MergeUser(users[i], p)
    ensures userId !in UserIds(users) ==> UpdateUsers(users, userId, p) == users
  {
    assert forall i :: 0 <= i < |users| ==> users[i].id in UserIds(users);
  }

  /** `deleteUser` keeps exactly the users with another id, every copy of
      them, in order. */
  lemma DeleteUsersSpec(users: seq<User>, userId: string)
    ensures Seqs.IsSubseq(DeleteUsers(users, userId), users)
    ensures forall i :: 0 <= i < |users| && users[i].id != userId ==>
              users[i] in DeleteUsers(users, userId)
    ensures userId !in UserIds(DeleteUsers(users, userId))
    ensures forall u :: u in multiset(users) ==>
              multiset(DeleteUsers(users, userId))[u] == if u.id != userId then multiset(users)[u] else 0
    ensures multiset(DeleteUsers(users, userId)) <= multiset(users)
  {
    Seqs.FilterIsSubseq(users, (u: User) => u.id != userId);
    Seqs.FilterMultiset(users, (u: User) => u.id != userId);
    Seqs.FilterMembers(users, (u: User) => u.id != userId);
    var r := DeleteUsers(users, userId);
    forall x | x in UserIds(r) ensures x != userId {
      var i :| 0 <= i < |r| && r[i].id == x;
    }
  }

  /** Deleting a user just added with a fresh id gives the old list back. */
  lemma DeleteUndoesAddUser(users: seq<User>, data: NewUser, id: string)
    requires id !in UserIds(users)
    ensures DeleteUsers(users + [CreateUser(data, id)], id) == users
  {
    var keep := (u: User) => u.id != id;
    Seqs.FilterAppend(users, [CreateUser(data, id)], keep);
    forall i | 0 <= i < |users| ensures keep(users[i]) {
      assert users[i].id in UserIds(users);
    }
    Seqs.FilterKeepsAll(users, keep);
  }
}
