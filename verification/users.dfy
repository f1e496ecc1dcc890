/**
 * The user screen: who the signed-in user is, the guard against deleting
 * oneself, the payload a save sends (without an unchanged password), the
 * normalisation of the list response, and the form's reset and pre-fill.
 */
module Users {
  import opened Common
  import opened Entities
  import opened PrivateRoute
  import opened AppRouter
  import opened LoginAdmin

  // ---------------------------------------------------------------------
  // The signed-in user

  /**
   * The id in the stored token, read with the given decoder; absent when
   * there is no token (a missing or empty one is falsy).
   */
  function AuthenticatedId(token: Option<string>, decode: string -> Option<Id>): (a: Option<Id>)
    ensures token.None? || token.value == "" ==> a.None?
    ensures token.Some? && token.value != "" ==> a == decode(token.value)
  {
    if token.Some? && token.value != "" then decode(token.value) else None
  }

  // ---------------------------------------------------------------------
  // Deleting

  const SELF_DELETE_ALERT := "No puedes eliminar tu propio usuario."

  datatype DeleteOutcome = SelfDeleteRefused(alert: string) | DeleteCancelled | DeleteSent(request: Request)

  /**
   * `handleDelete`: the own id is refused before anything is asked; any
   * other id is deleted once the confirmation is accepted.
   */
  function DeleteDecision(id: Id, authId: Option<Id>, confirmed: bool): (o: DeleteOutcome)
    ensures o.SelfDeleteRefused? <==> authId == Some(id)
    ensures o.SelfDeleteRefused? ==> o.alert == SELF_DELETE_ALERT
    ensures o.DeleteCancelled? <==> authId != Some(id) && !confirmed
    ensures o.DeleteSent? ==> o.request == Request(DELETE, "/api/users/" + IdText(id), None)
  {
    if authId == Some(id) then SelfDeleteRefused(SELF_DELETE_ALERT)
    else if !confirmed then DeleteCancelled
    else DeleteSent(Request(DELETE, "/api/users/" + IdText(id), None))
  }

  /** "Eliminar" is rendered on every row but the signed-in user's own. */
  predicate ShowsDeleteButton(u: User, authId: Option<Id>)
  {
    authId != Some(u.id)
  }

  /**
   * No answer to the confirmation ever deletes the signed-in user, and the
   * rows that show "Eliminar" are exactly those the guard lets through.
   */
  lemma NeverDeletesSelf(u: User, authId: Option<Id>, confirmed: bool)
    ensures authId == Some(u.id) ==> !DeleteDecision(u.id, authId, confirmed).DeleteSent?
    ensures ShowsDeleteButton(u, authId) <==> !DeleteDecision(u.id, authId, confirmed).SelfDeleteRefused?
  {
  }

  // ---------------------------------------------------------------------
  // Saving

  datatype UserForm = UserForm(name: string, email: string, phone: string, role: string, password: string)

  const EMPTY_USER_FORM := UserForm("", "", "", "user", "")

  /** The id being edited, compared by truthiness: an id of 0 counts as creating. */
  predicate IsEditing(editing: Option<Id>)
  {
    editing.Some? && editing.value != 0
  }

  const USER_FIELDS := {"name", "email", "phone", "role", "password"}

  function FieldText(f: UserForm, key: string): string
    requires key in USER_FIELDS
  {
    match key
    case "name" => f.name
    case "email" => f.email
    case "phone" => f.phone
    case "role" => f.role
    case "password" => f.password
  }

  /**
   * The body of a save: the whole form, except that an update whose
   * password was left empty leaves the password out.
   */
  function UserPayload(f: UserForm, editing: Option<Id>): (p: map<string, Value>)
    ensures "password" !in p <==> IsEditing(editing) && f.password == ""
    ensures p.Keys == USER_FIELDS - (if IsEditing(editing) && f.password == "" then {"password"} else {})
    ensures forall k :: k in p ==> p[k] == Str(FieldText(f, k))
  {
    var keys := if IsEditing(editing) && f.password == "" then USER_FIELDS - {"password"} else USER_FIELDS;
    map k | k in keys :: Str(FieldText(f, k))
  }

  /** A create always sends a password, and an update never sends an empty one. */
  lemma PasswordRule(f: UserForm, editing: Option<Id>)
    ensures !IsEditing(editing) ==> UserPayload(f, editing)["password"] == Str(f.password)
    ensures "password" in UserPayload(f, editing) && IsEditing(editing) ==> f.password != ""
  {
  }

  /** `handleSubmit`'s payload as the source builds it: copy the form, then delete an unchanged password. */
  method BuildPayload(f: UserForm, editing: Option<Id>) returns (data: map<string, Value>)
    ensures data == UserPayload(f, editing)
  {
    data := map["name" := Str(f.name), "email" := Str(f.email), "phone" := Str(f.phone),
                "role" := Str(f.role), "password" := Str(f.password)];
    if IsEditing(editing) && f.password == "" {
      data := data - {"password"};
    }
    assert data.Keys == UserPayload(f, editing).Keys;
  }

  /** PUT to the edited user or POST a new one, with the shaped payload. */
  method SaveRequest(f: UserForm, editing: Option<Id>) returns (req: Request)
    ensures IsEditing(editing) ==> req.verb == PUT && req.path == "/api/users/" + IdText(editing.value)
    ensures !IsEditing(editing) ==> req.verb == POST && req.path == "/api/users"
    ensures req.body == Some(UserPayload(f, editing))
  {
    var data := BuildPayload(f, editing);
    if IsEditing(editing) {
      req := Request(PUT, "/api/users/" + IdText(editing.value), Some(data));
    } else {
      req := Request(POST, "/api/users", Some(data));
    }
  }

  /** The row's "Editar": the user's fields with an empty password, and that user's id. */
  function Prefill(u: User): (fe: (UserForm, Option<Id>))
    ensures fe.0.name == u.name && fe.0.email == u.email && fe.0.phone == u.phone && fe.0.role == u.role
    ensures fe.0.password == ""
    ensures fe.1 == Some(u.id)
  {
    (UserForm(u.name, u.email, u.phone, u.role, ""), Some(u.id))
  }

  /** Saving an edited user without typing a password keeps the stored one: the body has no password. */
  lemma EditWithoutPasswordKeepsIt(u: User)
    requires u.id != 0
    ensures var (f, e) := Prefill(u); UserPayload(f, e).Keys == {"name", "email", "phone", "role"}
  {
  }

  /**
   * The browser's own check before the submit handler runs: name, e-mail,
   * phone and password are `required` inputs, so none of them may be empty.
   */
  predicate SubmitAllowed(f: UserForm)
  {
    f.name != "" && f.email != "" && f.phone != "" && f.password != ""
  }

  /**
   * A form the browser lets through always sends its password, on a create
   * and on an update alike: the branch that drops an empty password is not
   * reached from the form.
   */
  lemma SubmittedFormSendsPassword(f: UserForm, editing: Option<Id>)
    requires SubmitAllowed(f)
    ensures UserPayload(f, editing).Keys == USER_FIELDS
    ensures UserPayload(f, editing)["password"] == Str(f.password)
  {
  }

  /** A form just filled in by "Editar" cannot be submitted until a password is typed. */
  lemma PrefilledFormIsBlocked(u: User)
    ensures !SubmitAllowed(Prefill(u).0)
  {
  }

  /** After a save the form is emptied with role "user", and nothing is being edited. */
  function AfterSave(f: UserForm, editing: Option<Id>): (fe: (UserForm, Option<Id>))
    ensures fe.0 == EMPTY_USER_FORM && fe.0.role == "user" && fe.0.password == ""
    ensures !IsEditing(fe.1)
  {
    (EMPTY_USER_FORM, None)
  }

  // ---------------------------------------------------------------------
  // The role picker

  datatype RoleOption = RoleOption(value: string, caption: string)

  const ROLE_OPTIONS := [RoleOption("user", "Logística"), RoleOption("admin", "Admin")]

  /**
   * The option captioned "Logística" saves the role "user", which is not the
   * "logistica" every other screen checks: such a user lands on "/" and the
   * router keeps them out of the logistics area.
   */
  lemma LogisticsCaptionIsNotLogisticsRole(id: Id, rest: seq<string>)
    ensures ROLE_OPTIONS[0].caption == "Logística"
    ensures !IsStaff(ROLE_OPTIONS[0].value)
    ensures LandingPath(ROLE_OPTIONS[0].value) == "/"
    ensures Navigate(["logistica"] + rest, false, Some(SessionUser(id, ROLE_OPTIONS[0].value))) != Shows(LogisticaArea)
  {
    LogisticaAreaOnlyForLogistica(["logistica"] + rest, false, Some(SessionUser(id, ROLE_OPTIONS[0].value)));
  }

  // ---------------------------------------------------------------------
  // The list response

  /** What the list request can answer: an array, a single object, or anything else (null included). */
  datatype UsersResponse = UserArray(users: seq<User>) | UserObject(user: User) | OtherValue

  datatype FetchResult = Received(data: UsersResponse) | Failed

  /** `fetchUsers`: an array is kept, one object becomes a one-user list, anything else or a failure the empty list. */
  function NormaliseUsers(r: FetchResult): (us: seq<User>)
    ensures r == Received(UserArray(us)) || us == [] || (|us| == 1 && r == Received(UserObject(us[0])))
    ensures r.Received? && r.data.UserArray? ==> us == r.data.users
    ensures r.Received? && r.data.UserObject? ==> us == [r.data.user]
    ensures r.Failed? || r.data.OtherValue? ==> us == []
  {
    match r
    case Failed => []
    case Received(UserArray(users)) => users
    case Received(UserObject(u)) => [u]
    case Received(OtherValue) => []
  }
}
