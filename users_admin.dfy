/**
 * The admin page for user accounts: the profiles fetched from the store, a
 * search box over name and e-mail, a row per profile, and the dialog that
 * signs a new user up with the auth service and then writes the profile's
 * role and phone.
 */
module UsersAdmin {
  import opened Wrappers
  import opened JsText
  import opened SeqOps
  import opened Store
  import opened Records

  /** The role ids the dialog's selector offers. */
  const Roles: seq<string> := ["admin", "writer", "asist", "galery", "reader"]
  const DefaultRole := "reader"
  const CreatedMessage := "Usuario creado exitosamente. Se ha enviado un correo de confirmación."
  const CreateFailedFallback := "Error al crear el usuario. Es posible que ya exista o necesites usar el Panel de Supabase directamente."
  const NoName := "Sin nombre"
  const NoEmail := "Sin correo"
  const NoPhone := "---"

  predicate Matches(p: Profile, term: string) {
    IncludesIgnoringCase(OrEmpty(p.fullName), term) || IncludesIgnoringCase(OrEmpty(p.email), term)
  }

  /** The search box: name or e-mail, a missing one read as `""`. */
  function SearchProfiles(users: seq<Profile>, term: string): (r: seq<Profile>)
    ensures forall p :: p in r <==> (p in users &&
      (IncludesIgnoringCase(OrEmpty(p.fullName), term) || IncludesIgnoringCase(OrEmpty(p.email), term)))
    ensures IsSubsequence(r, users)
    ensures forall p :: multiset(r)[p] == if Matches(p, term) then multiset(users)[p] else 0
  {
    var keep := (p: Profile) => Matches(p, term);
    FilterIsSubsequence(users, keep);
    FilterMultiplicity(users, keep);
    Filter(users, keep)
  }

  lemma EmptySearchKeepsAll(users: seq<Profile>)
    ensures SearchProfiles(users, "") == users
  {
    forall i | 0 <= i < |users| ensures Matches(users[i], "") {
      EmptyQueryMatches(OrEmpty(users[i].fullName));
    }
    FilterAll(users, (p: Profile) => Matches(p, ""));
  }

  /** What a table row shows: name, e-mail and phone, each with its
      placeholder when missing or empty, and whether the role is drawn as an
      administrator's. */
  datatype RowView = RowView(name: string, email: string, role: string, phone: string, highlighted: bool)

  function RowOf(p: Profile): (v: RowView)
    ensures v.name == (if OrEmpty(p.fullName) == "" then NoName else p.fullName.value)
    ensures v.email == (if OrEmpty(p.email) == "" then NoEmail else p.email.value)
    ensures v.phone == (if OrEmpty(p.phone) == "" then NoPhone else p.phone.value)
    ensures v.role == p.role && (v.highlighted <==> p.role == "admin")
  {
    RowView(OrElse(OrEmpty(p.fullName), NoName), OrElse(OrEmpty(p.email), NoEmail), p.role,
      OrElse(OrEmpty(p.phone), NoPhone), p.role == "admin")
  }

  /** The dialog's fields. */
  datatype UserForm = UserForm(fullName: string, email: string, password: string, phone: string, role: string)

  const EmptyForm := UserForm("", "", "", "", DefaultRole)

  /** The form starts, and is reset to, empty fields and the reader role, one
      of the roles the selector offers. */
  lemma EmptyFormRoleIsOffered()
    ensures EmptyForm.role in Roles && EmptyForm.role == Roles[4]
  {
  }

  /** The request to the auth service, with the name as user metadata. */
  datatype SignUpRequest = SignUpRequest(email: string, password: string, fullName: string)

  /** The profile columns the page writes after a sign-up. */
  datatype ProfileRow = ProfileRow(fullName: string, role: string, phone: string)

  /** The auth service's answer: an error with its message, or a result whose
      user (its id) may be missing. */
  datatype SignUpAnswer = SignUpFailed(message: string) | SignedUp(user: Option<string>)

  class UsersPage {
    var users: seq<Profile>
    var loading: bool
    var searchTerm: string
    var isDialogOpen: bool
    var saving: bool
    var error: string
    var success: string
    var form: UserForm
    var signUps: seq<SignUpRequest>
    var requests: seq<Call<ProfileRow>>

    /** The initial state, and the mount effect's fetch. */
    constructor ()
      ensures users == [] && loading && searchTerm == "" && !isDialogOpen && !saving
      ensures error == "" && success == "" && form == EmptyForm
      ensures signUps == [] && requests == [Select]
    {
      users := [];
      loading := true;
      searchTerm := "";
      isDialogOpen := false;
      saving := false;
      error := "";
      success := "";
      form := EmptyForm;
      signUps := [];
      requests := [Select];
    }

    function Shown(): seq<Profile>
      reads this
    {
      SearchProfiles(users, searchTerm)
    }

    /** The answer to a fetch: a thrown error is only logged. */
    method Fetched(answer: Fetch<Profile>)
      modifies this`users, this`loading
      ensures users == AfterFetch(old(users), answer) && !loading
    {
      users := AfterFetch(users, answer);
      loading := false;
    }

    method SearchChanged(term: string)
      modifies this`searchTerm
      ensures searchTerm == term
    {
      searchTerm := term;
    }

    /** The new-user button, and the dialog's cancel button or its own close. */
    method DialogOpenChanged(open: bool)
      modifies this`isDialogOpen
      ensures isDialogOpen == open
    {
      isDialogOpen := open;
    }

    /** Any of the dialog's inputs, each of which replaces one field. */
    method FormEdited(f: UserForm)
      modifies this`form
      ensures form == f
    {
      form := f;
    }

    /** The dialog's submit, with the auth service's answer to the sign-up and
        the store's answer to the profile update (used only when one is sent). */
    method HandleCreateUser(signUp: SignUpAnswer, profile: Outcome)
      modifies this`saving, this`error, this`success, this`form, this`loading, this`signUps, this`requests
      ensures signUps == old(signUps) + [SignUpRequest(old(form).email, old(form).password, old(form).fullName)]
      ensures !saving
      ensures signUp.SignUpFailed? ==>
        error == OrElse(signUp.message, CreateFailedFallback) && success == "" &&
        requests == old(requests) && form == old(form) && loading == old(loading)
      ensures signUp == SignedUp(None) ==>
        error == "" && success == "" && requests == old(requests) && form == old(form) && loading == old(loading)
      ensures signUp.SignedUp? && signUp.user.Some? && profile.Ok? ==>
        error == "" && success == CreatedMessage && form == EmptyForm && loading &&
        requests == old(requests) + [Update(signUp.user.value, ProfileRow(old(form).fullName, old(form).role, old(form).phone)), Select]
      ensures signUp.SignedUp? && signUp.user.Some? && profile.Failed? ==>
        error == OrElse(profile.message, CreateFailedFallback) && success == "" &&
        form == old(form) && loading == old(loading) &&
        requests == old(requests) + [Update(signUp.user.value, ProfileRow(old(form).fullName, old(form).role, old(form).phone))]
    {
      saving := true;
      error := "";
      success := "";
      signUps := signUps + [SignUpRequest(form.email, form.password, form.fullName)];
      match signUp {
        case SignUpFailed(message) =>
          error := OrElse(message, CreateFailedFallback);
        case SignedUp(user) =>
          if user.Some? {
            requests := requests + [Update(user.value, ProfileRow(form.fullName, form.role, form.phone))];
            if profile.Failed? {
              error := OrElse(profile.message, CreateFailedFallback);
            } else {
              success := CreatedMessage;
              form := EmptyForm;
              loading := true;
              requests := requests + [Select];
            }
          }
      }
      saving := false;
    }
  }
}
