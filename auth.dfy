/** The sign-in page: log in by email, or register a new account whose donor-only
    fields are filled only for donors. */
module Auth {
  import opened Wrappers
  import opened Types
  import opened Backend

  /** The registration draft built from the form: the entered name, email and role,
      a placeholder phone, the blood group and availability for donors only, and no
      other field. */
  function RegistrationDraft(name: string, email: string, role: UserRole, bloodGroup: BloodGroup): (d: UserDraft)
    ensures RoleConsistent(d)
    ensures d.name == name && d.email == email && d.role == role && d.phone == "000-000-0000"
    ensures role == DONOR ==> d.bloodGroup == Some(bloodGroup)
    ensures d.lastDonationDate.None? && d.collegeId.None? && d.location.None? && d.hasAllergies.None?
  {
    UserDraft(name, email, "000-000-0000", role,
              if role == DONOR then Some(bloodGroup) else None,
              if role == DONOR then Some(true) else None,
              None, None, None, None)
  }

  /** Donor-only fields are set exactly for donors: a donor has a blood group and
      is available, any other role has neither. */
  predicate RoleConsistent(u: UserDraft)
  {
    if u.role == DONOR then u.bloodGroup.Some? && u.isAvailable == Some(true)
    else u.bloodGroup.None? && u.isAvailable.None?
  }

  /** A user registered from the form carries the entered name, email and role, the
      placeholder phone, the chosen blood group only when a donor, and nothing else. */
  lemma RegisteredFromForm(users: seq<User>, name: string, email: string, role: UserRole,
                           bloodGroup: BloodGroup, id: string)
    requires RegisterResult(users, RegistrationDraft(name, email, role, bloodGroup), id).Ok?
    ensures var u := RegisterResult(users, RegistrationDraft(name, email, role, bloodGroup), id).value;
            && RoleConsistent(DraftOf(u))
            && u.id == id && u.name == name && u.email == email && u.role == role && u.phone == "000-000-0000"
            && (role == DONOR ==> u.bloodGroup == Some(bloodGroup))
            && u.lastDonationDate.None? && u.collegeId.None? && u.location.None? && u.hasAllergies.None?
  {
  }

  /** `err.message || 'An error occurred'`. */
  function ErrorText(e: BackendError): (t: string)
    ensures t == ErrorMessage(e)
  {
    var m := ErrorMessage(e);
    if m == "" then "An error occurred" else m
  }

  class AuthPage {
    const backend: MockBackendService
    var isLogin: bool
    var loading: bool
    var error: string
    var email: string
    var password: string
    var name: string
    var role: UserRole
    var bloodGroup: BloodGroup

    constructor (backend: MockBackendService)
      ensures this.backend == backend && isLogin && !loading && error == ""
      ensures email == "" && password == "" && name == "" && role == DONOR && bloodGroup == O_POS
    {
      this.backend := backend;
      isLogin, loading, error := true, false, "";
      email, password, name, role, bloodGroup := "", "", "", DONOR, O_POS;
    }

    /** `handleSubmit` at clock reading `now`; the result says whether `onLogin` was
        called. The password takes no part. */
    method HandleSubmit(now: nat) returns (loggedIn: bool)
      requires backend.Valid()
      modifies this`loading, this`error, backend
      ensures backend.Valid()
      ensures var outcome := if isLogin then LoginResult(old(backend.users), email)
                             else RegisterResult(old(backend.users), RegistrationDraft(name, email, role, bloodGroup), UserId(now));
              && loggedIn == outcome.Ok?
              && error == (if outcome.Ok? then "" else ErrorText(outcome.error))
              && (outcome.Ok? ==> backend.currentUser == Some(outcome.value))
              && (outcome.Err? ==> backend.currentUser == old(backend.currentUser) && backend.users == old(backend.users))
              && (outcome.Ok? && !isLogin ==> backend.users == old(backend.users) + [outcome.value])
              && (outcome.Ok? && isLogin ==> backend.storage == old(backend.storage).(session := Some(outcome.value.id)))
              && (outcome.Ok? && !isLogin ==>
                    backend.storage == old(backend.storage).(users := Encoded(backend.users), session := Some(outcome.value.id)))
              && (outcome.Err? ==> backend.storage == old(backend.storage))
      ensures isLogin ==> backend.users == old(backend.users)
      ensures backend.requests == old(backend.requests) && backend.history == old(backend.history)
      ensures !loading
    {
      loading := true;
      error := "";
      var outcome;
      if isLogin {
        outcome := backend.Login(email);
      } else {
        outcome := backend.Register(RegistrationDraft(name, email, role, bloodGroup), now);
      }
      loggedIn := outcome.Ok?;
      if outcome.Err? {
        error := ErrorText(outcome.error);
      }
      loading := false;
    }
  }
}
