/** The registration page (app/register/page.tsx): the gate on the `type`
    query parameter, and `handleSubmit`, which signs up, writes the profile
    through `createUser`, signs out and returns to sign-in. */
module Register {
  import opened Js
  import opened Routes
  import opened Backend
  import opened Supabase

  const NoUserMessage: string := "Failed to create user"
  const RegisterFallback: string := "An error occurred during registration"

  /** What the page does with `searchParams.get('type')`. */
  datatype Gate = Show(userType: string) | Leave(route: Route)

  /** A present, non-empty `type` is taken as the user type without checking
      it against 'normal' and 'business'; otherwise the page pushes `/login`
      and renders nothing. */
  function TypeGate(typeParam: Option<string>): (g: Gate)
    ensures g.Show? <==> typeParam.Some? && typeParam.value != ""
    ensures g.Show? ==> g.userType == typeParam.value
    ensures g.Leave? ==> g.route == Login
  {
    if typeParam.Some? && typeParam.value != "" then Show(typeParam.value) else Leave(Login)
  }

  datatype Form = Form(
    email: string,
    password: string,
    fullName: string,
    phone: string,
    businessName: string,
    businessAddress: string)

  /** The inputs marked `required`: the four common ones always, and the
      business name and address only when they are rendered, for the type
      'business'. The browser submits only when these are non-empty. */
  predicate Submittable(form: Form, userType: string) {
    && form.email != "" && form.password != "" && form.fullName != "" && form.phone != ""
    && (userType == "business" ==> form.businessName != "" && form.businessAddress != "")
  }

  /** `profileData`: the four common columns, and the business columns
      spread in only for the type 'business'. */
  function ProfileData(form: Form, userType: string): (p: Fields)
    ensures p.id.None?
    ensures p.email == form.email && p.fullName == form.fullName && p.phone == form.phone
    ensures p.profileImage.None?
    ensures p.businessName.Some? <==> userType == "business"
    ensures p.businessAddress.Some? <==> userType == "business"
    ensures p.businessName.Some? ==> p.businessName.value == form.businessName
    ensures p.businessAddress.Some? ==> p.businessAddress.value == form.businessAddress
  {
    if userType == "business" then
      Fields(None, form.email, form.fullName, form.phone, None, Some(form.businessName), Some(form.businessAddress))
    else
      Fields(None, form.email, form.fullName, form.phone, None, None, None)
  }

  /** What `signUp` answers: an error, no user, or the new user together with
      whether the provider opened a session for it (it does not while the
      email awaits confirmation). */
  datatype SignUpAnswer = SignUpError(message: string) | NoUser | SignedUp(user: AuthUser, opensSession: bool)

  /** The awaited replies of sign-up and of the profile insert. */
  datatype Replies = Replies(signUp: Reply<SignUpAnswer>, insert: Reply<ServiceError>)

  datatype Attempt = Attempt(step: Step, db: Db)

  /** The try block of `handleSubmit`. */
  function SignUpStep(db: Db, form: Form, userType: string, r: Replies): Attempt {
    match r.signUp
    case Raised(m) => Attempt(Threw(m), db)
    case Answer(SignUpError(message)) => Attempt(Threw(Some(message)), db)
    case Answer(NoUser) => Attempt(Threw(Some(NoUserMessage)), db)
    case Answer(SignedUp(user, opensSession)) =>
      var afterSignUp := if opensSession then db.(session := Some(user)) else db;
      var created := CreateUserOn(afterSignUp, ProfileData(form, userType), userType, user.id, r.insert);
      if created.result.Failed? then Attempt(Threw(created.result.message), created.db)
      else Attempt(Done(Login), created.db.(session := None))
  }

  /** The page state `handleSubmit` leaves. */
  datatype View = View(route: Option<Route>, error: string, loading: bool)

  datatype Run = Run(view: View, db: Db)

  /** One run of `handleSubmit` against `db`. */
  function SubmitOn(db: Db, form: Form, userType: string, r: Replies): Run {
    var a := SignUpStep(db, form, userType, r);
    match a.step
    case Done(route) => Run(View(Some(route), "", false), a.db)
    case Threw(m) => Run(View(None, ErrorText(m, RegisterFallback), false), a.db)
  }

  /** The try block: sign up, create the profile under the new user's id,
      sign out. */
  method TrySignUp(store: Store, form: Form, userType: string, r: Replies) returns (s: Step)
    modifies store
    ensures Attempt(s, store.State()) == SignUpStep(old(store.State()), form, userType, r)
  {
    if r.signUp.Raised? {
      return Threw(r.signUp.message);
    }
    var answer := r.signUp.value;
    if answer.SignUpError? {
      return Threw(Some(answer.message));
    }
    if answer.NoUser? {
      return Threw(Some(NoUserMessage));
    }
    if answer.opensSession {
      store.SetSession(Some(answer.user));
    }
    var profileData := ProfileData(form, userType);
    var created := CreateUser(store, profileData, userType, answer.user.id, r.insert);
    if created.Failed? {
      return Threw(created.message);
    }
    store.SetSession(None);
    s := Done(Login);
  }

  /** `handleSubmit`; the form renders, and so submits, only once the gate
      has accepted a user type. */
  method HandleSubmit(store: Store, form: Form, userType: string, r: Replies) returns (v: View)
    requires Submittable(form, userType)
    modifies store
    ensures Run(v, store.State()) == SubmitOn(old(store.State()), form, userType, r)
  {
    var s := TrySignUp(store, form, userType, r);
    match s
    case Done(route) =>
      v := View(Some(route), "", false);
    case Threw(m) =>
      v := View(None, ErrorText(m, RegisterFallback), false);
  }

  // ---------------------------------------------------------------------
  // Properties of one run

  /** A failed sign-up (an error, no user, or a thrown call) writes nothing:
      the backend is exactly as before, and the error's message, the
      no-user message or the fallback is shown. */
  lemma SignUpFailureWritesNothing(db: Db, form: Form, userType: string, r: Replies)
    requires !(r.signUp.Answer? && r.signUp.value.SignedUp?)
    ensures var run := SubmitOn(db, form, userType, r);
      && run.db == db
      && run.view.route.None? && !run.view.loading
      && run.view.error == match r.signUp
           case Raised(m) => ErrorText(m, RegisterFallback)
           case Answer(SignUpError(m)) => ErrorText(Some(m), RegisterFallback)
           case Answer(_) => NoUserMessage
  {
  }

  /** A successful registration writes one row, into the table its type
      selects, keyed by the new auth user's id and holding the form's fields;
      it then signs out and sends the user to sign-in. */
  lemma RegistrationCreatesProfile(db: Db, form: Form, userType: string, r: Replies, user: AuthUser, opens: bool)
    requires r.signUp == Answer(SignedUp(user, opens)) && r.insert == Answer(None)
    ensures var run := SubmitOn(db, form, userType, r);
      var row := WithId(ProfileData(form, userType), user.id);
      && run.view == View(Some(Login), "", false)
      && run.db.session.None?
      && row.id == user.id
      && run.db.Rows(TableFor(userType)) == db.Rows(TableFor(userType)) + [row]
      && (forall t :: t != TableFor(userType) ==> run.db.Rows(t) == db.Rows(t))
      && run.db.images == db.images && run.db.files == db.files
  {
  }

  /** When `createUser` throws, neither the sign-out nor the redirect happens:
      the session sign-up opened (if any) stays, nothing is written, and the
      error is shown. */
  lemma CreateUserFailureKeepsSession(db: Db, form: Form, userType: string, r: Replies, user: AuthUser, opens: bool)
    requires r.signUp == Answer(SignedUp(user, opens)) && r.insert != Answer(None)
    ensures var run := SubmitOn(db, form, userType, r);
      && run.view.route.None? && !run.view.loading
      && run.view.error == ErrorText(if r.insert.Raised? then r.insert.message else r.insert.value, RegisterFallback)
      && run.db == (if opens then db.(session := Some(user)) else db)
  {
  }

  /** An unvalidated type other than 'normal' and 'business' writes a row
      without the business columns into `business_owner`. */
  lemma UnknownTypeWritesBusinessTable(db: Db, form: Form, userType: string, r: Replies, user: AuthUser, opens: bool)
    requires userType != "normal" && userType != "business"
    requires r.signUp == Answer(SignedUp(user, opens)) && r.insert == Answer(None)
    ensures var run := SubmitOn(db, form, userType, r);
      && run.db.businessOwner == db.businessOwner + [Row(user.id, form.email, form.fullName, form.phone, None, None, None)]
      && run.db.normalUser == db.normalUser
  {
  }

  /** A business registration with an empty address never reaches the handler. */
  lemma BusinessNeedsAddress(form: Form)
    requires form.businessAddress == ""
    ensures !Submittable(form, "business")
  {
  }
}
