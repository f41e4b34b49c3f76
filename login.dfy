/** The sign-in page (app/login/page.tsx): `handleSubmit`, which signs in,
    resolves which profile table holds the submitted email and redirects, and
    `handleTypeSelect`, which sends a new user to registration. */
module Login {
  import opened Js
  import opened Routes
  import opened Backend

  /** The sign-in error that the page deliberately ignores. */
  const EmailNotConfirmed: string := "Email not confirmed"

  /** The message thrown when neither profile table holds the email and no
      auth user can be found. */
  const NotFoundMessage: string :=
    "User profile " + "not found in " + "either " + "business_owner " + "or normal_user " + "tables"

  const LoginFallback: string := "An error occurred during login"

  datatype Credentials = Credentials(email: string, password: string)

  /** Both inputs carry `required`, so the browser submits only when both are filled in. */
  predicate Submittable(form: Credentials) {
    form.email != "" && form.password != ""
  }

  /** What `signInWithPassword` answers: a session for `user`, or an error. */
  datatype SignInAnswer = SignedIn(user: AuthUser) | Refused(message: string)

  /** The awaited replies of every remote call `handleSubmit` can make, in
      order: sign-in, the two profile lookups, `getUser` (`true` when the
      provider hands back the session's user), the default-profile insert, and
      the two lookups of the catch block. */
  datatype Replies = Replies(
    signIn: Reply<SignInAnswer>,
    business: Reply<ServiceError>,
    normal: Reply<ServiceError>,
    getUser: Reply<bool>,
    insert: Reply<ServiceError>,
    retryBusiness: Reply<ServiceError>,
    retryNormal: Reply<ServiceError>)

  /** The sign-in reply lets the flow go on to the lookups: a session, or an
      error whose message mentions the unconfirmed email. */
  predicate Continues(signIn: Reply<SignInAnswer>) {
    signIn.Answer? && (signIn.value.SignedIn? || Contains(signIn.value.message, EmailNotConfirmed))
  }

  /** The backend after the sign-in call: a granted sign-in stores its session;
      a refused or failed one leaves the session as it was. */
  function AfterSignIn(db: Db, signIn: Reply<SignInAnswer>): (d: Db)
    ensures d.normalUser == db.normalUser && d.businessOwner == db.businessOwner
    ensures d.images == db.images && d.files == db.files
    ensures signIn.Answer? && signIn.value.SignedIn? ==> d.session == Some(signIn.value.user)
    ensures !(signIn.Answer? && signIn.value.SignedIn?) ==> d.session == db.session
  {
    if signIn.Answer? && signIn.value.SignedIn? then db.(session := Some(signIn.value.user)) else db
  }

  /** The profile written for a signed-in user who has none. */
  function DefaultProfile(user: AuthUser): (p: Row)
    ensures p.id == user.id && p.email == user.email
    ensures p.fullName == "User" && p.phone == "" && p.profileImage.None?
    ensures p.businessName.None? && p.businessAddress.None?
  {
    Row(user.id, user.email, "User", "", None, None, None)
  }

  datatype Attempt = Attempt(step: Step, db: Db)

  /** The try block from the lookups on: business lookup, normal lookup (both
      by the submitted email, their errors unread), then business first,
      normal second, and otherwise a default normal profile for the auth user. */
  function Resolve(db: Db, form: Credentials, r: Replies): Attempt {
    if r.business.Raised? then Attempt(Threw(r.business.message), db)
    else if r.normal.Raised? then Attempt(Threw(r.normal.message), db)
    else
      var businessOwner := Select(db.businessOwner, form.email, r.business.value).data;
      var normalUser := Select(db.normalUser, form.email, r.normal.value).data;
      if businessOwner.Some? then Attempt(Done(BusinessDashboard), db)
      else if normalUser.Some? then Attempt(Done(UserProfile), db)
      else if r.getUser.Raised? then Attempt(Threw(r.getUser.message), db)
      else
        var authUser := if r.getUser.value then db.session else None;
        if authUser.None? then Attempt(Threw(Some(NotFoundMessage)), db)
        else if r.insert.Raised? then Attempt(Threw(r.insert.message), db)
        else Attempt(Done(UserProfile), db.Inserted(NormalUser, DefaultProfile(authUser.value), r.insert.value))
  }

  /** The whole try block: a sign-in error is rethrown unless it mentions the
      unconfirmed email. */
  function SignInStep(db: Db, form: Credentials, r: Replies): Attempt {
    if r.signIn.Raised? then Attempt(Threw(r.signIn.message), db)
    else if !Continues(r.signIn) then Attempt(Threw(Some(r.signIn.value.message)), db)
    else Resolve(AfterSignIn(db, r.signIn), form, r)
  }

  /** The page state `handleSubmit` leaves: the pushed route, if any, the
      error text and the loading flag. */
  datatype View = View(route: Option<Route>, error: string, loading: bool)

  /** The catch block: an error mentioning the unconfirmed email gets a second
      pair of lookups, business first; everything else, and a second miss,
      shows the error's message or the fallback text. A lookup that throws
      here escapes the handler: no route, no error text. */
  function Recover(db: Db, form: Credentials, r: Replies, message: Option<string>): View {
    var shown := View(None, ErrorText(message, LoginFallback), false);
    if message.None? || !Contains(message.value, EmailNotConfirmed) then shown
    else if r.retryBusiness.Raised? then View(None, "", false)
    else if Select(db.businessOwner, form.email, r.retryBusiness.value).data.Some? then
      View(Some(BusinessDashboard), "", false)
    else if r.retryNormal.Raised? then View(None, "", false)
    else if Select(db.normalUser, form.email, r.retryNormal.value).data.Some? then
      View(Some(UserProfile), "", false)
    else shown
  }

  datatype Run = Run(view: View, db: Db)

  /** One run of `handleSubmit` against `db`. */
  function SubmitOn(db: Db, form: Credentials, r: Replies): Run {
    var a := SignInStep(db, form, r);
    match a.step
    case Done(route) => Run(View(Some(route), "", false), a.db)
    case Threw(m) => Run(Recover(a.db, form, r, m), a.db)
  }

  /** The lookups and the redirect decision of the try block. */
  method Lookups(store: Store, form: Credentials, r: Replies) returns (s: Step)
    modifies store
    ensures Attempt(s, store.State()) == Resolve(old(store.State()), form, r)
  {
    if r.business.Raised? {
      return Threw(r.business.message);
    }
    var businessOwner := store.SelectByEmail(BusinessOwner, form.email, r.business.value);
    if r.normal.Raised? {
      return Threw(r.normal.message);
    }
    var normalUser := store.SelectByEmail(NormalUser, form.email, r.normal.value);
    if businessOwner.data.Some? {
      return Done(BusinessDashboard);
    } else if normalUser.data.Some? {
      return Done(UserProfile);
    }
    if r.getUser.Raised? {
      return Threw(r.getUser.message);
    }
    var authUser := if r.getUser.value then store.session else None;
    if authUser.Some? {
      var profileData := DefaultProfile(authUser.value);
      if r.insert.Raised? {
        return Threw(r.insert.message);
      }
      var ignored := store.Insert(NormalUser, profileData, r.insert.value);
      return Done(UserProfile);
    }
    return Threw(Some(NotFoundMessage));
  }

  /** The try block of `handleSubmit`. */
  method TrySignIn(store: Store, form: Credentials, r: Replies) returns (s: Step)
    modifies store
    ensures Attempt(s, store.State()) == SignInStep(old(store.State()), form, r)
  {
    if r.signIn.Raised? {
      return Threw(r.signIn.message);
    }
    var answer := r.signIn.value;
    if answer.Refused? && !Contains(answer.message, EmailNotConfirmed) {
      return Threw(Some(answer.message));
    }
    if answer.SignedIn? {
      store.SetSession(Some(answer.user));
    }
    s := Lookups(store, form, r);
  }

  /** The catch block of `handleSubmit`; it only reads the backend. */
  method HandleError(store: Store, form: Credentials, r: Replies, message: Option<string>) returns (v: View)
    ensures v == Recover(store.State(), form, r, message)
  {
    v := View(None, ErrorText(message, LoginFallback), false);
    if message.Some? && Contains(message.value, EmailNotConfirmed) {
      if r.retryBusiness.Raised? {
        return View(None, "", false);
      }
      var businessOwner := store.SelectByEmail(BusinessOwner, form.email, r.retryBusiness.value);
      if businessOwner.data.Some? {
        return View(Some(BusinessDashboard), "", false);
      }
      if r.retryNormal.Raised? {
        return View(None, "", false);
      }
      var normalUser := store.SelectByEmail(NormalUser, form.email, r.retryNormal.value);
      if normalUser.data.Some? {
        return View(Some(UserProfile), "", false);
      }
    }
  }

  /** `handleSubmit`: the try block, the catch block, and `loading` cleared in
      `finally`. */
  method HandleSubmit(store: Store, form: Credentials, r: Replies) returns (v: View)
    requires Submittable(form)
    modifies store
    ensures Run(v, store.State()) == SubmitOn(old(store.State()), form, r)
  {
    var s := TrySignIn(store, form, r);
    match s
    case Done(route) =>
      v := View(Some(route), "", false);
    case Threw(m) =>
      v := HandleError(store, form, r, m);
  }

  /** `handleTypeSelect(type)`: the popup offers the two account types. */
  function HandleTypeSelect(userType: string): (route: Route)
    requires userType == "normal" || userType == "business"
    ensures Href(route) == "/register?type=" + userType
  {
    Register(userType)
  }

  // ---------------------------------------------------------------------
  // Properties of one run

  /** The thrown not-found message never passes for an unconfirmed email. The
      message is written as a concatenation of short pieces so that the
      absence of 'E' can be checked piece by piece. */
  lemma NotFoundIsNotUnconfirmed()
    ensures !Contains(NotFoundMessage, EmailNotConfirmed)
  {
    assert EmailNotConfirmed[0] == 'E';
    NotContainsWithoutHead(NotFoundMessage, EmailNotConfirmed);
  }

  /** An unconfirmed-email refusal is ignored: the try block goes on to the
      lookups exactly as after a sign-in that opened no session. */
  lemma UnconfirmedEmailIgnored(db: Db, form: Credentials, r: Replies, message: string)
    requires r.signIn == Answer(Refused(message)) && Contains(message, EmailNotConfirmed)
    ensures SignInStep(db, form, r) == Resolve(db, form, r)
  {
  }

  /** Any other refusal is shown to the user, and nothing is written. */
  lemma RefusalShown(db: Db, form: Credentials, r: Replies, message: string)
    requires r.signIn == Answer(Refused(message)) && !Contains(message, EmailNotConfirmed)
    ensures SubmitOn(db, form, r) == Run(View(None, ErrorText(Some(message), LoginFallback), false), db)
  {
  }

  /** Business takes precedence: a business row for the submitted email sends
      the user to the dashboard whatever the normal table holds, and nothing
      is written. */
  lemma BusinessFirst(db: Db, form: Credentials, r: Replies)
    requires Continues(r.signIn) && r.business == Answer(None) && r.normal.Answer?
    requires Single(db.businessOwner, form.email).Some?
    ensures SubmitOn(db, form, r) == Run(View(Some(BusinessDashboard), "", false), AfterSignIn(db, r.signIn))
  {
  }

  /** Without a business row, a normal row sends the user to the profile page,
      and nothing is written. */
  lemma NormalSecond(db: Db, form: Credentials, r: Replies)
    requires Continues(r.signIn) && r.business.Answer? && r.normal == Answer(None)
    requires Select(db.businessOwner, form.email, r.business.value).data.None?
    requires Single(db.normalUser, form.email).Some?
    ensures SubmitOn(db, form, r) == Run(View(Some(UserProfile), "", false), AfterSignIn(db, r.signIn))
  {
  }

  /** A lookup that fails decides like a lookup in a table without the email. */
  lemma FailedLookupIsNotFound(db: Db, form: Credentials, r: Replies)
    ensures r.business.Answer? && r.business.value.Some? ==>
              Resolve(db, form, r).step
              == Resolve(db.(businessOwner := []), form, r.(business := Answer(None))).step
    ensures r.normal.Answer? && r.normal.value.Some? ==>
              Resolve(db, form, r).step
              == Resolve(db.(normalUser := []), form, r.(normal := Answer(None))).step
  {
  }

  /** Neither row and an auth user: exactly one row is written, into
      `normal_user`, keyed by the auth user's id and email with the default
      name 'User', an empty phone and no image; the user goes to the profile page. */
  lemma DefaultProfileWritten(db: Db, form: Credentials, r: Replies, user: AuthUser)
    requires Continues(r.signIn) && r.business.Answer? && r.normal.Answer?
    requires Select(db.businessOwner, form.email, r.business.value).data.None?
    requires Select(db.normalUser, form.email, r.normal.value).data.None?
    requires r.getUser == Answer(true) && AfterSignIn(db, r.signIn).session == Some(user)
    requires r.insert == Answer(None)
    ensures var d := AfterSignIn(db, r.signIn);
      SubmitOn(db, form, r)
      == Run(View(Some(UserProfile), "", false),
             d.(normalUser := d.normalUser + [Row(user.id, user.email, "User", "", None, None, None)]))
  {
  }

  /** The insert's answer is never read: a rejected default profile still
      sends the user to the profile page, with nothing written. */
  lemma InsertResultIgnored(db: Db, form: Credentials, r: Replies, user: AuthUser, e: string)
    requires Continues(r.signIn) && r.business.Answer? && r.normal.Answer?
    requires Select(db.businessOwner, form.email, r.business.value).data.None?
    requires Select(db.normalUser, form.email, r.normal.value).data.None?
    requires r.getUser == Answer(true) && AfterSignIn(db, r.signIn).session == Some(user)
    requires r.insert == Answer(Some(e))
    ensures SubmitOn(db, form, r) == Run(View(Some(UserProfile), "", false), AfterSignIn(db, r.signIn))
  {
  }

  /** Neither row and no auth user: the not-found error is shown and nothing
      is written. */
  lemma NoAuthUserFails(db: Db, form: Credentials, r: Replies)
    requires Continues(r.signIn) && r.business.Answer? && r.normal.Answer?
    requires Select(db.businessOwner, form.email, r.business.value).data.None?
    requires Select(db.normalUser, form.email, r.normal.value).data.None?
    requires r.getUser == Answer(false) || (r.getUser == Answer(true) && AfterSignIn(db, r.signIn).session.None?)
    ensures SubmitOn(db, form, r) == Run(View(None, NotFoundMessage, false), AfterSignIn(db, r.signIn))
  {
    NotFoundIsNotUnconfirmed();
  }

  /** In the catch block an unconfirmed-email error is retried with the same
      precedence: business first, then normal, and the message is shown only
      when both miss. Only the lookups' `data` is read, so a lookup answered
      with an error counts as a miss. */
  lemma RetryKeepsPrecedence(db: Db, form: Credentials, r: Replies, message: string)
    requires Contains(message, EmailNotConfirmed)
    requires r.retryBusiness.Answer? && r.retryNormal.Answer?
    ensures Recover(db, form, r, Some(message))
         == if Select(db.businessOwner, form.email, r.retryBusiness.value).data.Some? then
              View(Some(BusinessDashboard), "", false)
            else if Select(db.normalUser, form.email, r.retryNormal.value).data.Some? then
              View(Some(UserProfile), "", false)
            else View(None, ErrorText(Some(message), LoginFallback), false)
    ensures r.retryBusiness.value.Some? ==>
              Recover(db, form, r, Some(message))
              == Recover(db.(businessOwner := []), form, r.(retryBusiness := Answer(None)), Some(message))
    ensures r.retryNormal.value.Some? ==>
              Recover(db, form, r, Some(message))
              == Recover(db.(normalUser := []), form, r.(retryNormal := Answer(None)), Some(message))
  {
  }

  /** Every other error shows its message, or the fallback when it has none. */
  lemma OtherErrorsShown(db: Db, form: Credentials, r: Replies, message: Option<string>)
    requires message.None? || !Contains(message.value, EmailNotConfirmed)
    ensures Recover(db, form, r, message) == View(None, ErrorText(message, LoginFallback), false)
    ensures message == Some("") ==> Recover(db, form, r, message).error == LoginFallback
  {
  }

  /** What every run of `handleSubmit` leaves behind: loading is cleared, a
      redirect goes to one of the two profile pages and never comes with an
      error text, the session is the one sign-in left, and the only write ever
      made is one default `normal_user` row for the session's user, made only
      after the sign-in let the flow continue. */
  lemma EveryRun(db: Db, form: Credentials, r: Replies)
    ensures var run := SubmitOn(db, form, r);
      && !run.view.loading
      && (run.view.route.Some? ==>
            run.view.error == "" && run.view.route.value in {BusinessDashboard, UserProfile})
      && run.db.session == AfterSignIn(db, r.signIn).session
      && run.db.businessOwner == db.businessOwner
      && run.db.images == db.images && run.db.files == db.files
      && (run.db.normalUser == db.normalUser
          || (&& Continues(r.signIn)
              && run.db.session.Some?
              && run.db.normalUser == db.normalUser + [DefaultProfile(run.db.session.value)]
              && run.view.route == Some(UserProfile)))
  {
  }
}
