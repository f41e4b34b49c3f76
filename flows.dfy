/** Properties that span pages: what the profile guard does with the state
    sign-in leaves, what a second sign-in does, and what sign-in does after
    registration. */
module Flows {
  import opened Js
  import opened Routes
  import opened Backend
  import opened Supabase
  import Login
  import Register
  import UserProfile
  import BusinessDashboard

  /** Replies under which nothing fails on the way to the store. */
  const Served: UserProfile.Replies := UserProfile.Replies(Answer(true), Answer(None))
  const ServedDashboard: BusinessDashboard.Replies := BusinessDashboard.Replies(Answer(true), Answer(None))

  /** Sign-in reached the default-profile branch for `user`, who signed in
      under the email typed into the form. */
  ghost predicate DefaultBranch(db: Db, form: Login.Credentials, r: Login.Replies, user: AuthUser) {
    && Login.Continues(r.signIn)
    && Login.AfterSignIn(db, r.signIn).session == Some(user)
    && r.business.Answer? && Select(db.businessOwner, form.email, r.business.value).data.None?
    && r.normal.Answer? && Select(db.normalUser, form.email, r.normal.value).data.None?
    && r.getUser == Answer(true)
  }

  /** The redirect loop: sign-in sends the user to `/user-profile` although
      the default profile was rejected, and that page's guard then finds no
      row for the session's email and sends the user back to `/login`. */
  lemma RejectedDefaultProfileBounces(db: Db, form: Login.Credentials, r: Login.Replies, user: AuthUser,
                                      e: string, g: UserProfile.Replies)
    requires DefaultBranch(db, form, r, user) && user.email == form.email
    requires Single(db.normalUser, form.email).None?
    requires r.insert == Answer(Some(e))
    ensures var run := Login.SubmitOn(db, form, r);
      && run.view.route == Some(UserProfile)
      && UserProfile.CheckOn(run.db, g) == UserProfile.View(Some(Login), None, false)
  {
    Login.InsertResultIgnored(db, form, r, user, e);
  }

  /** When the default profile is accepted and the email was new to the
      table, the profile guard shows exactly that row. */
  lemma AcceptedDefaultProfileShown(db: Db, form: Login.Credentials, r: Login.Replies, user: AuthUser)
    requires DefaultBranch(db, form, r, user)
    requires forall row :: row in db.normalUser ==> row.email != user.email
    requires r.insert == Answer(None)
    ensures var run := Login.SubmitOn(db, form, r);
      && run.view.route == Some(UserProfile)
      && UserProfile.CheckOn(run.db, Served) == UserProfile.View(None, Some(Login.DefaultProfile(user)), false)
  {
    Login.DefaultProfileWritten(db, form, r, user);
    SingleAppendFresh(db.normalUser, Login.DefaultProfile(user));
  }

  /** Once two rows share the email, `.single()` never finds either: every
      sign-in writes one more default row and the guard still bounces. */
  lemma DuplicateRowsLoopForever(db: Db, form: Login.Credentials, r: Login.Replies, user: AuthUser)
    requires DefaultBranch(db, form, r, user) && user.email == form.email
    requires |Matching(db.normalUser, form.email)| >= 2
    requires r.insert == Answer(None)
    ensures var run := Login.SubmitOn(db, form, r);
      && run.view.route == Some(UserProfile)
      && run.db.normalUser == db.normalUser + [Login.DefaultProfile(user)]
      && |Matching(run.db.normalUser, form.email)| >= 3
      && UserProfile.CheckOn(run.db, Served) == UserProfile.View(Some(Login), None, false)
  {
    Login.DefaultProfileWritten(db, form, r, user);
    MatchingAppend(db.normalUser, Login.DefaultProfile(user), form.email);
  }

  /** A second sign-in after an accepted default profile takes the fast path
      when the form's email is the one the auth user carries: it goes to
      `/user-profile` and writes nothing. */
  lemma SecondSignInWritesNothing(db: Db, form: Login.Credentials, r: Login.Replies, user: AuthUser,
                                  r2: Login.Replies)
    requires DefaultBranch(db, form, r, user) && user.email == form.email
    requires forall row :: row in db.normalUser ==> row.email != user.email
    requires r.insert == Answer(None)
    requires Login.Continues(r2.signIn) && r2.business.Answer? && r2.normal == Answer(None)
    requires Select(db.businessOwner, form.email, r2.business.value).data.None?
    ensures var first := Login.SubmitOn(db, form, r).db;
      Login.SubmitOn(first, form, r2)
      == Login.Run(Login.View(Some(UserProfile), "", false), Login.AfterSignIn(first, r2.signIn))
  {
    Login.DefaultProfileWritten(db, form, r, user);
    SingleAppendFresh(db.normalUser, Login.DefaultProfile(user));
  }

  /** Sign-in is not idempotent when the email typed differs from the one the
      auth user carries (the lookups use the former, the default row the
      latter): the same sign-in repeated writes a second default row. */
  lemma MismatchedEmailWritesAgain(db: Db, form: Login.Credentials, r: Login.Replies, user: AuthUser)
    requires DefaultBranch(db, form, r, user) && user.email != form.email
    requires r.business == Answer(None) && r.normal == Answer(None)
    requires r.insert == Answer(None)
    ensures var first := Login.SubmitOn(db, form, r).db;
      Login.SubmitOn(first, form, r).db.normalUser
      == db.normalUser + [Login.DefaultProfile(user), Login.DefaultProfile(user)]
  {
    Login.DefaultProfileWritten(db, form, r, user);
    var first := Login.SubmitOn(db, form, r).db;
    SingleAppendOther(db.normalUser, Login.DefaultProfile(user), form.email);
    assert DefaultBranch(first, form, r, user);
    Login.DefaultProfileWritten(first, form, r, user);
  }

  /** Registration followed by a sign-in with the same email: the new user
      lands on the page of the registered type, that page's guard shows the
      registered row, and the row's id is the auth user's id. */
  lemma RegisterThenSignIn(db: Db, form: Register.Form, userType: string, reg: Register.Replies,
                           user: AuthUser, opens: bool, r: Login.Replies)
    requires userType == "normal" || userType == "business"
    requires reg.signUp == Answer(Register.SignedUp(user, opens)) && reg.insert == Answer(None)
    requires user.email == form.email
    requires forall row :: row in db.normalUser ==> row.email != form.email
    requires forall row :: row in db.businessOwner ==> row.email != form.email
    requires r.signIn == Answer(Login.SignedIn(user)) && r.business == Answer(None) && r.normal == Answer(None)
    ensures var registered := Register.SubmitOn(db, form, userType, reg).db;
      var signedIn := Login.SubmitOn(registered, Login.Credentials(form.email, form.password), r);
      var row := WithId(Register.ProfileData(form, userType), user.id);
      && row.id == user.id
      && signedIn.db == registered.(session := Some(user))
      && (userType == "normal" ==>
            && signedIn.view.route == Some(UserProfile)
            && UserProfile.CheckOn(signedIn.db, Served).user == Some(row))
      && (userType == "business" ==>
            && signedIn.view.route == Some(BusinessDashboard)
            && BusinessDashboard.CheckOn(signedIn.db, ServedDashboard).user == Some(row))
  {
    Register.RegistrationCreatesProfile(db, form, userType, reg, user, opens);
    var row := WithId(Register.ProfileData(form, userType), user.id);
    var registered := Register.SubmitOn(db, form, userType, reg).db;
    var forLogin := registered.(session := Some(user));
    if userType == "normal" {
      SingleAppendFresh(db.normalUser, row);
      assert Single(forLogin.businessOwner, form.email) == None;
      assert Single(forLogin.normalUser, form.email) == Some(row);
    } else {
      SingleAppendFresh(db.businessOwner, row);
      assert Single(forLogin.businessOwner, form.email) == Some(row);
    }
  }

  /** The worked example: Ann registers an individual account and signs in. */
  lemma AnnRegistersAndSignsIn()
    ensures var db := Db([], [], [], map[], None);
      var user := AuthUser("u1", "a@x.com");
      var form := Register.Form("a@x.com", "pw123456", "Ann", "555", "", "");
      var registered := Register.SubmitOn(db, form, "normal",
                          Register.Replies(Answer(Register.SignedUp(user, false)), Answer(None)));
      var signedIn := Login.SubmitOn(registered.db, Login.Credentials("a@x.com", "pw123456"),
                        Login.Replies(Answer(Login.SignedIn(user)), Answer(None), Answer(None),
                                      Answer(true), Answer(None), Answer(None), Answer(None)));
      && registered.view.route == Some(Login)
      && registered.db.session == None
      && registered.db.normalUser == [Row("u1", "a@x.com", "Ann", "555", None, None, None)]
      && signedIn.view.route == Some(UserProfile)
      && UserProfile.CheckOn(signedIn.db, Served).user == Some(Row("u1", "a@x.com", "Ann", "555", None, None, None))
  {
    var db := Db([], [], [], map[], None);
    var user := AuthUser("u1", "a@x.com");
    var form := Register.Form("a@x.com", "pw123456", "Ann", "555", "", "");
    var reg := Register.Replies(Answer(Register.SignedUp(user, false)), Answer(None));
    var r := Login.Replies(Answer(Login.SignedIn(user)), Answer(None), Answer(None),
                           Answer(true), Answer(None), Answer(None), Answer(None));
    var row := Row("u1", "a@x.com", "Ann", "555", None, None, None);
    assert TableFor("normal") == NormalUser;
    assert WithId(Register.ProfileData(form, "normal"), user.id) == row;
    Register.RegistrationCreatesProfile(db, form, "normal", reg, user, false);
    RegisterThenSignIn(db, form, "normal", reg, user, false, r);
  }
}
