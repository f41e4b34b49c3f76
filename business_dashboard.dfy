/** The guard of the business dashboard (app/business-dashboard/page.tsx):
    `checkUser`, run once when the page mounts. */
module BusinessDashboard {
  import opened Js
  import opened Routes
  import opened Backend

  /** The awaited replies of `getSession` (`true` when it hands back the
      stored session) and of the `business_owner` lookup. */
  datatype Replies = Replies(getSession: Reply<bool>, lookup: Reply<ServiceError>)

  /** The page state `checkUser` leaves: the pushed route, if any, the
      displayed `user` and the loading flag. */
  datatype View = View(route: Option<Route>, user: Option<Row>, loading: bool)

  /** A session, a served lookup and exactly one `business_owner` row with the
      session's email show that row; every other outcome, a thrown error
      included, bounces to `/login` without a user. */
  function CheckOn(db: Db, r: Replies): (v: View)
    ensures !v.loading
    ensures v.route.None? <==> v.user.Some?
    ensures v.route.Some? ==> v.route == Some(Login)
    ensures v.user.Some? <==>
              && r.getSession == Answer(true) && db.session.Some?
              && r.lookup == Answer(None)
              && Single(db.businessOwner, db.session.value.email).Some?
    ensures v.user.Some? ==> v.user == Single(db.businessOwner, db.session.value.email)
  {
    var bounce := View(Some(Login), None, false);
    if r.getSession.Raised? then bounce
    else
      var session := if r.getSession.value then db.session else None;
      if session.None? then bounce
      else if r.lookup.Raised? then bounce
      else
        var fetched := Select(db.businessOwner, session.value.email, r.lookup.value);
        if fetched.error then bounce
        else if fetched.data.None? then bounce
        else View(None, fetched.data, false)
  }

  /** `checkUser`: it only reads the backend. */
  method CheckUser(store: Store, r: Replies) returns (v: View)
    ensures v == CheckOn(store.State(), r)
  {
    v := View(Some(Login), None, false);
    if r.getSession.Raised? {
      return;
    }
    var session := if r.getSession.value then store.session else None;
    if session.None? {
      return;
    }
    if r.lookup.Raised? {
      return;
    }
    var fetched := store.SelectByEmail(BusinessOwner, session.value.email, r.lookup.value);
    if fetched.error {
      return;
    }
    if fetched.data.None? {
      return;
    }
    v := View(None, fetched.data, false);
  }

  /** Without a session the guard bounces before any lookup: the lookup's
      reply does not matter. */
  lemma NoSessionBounces(db: Db, r: Replies)
    requires r.getSession.Answer? && (!r.getSession.value || db.session.None?)
    ensures CheckOn(db, r) == View(Some(Login), None, false)
    ensures forall l :: CheckOn(db, r.(lookup := l)) == CheckOn(db, r)
  {
  }

  /** Whatever `normal_user` holds, only `business_owner` is consulted. */
  lemma OnlyBusinessTableRead(db: Db, r: Replies, normalUser: seq<Row>)
    ensures CheckOn(db.(normalUser := normalUser), r) == CheckOn(db, r)
  {
  }
}
