/** The hosted backend as the pages see it: the `normal_user` and
    `business_owner` profile tables, the `images` table, the `images` storage
    bucket and the auth session. Every remote call answers with a reply that
    the caller supplies, so that every outcome of the service is covered. */
module Backend {
  import opened Js

  /** What an awaited remote call produced: an `Answer` (which may itself carry
      an error the service reported) or a rejected promise, which the awaiting
      code sees as a thrown error with an optional `message`. */
  datatype Reply<+T> = Answer(value: T) | Raised(message: Option<string>)

  /** The answer of a table or storage request: `None` when it was served,
      `Some(m)` when the service reported an error with message `m`. */
  type ServiceError = Option<string>

  /** The value of an awaited helper: its return value, or the error it threw. */
  datatype Result<+T> = Ok(value: T) | Failed(message: Option<string>)

  /** The user record the auth provider attaches to a session. */
  datatype AuthUser = AuthUser(id: string, email: string)

  /** A row of `normal_user` or `business_owner`. The two business columns are
      absent (`None`) on a row written without them. */
  datatype Row = Row(
    id: string,
    email: string,
    fullName: string,
    phone: string,
    profileImage: Option<string>,
    businessName: Option<string>,
    businessAddress: Option<string>)

  /** A row of `images`; the store assigns its `id`, which is not modelled. */
  datatype ImageRow = ImageRow(advertisementId: string, url: string, order: int)

  datatype Table = NormalUser | BusinessOwner

  /** A snapshot of everything the backend holds. */
  datatype Db = Db(
    normalUser: seq<Row>,
    businessOwner: seq<Row>,
    images: seq<ImageRow>,
    files: map<string, seq<bv8>>,
    session: Option<AuthUser>)
  {
    function Rows(t: Table): seq<Row> {
      match t
      case NormalUser => normalUser
      case BusinessOwner => businessOwner
    }

    /** The backend after `insert([row])` into `t` answered `err`: one more row
        in `t` when served, nothing changed otherwise. */
    function Inserted(t: Table, row: Row, err: ServiceError): (d: Db)
      ensures d.Rows(t) == if err.None? then Rows(t) + [row] else Rows(t)
      ensures forall u :: u != t ==> d.Rows(u) == Rows(u)
      ensures d.images == images && d.files == files && d.session == session
    {
      if err.Some? then this
      else match t
        case NormalUser => this.(normalUser := normalUser + [row])
        case BusinessOwner => this.(businessOwner := businessOwner + [row])
    }
  }

  /** The rows of `t` whose `email` column equals `email`, in table order:
      what `.select('*').eq('email', email)` returns. */
  function Matching(t: seq<Row>, email: string): (m: seq<Row>)
    ensures |m| <= |t|
  {
    if t == [] then []
    else (if t[0].email == email then [t[0]] else []) + Matching(t[1..], email)
  }

  /** The filter keeps exactly the rows with that email: every kept row is a
      row of `t` with that email, every such row is kept, and nothing is kept
      when `t` has no row with that email. */
  lemma {:induction false} MatchingMembers(t: seq<Row>, email: string)
    ensures forall r :: r in Matching(t, email) ==> r in t && r.email == email
    ensures forall r :: r in t && r.email == email ==> r in Matching(t, email)
    ensures (forall r :: r in t ==> r.email != email) ==> Matching(t, email) == []
  {
    if t != [] {
      MatchingMembers(t[1..], email);
      assert forall r :: r in t ==> r == t[0] || r in t[1..];
    }
    if Matching(t, email) != [] {
      assert Matching(t, email)[0] in Matching(t, email);
    }
  }

  /** Filtering an extended table filters the old table and then the new row. */
  lemma {:induction false} MatchingAppend(t: seq<Row>, row: Row, email: string)
    ensures Matching(t + [row], email)
         == Matching(t, email) + (if row.email == email then [row] else [])
  {
    if t == [] {
      assert [row][1..] == [];
    } else {
      var head := if t[0].email == email then [t[0]] else [];
      var tail := if row.email == email then [row] else [];
      assert (t + [row])[0] == t[0];
      assert (t + [row])[1..] == t[1..] + [row];
      MatchingAppend(t[1..], row, email);
      assert Matching(t + [row], email) == head + (Matching(t[1..], email) + tail);
      assert head + (Matching(t[1..], email) + tail) == (head + Matching(t[1..], email)) + tail;
    }
  }

  /** `.single()`: a row exactly when the filter selects exactly one. */
  function Single(t: seq<Row>, email: string): (r: Option<Row>)
    ensures r.Some? <==> |Matching(t, email)| == 1
    ensures r.Some? ==> r.value in t && r.value.email == email
  {
    MatchingMembers(t, email);
    var m := Matching(t, email);
    if |m| == 1 then assert m[0] in m; Some(m[0]) else None
  }

  /** Appending a row with another email does not change what `.single()` finds. */
  lemma SingleAppendOther(t: seq<Row>, row: Row, email: string)
    requires row.email != email
    ensures Single(t + [row], email) == Single(t, email)
  {
    MatchingAppend(t, row, email);
  }

  /** The first row with an email is the one `.single()` finds afterwards. */
  lemma SingleAppendFresh(t: seq<Row>, row: Row)
    requires forall r :: r in t ==> r.email != row.email
    ensures Single(t + [row], row.email) == Some(row)
  {
    MatchingMembers(t, row.email);
    MatchingAppend(t, row, row.email);
  }

  /** A second row with the same email makes `.single()` find nothing. */
  lemma SingleAppendDuplicate(t: seq<Row>, row: Row)
    requires Single(t, row.email).Some?
    ensures Single(t + [row], row.email) == None
  {
    MatchingAppend(t, row, row.email);
  }

  /** What a `.select('*').eq('email', …).single()` query hands back. */
  datatype Fetched = Fetched(data: Option<Row>, error: bool)

  /** The query's `data` and whether its `error` is set, given the service's
      answer `err`. `.single()` reports an error whenever the filter does not
      select exactly one row. */
  function Select(t: seq<Row>, email: string, err: ServiceError): (f: Fetched)
    ensures f.data.Some? <==> err.None? && |Matching(t, email)| == 1
    ensures f.data.Some? ==> f.data.value in t && f.data.value.email == email
    ensures f.error <==> f.data.None?
  {
    var data := if err.None? then Single(t, email) else None;
    Fetched(data, err.Some? || data.None?)
  }

  /** The backend's mutable state. */
  class Store {
    var normalUser: seq<Row>
    var businessOwner: seq<Row>
    var images: seq<ImageRow>
    var files: map<string, seq<bv8>>
    var session: Option<AuthUser>

    function State(): Db
      reads this
    {
      Db(normalUser, businessOwner, images, files, session)
    }

    constructor (db: Db)
      ensures State() == db
    {
      normalUser, businessOwner, images, files, session
        := db.normalUser, db.businessOwner, db.images, db.files, db.session;
    }

    /** `.from(t).select('*').eq('email', email).single()`, answered `err`. */
    method SelectByEmail(t: Table, email: string, err: ServiceError) returns (f: Fetched)
      ensures f.data.Some? <==> err.None? && |Matching(State().Rows(t), email)| == 1
      ensures f.data.Some? ==> f.data.value in State().Rows(t) && f.data.value.email == email
      ensures f.error <==> f.data.None?
      ensures f == Select(State().Rows(t), email, err)
    {
      var rows := if t == NormalUser then normalUser else businessOwner;
      var data := if err.None? then Single(rows, email) else None;
      f := Fetched(data, err.Some? || data.None?);
    }

    /** `.from(t).insert([row]).select().single()`, answered `err`: the served
        insert returns the row. */
    method Insert(t: Table, row: Row, err: ServiceError) returns (r: Result<Row>)
      modifies this
      ensures r == if err.None? then Ok(row) else Failed(err)
      ensures State() == old(State()).Inserted(t, row, err)
    {
      if err.Some? {
        return Failed(err);
      }
      if t == NormalUser {
        normalUser := normalUser + [row];
      } else {
        businessOwner := businessOwner + [row];
      }
      r := Ok(row);
    }

    /** `.from('images').insert([row]).select().single()`, answered `err`. */
    method InsertImage(row: ImageRow, err: ServiceError) returns (r: Result<ImageRow>)
      modifies this
      ensures r == if err.None? then Ok(row) else Failed(err)
      ensures State() == if err.None? then old(State()).(images := old(images) + [row]) else old(State())
    {
      if err.Some? {
        return Failed(err);
      }
      images := images + [row];
      r := Ok(row);
    }

    /** `storage.from('images').upload(path, data)`, answered `err`. */
    method Upload(path: string, data: seq<bv8>, err: ServiceError)
      modifies this
      ensures State() == if err.None? then old(State()).(files := old(files)[path := data]) else old(State())
    {
      if err.None? {
        files := files[path := data];
      }
    }

    /** The auth client storing (or, with `None`, removing) its session. */
    method SetSession(s: Option<AuthUser>)
      modifies this
      ensures State() == old(State()).(session := s)
    {
      session := s;
    }
  }
}
