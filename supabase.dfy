/** The data-access helpers of lib/supabase.ts that hold local logic:
    `createUser` and `uploadImage`. */
module Supabase {
  import opened Js
  import opened Backend

  /** The object a caller hands to `createUser`. Its type omits `id`, but
      nothing stops an `id` property from being present at run time, so the
      model lets the caller supply one. */
  datatype Fields = Fields(
    id: Option<string>,
    email: string,
    fullName: string,
    phone: string,
    profileImage: Option<string>,
    businessName: Option<string>,
    businessAddress: Option<string>)

  /** The table `createUser` writes: `normal_user` for the type 'normal' and
      `business_owner` for every other type value. */
  function TableFor(userType: string): (t: Table)
    ensures t == NormalUser <==> userType == "normal"
    ensures t == BusinessOwner <==> userType != "normal"
  {
    if userType == "normal" then NormalUser else BusinessOwner
  }

  /** `{ ...user, id: userId }`: the spread copies every field of `user`, and
      the `id` written after it wins over any `id` the caller supplied. */
  function WithId(user: Fields, userId: string): (row: Row)
    ensures row.id == userId
    ensures row.email == user.email && row.fullName == user.fullName && row.phone == user.phone
    ensures row.profileImage == user.profileImage
    ensures row.businessName == user.businessName && row.businessAddress == user.businessAddress
  {
    Row(userId, user.email, user.fullName, user.phone, user.profileImage,
        user.businessName, user.businessAddress)
  }

  /** The row's id cannot be chosen by the caller: whatever `id` the fields
      carry, the row is the same. */
  lemma IdNotSpoofable(user: Fields, spoofed: Option<string>, userId: string)
    ensures WithId(user.(id := spoofed), userId) == WithId(user, userId)
  {
  }

  /** A helper's result together with the backend state it leaves. */
  datatype Effect<+T> = Effect(result: Result<T>, db: Db)

  /** `createUser(user, userType, userId)` against `db` when the insert's
      awaited reply is `reply`. */
  function CreateUserOn(db: Db, user: Fields, userType: string, userId: string, reply: Reply<ServiceError>): Effect<Row>
  {
    match reply
    case Raised(m) => Effect(Failed(m), db)
    case Answer(err) =>
      var row := WithId(user, userId);
      Effect(if err.None? then Ok(row) else Failed(err), db.Inserted(TableFor(userType), row, err))
  }

  /** `createUser` either throws, leaving the backend as it was, or returns the
      inserted row, which is then the one new row of the table chosen by the
      type; the other table, the images, the files and the session never change. */
  lemma CreateUserWritesOneRow(db: Db, user: Fields, userType: string, userId: string, reply: Reply<ServiceError>)
    ensures var e := CreateUserOn(db, user, userType, userId, reply);
      && (e.result.Failed? ==> e.db == db)
      && (e.result.Ok? <==> reply == Answer(None))
      && (e.result.Ok? ==>
            && e.result.value == WithId(user, userId)
            && e.db.Rows(TableFor(userType)) == db.Rows(TableFor(userType)) + [e.result.value])
      && (forall t :: t != TableFor(userType) ==> e.db.Rows(t) == db.Rows(t))
      && e.db.images == db.images && e.db.files == db.files && e.db.session == db.session
  {
  }

  /** A store error is rethrown with the store's message. */
  lemma CreateUserRethrows(db: Db, user: Fields, userType: string, userId: string, m: string)
    ensures CreateUserOn(db, user, userType, userId, Answer(Some(m))) == Effect(Failed(Some(m)), db)
  {
  }

  /** The body of `createUser`. */
  method CreateUser(store: Store, user: Fields, userType: string, userId: string, reply: Reply<ServiceError>)
    returns (r: Result<Row>)
    modifies store
    ensures Effect(r, store.State()) == CreateUserOn(old(store.State()), user, userType, userId, reply)
  {
    var table := TableFor(userType);
    match reply
    case Raised(m) =>
      r := Failed(m);
    case Answer(err) =>
      r := store.Insert(table, WithId(user, userId), err);
  }

  /** `name.split('.').pop()`: the text after the last '.', or the whole name
      when it has none. */
  function Extension(name: string): (ext: string)
    ensures '.' !in ext
    ensures |ext| <= |name| && name[|name| - |ext|..] == ext
    ensures |ext| == |name| || name[|name| - |ext| - 1] == '.'
  {
    if name == [] then ""
    else if name[|name| - 1] == '.' then ""
    else Extension(name[..|name| - 1]) + [name[|name| - 1]]
  }

  /** `${advertisementId}-${order}.${fileExt}` */
  function FileName(advertisementId: string, order: int, ext: string): (name: string)
    ensures name == advertisementId + "-" + IntToString(order) + "." + ext
  {
    advertisementId + ("-" + (IntToString(order) + ("." + ext)))
  }

  /** `advertisements/${fileName}` */
  function FilePath(advertisementId: string, order: int, fileName: string): (path: string)
    ensures path == "advertisements/" + advertisementId + "-" + IntToString(order) + "." + Extension(fileName)
  {
    var p, d, e := "advertisements/", IntToString(order), Extension(fileName);
    ConcatAssoc(p, advertisementId + "-" + d + ".", e);
    ConcatAssoc(p, advertisementId + "-" + d, ".");
    ConcatAssoc(p, advertisementId + "-", d);
    ConcatAssoc(p, advertisementId, "-");
    p + FileName(advertisementId, order, e)
  }

  lemma ConcatAssoc(a: string, b: string, c: string)
    ensures a + (b + c) == a + b + c
  {
  }

  /** Text before the first '.' is recovered from a dotted name. */
  lemma {:induction false} SplitAtDot(d1: string, e1: string, d2: string, e2: string)
    requires '.' !in d1 && '.' !in d2
    requires d1 + ("." + e1) == d2 + ("." + e2)
    ensures d1 == d2
  {
    var w := d1 + ("." + e1);
    assert w == d2 + ("." + e2);
    assert w[|d1|] == '.' && w[|d2|] == '.';
    assert d1 == w[..|d1|];
    assert d2 == w[..|d2|];
  }

  lemma PrefixCancel(p: string, a: string, b: string)
    requires p + a == p + b
    ensures a == b
  {
    assert a == (p + a)[|p|..];
    assert b == (p + b)[|p|..];
  }

  /** Two images of one advertisement stored under distinct orders never share
      a storage path, whatever their file names. */
  lemma PathDeterminesOrder(advertisementId: string, o1: int, o2: int, name1: string, name2: string)
    requires o1 != o2
    ensures FilePath(advertisementId, o1, name1) != FilePath(advertisementId, o2, name2)
  {
    if FilePath(advertisementId, o1, name1) == FilePath(advertisementId, o2, name2) {
      var d1, e1 := IntToString(o1), Extension(name1);
      var d2, e2 := IntToString(o2), Extension(name2);
      PrefixCancel("advertisements/", FileName(advertisementId, o1, e1), FileName(advertisementId, o2, e2));
      PrefixCancel(advertisementId, "-" + (d1 + ("." + e1)), "-" + (d2 + ("." + e2)));
      PrefixCancel("-", d1 + ("." + e1), d2 + ("." + e2));
      SplitAtDot(d1, e1, d2, e2);
      IntToStringInjective(o1, o2);
    }
  }

  /** A file as the browser hands it over: its name and its bytes. */
  datatype File = File(name: string, data: seq<bv8>)

  /** `uploadImage(file, advertisementId, order)` against `db`, with the
      awaited replies of the storage upload and of the images insert, and
      `publicUrl` standing for the storage's `getPublicUrl`. */
  function UploadImageOn(db: Db, file: File, advertisementId: string, order: int,
                         upload: Reply<ServiceError>, insert: Reply<ServiceError>,
                         publicUrl: string -> string): Effect<ImageRow>
  {
    var path := FilePath(advertisementId, order, file.name);
    match upload
    case Raised(m) => Effect(Failed(m), db)
    case Answer(Some(m)) => Effect(Failed(Some(m)), db)
    case Answer(None) =>
      var stored := db.(files := db.files[path := file.data]);
      var row := ImageRow(advertisementId, publicUrl(path), order);
      match insert
      case Raised(m) => Effect(Failed(m), stored)
      case Answer(Some(m)) => Effect(Failed(Some(m)), stored)
      case Answer(None) => Effect(Ok(row), stored.(images := stored.images + [row]))
  }

  /** No image row is written unless the upload succeeded: a failed upload
      throws and leaves the backend untouched. */
  lemma UploadGatesInsert(db: Db, file: File, advertisementId: string, order: int,
                          upload: Reply<ServiceError>, insert: Reply<ServiceError>,
                          publicUrl: string -> string)
    requires upload != Answer(None)
    ensures UploadImageOn(db, file, advertisementId, order, upload, insert, publicUrl)
         == Effect(Failed(if upload.Raised? then upload.message else upload.value), db)
  {
    match upload
    case Raised(m) =>
    case Answer(err) =>
  }

  /** After a successful upload the file sits at its path; the image row, when
      its insert succeeds, points at that path's public URL and carries the
      advertisement and the order. When the insert fails the uploaded file
      stays: nothing removes it. The profile tables and the session never change. */
  lemma UploadThenInsert(db: Db, file: File, advertisementId: string, order: int,
                         insert: Reply<ServiceError>, publicUrl: string -> string)
    ensures var path := FilePath(advertisementId, order, file.name);
      var e := UploadImageOn(db, file, advertisementId, order, Answer(None), insert, publicUrl);
      && e.db.files == db.files[path := file.data]
      && e.db.normalUser == db.normalUser && e.db.businessOwner == db.businessOwner
      && e.db.session == db.session
      && (e.result.Ok? <==> insert == Answer(None))
      && (e.result.Ok? ==>
            && e.result.value == ImageRow(advertisementId, publicUrl(path), order)
            && e.db.images == db.images + [e.result.value])
      && (e.result.Failed? ==> e.db.images == db.images)
  {
    var path := FilePath(advertisementId, order, file.name);
    var stored := db.(files := db.files[path := file.data]);
    var e := UploadImageOn(db, file, advertisementId, order, Answer(None), insert, publicUrl);
    match insert
    case Raised(m) => assert e == Effect(Failed(m), stored);
    case Answer(Some(m)) => assert e == Effect(Failed(Some(m)), stored);
    case Answer(None) =>
      var row := ImageRow(advertisementId, publicUrl(path), order);
      assert e == Effect(Ok(row), stored.(images := db.images + [row]));
  }

  /** The body of `uploadImage`. */
  method UploadImage(store: Store, file: File, advertisementId: string, order: int,
                     upload: Reply<ServiceError>, insert: Reply<ServiceError>,
                     publicUrl: string -> string)
    returns (r: Result<ImageRow>)
    modifies store
    ensures Effect(r, store.State())
         == UploadImageOn(old(store.State()), file, advertisementId, order, upload, insert, publicUrl)
  {
    var fileExt := Extension(file.name);
    var fileName := FileName(advertisementId, order, fileExt);
    var filePath := "advertisements/" + fileName;
    if upload.Raised? {
      return Failed(upload.message);
    }
    if upload.value.Some? {
      return Failed(upload.value);
    }
    store.Upload(filePath, file.data, None);
    var url := publicUrl(filePath);
    match insert
    case Raised(m) =>
      r := Failed(m);
    case Answer(err) =>
      r := store.InsertImage(ImageRow(advertisementId, url, order), err);
  }
}
