# Marketplace sign-in, registration and profile guards, in Dafny

This project models the part of a Next.js marketplace front end that decides
who a user is and where they go. The front end talks to a hosted backend:
an auth provider, the `normal_user` and `business_owner` profile tables, the
`images` table and an `images` storage bucket.

- **Sign-in** (`app/login/page.tsx`). `handleSubmit` signs in with email and
  password. It ignores an "Email not confirmed" refusal and looks the
  submitted email up in both profile tables. A business row takes precedence
  over a normal row. With neither row, it writes a default `normal_user` row
  for the auth user. `handleTypeSelect` sends a new user to
  `/register?type=…`.
- **Registration** (`app/register/page.tsx`). A gate on the `type` query
  parameter comes first. `handleSubmit` then signs up, writes the profile row
  through `createUser`, signs out and returns to `/login`.
- **Data helpers** (`lib/supabase.ts`). `createUser` picks the table from the
  type and forces the row's id to the auth user's id. `uploadImage` derives a
  storage path from the advertisement, the order and the file's extension,
  uploads the file, and records an image row that points at the file's public
  URL.
- **Guards.** `checkUser` on `/business-dashboard` and on `/user-profile` shows
  the signed-in user's row from that page's table, and bounces every other
  case to `/login`.

## How the model is built

- **Backend state.** `Backend.Store` is a class with fields for the two
  profile tables, the image rows, the stored files and the session. Every
  handler that writes is a method with `modifies store`. Its `ensures` equates
  the new state, and the page state it leaves, with a function on the value
  snapshot `Backend.Db`, such as `Login.SubmitOn`, `Register.SubmitOn` or
  `Supabase.CreateUserOn`. The guards and the catch block of sign-in only
  read the store, so their methods have no `modifies` clause.
- **Remote calls.** Each awaited remote call answers with a reply supplied as
  a parameter (`Replies`), so every outcome of the service is covered.
  - A `Reply` is either an `Answer` or `Raised`. `Raised` is a rejected
    promise, which the awaiting code sees as a thrown error.
  - A table request answers `ServiceError`: `None` when the request was
    served, `Some(message)` when the store reported an error.
- **`.single()`.** It finds a row exactly when the email filter selects
  exactly one row (`Backend.Single`). Otherwise the query reports an error and
  `data` is `null`.
- **`try`/`catch`/`finally`.** A `try` block is modelled as a function or
  method returning `Routes.Step`: either the route it pushed, or the message
  of the error it threw. The `catch` block is a second function or method.
  `finally` appears as `loading == false` in every resulting view.
- **Page state.** The React state the handlers set (`error`, `loading`,
  `user`) and the route they push are the fields of each module's `View`.

## Model

| member | source | states |
|---|---|---|
| Js.Contains | app/login/page.tsx:30 | `message.includes(sub)`: `sub` is a prefix of the message or occurs in the rest of it |
| Js.ContainsIff | app/login/page.tsx:30 | `includes` holds exactly when `sub` occurs at some index of the text |
| Js.ErrorText | app/login/page.tsx:106 | `err.message \|\| fallback`: a present, non-empty message is shown as is; an absent or empty one gives the fallback |
| Js.NatToString | lib/supabase.ts:125 | for `order` below 10^21, its decimal text is non-empty and all digits, and has two or more digits exactly for numbers from 10 up |
| Js.NatToStringInjective | lib/supabase.ts:125 | distinct non-negative numbers have distinct decimal texts (the text being JavaScript's below 10^21) |
| Js.IntToString | lib/supabase.ts:125 | the text of an integer of magnitude below 10^21 in a template literal contains no '.' |
| Js.IntToStringInjective | lib/supabase.ts:125 | distinct integers have distinct texts (the text being JavaScript's below 10^21 in magnitude) |
| Routes.Href | app/login/page.tsx:114 | a registration route is pushed as `/register?type=` followed by the type |
| Backend.Db.Inserted | lib/supabase.ts:113-117 | a served insert appends the row to its table only; a refused insert changes nothing; images, files and session never change |
| Backend.Matching | app/login/page.tsx:35-38 | the `.eq('email', e)` filter never keeps more rows than the table has; which rows it keeps is `Backend.MatchingMembers`, and their table order is `Backend.MatchingAppend` |
| Backend.MatchingMembers | app/login/page.tsx:35-38 | `.eq('email', e)` keeps exactly the rows of the table whose email is `e`: each kept row is in the table with that email, each such row is kept, and none is kept when no row has the email |
| Backend.MatchingAppend | app/login/page.tsx:66-70 | appending a row adds it to the filter's result exactly when its email matches |
| Backend.Single | app/login/page.tsx:39 | `.single()` finds a row exactly when the filter selects exactly one, and that row is in the table with the email |
| Backend.SingleAppendOther | app/login/page.tsx:66-70 | a new row with another email does not change what `.single()` finds |
| Backend.SingleAppendFresh | app/login/page.tsx:66-70 | the first row written for an email is the one `.single()` finds afterwards |
| Backend.SingleAppendDuplicate | app/login/page.tsx:66-70 | a second row for an email that had one makes `.single()` find nothing |
| Backend.Select | app/business-dashboard/page.tsx:35-45 | a query has data exactly when the service answered and one row matched, and reports an error exactly when it has no data |
| Backend.Store.SelectByEmail | app/login/page.tsx:35-46 | without changing the store: data exactly when served and one current row of the table matches, that row has the email, the error is set exactly when there is no data, and the answer is `Select`'s on the current rows |
| Backend.Store.Insert | lib/supabase.ts:113-117 | returns the row when served and the store error otherwise; the new state is the old one with the row inserted when served |
| Backend.Store.InsertImage | lib/supabase.ts:138-146 | returns the image row when served and the error otherwise; a served insert appends the row to `images`, and nothing else changes |
| Backend.Store.Upload | lib/supabase.ts:128-130 | a served upload stores the bytes at the path, and nothing else changes |
| Backend.Store.SetSession | app/register/page.tsx:63 | the session becomes the given one (`None` for sign-out), and nothing else changes |
| Supabase.TableFor | lib/supabase.ts:112 | the table is `normal_user` exactly when the type is 'normal', and `business_owner` for every other value |
| Supabase.WithId | lib/supabase.ts:115 | the row's id is `userId`; every other column is copied from the fields |
| Supabase.IdNotSpoofable | lib/supabase.ts:115 | whatever `id` the caller's fields carry, the written row is the same |
| Supabase.CreateUserWritesOneRow | lib/supabase.ts:111-121 | `createUser` returns exactly when the insert is served; otherwise it throws and leaves the backend unchanged. What it returns is the inserted row, which is the one new row of the table its type selects; the other table, images, files and session never change |
| Supabase.CreateUserRethrows | lib/supabase.ts:119 | a store error is thrown with the store's own message, and nothing is written |
| Supabase.CreateUser | lib/supabase.ts:111-121 | the method's result and new state are those of `CreateUserOn` |
| Supabase.Extension | lib/supabase.ts:124 | the extension contains no '.', is a suffix of the name, and is either the whole name or preceded by a '.', so it is the text after the last '.' or the whole name when the name has no '.' |
| Supabase.FileName | lib/supabase.ts:125 | the file name is the advertisement id, '-', the decimal text of the order, '.', and the extension, in that order |
| Supabase.FilePath | lib/supabase.ts:124-126 | the storage path is exactly `advertisements/`, the advertisement id, '-', the order's text, '.', and the extension of the file's name |
| Supabase.PathDeterminesOrder | lib/supabase.ts:125-126 | two images of one advertisement with distinct orders never share a storage path, whatever their file names |
| Supabase.UploadGatesInsert | lib/supabase.ts:128-132 | a failed or thrown upload rethrows and leaves files and images untouched, so no image row is written |
| Supabase.UploadThenInsert | lib/supabase.ts:128-149 | after a served upload the file is at the path. The image row has the advertisement id, the public URL of that path and the order, and succeeds exactly when its insert is served. A failed insert leaves the uploaded file in place. Profile tables and session never change |
| Supabase.UploadImage | lib/supabase.ts:123-150 | the method's result and new state are those of `UploadImageOn` |
| Login.AfterSignIn | app/login/page.tsx:24-27 | signing in touches only the session: a granted sign-in stores its user's session, anything else leaves the session as it was; tables, images and files stay as they were |
| Login.Submittable | app/login/page.tsx:160-178 | the browser submits only with both `required` inputs, email and password, filled in |
| Login.Continues | app/login/page.tsx:30-32 | the flow goes on to the lookups exactly when sign-in granted a session or its refusal mentions "Email not confirmed" |
| Login.DefaultProfile | app/login/page.tsx:57-63 | the default profile has the auth user's id and email, name 'User', an empty phone, no image and no business columns |
| Login.Lookups | app/login/page.tsx:35-76 | the lookups and the redirect decision leave the step and the state of `Resolve` |
| Login.TrySignIn | app/login/page.tsx:23-77 | the try block leaves the step and the state of `SignInStep` |
| Login.HandleError | app/login/page.tsx:78-106 | the catch block reads the backend only, and leaves the view of `Recover` |
| Login.HandleSubmit | app/login/page.tsx:18-110 | one submission leaves the view and the state of `SubmitOn` |
| Login.HandleTypeSelect | app/login/page.tsx:112-115 | choosing a type pushes `/register?type=` followed by that type |
| Login.NotFoundIsNotUnconfirmed | app/login/page.tsx:75 | the not-found message does not contain "Email not confirmed", so the catch block does not retry it |
| Login.UnconfirmedEmailIgnored | app/login/page.tsx:29-32 | a refusal mentioning "Email not confirmed" is ignored: the flow goes on to the lookups |
| Login.RefusalShown | app/login/page.tsx:30-31 | any other refusal is thrown and its message is shown; nothing is written and the session is unchanged |
| Login.BusinessFirst | app/login/page.tsx:49-50 | a business row for the submitted email sends the user to `/business-dashboard` whatever the normal table holds; nothing is written |
| Login.NormalSecond | app/login/page.tsx:51-52 | without a business row, a normal row sends the user to `/user-profile`; nothing is written |
| Login.FailedLookupIsNotFound | app/login/page.tsx:35-46 | each lookup whose error is set, business or normal, independently of the other, decides like a served lookup in an empty table: lookup errors are never read |
| Login.DefaultProfileWritten | app/login/page.tsx:53-73 | with neither row and an auth user, exactly one row is written, into `normal_user`. It has the auth user's id and email, name 'User', an empty phone and no image. The user goes to `/user-profile` |
| Login.InsertResultIgnored | app/login/page.tsx:66-73 | a refused default-profile insert still sends the user to `/user-profile`, with no error shown and nothing written |
| Login.NoAuthUserFails | app/login/page.tsx:75 | with neither row and no auth user, the not-found message is shown and nothing is written |
| Login.RetryKeepsPrecedence | app/login/page.tsx:80-103 | in the catch block an unconfirmed-email error retries the lookups business first, then normal, and the error is shown only when both miss; a retry lookup answered with an error decides like a served lookup on an empty table |
| Login.OtherErrorsShown | app/login/page.tsx:105-106 | every other error shows its message, or 'An error occurred during login' when there is none or it is empty |
| Login.EveryRun | app/login/page.tsx:18-110 | after every run loading is cleared. A redirect goes to one of the two profile pages and carries no error text. The session is what sign-in left. Nothing but one default `normal_user` row for the session's user is ever written, and only when sign-in let the flow continue and the user is sent to `/user-profile` |
| Register.Submittable | app/register/page.tsx:119-206 | the browser submits only with email, password, full name and phone filled in, and, for the type 'business' only, business name and address too |
| Register.TypeGate | app/register/page.tsx:22-30 | a present, non-empty `type` is accepted unvalidated as the user type; otherwise the page pushes `/login` (and renders nothing, lines 75-77) |
| Register.ProfileData | app/register/page.tsx:49-58 | the profile always has the form's email, name and phone, no image and no id; it has the business name and address, from the form, exactly when the type is 'business' |
| Register.TrySignUp | app/register/page.tsx:37-66 | the try block leaves the step and the state of `SignUpStep` |
| Register.HandleSubmit | app/register/page.tsx:32-73 | a submittable form leaves the view and the state of `SubmitOn` |
| Register.SignUpFailureWritesNothing | app/register/page.tsx:39-46 | a sign-up error, a missing user or a thrown sign-up leaves the backend unchanged. It shows the error's message, 'Failed to create user', or 'An error occurred during registration' |
| Register.RegistrationCreatesProfile | app/register/page.tsx:60-66 | a successful registration writes one row, into the table its type selects, under the new auth user's id; it then signs out and pushes `/login` |
| Register.CreateUserFailureKeepsSession | app/register/page.tsx:60-72 | when `createUser` throws, neither sign-out nor redirect happens: the sign-up's session stays, nothing is written, the error is shown and loading is cleared |
| Register.UnknownTypeWritesBusinessTable | app/register/page.tsx:23-25 | an unvalidated type other than 'normal' and 'business' writes a row without business columns into `business_owner` |
| Register.BusinessNeedsAddress | app/register/page.tsx:190-206 | a business form with an empty address cannot be submitted |
| BusinessDashboard.CheckOn | app/business-dashboard/page.tsx:25-61 | loading is always cleared, and exactly one of "show a user" and "push `/login`" happens. A user is shown exactly when there is a session, the lookup is served and exactly one `business_owner` row has the session's email; that row is the user shown |
| BusinessDashboard.CheckUser | app/business-dashboard/page.tsx:25-61 | the guard reads the store only, and leaves the view of `CheckOn` |
| BusinessDashboard.NoSessionBounces | app/business-dashboard/page.tsx:27-32 | without a session the guard pushes `/login` whatever the lookup would answer |
| BusinessDashboard.OnlyBusinessTableRead | app/business-dashboard/page.tsx:35-39 | the contents of `normal_user` never affect the guard |
| UserProfile.CheckOn | app/user-profile/page.tsx:14-43 | as for the dashboard, with `normal_user` as the table consulted |
| UserProfile.CheckUser | app/user-profile/page.tsx:14-43 | the guard reads the store only, and leaves the view of `CheckOn` |
| UserProfile.NoSessionBounces | app/user-profile/page.tsx:16-21 | without a session the guard pushes `/login` whatever the lookup would answer |
| UserProfile.OnlyNormalTableRead | app/user-profile/page.tsx:24-34 | the contents of `business_owner` never affect the guard, so a user with only a business row is always bounced to `/login` |
| Flows.RejectedDefaultProfileBounces | app/login/page.tsx:66-73 | when the default profile is refused, sign-in still sends the user to `/user-profile`, and that page's guard then bounces them to `/login`, whatever its replies |
| Flows.AcceptedDefaultProfileShown | app/login/page.tsx:55-72 | when the default profile is written for an email new to `normal_user`, the profile guard shows that row |
| Flows.DuplicateRowsLoopForever | app/login/page.tsx:55-72 | once two `normal_user` rows share the email, each sign-in whose default-profile insert the store accepts writes one more default row, and the profile guard still bounces to `/login` |
| Flows.SecondSignInWritesNothing | app/login/page.tsx:42-52 | after an accepted default profile, a second sign-in with the same email goes straight to `/user-profile` and writes nothing |
| Flows.MismatchedEmailWritesAgain | app/login/page.tsx:42-70 | when the typed email differs from the auth user's email and the store accepts both inserts, repeating the same sign-in writes a second default row with the same id |
| Flows.RegisterThenSignIn | app/register/page.tsx:60-66 | after registering with a fresh email, signing in with it opens the page of the registered type, whose guard shows the registered row, keyed by the auth user's id |
| Flows.AnnRegistersAndSignsIn | app/register/page.tsx:49-66 | worked example: registering an individual account writes `Row("u1", "a@x.com", "Ann", "555", …)` and signs out; signing in then shows that row on `/user-profile` |

## Left out

- JSX rendering, styling and markup are not modelled. This covers the landing page, the header, the footer, the Tailwind configuration and the type popup's markup. `UserTypePopup` pushes the same route as `handleTypeSelect`.
- The diagnostic database page is not modelled. It calls `createUser` without a user id, which is outside the normal flow.
- Supabase client construction and environment variables are not modelled.
- `getAdvertisements`, `getAdvertisementById`, `getCategories` and `createAdvertisement` are not modelled. They are server-side queries with no local logic beyond throwing on error.
- The auth provider's internals are not modelled: password rules, duplicate-email detection and session storage. Their outcomes are the `Replies` parameters.
  - A refused sign-in is assumed to leave the session as it was.
  - A sign-up either opens a session for the new user or not.
  - `signOut` always succeeds and clears the session.
  - `getUser` and `getSession` either hand back the stored session's user or nothing.
- `.single()` is modelled as "exactly one row matches the filter". The client library itself is not reproduced.
- Storage upload mechanics are not modelled. `getPublicUrl` is a function parameter of the path.
- The image row's store-assigned `id` and `created_at` are not modelled.
- Js.IntToString: integers of magnitude 10^21 or more are printed digit by digit, whereas JavaScript prints them in exponent notation (`1e+21`, `1.5e+21`); the contract therefore describes JavaScript's text only below 10^21. Above 2^53 a JavaScript number also no longer holds every integer exactly, which the unbounded `int` does not model.
- Js.NatToString: the same bound applies; below 10^21 the digits are JavaScript's, from 10^21 up JavaScript prints exponent notation and the model does not.
- `order` is modelled as an integer only. JavaScript's text for a fractional or non-finite number is not modelled.
- A lookup that throws inside sign-in's catch block escapes the handler. It is modelled as a run with no route and an empty error text (after `finally` clears loading). The failed promise itself is not modelled.
- Async scheduling and concurrency are not modelled. This includes two devices signing in at once; the sequential model already shows the repeated insert when the store accepts it (`Flows.MismatchedEmailWritesAgain`).
- `console` logging is not modelled.
- The store model enforces no primary key on `id` (nor any other constraint): every served insert appends its row. A store that keys `normal_user` on `id` would refuse the second default row in `Flows.MismatchedEmailWritesAgain`; that refusal is the case `Login.InsertResultIgnored` covers.
- The HTML `type="email"` check on the inputs is not modelled. `Login.Submittable` and `Register.Submittable` only demand non-empty `required` inputs.
- The dashboard's local column names `business_nam` and `business_addr` (app/business-dashboard/page.tsx:14-15) differ from the names the helpers write. This affects display only and is not reconciled.
- `Routes.Href`: its contract pins down only the registration path. The three fixed paths are plain constants.
