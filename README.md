# Emerald site core, modelled in Dafny

Emerald is a counselling practice's Next.js site. This project models the
logic in its interactive parts and proves properties about that logic:

- **Navigation bar.** Resolves the visitor's role (admin, plain user or
  none) by comparing the signed-in email with the configured admin email,
  both lower-cased and trimmed. It also handles logout.
- **Admin page.** Lets the admin post a blog. It checks the admin by
  lower-case comparison only. Media files are uploaded under a timestamped
  key, and each submission runs validate, upload image, upload audio,
  insert, reset.
- **Blog listing.** Compares the admin email exactly. It shows a
  150-character excerpt and an author fallback, and deletes posts by id.
- **Comment thread.** A blank draft is dropped before the login check. The
  inserted row carries the trimmed text and a display-name fallback. Live
  insert events append to the list.
- **Booking endpoint.** Checks the required fields (400), stores a pending
  booking (200 with its id), and maps anything thrown to 500.
- **Certificate generator.** Shows the date in reversed-field order and
  falls back to placeholders.
- **Profile page.** Handles the auth callback, guards the email and
  password changes, maps error messages to text, and shows an avatar
  letter.

Every hosted service whose reply the code reads (Firebase auth, Firestore,
Supabase storage and tables, `confirm`, `Date.now()`) is a parameter that
supplies the service's outcome. A handler returns the sequence of effects it
produces, in order: an alert, a navigation, or a call to a service. The
router is not a parameter: a navigation is an output, either a `Navigate`
effect or a `navigateTo` result. Stateful components
are classes whose fields are the React state. The shared modules are:

- `Common`: option and result types, thrown values, truthiness and `||`
  fallbacks, effects.
- `Text`: JavaScript's `trim`, `toLowerCase`/`toUpperCase`, `split`/`join`,
  `reverse` and decimal numerals.
- `AdminChecks`: relates the site's three different admin tests.

## Model

| member | source | states |
|---|---|---|
| Text.Trim | src/app/components/commentssection.tsx:81 | the result is empty exactly when the input is all whitespace (the ECMAScript whitespace and line-terminator set); otherwise it starts and ends with non-whitespace and is no longer than the input |
| Text.TrimSlice | src/app/components/commentssection.tsx:81 | the result is the slice of the input between a whitespace-only prefix and a whitespace-only suffix; with the ends being non-whitespace (Text.Trim), these are the longest such prefix and suffix |
| Text.TrimPadded | src/app/components/Navbar.tsx:24-25 | whitespace added around a string does not change its trimmed form |
| Text.TrimIdempotent | src/app/components/commentssection.tsx:90 | trimming twice is trimming once |
| Text.ToLower | src/app/admin/page.tsx:25 | keeps the length, maps each character through the letter mapping, and keeps blankness |
| Text.ToLowerIdempotent | src/app/components/Navbar.tsx:24-25 | lower-casing twice is lower-casing once |
| Text.LowerChar | src/app/admin/page.tsx:25 | an upper-case ASCII letter becomes the lower-case letter at the same place in the alphabet; every other character is unchanged; the result is never an upper-case letter and is whitespace exactly when the input is |
| Text.UpperChar | src/app/components/Profilepage.tsx:110 | a lower-case ASCII letter becomes the upper-case letter at the same place in the alphabet; every other character is unchanged; the result is never a lower-case letter |
| Text.Split | src/app/certificate/page.tsx:108 | `split` yields at least one part and no part contains the separator |
| Text.JoinSplit | src/app/certificate/page.tsx:108 | joining the parts of a split with the same separator gives back the string |
| Text.SplitJoin | src/app/certificate/page.tsx:108 | splitting a join of separator-free parts gives back the parts |
| Text.Reverse | src/app/certificate/page.tsx:108 | `reverse` keeps the length and puts element i at position n-1-i |
| Text.Decimal | src/app/admin/page.tsx:39 | the decimal numeral of a timestamp is a non-empty digit string with no leading zero, except the numeral "0" of zero itself |
| Text.ParseDecimalOfDecimal | src/app/admin/page.tsx:39 | the numeral reads back as the number it was made from |
| Text.DecimalInjective | src/app/admin/page.tsx:39 | different timestamps have different numerals |
| Common.Or | src/app/components/blogpage.tsx:172 | a JavaScript or-fallback on a string gives the string when it is present and non-empty, and the fallback otherwise |
| Common.MessageOf | src/app/api/book-session/route.ts:40-43 | a caught Error gives its message; any other thrown value gives the fallback |
| Navbar.Normalized | src/app/components/Navbar.tsx:24-25 | the lower-cased, trimmed email is empty exactly when the email is blank |
| Navbar.RoleFor | src/app/components/Navbar.tsx:24-36 | admin exactly when both emails are present, non-blank and equal once normalized; no role exactly when there is no user, no email or a blank email; never admin when the admin email is unset or blank |
| Navbar.RoleIgnoresCaseAndPadding | src/app/components/Navbar.tsx:24-30 | padding the user's email with whitespace and changing its letter case never changes the role |
| Navbar.NavbarState.ShowsAdminLinks | src/app/components/Navbar.tsx:61-64 | in a state whose role is the resolved one (or cleared by logout), the "Admin" and "Certificate" links show only for a signed-in user with a non-blank email equal to the configured admin email once both are lower-cased and trimmed |
| Navbar.NavbarState.OnAuthStateChanged | src/app/components/Navbar.tsx:21-36 | stores the reported user and sets the role to the resolved one |
| Navbar.NavbarState.HandleLogout | src/app/components/Navbar.tsx:42-46 | after sign-out succeeds the role is cleared and the app goes to "/"; a failed sign-out changes nothing and does not navigate; the stored user is untouched |
| AdminPage.IsAdmin | src/app/admin/page.tsx:25 | the page's admin test holds exactly when there is a user with an email of the admin email's length that agrees with it character by character up to ASCII letter case; an exact match always passes |
| AdminPage.AdminPostForm.OnAuthStateChanged | src/app/admin/page.tsx:24-30 | the page admits the user exactly when the lower-cased emails are equal (nothing trimmed), and renders the form only then (line 113); everyone else is sent to "/" |
| AdminPage.StorageKey | src/app/admin/page.tsx:39 | the key is the decimal timestamp, a hyphen, then the file name |
| AdminPage.StorageKeyInjective | src/app/admin/page.tsx:39 | a key determines its timestamp and file name |
| AdminPage.UploadedUrl | src/app/admin/page.tsx:41-61 | an upload yields a URL exactly when storage reported no error and a non-empty public URL came back, and the URL is that public URL |
| AdminPage.UploadEffectsCalls | src/app/admin/page.tsx:82-83 | a selected file causes exactly one upload call, to bucket "blog_media" under its timestamped key; no file causes none |
| AdminPage.AdminPostForm.UploadToStorage | src/app/admin/page.tsx:36-65 | progress goes to 10, then to 100 only on success; the result is the uploaded URL or null, with an alert on failure |
| AdminPage.BlankSubmissionCallsNothing | src/app/admin/page.tsx:71-74 | a blank title or content yields just the "required" alert and calls no service |
| AdminPage.SubmissionCallOrder | src/app/admin/page.tsx:82-94 | a valid submission calls the image upload (if an image was selected), then the audio upload (if selected), then the insert, even when an upload failed |
| AdminPage.SubmittedRowContents | src/app/admin/page.tsx:86-94 | the inserted row has the trimmed, non-empty title and content, likes 0, and each media URL present exactly when its file was selected and its upload succeeded |
| AdminPage.SubmittedRow | src/app/admin/page.tsx:86-94 | the inserted row has the trimmed title and content and likes 0; a media URL is null when no file was selected, and otherwise the URL its upload yielded |
| AdminPage.SubmitEffects | src/app/admin/page.tsx:68-111 | a blank title or content gives only the "required" alert; otherwise the insert of the submitted row is followed by the failure alert with the error's message, or by the success alert and then the move to "/blog" |
| AdminPage.AdminPostForm.HandleSubmit | src/app/admin/page.tsx:68-111 | the effects are exactly the submission's effects; a blank field changes no state; otherwise loading ends false and progress 0, and the form is cleared only when the insert succeeded |
| BlogPage.IsAdmin | src/app/components/blogpage.tsx:42 | the listing's admin test holds exactly when a user is signed in, the admin email is configured and the user's email equals it character for character; never without a configured admin email |
| BlogPage.BlogPageState.OnAuthStateChanged | src/app/components/blogpage.tsx:41-47 | admin exactly when the user's email equals the configured admin email character for character |
| BlogPage.BlogPageState.FetchBlogs | src/app/components/blogpage.tsx:25-35 | a query error keeps the list, a reply replaces it (no data gives the empty list), and loading ends |
| BlogPage.Excerpt | src/app/components/blogpage.tsx:115-117 | content of at most 150 characters is shown whole; longer content shows its first 150 characters then "...", never more than 153 |
| BlogPage.AuthorLabel | src/app/components/blogpage.tsx:172 | the author when non-empty, "Admin" otherwise |
| BlogPage.RemoveById | src/app/components/blogpage.tsx:69 | the kept entries all come from the list and none has the deleted id |
| BlogPage.RemoveByIdAppend | src/app/components/blogpage.tsx:69 | filtering distributes over concatenation, so kept entries stay in order |
| BlogPage.RemoveByIdKeepsOthers | src/app/components/blogpage.tsx:69 | every entry with another id is kept, as many times as it occurred |
| BlogPage.RemoveAbsentId | src/app/components/blogpage.tsx:69 | deleting an id no entry has leaves the list unchanged |
| BlogPage.RemoveByIdIdempotent | src/app/components/blogpage.tsx:69 | deleting the same id twice is deleting it once |
| BlogPage.BlogPageState.Open | src/app/components/blogpage.tsx:122 | "Read More" opens that post |
| BlogPage.BlogPageState.Close | src/app/components/blogpage.tsx:150 | the close button closes the open post |
| BlogPage.BlogPageState.HandleDelete | src/app/components/blogpage.tsx:53-72 | a non-admin only gets the permission alert; an unconfirmed delete does nothing; a failed delete alerts; a successful one removes every entry with the id and closes the post; only success changes state |
| CommentSection.Subscribed | src/app/components/commentssection.tsx:58-66 | the live channel delivers only INSERT events on the "comments" table whose row belongs to this post |
| CommentSection.SubmitEnabled | src/app/components/commentssection.tsx:120 | the submit button is enabled exactly when a user id is present and non-empty and the draft is not all whitespace |
| CommentSection.DisplayName | src/app/components/commentssection.tsx:36 | the full name when non-empty, "Anonymous" otherwise, never empty |
| CommentSection.CheckComment | src/app/components/commentssection.tsx:81-94 | a blank draft is dropped before the login check; with a draft and no user the login alert follows; otherwise the row has the post id, the trimmed non-empty text, the user id and the display name; it proceeds exactly when the submit button is enabled |
| CommentSection.LiveAppend | src/app/components/commentssection.tsx:56-70 | delivered events only append to the list, keep what was there, and append only rows of this post |
| CommentSection.LiveAppendConcat | src/app/components/commentssection.tsx:66-68 | delivering two runs of events in turn equals delivering them together |
| CommentSection.LiveAppendOne | src/app/components/commentssection.tsx:58-68 | an INSERT on public.comments for this post appends exactly its row at the end; any other event changes nothing |
| CommentSection.CommentSectionState.LoadUser | src/app/components/commentssection.tsx:30-37 | a reported user sets the id and the display name; no user leaves both |
| CommentSection.CommentSectionState.LoadComments | src/app/components/commentssection.tsx:40-50 | a query error keeps the list; otherwise the reply (or the empty list) replaces it |
| CommentSection.CommentSectionState.OnChange | src/app/components/commentssection.tsx:66-68 | the list becomes the live delivery of the event |
| CommentSection.CommentSectionState.HandleCommentSubmit | src/app/components/commentssection.tsx:78-102 | a blank draft does nothing; without a user only the login alert; otherwise one insert of the checked row, and the draft is cleared only when the insert succeeded |
| BookSession.Post | src/app/api/book-session/route.ts:13-51 | the status is 200, 400 or 500, and the reply is a creation exactly for 200; 200 exactly when the body parsed, the required fields are there and the store returned, and the reply then carries the new id; a document is handed to the store exactly when the body parsed with the required fields, and it is the request's record |
| BookSession.BookingRecord | src/app/api/book-session/route.ts:28-35 | the stored booking has the name, email and phone as sent, the message or "", and status "pending" |
| BookSession.ErrorResponse | src/app/api/book-session/route.ts:38-49 | status 500 with the Error's message, or "Unknown error" for any other thrown value |
| BookSession.MissingFieldRejected | src/app/api/book-session/route.ts:20-25 | a missing or empty name, email or phone gives 400 "Missing required fields" and stores nothing |
| BookSession.SuccessIff | src/app/api/book-session/route.ts:16-37 | the reply is 200 exactly when the body parsed, the required fields are there and the store returned; it then carries the new id and the stored document is the request's record |
| BookSession.StatusCodes | src/app/api/book-session/route.ts:13-51 | the status is 200, 400 or 500, and the reply reports success exactly for 200 |
| BookSession.ThrownGives500 | src/app/api/book-session/route.ts:38-49 | a throw while parsing or storing gives 500 with the Error's message or "Unknown error" |
| BookSession.WhitespaceNameAccepted | src/app/api/book-session/route.ts:20 | fields are not trimmed: a name of spaces passes and is stored as sent |
| Certificate.DisplayDateDayFirst | src/app/certificate/page.tsx:108 | a date input value "yyyy-mm-dd" is shown as "dd-mm-yyyy" |
| Certificate.DisplayDateInvolutive | src/app/certificate/page.tsx:108 | reformatting the shown form of a non-empty date gives back the date |
| Certificate.DisplayDate | src/app/certificate/page.tsx:108 | an empty date shows "01-07-2025"; a non-empty one shows its hyphen-separated fields in reverse order |
| Certificate.FirstName | src/app/certificate/page.tsx:90 | the first name when entered, else the placeholder "Recipient Name 1" |
| Certificate.RecipientLines | src/app/certificate/page.tsx:90-96 | "&" and the second name appear exactly when a second name was entered |
| ProfilePage.LongEnough | src/app/components/Profilepage.tsx:61 | a password passes the length guard exactly from 6 characters on: 6 passes, 5 does not, and an empty one never does |
| ProfilePage.ErrorText | src/app/components/Profilepage.tsx:45-50 | the Error's message, or "An unknown error occurred." for any other thrown value |
| ProfilePage.OutcomeAlert | src/app/components/Profilepage.tsx:66-75 | the success text when the update returned, the error text when it threw |
| ProfilePage.AvatarInitial | src/app/components/Profilepage.tsx:110 | nothing without a user or an email; otherwise at most one character, empty only for an empty email, and else the upper-cased first character |
| ProfilePage.ProfileState.OnAuthStateChanged | src/app/components/Profilepage.tsx:24-31 | no user: go to "/" and keep the state; a user: record it and its email, or "" when it has none |
| ProfilePage.ProfileState.EditEmail | src/app/components/Profilepage.tsx:125 | the email field takes the typed value |
| ProfilePage.ProfileState.EditPassword | src/app/components/Profilepage.tsx:141 | the password field takes the typed value |
| ProfilePage.ProfileState.HandleEmailChange | src/app/components/Profilepage.tsx:39-52 | no user: nothing at all; otherwise one email update for the user and the outcome alert |
| ProfilePage.ProfileState.HandlePasswordChange | src/app/components/Profilepage.tsx:55-76 | no user: only the no-user alert; fewer than 6 characters: only the length alert; otherwise the update then the outcome alert; a service is called exactly when a user is present and the password is long enough |
| ProfilePage.ProfileState.HandleLogout | src/app/components/Profilepage.tsx:35-38 | sign out, then go to "/" only if signing out returned |
| AdminChecks.ListingAdminIsPageAdmin | src/app/components/blogpage.tsx:42 | whoever the listing treats as admin, the admin page (src/app/admin/page.tsx:25) admits too |
| AdminChecks.PageAdminIsNavbarAdmin | src/app/admin/page.tsx:25 | whoever the admin page admits with a non-blank email, the navigation bar (Navbar.tsx:30) treats as admin |
| AdminChecks.CaseOnlyDifference | src/app/components/blogpage.tsx:42 | "Admin@x.com" against "admin@x.com": the admin page admits, the listing does not |
| AdminChecks.LeadingSpaceDifference | src/app/admin/page.tsx:25 | an email with a leading space: the navigation bar shows the admin links, the admin page turns the user away |

## Left out

- Hosted services (Firebase auth and Firestore, Supabase storage, tables
  and real-time channels) are not modelled. Each call's outcome is a
  parameter, and the order in which asynchronous replies arrive is not
  modelled.
- Subscription cleanup (the unsubscribe functions and `removeChannel`),
  `console` logging and all rendering other than the values listed above
  are left out.
- Text.LowerChar, Text.UpperChar: only ASCII letters change case. The
  full Unicode case mapping of `toLowerCase`/`toUpperCase` is not modelled.
- String lengths and indexes count code points rather than UTF-16 code
  units. This affects, for text outside the Basic Multilingual Plane,
  `BlogPage.Excerpt`'s 150-character cut, `ProfilePage.LongEnough`'s
  6-character minimum, and `ProfilePage.AvatarInitial`: for an email whose
  first character lies outside that plane, `charAt(0)` yields a lone
  surrogate, while the model yields the whole first character.
- AdminPage.AdminPostForm.UploadToStorage: the `finally` timer that resets
  the progress to 0 one second later is not modelled. It is a deferred
  callback, and `handleSubmit` resets the progress to 0 itself.
- AdminPage.AdminPostForm.HandleSubmit: the failure alert shows
  `err.message`. The case where the error has an empty message and the
  alert shows the error object's string form is not modelled.
- The admin page's `ADMIN_EMAIL` is a configured string (the code asserts
  it is defined). The navigation bar and the listing take it as optional.
- BookSession.Post: the body's fields are strings or absent. JSON values
  of other types are not modelled. A body that fails to parse, or that is
  `null` so that destructuring throws, is the `Threw` outcome of parsing.
- `Timestamp.now()`, `Date.now()` and `new Date(...).toLocale...` formatting
  are not modelled. The clock readings are parameters, and the
  locale-formatted dates on cards and comments are not modelled.
- The PDF export of the certificate (`html2canvas`, `jsPDF`) and the
  profile picture's `FileReader` read are not modelled. Both are browser
  rendering and file APIs.
- The upload-media route, the payment-instructions page and `next.config`
  are not part of this model.
