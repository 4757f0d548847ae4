# Corporate training portal: access control, sign-in and admin page logic

This project models the decision logic of a corporate training portal's web
front end. The portal is a Next.js application: administrators manage
teachers, categories, courses and employees, and employees enrol in courses.
Persistence, enrolment expiry and reset-token handling happen in a separate
PHP back end, which is not part of this model. The front end's own logic is
modelled and proved here:

- **Access controller** (`proxy.ts`, module `Proxy`). Every request is
  classified from its pathname and the optional session token. The outcome is
  one of three: let it through, send it to `/login` with a `callbackUrl`, or
  send it to the role's home page. The rules are an ordered chain in which the
  first matching rule decides: assets, then the unauthenticated rule, then
  public pages while signed in, then the admin-area guard, then the root.
  Prefix semantics are kept exactly as the code has them (`startsWith`, any
  `.` in the path).
- **Credential sign-in** (`auth.ts`, module `Auth`). `authorize` decides
  between no user and a user record. The decision rests on the credential
  schema, the e-mail lookup, whether a password is set, and the hash
  comparison. The `jwt` and `session` callbacks copy `id` and `ruolo` into
  the token and then into the session. They mutate their argument objects,
  so the token and the session are classes, and the callbacks are methods
  with `modifies` clauses. During sign-in, `jwt` stamps the claims only when
  `authorize` returns a user. Later session reads run `jwt` with no user, which
  leaves the token unchanged, and then `session`. `Auth.SignIn` combines a
  sign-in with the first session read that follows it.
- **Login action** (`app/actions/auth.ts`, module `AuthActions`). It maps the
  sign-in outcome to a message or rethrows the error.
- **Password policy and set-password form** (`app/set-password/page.tsx`,
  module `SetPassword`). `validatePassword` is an ordered checklist. The
  submit handler updates `status` and `message` step by step.
- **Admin pages** (modules `Categorie`, `Iscrizioni`, `Corsi`, `Docenti`,
  `Dipendenti`) and the **employee catalogue** (module `CorsiDisponibili`).
  These cover the case-insensitive list searches, the combined category
  filter, the delete-disabled rule, the status badge and label tables, and
  how each save request is built (checkbox encoding, `null` for an empty
  selection, `id` on edit, create vs. update endpoint). They also cover the
  course image-path choice around the upload and the activation-link dialog.

Helper modules: `Wrappers` (Option), `Text` (`startsWith`, `includes`,
ASCII `toLowerCase`, decimal `toString` and its inverse), `Lists`
(`Array.prototype.filter` and the subsequence order it keeps), `Forms`
(a submitted `FormData` as a map, JavaScript truthiness, the endpoint choice)
and `Types` (`Ruolo`, `Dipendente`).

The e-mail syntax check and the bcrypt comparison are treated as unknown
predicates. They are passed to `Auth.Authorize` as `isEmail` and `compare`.
Some HTTP calls are modelled by a parameter that stands for their answer:
the course image upload, the set-password request, and the employee save and
reset requests. The other calls are not modelled. These are the list reads,
the deletes, and the replies to the category, teacher and course saves. For
those saves, the model stops at the request the page builds.

One framework behaviour is stated explicitly, because the login message
depends on it. When `authorize` returns no user, the credentials sign-in
throws an `AuthError` of type `CredentialsSignin`. This is modelled as
`AuthActions.CredentialsSignIn`.

## Model

| member | source | states |
|---|---|---|
| `Text.StartsWith` | proxy.ts:13-15 | `startsWith` holds iff the prefix occurs at position 0 |
| `Text.Includes` | proxy.ts:16 | `includes` holds iff the needle occurs at some position |
| `Text.Lower` | app/admin/categorie/page.tsx:62 | lower-casing keeps the length and lower-cases each character in place |
| `Text.LowerIdempotent` | app/admin/categorie/page.tsx:62 | lower-casing twice is the same as lower-casing once |
| `Text.ContainsIgnoringCaseOfLowered` | app/admin/iscrizioni/page.tsx:43-45 | a search term matches exactly when its lower-cased form does |
| `Text.EmptyTermMatchesAll` | app/admin/categorie/page.tsx:62 | the empty search term is contained in every field |
| `Text.NatToString` | auth.ts:60 | an id's `toString()` is a non-empty digit string with no leading zero |
| `Text.ParseNatToString` | auth.ts:60 | reading the id string back as a number gives the id |
| `Text.NatToStringInjective` | app/admin/docenti/page.tsx:179 | distinct ids are sent as distinct strings |
| `Lists.Filter` | app/admin/categorie/page.tsx:61-69 | `filter` keeps every occurrence of each element satisfying the condition and no other element (equal multisets restricted to the condition), in input order (a subsequence), and drops nothing when all satisfy it |
| `Lists.FilterNarrowing` | app/admin/categorie/page.tsx:64-68 | a stricter condition keeps a subsequence of what a looser one keeps |
| `Forms.Get` | app/admin/categorie/page.tsx:211 | `formData.get` is a value iff the field was submitted, and then it is that field's value |
| `Forms.OrNull` | app/admin/corsi/page.tsx:105 | `value \|\| null` is the value when it is non-empty and `null` otherwise |
| `Forms.EndpointIsUpdateIffEditing` | app/admin/categorie/page.tsx:215 | the endpoint is `update.php` iff editing and `create.php` iff creating |
| `Proxy.SomeStartsWith` | proxy.ts:29 | `routes.some(r => path.startsWith(r))` holds iff some route is a prefix of the path |
| `Proxy.Decide` | proxy.ts:8-62 | assets always pass; nobody without a token passes to a non-public page; nobody but an admin passes to `/admin…`; the login redirect is only for tokenless callers and carries the pathname; every other redirect goes to the caller's role home |
| `Proxy.DecideMatchesPolicy` | proxy.ts:12-61 | the ordered chain lets a request through iff the declarative access policy permits it |
| `Proxy.DottedPathsPassThrough` | proxy.ts:12-19 | any path containing `.` passes, whatever the token, even under `/admin` |
| `Proxy.UnauthenticatedPrivateGoesToLogin` | proxy.ts:29-33 | without a token, a non-asset path matching no public route goes to `/login` with `callbackUrl` equal to the pathname |
| `Proxy.AuthenticatedPublicGoesHome` | proxy.ts:37-42 | with a token, a public path goes to `/admin/dashboard` for `admin` and to `/corsi-disponibili` otherwise |
| `Proxy.AdminAreaNotPublic` | proxy.ts:6 | no path under `/admin` is public |
| `Proxy.NonAdminInAdminAreaGoesToEmployeeHome` | proxy.ts:46-51 | a token whose role is not `admin` is sent from `/admin…` to `/corsi-disponibili` |
| `Proxy.AdminInAdminAreaPassesThrough` | proxy.ts:46-61 | an admin token passes through the admin area |
| `Proxy.RootIsPrivate` | proxy.ts:6-16 | `/` is neither an asset nor a public path |
| `Proxy.RootRedirects` | proxy.ts:29-59 | `/` is never served: with no token it goes to login, with a token to that role's home |
| `Proxy.PublicByPrefix` | proxy.ts:37 | any path starting with a public route counts as public |
| `Proxy.LoginSubpathIsPublic` | proxy.ts:6 | `/login/anything` is public |
| `Proxy.OtherwiseNext` | proxy.ts:61 | a signed-in request that no rule catches passes through unchanged |
| `Auth.FindByEmail` | auth.ts:45-52 | the lookup finds nothing iff no row has the e-mail, and otherwise the first row with it |
| `Auth.Authorize` | auth.ts:36-69 | a user is returned only for valid credentials and a row with that e-mail, a password set and a matching hash, and that user is built from the row |
| `Auth.InvalidCredentialsRejected` | auth.ts:37-41 | credentials failing the schema give no user |
| `Auth.UnknownEmailRejected` | auth.ts:45-52 | no matching row gives no user |
| `Auth.NoPasswordNeverAuthorized` | auth.ts:55-68 | a row whose password is unset or empty is never authorised, whatever is submitted |
| `Auth.WrongPasswordRejected` | auth.ts:56-68 | a failed hash comparison gives no user |
| `Auth.CorrectPasswordAuthorized` | auth.ts:58-64 | on success the user has the row id as a string, `nome + " " + cognome`, the e-mail and the role |
| `Auth.Jwt` | auth.ts:74-80 | with a user, the token gets its `id` and `ruolo`; without one, the token is unchanged |
| `Auth.SessionCallback` | auth.ts:82-88 | `session.user` gets the token's `id` and `ruolo`; name and e-mail are untouched |
| `Auth.SignIn` | auth.ts:36-88 | `jwt` stamps claims only after `authorize` returns a user. Then the token's and the session's id and role are those of the returned user, which are the id string and role name of the first row with the e-mail, the session's name and e-mail are unchanged, and the access controller treats the token as admin iff the row's role is admin. When no user is returned, neither the token nor the session changes |
| `AuthActions.Authenticate` | app/actions/auth.ts:12-42 | a sign-in that does not throw yields success; only `AuthError`s become messages, one of the two fixed texts; other errors are rethrown unchanged |
| `AuthActions.CredentialsSigninMessage` | app/actions/auth.ts:33-34 | `CredentialsSignin` yields "Credenziali non valide." |
| `AuthActions.OtherAuthErrorMessage` | app/actions/auth.ts:35-36 | any other `AuthError` type yields "Qualcosa è andato storto." |
| `AuthActions.UnknownEmailLooksLikeWrongPassword` | app/actions/auth.ts:33-34 | an unknown e-mail and a wrong password give the same message |
| `SetPassword.AnyChar` | app/set-password/page.tsx:26-35 | a character-class regex test holds iff some character is in the class |
| `SetPassword.ValidatePassword` | app/set-password/page.tsx:22-39 | no error iff length ≥ 8 and an upper-case letter, a lower-case letter, a digit and a listed special character are all present; otherwise one of the five messages |
| `SetPassword.FirstFailingCheckReported` | app/set-password/page.tsx:23-37 | the first failing check decides the message: length, upper case, lower case, digit, special |
| `SetPassword.HyphenAndUnderscoreNotSpecial` | app/set-password/page.tsx:35 | `-` and `_` are not special characters |
| `SetPassword.HyphenatedPasswordRejected` | app/set-password/page.tsx:35 | a password of letters, digits, `-` and `_` only never passes |
| `SetPassword.ExclamationPasswordAccepted` | app/set-password/page.tsx:22-39 | `Passw0rd!` passes |
| `SetPassword.SubmitCheckOrder` | app/set-password/page.tsx:46-65 | `SubmitCheck` (the checks of `handleSubmit`) reports a weak password before a mismatch, and a mismatch before a missing token |
| `SetPassword.SubmitsIffAllChecksPass` | app/set-password/page.tsx:47-75 | `SubmitCheck` allows the request iff the password is strong, equals the confirmation and a token is present |
| `SetPassword.SetPasswordForm.HandleSubmit` | app/set-password/page.tsx:41-86 | a failing check sets the error and its message and sends nothing; otherwise exactly one request with the token and password is sent, and the reply decides success or the error message |
| `Categorie.FilterCategorie` | app/admin/categorie/page.tsx:61-69 | a row is kept iff its name contains the term (ignoring case), it is active or the toggle is off, and it has no courses or the toggle is off; each kept row appears as often as in the input, and order is kept |
| `Categorie.NoFiltersKeepsAll` | app/admin/categorie/page.tsx:62-66 | an empty search with both toggles off keeps every row |
| `Categorie.TogglingOnNarrows` | app/admin/categorie/page.tsx:64-68 | switching a toggle on never adds rows |
| `Categorie.WithoutCoursesAllDeletable` | app/admin/categorie/page.tsx:180-182 | every row shown with "without courses" on has its delete button enabled (`DeleteDisabled`: disabled iff `n_corsi > 0`) |
| `Categorie.BuildSave` | app/admin/categorie/page.tsx:209-215 | `attivo` is 1 iff the box is ticked and 0 otherwise; `update.php` iff editing; `id` present iff editing, and then the edited id |
| `Iscrizioni.FilterIscrizioni` | app/admin/iscrizioni/page.tsx:42-46 | a row is kept iff the term is in the surname, first name or course title (ignoring case); each kept row appears as often as in the input, and order is kept |
| `Iscrizioni.EmptySearchKeepsAll` | app/admin/iscrizioni/page.tsx:42-46 | an empty term drops nothing |
| `Iscrizioni.BadgeVariant` | app/admin/iscrizioni/page.tsx:54-61 | `In corso`→blue, `Completato`→success, `Scaduto`→danger, anything else→neutral, each iff |
| `Iscrizioni.FormatDate` | app/admin/iscrizioni/page.tsx:48-51 | an empty date shows `-`; any other is shown as that date |
| `Iscrizioni.CompletionColumn` | app/admin/iscrizioni/page.tsx:126-133 | the completion date and duration are shown iff `data_completamento` is set; otherwise `-` |
| `CorsiDisponibili.ParseStato` | app/corsi-disponibili/page.tsx:23 | a recognised state name is the name of the state it reads as |
| `CorsiDisponibili.ParseStatoName` | app/corsi-disponibili/page.tsx:23 | every state reads back from its name |
| `CorsiDisponibili.ParseStatoOnlyNames` | app/corsi-disponibili/page.tsx:23 | exactly the four names are states |
| `CorsiDisponibili.StatusBadgeLabels` | app/corsi-disponibili/page.tsx:203-208 | `Label` maps disponibile→Nuovo, in_corso→In Corso, completato→Completato, scaduto→Scaduto |
| `CorsiDisponibili.BadgesDistinguishStates` | app/corsi-disponibili/page.tsx:196-208 | distinct states have distinct badge labels (`Label`) and styles (`BadgeStyle`) |
| `CorsiDisponibili.ActionLabel` | app/corsi-disponibili/page.tsx:168 | the button reads "Iscriviti" iff the course is available, "Vai al corso" otherwise |
| `CorsiDisponibili.ActionStyle` | app/corsi-disponibili/page.tsx:163-166 | the primary blue style is used iff the course is available |
| `CorsiDisponibili.CounterValue` | app/corsi-disponibili/page.tsx:91-118 | a counter shows 0 when the data or the field is missing, and the field's value otherwise |
| `CorsiDisponibili.DashboardUserId` | app/corsi-disponibili/page.tsx:42-46 | the dashboard is fetched iff the session carries a non-empty user id, and then for that id |
| `Corsi.FilterCorsi` | app/admin/corsi/page.tsx:169-171 | a course is kept iff its title contains the term (ignoring case); each kept row appears as often as in the input, and order is kept |
| `Corsi.EmptySearchKeepsAll` | app/admin/corsi/page.tsx:169-171 | an empty term drops nothing |
| `Corsi.HandleSubmit` | app/admin/corsi/page.tsx:75-129 | a failed upload gives its alert and no save request; otherwise the image path is the upload's path, else the course's own, else empty; an empty category is `null`; `titolo`, `descrizione`, `docente_id`, `giorni_completamento` and `video_url` are the submitted fields; `attivo` is 1 iff ticked; `id` is present iff editing; `update.php` iff editing |
| `Docenti.FilterDocenti` | app/admin/docenti/page.tsx:62-65 | a teacher is kept iff the term is in the first name or surname (ignoring case); each kept row appears as often as in the input, and order is kept |
| `Docenti.BuildRequest` | app/admin/docenti/page.tsx:173-181 | the payload is the form's fields with `attivo` overwritten by '1' iff ticked else '0', and `id` set to the edited id's string when editing; `update.php` iff editing |
| `Dipendenti.FilterDipendenti` | app/admin/dipendenti/page.tsx:122-125 | an employee is kept iff the term is in the surname or e-mail (ignoring case); each kept row appears as often as in the input, and order is kept |
| `Dipendenti.FirstNameNotSearched` | app/admin/dipendenti/page.tsx:122-125 | a match on the first name alone does not keep a row |
| `Dipendenti.BuildRequest` | app/admin/dipendenti/page.tsx:48-55 | the payload is exactly the form's fields, plus `id` as the edited id's string when editing; `update.php` iff editing |
| `Dipendenti.DipendentiPage.ShowsForm` | app/admin/dipendenti/page.tsx:246 | the form is never shown while a link is on display |
| `Dipendenti.DipendentiPage.OneDialogAtATime` | app/admin/dipendenti/page.tsx:215-246 | the activation-link dialog and the employee form are never both on screen |
| `Dipendenti.DipendentiPage.OpenForm` | app/admin/dipendenti/page.tsx:136-194 | opening the form, for a new employee or from a row, records which employee is edited |
| `Dipendenti.DipendentiPage.HandleSubmit` | app/admin/dipendenti/page.tsx:48-78 | the payload is exactly the submitted fields, plus `id` as the edited id's string when editing; a successful reply with `debug_link` puts the link on display and hides the form; without one the form closes; failures only alert |
| `Dipendenti.DipendentiPage.ResetPassword` | app/admin/dipendenti/page.tsx:95-110 | a `debug_link` in the answer is displayed whatever the status; a transport failure only alerts |
| `Dipendenti.DipendentiPage.CloseMagicLink` | app/admin/dipendenti/page.tsx:235-236 | closing the link dialog clears the link and closes the form |

## Left out

- `fetch`, the JSON parsing of responses, `alert`, `confirm`, the clipboard, `setTimeout` and router navigation are I/O or UI effects. The course upload, the set-password request and the employee save and reset requests take their answer as a parameter. Alerts are recorded as a list of strings only on the employees page.
- The list reads (`read.php` on every admin page, the employee dashboard fetch) and the deletes (`delete.php` on the category, course, teacher and employee pages, with their `confirm` prompts) are not modelled.
- JWT signing and verification (`getToken` and the framework internals) are not modelled. The token is the optional `{id, ruolo}` claim pair (`Proxy.Token`).
- The zod e-mail check and `bcrypt.compare` are unknown predicates passed as parameters. Hashing itself is not modelled.
- `lib/db.ts` and SQL are not modelled. `Auth.FindByEmail` stands for `SELECT … WHERE email = ?` followed by `rows[0]` and uses exact string equality. A database collation that ignores case is not modelled.
- `Text.Lower`: does not model Unicode case mapping, because only ASCII `A`–`Z` are lower-cased. Other characters are left as they are.
- `SetPassword.ValidatePassword`: measures length in characters, not in UTF-16 code units as JavaScript does. The two differ only for characters outside the Basic Multilingual Plane.
- The `config.matcher` pattern in `proxy.ts` is framework routing configuration and is not modelled. It overlaps the explicit asset checks.
- `Iscrizioni.FormatDate`: does not model the `it-IT` locale formatting of `toLocaleDateString`. A non-empty date is shown as the date itself.
- `CorsiDisponibili.CounterValue`: does not model `NaN`, which `|| 0` would also turn into 0. Counters are integers or missing.
- React rendering, hooks, styling and the UI components are not modelled. Neither are the login, reset-password, dashboard and report pages.
- The save replies of the category, course and teacher pages are not modelled, and neither is the page state after them: the error alert, closing the dialog, and reloading the list (app/admin/categorie/page.tsx:217-228, app/admin/corsi/page.tsx:114-128, app/admin/docenti/page.tsx:183-194). `Categorie.BuildSave` and `Docenti.BuildRequest` stop at the request they build. `Corsi.HandleSubmit` stops at the request or at the upload alert.
- Enrolment expiry, reset-token issuance and expiry, and the server-side delete guards happen in the back end, which is not part of this model. The front end only receives the resulting status strings and error texts.
- Duplicate field names in a submitted form are not modelled. A `FormData` is a map from field name to value.
