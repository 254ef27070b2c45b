# CampusEye client logic in Dafny

CampusEye is a school-attendance web client (Next.js) in front of a separate
API. This project models the parts of the client that decide something on
their own, and proves what they promise:

- **the gate kiosk** (`kiosk.dfy`): a keyboard-emulating RFID reader types a
  card code into a buffer; Enter flushes the buffer as one scan, only one
  scan may be in flight, the outcome is classified (answered, refused by the
  server, no response), shown, counted when successful and put at the head
  of a history capped at 50 entries. The 500 ms buffer-idle timer and the
  5 s result-clear timer are explicit events;
- **the route guard** (`middleware.dfy`): the decision from the request path
  and the `token` cookie to "continue" or "redirect", together with the
  matcher that decides which paths the guard runs on;
- **the searchable select** (`searchable_select.dfy`): its case-insensitive
  option filter, the first-match label lookup, and its open/query state with
  the invariant that the query is empty whenever the menu is closed;
- **the create/edit modals** of the superadmin users, admin users, students,
  teachers, schools and universities pages (`superadmin_users.dfy`,
  `admin_users.dfy`, `students.dfy`, `teachers.dfy`, `name_directory.dfy`):
  the form each modal opens with, the request each `handleSubmit` builds
  (method, path, encoding and ordered field list, or a client-side error, or
  nothing), and the state the submit leaves behind for a given API reply;
  the students page's teacher auto-fill; the list query parameters; the
  client-side name filter of the schools and universities lists.

Shared pieces: `util.dfy` (an `Option` type), `seqs.dfy` (order-preserving
filter and subsequences), `text.dfy` (JavaScript's `trim`, ASCII
lower-casing, `includes`, `||` on strings, decimal rendering of ids and its
inverse) and `http.dfy` (requests, field lookup, the item path
`<base>/<id>`, the shared success/failure handling of every `handleSubmit`).

Each page with state is a `class` whose fields are the page's React state
and whose methods are its handlers; the API's answer to a request is a
method parameter. The request builders are functions, and each handler's
postcondition ties the new state to them.

Ids are natural numbers; string-typed ids in forms are their decimal text.
A multipart POST that carries the field `_method=PUT` is treated as a PUT
(`Http.EffectiveMethod`), which is how the API reads the student and
superadmin-user edit requests.

One observation from the route guard: its prefix test also covers paths
such as `/administrator`, but the configured matcher only runs it on
`/admin`, `/admin/…`, `/superadmin`, `/superadmin/…` and the login page, so
such a path is never actually guarded (`RouteGuard.AdministratorPrefix`).

## Model

| member | source | states |
|---|---|---|
| RouteGuard.Middleware | middleware.ts:16-34 | redirects to the login page exactly when the path starts with "/admin" or "/superadmin" and the cookie is missing or empty; redirects to "/admin/dashboard" exactly when the path is the login page and a token is present; continues in every other case |
| RouteGuard.Guard | middleware.ts:37-39 | a path outside the matcher always continues; inside it the middleware decides |
| RouteGuard.RedirectRulesExclusive | middleware.ts:21-31 | the two redirect conditions never hold together, because the login page has neither protected prefix |
| RouteGuard.NoRedirectLoop | middleware.ts:20-34 | following either redirect with the same cookie continues, both for the middleware and for the matched guard |
| RouteGuard.ProtectedNeedsToken | middleware.ts:17-24 | every matched path other than the login page is sent to the login page with no cookie and with an empty cookie |
| RouteGuard.AdministratorPrefix | middleware.ts:21-38 | "/administrator" passes the prefix test and would be redirected, yet the matcher leaves it unguarded |
| Kiosk.RecordScan | app/kiosk/page.tsx:83-84 | the new history has the new entry first, then the older entries in their old order, and at most 50 entries |
| Kiosk.Displayed | app/kiosk/page.tsx:79-102 | an answered scan shows the API's body; a refused one shows a failure with the server's message when it sent a non-empty one and "Scan failed. Please try again." otherwise, and the server's student; no response shows "Connection error. Please check backend." with no student |
| Kiosk.Kiosk.constructor | app/kiosk/page.tsx:41-48 | empty buffer, nothing in flight or shown, empty history, count 0, no timer armed |
| Kiosk.Kiosk.BeginScan | app/kiosk/page.tsx:57-70 | a blank code or a code arriving while a scan is in flight changes nothing and sends nothing; otherwise the trimmed code is sent with the kiosk's school, `scanning` is set and the shown result is cleared |
| Kiosk.Kiosk.KeyDown | app/kiosk/page.tsx:121-145 | Ctrl/Alt/Meta keys change nothing; Enter on a blank buffer changes nothing; Enter on a non-blank buffer starts a scan (dropped if one is in flight) and empties the buffer; a one-character key is appended and re-arms the idle timer; other keys change nothing |
| Kiosk.Kiosk.BufferTimeout | app/kiosk/page.tsx:139-143 | the idle timer empties the buffer and sends nothing |
| Kiosk.Kiosk.CompleteScan | app/kiosk/page.tsx:79-113 | the outcome's result is shown and recorded at the head of the capped history, the count grows by one only for an answered scan, `scanning` is released and the clear timer is armed |
| Kiosk.Kiosk.ResultTimeout | app/kiosk/page.tsx:109-113 | the clear timer removes the shown result |
| Kiosk.TapCard | app/kiosk/page.tsx:125-136 | typing a non-blank code key by key and pressing Enter, from an empty buffer with nothing in flight, sends exactly the trimmed code and leaves the buffer empty |
| Kiosk.TapExample | app/kiosk/page.tsx:125-136 | the keys A, 1, 2, 3, Enter send "A123" |
| Text.TrimStart | app/kiosk/page.tsx:59 | the result is a suffix of the input preceded only by whitespace and starting with a non-space |
| Text.TrimEnd | app/kiosk/page.tsx:59 | the result is a prefix of the input followed only by whitespace and ending with a non-space |
| Text.Trim | app/kiosk/page.tsx:59-68 | the trimmed code is no longer than the code and, when non-empty, starts and ends with a non-space |
| Text.TrimEmptyIffBlank | app/kiosk/page.tsx:59 | the trimmed code is empty exactly when every character is whitespace |
| Text.TrimIsSlice | app/kiosk/page.tsx:68 | the trimmed code is the contiguous slice of the code between its leading and its trailing whitespace, and everything outside that slice is whitespace |
| Text.TrimNoPadding | app/kiosk/page.tsx:68 | a code without surrounding whitespace is sent as typed |
| Text.TrimIdempotent | app/kiosk/page.tsx:68 | trimming twice equals trimming once |
| Text.Lower | components/ui/searchable-select.tsx:37 | lower-casing keeps the length and folds each ASCII letter |
| Text.Contains | components/ui/searchable-select.tsx:37 | `includes`: true exactly when the needle occurs at some offset of the haystack |
| Text.ContainsFold | app/superadmin/schools/page.tsx:61-63 | the case-insensitive `includes`: an empty query matches every text, and a matching query is no longer than the text |
| Text.ContainsFoldSelf | components/ui/searchable-select.tsx:37 | every text contains itself, ignoring case |
| Text.OrElse | app/kiosk/page.tsx:91-92 | a present non-empty string wins, otherwise the fallback |
| Text.NonEmpty | app/admin/students/page.tsx:154 | a missing or empty URL becomes null; any other is kept |
| Text.NatToString | app/admin/teachers/page.tsx:92 | the decimal text of an id is non-empty, all digits, and has no leading zero unless it is "0" |
| Text.ParseNatToString | app/admin/teachers/page.tsx:92 | reading back the decimal text of an id gives the id |
| Text.NatToStringInjective | app/admin/students/page.tsx:538-545 | distinct ids have distinct decimal texts |
| Seqs.Filter | components/ui/searchable-select.tsx:36-38 | the kept elements in their original order: a subsequence of the input holding each accepted value as often as the input does, and no other value |
| Seqs.FilterMembership | components/ui/searchable-select.tsx:36-38 | an element is kept exactly when it is in the input and accepted |
| Seqs.FilterKeepsAll | components/ui/searchable-select.tsx:36-38 | a filter accepting everything returns the input |
| Http.AppendIf | app/superadmin/users/page.tsx:164-172 | a conditional `append` adds the field at the end exactly when the condition holds, and changes no other key's lookup |
| Http.LookupAppend | app/superadmin/users/page.tsx:179 | a key is found in the earlier fields first, in the appended ones only when the earlier lack it |
| Http.EffectiveMethod | app/admin/students/page.tsx:188-196 | the API applies PUT exactly when the request is a PUT or carries `_method=PUT`; without a `_method` field the request's own verb applies |
| Http.PasswordsDiffer | app/superadmin/users/page.tsx:153 | an empty password never differs; a typed one differs exactly when it is not its confirmation |
| Http.ItemPath | app/admin/users/page.tsx:139 | an item path is the base, "/" and the id's canonical decimal text, from which the id reads back |
| Http.ItemPathInjective | app/admin/users/page.tsx:139 | distinct ids give distinct item paths |
| Http.ErrorMessage | app/admin/users/page.tsx:145-147 | the shown error is the server's non-empty message, else "An error occurred." |
| Http.Settle | app/admin/users/page.tsx:115-151 | an invalid form sends nothing and keeps the modal open with its error; a successful request, or an edit with nothing selected, closes the modal with no error; a failed request keeps it open with the server's or the default message |
| Http.OptionalParam | app/admin/teachers/page.tsx:59 | a query parameter is sent only when its value is non-empty |
| SearchableSelect.FilteredOptions | components/ui/searchable-select.tsx:36-38 | exactly the options whose lower-cased label contains the lower-cased query, in their original order, as a subsequence |
| SearchableSelect.EmptyQueryKeepsAll | components/ui/searchable-select.tsx:36-38 | an empty query lists every option |
| SearchableSelect.IndexOfValue | components/ui/searchable-select.tsx:41 | the first option whose value matches, or none when no option matches |
| SearchableSelect.SelectedOption | components/ui/searchable-select.tsx:41 | `find`: none exactly when no option has the value; otherwise an option with the value, preceded by none with it |
| SearchableSelect.DisplayLabel | components/ui/searchable-select.tsx:71-73 | the trigger shows the label of the first option with the value, or the placeholder when there is none |
| SearchableSelect.Dropdown.Visible | components/ui/searchable-select.tsx:78-103 | a closed menu lists nothing; an open one lists the options filtered by its query |
| SearchableSelect.Dropdown.constructor | components/ui/searchable-select.tsx:31-32 | starts closed with an empty query |
| SearchableSelect.Dropdown.Toggle | components/ui/searchable-select.tsx:65-68 | flips `isOpen`; closing clears the query, opening keeps it; the closed-means-empty invariant is kept |
| SearchableSelect.Dropdown.TypeQuery | components/ui/searchable-select.tsx:83-87 | typing, possible only while open, sets the query |
| SearchableSelect.Dropdown.Choose | components/ui/searchable-select.tsx:107-111 | clicking a listed option reports its value, closes the menu and clears the query |
| SearchableSelect.Dropdown.ClickOutside | components/ui/searchable-select.tsx:45-52 | a click outside closes the menu and clears the query |
| SuperadminUsers.PrefillForm | app/superadmin/users/page.tsx:119-130 | the edit form copies name, e-mail and role, blanks both passwords and the image, and holds the school id as its decimal text ("" when absent or 0) |
| SuperadminUsers.Payload | app/superadmin/users/page.tsx:160-172 | name, e-mail and role always come first, in that order, and the payload holds one more field for each optional part that applies (password, school, image), so no key is sent twice |
| SuperadminUsers.PayloadKeys | app/superadmin/users/page.tsx:160-172 | no field besides the six the form knows is sent |
| SuperadminUsers.PayloadLacksOverride | app/superadmin/users/page.tsx:160-172 | the form itself never sends `_method` |
| SuperadminUsers.PayloadPassword | app/superadmin/users/page.tsx:164-166 | the password is sent exactly when one was typed |
| SuperadminUsers.PayloadSchool | app/superadmin/users/page.tsx:167-169 | the school is sent exactly when the current user is a superadmin and a school is chosen |
| SuperadminUsers.PayloadImage | app/superadmin/users/page.tsx:170-172 | the image is sent exactly when a file was picked |
| SuperadminUsers.SubmitRequest | app/superadmin/users/page.tsx:148-183 | a typed password differing from its confirmation gives "Passwords do not match." and no request; otherwise create posts exactly the payload to "/superadmin/users", edit of a selected user posts exactly the payload followed by `_method=PUT` to the user's path (a PUT for the API), edit with nothing selected sends nothing |
| SuperadminUsers.UsersPage.constructor | app/superadmin/users/page.tsx:51-75 | closed modal, create mode, empty form with role "student", no preview, no error |
| SuperadminUsers.UsersPage.OpenModal | app/superadmin/users/page.tsx:116-145 | opens the modal with no error; edit of a given user prefills from it and previews its image URL; anything else clears the form |
| SuperadminUsers.UsersPage.Submit | app/superadmin/users/page.tsx:148-202 | sends the built request, shows the resulting error and closes the modal as the shared submit handling says, and ends not loading |
| AdminUsers.PrefillForm | app/admin/users/page.tsx:92-100 | the edit form copies name, e-mail and role and blanks both passwords |
| AdminUsers.Payload | app/admin/users/page.tsx:127-134 | exactly name, e-mail and role, plus the password only when one was typed |
| AdminUsers.SubmitRequest | app/admin/users/page.tsx:115-140 | a mismatched typed password gives "Passwords do not match." and no request; create POSTs the payload to "/admin/users"; edit of a selected user PUTs it to the user's path; edit with nothing selected sends nothing |
| AdminUsers.UsersPage.constructor | app/admin/users/page.tsx:45-58 | closed modal, create mode, empty form with role "student", no error |
| AdminUsers.UsersPage.OpenModal | app/admin/users/page.tsx:89-112 | opens the modal with no error; edit of a given user prefills from it; anything else clears the form |
| AdminUsers.UsersPage.Submit | app/admin/users/page.tsx:115-152 | sends the built request, shows the resulting error and closes the modal as the shared submit handling says, and ends not loading |
| Students.ListParams | app/admin/students/page.tsx:97-103 | search, grade and section are each sent exactly when non-empty, with their own values, and nothing else is sent |
| Students.PrefillForm | app/admin/students/page.tsx:142-153 | the edit form copies names, class and id number, holds a missing RFID code as "", the parent id as its decimal text or "" without a parent, and no image |
| Students.Payload | app/admin/students/page.tsx:178-186 | the five required fields always come first, in order, and the payload holds one more field for each optional part that applies (RFID code, parent, image), so no key is sent twice |
| Students.PayloadKeys | app/admin/students/page.tsx:178-186 | no field besides the eight the form knows is sent |
| Students.PayloadLacksOverride | app/admin/students/page.tsx:178-186 | the form itself never sends `_method` |
| Students.RequiredFieldsLack | app/admin/students/page.tsx:179-183 | the required fields never carry an optional key |
| Students.PayloadRfid | app/admin/students/page.tsx:184 | the RFID code is sent exactly when non-empty |
| Students.PayloadParent | app/admin/students/page.tsx:185 | the parent is sent exactly when its id text is non-empty |
| Students.PayloadImage | app/admin/students/page.tsx:186 | the image is sent exactly when a file was picked |
| Students.UneditedSaveResends | app/admin/students/page.tsx:142-186 | saving an untouched edit form resends the student's RFID code, with its value, exactly when it has a non-empty one, its parent only if it has one (as decimal text), and no image |
| Students.SubmitRequest | app/admin/students/page.tsx:172-197 | create posts exactly the payload to "/admin/students"; edit of a selected student posts exactly the payload followed by `_method=PUT` to the student's path (a PUT for the API); edit with nothing selected sends nothing |
| Students.TeacherOptions | app/admin/students/page.tsx:534-540 | a "None / Clear Selection" entry valued "" first, then one entry per teacher, in order, valued by its id text and captioned by its `TeacherCaption` (the entry `SelectOption(TeacherCaption(t), NatToString(t.id))`) |
| Students.TeacherCaption | app/admin/students/page.tsx:537 | the caption starts with the teacher's name ("undefined" without a user), is longer than grade and section together, and ends with the section |
| Students.TeacherCaptionShowsGrade | app/admin/students/page.tsx:537 | right after the name, the caption reads " — Grade ", the grade and " / " |
| Students.FindTeacher | app/admin/students/page.tsx:544-546 | the first teacher whose id text equals the chosen value, or none |
| Students.AutoFill | app/admin/students/page.tsx:542-555 | only grade and section can change; they become the found teacher's; an empty or unknown id leaves the form as it is |
| Students.PickingTeacherFillsItsClass | app/admin/students/page.tsx:534-555 | picking a teacher's entry fills the class of a teacher with that same id; picking the clear entry changes nothing |
| Students.StudentsPage.constructor | app/admin/students/page.tsx:54-87 | closed modal, create mode, blank form, no preview, no error, no teachers |
| Students.StudentsPage.OpenModal | app/admin/students/page.tsx:137-170 | opens the modal with no error; edit of a given student prefills from it and previews its image URL; anything else blanks the form |
| Students.StudentsPage.TeachersLoaded | app/admin/students/page.tsx:123-130 | a received teacher list replaces the old one; a failed fetch keeps it; no other field changes |
| Students.StudentsPage.ChooseTeacher | app/admin/students/page.tsx:542-555 | the form becomes its auto-fill for the chosen id; no other field changes |
| Students.StudentsPage.Submit | app/admin/students/page.tsx:172-217 | sends the built request, shows the resulting error and closes the modal as the shared submit handling says, and ends not loading |
| Teachers.ListParams | app/admin/teachers/page.tsx:58-60 | search is sent exactly when non-empty |
| Teachers.PrefillForm | app/admin/teachers/page.tsx:89-95 | the edit form holds the teacher's user id as its decimal text, and the assignment's grade and section |
| Teachers.FormBody | app/admin/teachers/page.tsx:108-109 | the create body is exactly three fields, `user_id`, `grade` and `section`, from the form |
| Teachers.SubmitRequest | app/admin/teachers/page.tsx:103-115 | create POSTs exactly the three-field form body to "/admin/teachers"; edit of a selected assignment PUTs only grade and section to its path, so `user_id` is never sent on edit; edit with nothing selected sends nothing |
| Teachers.TeachersPage.constructor | app/admin/teachers/page.tsx:35-47 | closed modal, create mode, blank form, no error |
| Teachers.TeachersPage.OpenModal | app/admin/teachers/page.tsx:85-101 | opens the modal with no error; edit of a given assignment prefills from it; anything else clears all three fields |
| Teachers.TeachersPage.Submit | app/admin/teachers/page.tsx:103-132 | sends the built request, shows the resulting error and closes the modal as the shared submit handling says, and ends not loading |
| NameDirectory.NameFilter | app/superadmin/schools/page.tsx:60-64 | with an empty search the fetched list unchanged; otherwise exactly the records whose lower-cased name contains the lower-cased search, in fetched order, as a subsequence |
| NameDirectory.GuardIsRedundant | app/superadmin/universities/page.tsx:61-63 | the `if (search)` guard gives the same list as filtering unconditionally |
| NameDirectory.SubmitRequest | app/superadmin/schools/page.tsx:105-114 | create POSTs `{name}` to the collection; edit of a selected record PUTs `{name}` to its path; edit with nothing selected sends nothing |
| NameDirectory.NamePage.constructor | app/superadmin/schools/page.tsx:33-47 | empty list, loading, empty search, closed modal in create mode, empty name |
| NameDirectory.NamePage.Fetch | app/superadmin/universities/page.tsx:55-71 | a received list is shown filtered by the current search; a failed fetch keeps the list; loading ends |
| NameDirectory.NamePage.OpenModal | app/superadmin/schools/page.tsx:82-97 | opens the modal with no error; edit of a given record prefills its name; anything else clears it; the list, search and loading flags are kept |
| NameDirectory.NamePage.Submit | app/superadmin/universities/page.tsx:100-126 | sends the built request, shows the resulting error and closes the modal as the shared submit handling says, ends not loading, and keeps the list, search and list loading flag |

## Left out

- HTTP, cookies and navigation: axios calls, the interceptors of `lib/api.ts`, local storage and `router.push` are not modelled; every API answer is a parameter (`ScanOutcome`, `Reply`, a fetched list as `Option`).
- Real timers and React scheduling: `setTimeout`/`setInterval`, the clock tick, effect re-subscription and stale closures; the kiosk's two timers are flags armed by the handlers and fired by explicit events.
- The 500 ms debounced list refetch on every list page, and the refetch after a successful submit: a refetch is an explicit call of `NameDirectory.NamePage.Fetch`, the students and teachers list fetches are modelled only by their query parameters (`Students.ListParams`, `Teachers.ListParams`); the users pages' list fetches (app/superadmin/users/page.tsx:95-97, app/admin/users/page.tsx:68-70, which send `search` even when it is empty) and the teacher-user list fetch of the teachers page (app/admin/teachers/page.tsx:69-78) are not modelled.
- The kiosk's timestamp: the stamp on a failed scan (`new Date().toISOString()`) is the parameter `now`; the school id (`parseInt` of an environment variable) is the constructor parameter; the API key and base URL are not modelled.
- Locale date and time formatting, toasts, console logging, JSX and styling.
- Text.Lower: folds ASCII letters only, not the whole of Unicode as JavaScript's `toLowerCase` does.
- Kiosk.Kiosk.KeyDown: a key's length is counted in characters, not UTF-16 code units, so a key outside the Basic Multilingual Plane counts as one character.
- SuperadminUsers.UsersPage.Submit: the current user's role is a parameter; the page's stand-in superadmin user set by `fetchData` and the school list it fetches are not modelled.
- Object URLs for the image preview (`createObjectURL`, `revokeObjectURL`); the preview is a field set only by `OpenModal`, and file contents are not modelled.
- Direct edits of form inputs are plain field assignments and have no methods.
- SuperadminUsers.SubmitRequest, AdminUsers.SubmitRequest, Students.SubmitRequest, Teachers.SubmitRequest, NameDirectory.SubmitRequest and the `Submit` methods beside them: the browser's constraint validation is not modelled. It stops a submit before `handleSubmit` runs when a `required` input is empty or a password is shorter than its `minLength`. The affected inputs are name and e-mail (app/superadmin/users/page.tsx:419, 432; app/admin/users/page.tsx:342, 355), the create-mode password and the six-character minimum on both password inputs (app/superadmin/users/page.tsx:526-548; app/admin/users/page.tsx:394-416), the student fields (app/admin/students/page.tsx:492, 508, 527, 574, 589), the teacher fields (app/admin/teachers/page.tsx:349, 385, 400) and the school and university name (app/superadmin/schools/page.tsx:289; app/superadmin/universities/page.tsx:289). So these members can return `Send` for a form the browser would not have submitted.
- Delete modals, the parents list fetch, the attendance page, login, layouts, sidebar, settings, dashboard and landing pages are not part of this model.
- How the API interprets requests beyond the `_method=PUT` override (`Http.EffectiveMethod`) is not modelled.
