# Resource-sharing app, modelled in Dafny

The application lets users share study resources: a title, a description,
tags and a Google Drive link, stored under `/resources/{id}` in a Firebase
realtime database. Users can browse and search the list. Signed-in users can
upvote a resource once and report it. The uploader or an administrator can
edit or delete it.

The model has four modules:

- `FirebaseHelper` (`firebase_helper.dfy`) is the store. Its records are the
  `Resource` and `Report` datatypes. The class `Database` holds the two subtrees
  as maps keyed by record id, and its methods are the six store operations.
  Generated ids (`uuid4`) and timestamps (`datetime.now`) are parameters. The
  upvote is specified by a pure function, `Upvote`, on one record. It refuses a
  voter key that is already present. Otherwise it adds one vote and records the
  key. The lemmas beside it cover double votes, voter-key collisions,
  commutation of votes by different keys, and the invariant that `votes`
  counts the voters.
- `App` (`app.dfy`) holds the decisions the page takes around the store: the
  `Session` class, the form checks, the submit handlers, the edit, upvote and
  report permissions, the search filter, and Drive file-id extraction.
- `Text` (`text.dfy`) holds the Python string operations those decisions use:
  `lower`, `in`, `endswith`, `strip` and single-character `replace`.
- `Wrappers` (`wrappers.dfy`) holds `Option`.

Behaviour of the code that the model states as written:

- A record written by `add_resource` has no `votes` or `voters` entry. Every
  reader falls back to 0 and to the empty mapping, so a new `Resource` holds
  exactly those values.
- `report_resource` uses its default reason only when the argument is
  omitted. The page always passes the text box's content, so an empty reason
  is stored as the empty string (`App.SubmitReport`).
- The edit path of the signed-in form calls `update_resource` on whatever id
  is typed. Only the listing, not the handler, restricts who learns an id.
  `App.Submit` therefore carries no ownership condition.
- A custom tag made only of whitespace is non-empty, so it is still appended,
  as the empty tag (`App.BlankCustomTag`).
- The voter key is not injective. `a.b@x.com` and `a,b@x,com` share a key
  (`FirebaseHelper.SafeKeyCollision`). Among emails without commas it is
  injective.

## Model

| member | source | states |
|---|---|---|
| `FirebaseHelper.Database.AddResource` | firebase_helper.py:18-32 | the store maps the given id to a record with that id, the given fields, 0 votes and no voters; the key set grows by that id only; other records and the reports are unchanged; the store invariant is kept |
| `FirebaseHelper.NewResource` | firebase_helper.py:23-31 | the written record has the given id, timestamp, uploader and form fields, 0 votes and no voters |
| `FirebaseHelper.NewResourceConsistent` | firebase_helper.py:23-31 | a new record carries its own id, 0 votes and a vote count consistent with its voters |
| `FirebaseHelper.Database.GetAllResources` | firebase_helper.py:36-39 | returns the whole resource map, which is empty when nothing is stored |
| `FirebaseHelper.Database.DeleteResource` | firebase_helper.py:43-46 | the id is no longer a key, every other record is unchanged, and an absent id changes nothing |
| `FirebaseHelper.Database.UpdateResource` | firebase_helper.py:50-53 | on an existing id, the record becomes the shallow merge of the patch into it; other records, the key set and the reports are unchanged |
| `FirebaseHelper.Merge` | firebase_helper.py:53 | every field present in the patch takes the patch's value, and every absent field keeps the stored one |
| `FirebaseHelper.MergeNoChange` | firebase_helper.py:53 | merging the empty patch leaves a record as it was |
| `FirebaseHelper.MergeIdempotent` | firebase_helper.py:53 | applying the same update twice equals applying it once |
| `FirebaseHelper.MergeThen` | firebase_helper.py:53 | two updates in a row equal one update in which the later fields win |
| `FirebaseHelper.MergeConsistent` | firebase_helper.py:53 | a patch that leaves id, votes and voters alone keeps the id and the vote-count invariant |
| `FirebaseHelper.Database.ReportResource` | firebase_helper.py:56-66 | adds exactly the report under the given report id, with the default reason only when none is passed; resources are untouched and the resource id is not checked |
| `FirebaseHelper.NewReport` | firebase_helper.py:56-66 | the report carries the given ids, reporter and timestamp; the reason passed, or the non-empty default one when none is passed |
| `FirebaseHelper.SafeKey` | firebase_helper.py:75 | the key has the email's length, contains no `.`, and equals the email with every `.` replaced by `,` |
| `FirebaseHelper.SafeKeyIdempotent` | firebase_helper.py:75 | sanitising a key again changes nothing |
| `FirebaseHelper.SafeKeyInjective` | firebase_helper.py:75 | two comma-free emails with the same key are equal |
| `FirebaseHelper.SafeKeyCollision` | firebase_helper.py:75 | two distinct emails, one with commas, share a key |
| `FirebaseHelper.Upvote` | firebase_helper.py:74-86 | accepted exactly when the voter key is absent; a refusal leaves the record unchanged; an acceptance adds 1 to votes and marks the key True; only votes and voters can differ |
| `FirebaseHelper.UpvoteTwice` | firebase_helper.py:76-86 | a second upvote by the same email is refused and changes nothing, so the two calls add exactly one vote in total |
| `FirebaseHelper.UpvoteSameKey` | firebase_helper.py:75-77 | an email whose key has already voted is refused, even if it is spelled differently |
| `FirebaseHelper.UpvoteCommutes` | firebase_helper.py:79-85 | upvotes by two different keys give the same record in either order |
| `FirebaseHelper.UpvoteConsistent` | firebase_helper.py:79-85 | an upvote keeps every voter entry True and votes equal to the number of voters |
| `FirebaseHelper.Database.UpvoteResource` | firebase_helper.py:69-86 | returns whether the voter key was absent; the target record becomes the `Upvote` result and no other record or report changes; the store invariant is kept |
| `App.Session.constructor` | app.py:29-30 | a new page has no user and no guest flag |
| `App.Session.CurrentScreen` | app.py:35-106 | the signed-in sidebar exactly when a user is set; otherwise the guest sidebar exactly when the guest flag is set; otherwise the login form |
| `App.Session.ActingEmail` | app.py:35-106 | the signed-in email, the literal `guest` in guest mode, and none on the login form |
| `App.Session.Login` | app.py:122-134 | the session holds the provider's account email only when the credentials are accepted and that account is verified; otherwise the page stays on the login form |
| `App.Session.Logout` | app.py:71-73 | clears the user and returns to the login form |
| `App.Session.ContinueAsGuest` | app.py:136-138 | sets the guest flag and shows the guest sidebar |
| `App.Session.ReturnToLogin` | app.py:101-103 | clears the guest flag and shows the login form |
| `App.IsAdmin` | app.py:39 | true exactly when the email is some string followed by `@admin.com` |
| `App.GuestIsNotAdmin` | app.py:39 | the guest marker is not an administrator |
| `App.MayEditOrDelete` | app.py:192 | only signed-in users; always administrators; any other user exactly when they uploaded the resource |
| `App.GuestUploadsAdminOnly` | app.py:192 | a resource uploaded in guest mode can be edited or deleted only by administrators |
| `App.HasVoted` | app.py:178-179 | a marked voter key is present in voters, and on a consistent record being marked is the same as being present |
| `App.MayUpvote` | app.py:177-182 | offered exactly when a user is signed in and their sanitised email is not marked True in voters |
| `App.MayUpvoteIffAccepted` | app.py:177-183 | on a consistent record, the button is offered exactly when the store would accept the vote |
| `App.NoUpvoteAfterVoting` | app.py:177-187 | after that user's upvote the button is no longer offered to them |
| `App.ActionsByScreen` | app.py:177-213 | reporting is offered exactly on the signed-in screen; in guest mode and on the login form neither edit, delete nor upvote is offered |
| `App.WithCustomTag` | app.py:47-49 | no custom tag keeps the selection; otherwise the selection is kept as a prefix and one trimmed tag is appended, which is the custom tag minus surrounding whitespace |
| `App.AppendCustomTag` | app.py:48-49 | the tag list it builds is `WithCustomTag` of the selection and the custom tag |
| `App.BlankCustomTag` | app.py:48-49 | a whitespace-only custom tag is appended as the empty tag |
| `App.EditPatch` | app.py:59-64 | the edit dictionary sets title, description, tags and Drive link and no other field |
| `App.EditKeepsOtherFields` | app.py:59-64 | the edit patch replaces exactly title, description, tags and link; everything else, and the vote invariant, is kept |
| `App.Submit` | app.py:54-69 | missing fields leave the store untouched; otherwise a non-empty update id gets the edit patch and an empty one adds a new resource owned by the user's email; reports are untouched; the store invariant is kept |
| `App.GuestSubmit` | app.py:93-99 | missing fields leave the store untouched; otherwise one new resource owned by `guest` is added |
| `App.SubmitReport` | app.py:205-211 | a report is written exactly when a user is signed in, with the typed reason as it is; resources are untouched |
| `App.MatchesQuery` | app.py:151-152 | the empty query matches every resource, and a title or tag that contains the query as typed matches it whatever its case |
| `App.FilterResources` | app.py:149-153 | an empty query shows every resource; otherwise the result is a sub-map of the resources holding exactly those whose lower-cased title or some lower-cased tag contains the lower-cased query |
| `App.EmptyQueryMatchesAll` | app.py:149-153 | the empty query matches every resource, so the shortcut for it agrees with filtering |
| `App.FilterIgnoresQueryCase` | app.py:151-152 | lower-casing the query does not change the result |
| `App.FilterNarrows` | app.py:149-152 | extending the query can only remove resources from the result |
| `App.DriveFileId` | app.py:168-170 | none exactly when no `/d/` is followed by an id character; otherwise a non-empty id captured after the leftmost such `/d/` as the longest run of `[A-Za-z0-9_-]` |
| `App.CaptureUnique` | app.py:168-170 | at most one position and one id satisfy that description |
| `App.DriveFileIdComplete` | app.py:168-170 | any capture that satisfies the description is what the extraction returns |
| `Text.Contains` | app.py:151-152 | Python's substring test: true exactly when the needle occurs at some index of the haystack |
| `Text.Lower` | app.py:151-152 | keeps the length, lower-cases each letter in place, and leaves no upper-case letter |
| `Text.ContainsLower` | app.py:151-152 | a case-sensitive occurrence is also an occurrence after lower-casing both strings |
| `Text.EndsWith` | app.py:39 | true exactly when the string is some string followed by the suffix |
| `Text.ReplaceChar` | firebase_helper.py:75 | keeps the length, puts the new character wherever the old one stood, and keeps every other character |
| `Text.Strip` | app.py:49 | the result has no whitespace at either end and is the input with only whitespace removed from both ends |

## Left out

- Rendering: markdown, iframes, buttons, `st.rerun` and the preview URL built from the file id (app.py:32-215) are user interface.
- Sign-up, sign-in, email verification and account lookup go to the identity provider. `App.Session.Login` takes the provider's answers as parameters: whether it accepted the credentials, and the verification flag and email of the account record it returns.
- `init_firebase`, credential loading and the database connection (firebase_helper.py:9-14) are SDK plumbing. The database is the `Database` class.
- `uuid.uuid4()` and `datetime.now()` are parameters. Fresh ids are not assumed unique: a reused id overwrites, as Firebase's `set` does.
- FirebaseHelper.Database.UpdateResource: requires the id to exist. What Firebase does with an update to a missing path is not visible in the code.
- FirebaseHelper.Database.UpvoteResource: requires the id to exist. On a missing id the source reads `None` and fails.
- App.Submit: requires a typed update id to exist, for the same reason as `UpdateResource`.
- The lost-update race between two concurrent upvotes is concurrency. Only sequential calls are modelled.
- A Firebase `update` with a `None` value deletes the field. Patches here only set fields.
- Text.Lower: lower-cases ASCII letters only. Python's `str.lower` also folds non-ASCII letters.
- Text.Strip: strips ASCII whitespace only. Python's `str.strip` also strips Unicode spaces.
- The user record of the session is reduced to its email. The listing's "no resources yet" notice and the per-resource display are not modelled.
