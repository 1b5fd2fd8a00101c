# Serenity Flow: a Dafny model of sessions, accounts and the authoring pages

Serenity Flow is a platform for publishing wellness sessions. Users register and log in.
They write *sessions* (title, description, tags, media URLs, duration, difficulty,
category), save them as drafts or publish them, and browse everyone's published sessions.
This project models the parts of the system that carry rules, and proves what those rules
guarantee:

- **`SessionSchema`** (`session_schema.dfy`) models the `Session` document schema. It has
  the enumerations for difficulty, category and status, the required paths, trimming of
  the title and every tag, the defaults, and the minimum duration. `Valid` is the
  predicate every stored document satisfies. `Create` runs the schema's setters, defaults
  and validators on a new document. `Apply` runs them on an update, the way
  `findOneAndUpdate(..., { runValidators: true })` does.
- **`SessionRoutes`** (`session_routes.dfy`) models the seven session route handlers over
  a collection `Db`, a map from `_id` to document. The mutations are pure specification
  functions (`Upsert`, `Put`, `Remove`, `Get`). The class `SessionStore` holds the
  collection in place. Its methods are proved equal to those functions. Its list routes
  are loops that find the matching documents and sort them.
- **`AuthRoutes`** (`auth_routes.dfy`) models registration, login and the profile lookup
  over a user collection keyed by email. Password hashing and comparison are function
  parameters. A token is kept as the inputs of the signing call.
- **`Dashboard`**, **`SessionEditor`** and **`MyStudio`** model the pure logic of the three
  front-end pages. `Dashboard` covers search and filtering, the featured strip, the tag
  preview and the greeting. `SessionEditor` covers field and tag edits, the checks,
  payload and endpoint of a save, and the autosave guard. `MyStudio` covers the
  drafts/published split, the stats, the visible tab and the local delete. The page state
  that the handlers of the editor and of My Studio update step by step is a class in
  `SessionEditor` and in `MyStudio`. `Dashboard` has no class: its filtering and
  rendering logic is pure.
- **`Text`** and **`Lists`** hold the JavaScript operations the code relies on:
  `trim`, `toLowerCase` (ASCII), `includes`, `filter` and `slice(0, n)`.

Three behaviours of the code are easy to miss, and the model keeps them:

- The schema marks `category` required for every status, so the server refuses a new
  draft without a category, although the editor lets such a draft through.
- A save-draft or publish that carries an `_id` the caller does not own answers 200 with a
  null body. It does not create a new document.
- Validation errors are caught like every other error and answered with 500, not 400.

## Model

| member | source | states |
|---|---|---|
| `Text.Trim` | backend/models/Session.js:4-8 | `trim()` returns a contiguous slice of the string with no white space at either end, and everything cut off on either side is white space |
| `Text.TrimIdempotent` | backend/models/Session.js:4-8 | trimming a trimmed value changes nothing, so stored titles and tags are stable under the setter |
| `Text.TrimEmptyIffBlank` | frontend/src/pages/SessionEditorPage.jsx:108-111 | `title.trim()` is empty, hence falsy, exactly when the title is all white space |
| `Text.Lower` | frontend/src/pages/DashboardPage.jsx:53 | `toLowerCase` keeps the length, maps every letter `A`-`Z` to its lower-case letter, leaves every other character as it is, and leaves no upper-case letter |
| `Text.Contains` | frontend/src/pages/DashboardPage.jsx:53 | `includes` can only find a query no longer than the string |
| `Text.LowerIdempotent` | frontend/src/pages/DashboardPage.jsx:54 | lower-casing twice is lower-casing once |
| `Text.ContainsIffOccurs` | frontend/src/pages/DashboardPage.jsx:54 | the `includes` scan holds exactly when the query occurs at some position of the string |
| `Text.ContainsEmpty` | frontend/src/pages/DashboardPage.jsx:53-60 | every string includes the empty query |
| `Lists.Filter` | frontend/src/pages/MyStudioPage.jsx:65-66 | `filter` keeps exactly the elements satisfying the predicate, as an order-preserving subsequence. It adds no element, and every kept value keeps all its copies |
| `Lists.FilterKeepsAll` | frontend/src/pages/DashboardPage.jsx:52-69 | filtering with a predicate every element meets returns the list itself |
| `Lists.FilterSplit` | frontend/src/pages/MyStudioPage.jsx:143-157 | two complementary filters together have as many elements as the list |
| `Lists.FilterDistinct` | frontend/src/pages/SessionEditorPage.jsx:103-105 | filtering a duplicate-free list leaves it duplicate-free |
| `Lists.Take` | frontend/src/pages/DashboardPage.jsx:290 | `slice(0, n)` is the prefix of length min(n, length) |
| `SessionSchema.Valid` | backend/models/Session.js:3-59 | a stored document has a non-empty title that does not start with white space, a non-empty category, status `draft` or `published`, and a positive duration when one is set |
| `SessionSchema.Trimmed` | backend/models/Session.js:4-19 | the setters replace a given title by its trim and every given tag by its trim, and change no other path |
| `SessionSchema.UpdateAccepted` | backend/routes/sessions.js:41-45 | the update validators refuse a set title that trims to nothing and an empty category, and accept an update that sets none of title, duration, difficulty, category and status |
| `SessionSchema.Create` | backend/models/Session.js:1-60 | a new document saves iff title, category and owner are present and every given path passes its validator. The saved document is `Valid`, with the trimmed title, the given id and owner, timestamps set to now, the given duration or none for `''`, and the defaults `beginner`, `draft` and `''` for absent paths |
| `SessionSchema.Apply` | backend/models/Session.js:1-60 | an accepted update keeps the `_id`, `createdAt` and validity. Every path it sets takes the given value (title and tags trimmed, a `''` duration becomes none), and every path it does not set keeps its old value |
| `SessionSchema.CategoryRequiredForEveryStatus` | backend/models/Session.js:37-41 | a new document with no category or an empty one is refused, whatever its status |
| `SessionSchema.StoredTitleNotBlank` | backend/models/Session.js:4-8 | a stored title is non-empty and already trimmed |
| `SessionRoutes.Insert` | backend/routes/sessions.js:8 | inserting into a list sorted by a descending key keeps it sorted, adds exactly that element and keeps it duplicate-free |
| `SessionRoutes.Get` | backend/routes/sessions.js:24-34 | 200 with the document iff the id exists and the caller owns it, otherwise exactly 404 `Session not found` |
| `SessionRoutes.Stamped` | backend/routes/sessions.js:38 | the body spread forces `status` and `created_by` to the route's status and the caller, and leaves the body's other paths as they were |
| `SessionRoutes.Upsert` | backend/routes/sessions.js:36-74 | without `_id`, a new document is inserted under a fresh id iff the schema accepts it. With an owned `_id`, that document is updated in place and keeps its id. With any other `_id`, nothing changes and the reply is 200 null. The reply's document is exactly what `Create` or `Apply` makes of the stamped body. A saved document always has the route's status and the caller as owner. An update the validators refuse is 500 whoever owns the id. Other users' documents are untouched. Errors are 500 with the store unchanged |
| `SessionRoutes.Inserted` | backend/routes/sessions.js:47-48 | `save` of a new document adds exactly it under the next free id, or fails with 500 and no change |
| `SessionRoutes.Overwritten` | backend/routes/sessions.js:41-45 | an accepted update replaces only the matched document and keeps its id, or fails with 500 and no change |
| `SessionRoutes.Put` | backend/routes/sessions.js:76-90 | the body is applied only to the caller's document with that id, and the reply's document is exactly what `Apply` makes of it. Status and owner are kept unless the body sets them. A 404 means exactly that the caller owns no such document and the body passed the validators, and it changes nothing. A refused update, or a body `_id` other than the URL's, gives 500 and no change, whoever owns the id |
| `SessionRoutes.PutCanReassignOwner` | backend/routes/sessions.js:78-81 | as written, a PUT body that sets only `created_by` to another user succeeds, and the former owner's get-by-id then answers 404 |
| `SessionRoutes.PutKeepingOwner` | backend/routes/sessions.js:78-81 | the corrected PUT: the caller keeps every document it owned, and an updated document stays the caller's |
| `SessionRoutes.Remove` | backend/routes/sessions.js:92-102 | removes exactly the caller's document with that id and keeps every other document. No owned match gives 404 and no change |
| `SessionRoutes.Handle` | backend/routes/sessions.js:36-102 | every mutating route keeps the collection consistent (each document under its own id, all valid) |
| `SessionRoutes.OthersCannotTouch` | backend/routes/sessions.js:42 | no sequence of requests by other users changes or removes any document of an owner |
| `SessionRoutes.SavedIsReadable` | backend/routes/sessions.js:26 | a document a save returns is what its owner's get-by-id returns next |
| `SessionRoutes.DeletedIsGone` | backend/routes/sessions.js:94 | after its owner deletes a document, get-by-id answers 404 to every caller |
| `SessionRoutes.NonOwnerCannotTell` | backend/routes/sessions.js:26-29 | get, PUT and DELETE answer a non-owner exactly as if the id did not exist |
| `SessionRoutes.SessionStore.constructor` | backend/routes/sessions.js:2 | the store starts empty and consistent |
| `SessionRoutes.SessionStore.Find` | backend/routes/sessions.js:8 | the loop returns every stored document matching the filter, each once, sorted by the descending key |
| `SessionRoutes.SessionStore.ListPublished` | backend/routes/sessions.js:6-13 | GET / gives 200 with exactly the published documents, newest created first, never a draft |
| `SessionRoutes.SessionStore.ListMine` | backend/routes/sessions.js:15-22 | GET /my-sessions gives 200 with exactly the caller's documents, drafts and published, most recently updated first |
| `SessionRoutes.SessionStore.Save` | backend/routes/sessions.js:36-74 | the in-place store ends in the state `Upsert` gives and returns its reply |
| `SessionRoutes.SessionStore.InsertNew` | backend/routes/sessions.js:47-48 | the store gains exactly the created document under the next id, or is unchanged with 500 |
| `SessionRoutes.SessionStore.Overwrite` | backend/routes/sessions.js:41-45 | the store changes only at the matched id, or is unchanged with 500 |
| `SessionRoutes.SessionStore.SaveDraft` | backend/routes/sessions.js:36-54 | save-draft in place equals `Upsert` with status `draft` |
| `SessionRoutes.SessionStore.Publish` | backend/routes/sessions.js:56-74 | publish in place equals `Upsert` with status `published` |
| `SessionRoutes.SessionStore.Update` | backend/routes/sessions.js:76-90 | PUT in place equals `Put` |
| `SessionRoutes.SessionStore.Delete` | backend/routes/sessions.js:92-102 | DELETE in place equals `Remove` |
| `AuthRoutes.SigningKey` | backend/routes/auth.js:16 | the signing key is the configured secret when it is set and non-empty, otherwise `fallback-secret` |
| `AuthRoutes.Issue` | backend/routes/auth.js:16 | the token is over the user's own id, with a 7-day expiry |
| `AuthRoutes.Summary` | backend/routes/auth.js:19 | the reply's user carries id, full name, email and role, and no password |
| `AuthRoutes.UserStore.constructor` | backend/routes/auth.js:3 | the user store starts empty and valid |
| `AuthRoutes.UserStore.Register` | backend/routes/auth.js:7-24 | a known email gives 400 `User already exists` and stores nothing. Otherwise exactly one user is added, with only the hash of the password, and the reply is 201 with a token over the new id and the user's summary |
| `AuthRoutes.UserStore.Login` | backend/routes/auth.js:26-45 | 200 with a token over the user's id iff the email is known and the password matches. Otherwise the one reply 400 `Invalid credentials`, the same for an unknown email and a wrong password. No user is changed |
| `AuthRoutes.UserStore.GetProfile` | backend/routes/auth.js:47-49 | the record of the user whose id the token carries, or 401 when no user has that id |
| `Dashboard.FilterSessions` | frontend/src/pages/DashboardPage.jsx:51-72 | the result is an order-preserving subsequence of the sessions. A session is kept iff its search, category and difficulty matches all hold |
| `Dashboard.MatchesSearch` | frontend/src/pages/DashboardPage.jsx:52-59 | the empty query matches every session |
| `Dashboard.Keep` | frontend/src/pages/DashboardPage.jsx:52-67 | with query `""` and both selections `all` every session is kept. A selected category or difficulty other than `all` drops every session whose own value differs |
| `Dashboard.NoFilterShowsAll` | frontend/src/pages/DashboardPage.jsx:52-69 | with query `""` and both selections `all`, the filtered list is the whole list |
| `Dashboard.SearchIgnoresQueryCase` | frontend/src/pages/DashboardPage.jsx:54-59 | lower-casing the query first changes no search result |
| `Dashboard.Featured` | frontend/src/pages/DashboardPage.jsx:290 | the featured strip is the first min(3, n) filtered sessions |
| `Dashboard.PrefixIsSubsequence` | frontend/src/pages/DashboardPage.jsx:290 | every prefix of a list is a subsequence of it |
| `Dashboard.PreviewTags` | frontend/src/pages/DashboardPage.jsx:167-183 | the first min(3, length) tags are shown, in order. A `+n` badge appears iff there are more than three, and then n is the number of tags minus 3 |
| `Dashboard.Greeting` | frontend/src/pages/DashboardPage.jsx:74-79 | `Good morning` iff hour < 12, `Good afternoon` iff 12 ≤ hour < 17, `Good evening` iff hour ≥ 17 |
| `MyStudio.Drafts` | frontend/src/pages/MyStudioPage.jsx:65 | the drafts, as an order-preserving subsequence holding every draft |
| `MyStudio.Published` | frontend/src/pages/MyStudioPage.jsx:66 | the published sessions, as an order-preserving subsequence holding every published one |
| `MyStudio.SplitIsPartition` | frontend/src/pages/MyStudioPage.jsx:65-66 | the two lists are disjoint. When every status is `draft` or `published`, their lengths sum to the list's length |
| `MyStudio.StudioStats` | frontend/src/pages/MyStudioPage.jsx:140-158 | total is the list's length, published is the length of the published list and drafts the length of the drafts list, and published plus drafts equals the total when every status is one of the two |
| `MyStudio.Visible` | frontend/src/pages/MyStudioPage.jsx:243-246 | the drafts iff the active tab is `drafts`, otherwise the published list |
| `MyStudio.WithoutId` | frontend/src/pages/MyStudioPage.jsx:57 | drops exactly the entries with that `_id` and keeps the rest in order |
| `MyStudio.Studio.constructor` | frontend/src/pages/MyStudioPage.jsx:15-17 | the page starts with the loaded list on the `drafts` tab |
| `MyStudio.Studio.Delete` | frontend/src/pages/MyStudioPage.jsx:42-63 | a confirmed delete with an ok response drops exactly the entries with that `_id`. A declined confirm or a failed response leaves the list unchanged |
| `SessionEditor.FromSession` | frontend/src/pages/SessionEditorPage.jsx:77-80 | a loaded form carries every field of the stored session: id, title, description, tags, both URLs, difficulty, category, status and owner, with a set duration as minutes and an unset one as `''` |
| `SessionEditor.ApplyEdit` | frontend/src/pages/SessionEditorPage.jsx:92 | the named field takes the new value and every other field is equal |
| `SessionEditor.AddTag` | frontend/src/pages/SessionEditorPage.jsx:96-101 | the trimmed input is appended iff it is non-empty and not yet a tag, otherwise the tags are unchanged. A duplicate-free list stays duplicate-free |
| `SessionEditor.RemoveTag` | frontend/src/pages/SessionEditorPage.jsx:103-105 | every copy of the tag goes, and every other tag stays in its original order with all its copies. A duplicate-free tag list stays duplicate-free |
| `SessionEditor.SaveAlert` | frontend/src/pages/SessionEditorPage.jsx:108-115 | a save passes the checks iff the trimmed title is non-empty and, when publishing, the category is non-empty |
| `SessionEditor.CategoryCheckOnlyForPublish` | frontend/src/pages/SessionEditorPage.jsx:112-115 | a titled form without a category may be saved as a draft but not published |
| `SessionEditor.Payload` | frontend/src/pages/SessionEditorPage.jsx:118 | the payload carries every field of the form under its own path, with `status` overridden |
| `SessionEditor.EndpointFor` | frontend/src/pages/SessionEditorPage.jsx:122 | the endpoint is `save-draft` iff the status is `draft`, otherwise `publish` |
| `SessionEditor.AutosaveDue` | frontend/src/pages/SessionEditorPage.jsx:61 | an autosave is scheduled iff there are unsaved changes and the title has a character that is not white space |
| `SessionEditor.AutosavePassesChecks` | frontend/src/pages/SessionEditorPage.jsx:60-66 | whenever the autosave guard holds, the draft save it triggers passes the editor's checks |
| `SessionEditor.KeepSavedId` | frontend/src/pages/SessionEditorPage.jsx:132-134 | the form takes the `_id` of the returned document and nothing else changes |
| `SessionEditor.EndpointStatus` | backend/routes/sessions.js:36-74 | `save-draft` forces status `draft`, any other endpoint `published` |
| `SessionEditor.Editor.constructor` | frontend/src/pages/SessionEditorPage.jsx:20-36 | a new editor starts from the empty form with no session, no save time and no unsaved changes |
| `SessionEditor.Editor.Load` | frontend/src/pages/SessionEditorPage.jsx:77-80 | a loaded session becomes both `session` and the form |
| `SessionEditor.Editor.InputChange` | frontend/src/pages/SessionEditorPage.jsx:91-94 | exactly the named field changes and `hasUnsavedChanges` is set |
| `SessionEditor.Editor.AddTagFromInput` | frontend/src/pages/SessionEditorPage.jsx:96-101 | a new trimmed tag is appended and the input cleared. Otherwise form, input and flag are unchanged |
| `SessionEditor.Editor.RemoveTagNamed` | frontend/src/pages/SessionEditorPage.jsx:103-105 | the form's tags lose every copy of the tag, and the form is marked unsaved |
| `SessionEditor.Editor.Save` | frontend/src/pages/SessionEditorPage.jsx:107-148 | a failed check sends nothing and changes nothing. Otherwise one request goes to the status's endpoint with the payload. An ok reply records the session and save time and clears the unsaved flag. The form is never changed |
| `SessionEditor.Editor.SaveKeepingId` | frontend/src/pages/SessionEditorPage.jsx:107-148 | the corrected save: as `Save`, and an ok reply also puts the saved document's `_id` into the form |
| `SessionEditor.NewDraftWithoutCategoryFailsOnServer` | backend/models/Session.js:37-41 | a new titled draft without a category passes the editor's checks, yet the server answers 500 and stores nothing |
| `SessionEditor.ResaveInsertsAgain` | frontend/src/pages/SessionEditorPage.jsx:132-138 | as written, saving a new form twice inserts two documents with different ids |
| `SessionEditor.ResaveKeepingIdUpdates` | frontend/src/pages/SessionEditorPage.jsx:132-138 | with the saved `_id` kept, saving again updates the same document and inserts nothing |
| `SessionEditor.ResaveAccepted` | backend/routes/sessions.js:41-45 | a body that differs from an accepted new document only in `_id` passes the update validators |
| `SessionEditor.EditedStored` | frontend/src/pages/SessionEditorPage.jsx:77-92 | a stored session loaded and then edited keeps its `_id` and status and carries the new description |
| `SessionEditor.EditedStoredAccepted` | backend/routes/sessions.js:41-45 | the save of an edited stored session, as a draft or published, passes the update validators |
| `SessionEditor.AutosaveUnpublishes` | frontend/src/pages/SessionEditorPage.jsx:150-152 | as written, the autosave of an edited published session is due, succeeds, and stores the session as a draft |
| `SessionEditor.AutosaveStatus` | frontend/src/pages/SessionEditorPage.jsx:150-152 | the corrected autosave status: `published` iff the form's status is `published`, otherwise `draft` |
| `SessionEditor.AutosaveKeepsPublished` | frontend/src/pages/SessionEditorPage.jsx:150-152 | with `AutosaveStatus`, the autosave of an edited published session succeeds, keeps it published and stores the edit |

## Left out

- Express wiring, CORS, the database connection and `listen` (`backend/server.js`) are I/O
  plumbing. The route table (`frontend/src/App.jsx`), the layout
  (`frontend/src/components/Layout.jsx`) and the register form
  (`frontend/src/pages/RegisterPage.jsx`) hold no logic beyond presentation and a
  confirm-password comparison.
- `backend/models/User.js` and `backend/middleware/auth.js` are not part of this model.
  The user schema's own validators are not modelled: a required name, email
  normalisation, and the role default, which is taken as `user`. Neither is the pre-save
  hashing hook. A user-schema validation failure inside `/register` would be answered 500.
- `AuthRoutes.UserStore.Register`: hashing is a function parameter, so the model does not
  capture that bcrypt salts are random and the same password hashes differently.
- `AuthRoutes.Issue`: a token is the triple of user id, key and lifetime. Signing,
  verifying, expiry and tampering are not modelled, because `jwt.sign` is a foreign call.
- `AuthRoutes.UserStore.GetProfile`: the middleware's token check is not modelled. The
  operation starts from the user id a verified token carries and does not model what the
  middleware strips from the record.
- `SessionRoutes.SessionStore.ListPublished`: `populate('created_by', 'full_name email')`
  is not modelled. The owner stays a user id.
- `SessionRoutes.Insert`: documents with equal sort keys may come out in any order,
  because the datastore's sort stability is not modelled. Timestamps are naturals that
  are passed in.
- `SessionSchema.Create`: a body's `createdAt` and `updatedAt` are not modelled. The
  schema declares both through `{ timestamps: true }`, and the editor echoes them back on a
  loaded session; the model always stamps them with the current time. Paths the schema does
  not declare, such as `__v`, are not modelled either. Mongoose's cast errors
  are not modelled either, such as a non-numeric duration or a malformed ObjectId.
- `SessionSchema.Create`: a duration is a whole number of minutes. A fractional duration
  such as 1.5, which passes `min: 1`, cannot be represented.
- The `setTimeout` debounce, effect scheduling, `fetch`, `localStorage`, `alert`,
  `navigate`, `window.open`, `Date` and `toLocaleTimeString` are timers and I/O. The
  editor's save takes the server's reply and the current time as parameters. Only the
  autosave guard is modelled.
- `Text.Lower`: `toLowerCase` is modelled on ASCII letters only, not full Unicode.
- Concurrent requests (last write wins between two tabs) are out of scope. Requests are
  handled one after another.

## Findings

| source | as written | input that shows it | evidently intended | confidence | as-written member | corrected member |
|---|---|---|---|---|---|---|
| frontend/src/pages/SessionEditorPage.jsx:132-138 | after a successful save, `setSession(result)` records the returned document, but its `_id` never reaches `formData`. Every later save of a new session's form goes to save-draft without `_id` and inserts another document | a new form with title "Morning Flow" and category "yoga": the 5-second autosave inserts document X, then "Save Draft" inserts a second document Y ≠ X | later saves carry the saved `_id`, so they update X in place | high, not executed | `SessionEditor.ResaveInsertsAgain` | `SessionEditor.ResaveKeepingIdUpdates` |
| backend/routes/sessions.js:78-81 | PUT passes `req.body` to `findOneAndUpdate` unfiltered, so a body that sets `created_by` moves the document to another user. save-draft and publish force `created_by` to the caller; PUT does not | the owner of document X sends PUT `/my-sessions/X` with body `{ "created_by": B }`: the reply is 200, X now belongs to B, and the owner's own GET `/my-sessions/X` answers 404 | PUT never changes the owner: `created_by` is dropped from the body or forced to the caller | medium, not executed | `SessionRoutes.PutCanReassignOwner` | `SessionRoutes.PutKeepingOwner` |
| frontend/src/pages/SessionEditorPage.jsx:150-152 | `handleAutoSave` always calls `handleSave('draft')`, which posts to save-draft, and save-draft forces `status: 'draft'` (backend/routes/sessions.js:38) | open published session X in the editor, change its description and wait five seconds: the autosave answers 200 and X is stored as a draft, so it leaves the public listing | an autosave keeps the session's current status, so a published session stays published | medium, not executed | `SessionEditor.AutosaveUnpublishes` | `SessionEditor.AutosaveKeepsPublished` |
