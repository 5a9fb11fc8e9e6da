# Travel-story backend, modelled in Dafny

This project models the request handlers of the travel-journal server
(`server/index.js`): account registration, login and profile lookup; image
upload and deletion in the uploads directory; and the owner-scoped story
handlers (add, list, edit, delete, set favourite, search, filter by date).
The MongoDB collections become in-memory state and the authenticated caller's
`userId` is a parameter of every protected handler.

Layout, one module per file:

- `wrappers.dfy` (`Wrappers`): `Option`.
- `seqs.dfy` (`Seqs`): `Filter` (a database `find`) and `IndexWhere` (a `findOne`), with their counting and first-match properties.
- `records.dfy` (`Records`): `User`, `Story` and the bcrypt `Digest`.
- `http.dfy` (`Http`): `Response(status, error, message, payload)`. `error` says whether the JSON body carries `error: true`, and `message` is `""` when the body has none.
- `paths.dfy` (`Paths`): the upload and placeholder URLs and POSIX `path.basename`.
- `text.dfy` (`Text`): case-insensitive substring matching, proved equal to an "occurs at some offset" specification.
- `queries.dfy` (`Queries`): GET /get-all-stories, /search and /travel-stories/filter as functions over the stories table.
- `users.dfy` (`Users`): class `UserRegistry`, holding the users collection, with /create-account, /login and /get-user.
- `stories.dfy` (`Stories`): class `StoryStore`, holding the stories table, the file names in `uploads/` and a journal of effects in the order they happen. It has /add-travel-story, /edit-story, /delete-story, /update-is-favourite and /delete-image, plus /image-upload as a function.
- `scenario.dfy` (`Scenario`): client methods that check sessions against the contracts alone. They cover register-then-login, upload-then-delete, delete with a failing disk, favourite-then-list and search hit/miss.

Conventions of the model:

- A request field that is missing, `null`, `undefined` or `""` is the empty string, because JavaScript treats all of these as falsy.
- `visitedDate` is `Option<int>` of milliseconds. `None` and `Some(0)` are the falsy values the handlers reject.
- Identifiers are `nat`s. Each store hands out a fresh one per insert, and its `Valid()` invariant keeps identifiers distinct.
- Registration also keeps emails unique.
- `uploads` holds plain file names only.
- The sort `isFavourite: -1` is modelled as a stable partition. What is proved is only that favourites come first and that the answer is a permutation of the matching rows. MongoDB's sort is not stable, so nothing more is claimed.
- Deleting a story appends `RecordDeleted(id)` to the journal before the file step. It then appends `FileRemoved(f)` or `RemovalFailed(f)`; the latter is the `console.error` branch.
- `diskFails` stands for a file-system fault other than a missing file.
- `path.join(__dirname, 'uploads', f)` names a directory when `f` is `""`, `.` or `..`. `fs.existsSync` is then true and unlinking throws, so `/delete-image` answers 500 and `/delete-story` logs the failure.

Behaviours of the handlers worth noting:

- Not-found answers differ by handler: 400 for edit and set-favourite, 404 for delete.
- A missing search query is answered 404.
- Login failures, listings and the profile answer carry no error flag.
- Deleting an absent image answers 200 with `error: true` ("Image not found").
- Delete-story answers with a message only; the deleted record and its image reference are not returned.
- The shared placeholder lives in `assets/`, while delete-story and delete-image only ever unlink inside `uploads/`, so the placeholder file is never touched. A story using the placeholder just logs a failed unlink of `uploads/placeholder.png` (given no upload has that name).
- GET /get-user returns the whole user record, password digest included (`Profile(user)`).

## Model

| member | source | states |
|---|---|---|
| Users.FindByEmail | server/index.js:40 | the lookup finds a user with exactly that email, or reports that no user has it |
| Users.FindById | server/index.js:113 | the lookup finds the user with that id, or reports that none has it |
| Users.UserRegistry.CreateAccount | server/index.js:31-72 | any empty field gives 400 "All fields are required" and a known email gives 400 "User already exists", both leaving the users unchanged; otherwise exactly one user is appended, with a fresh id and the digest of the password, and the answer is 201 with error false; ids stay distinct and emails unique |
| Users.UserRegistry.Login | server/index.js:75-107 | the answer is 200 exactly when both fields are given and some user with that email verifies the password; otherwise 400 with the message naming the first failing check (missing fields, unknown email, wrong password) and no error flag |
| Users.UserRegistry.GetUser | server/index.js:110-123 | 200 with that user's record exactly when a user has the token's id, otherwise 401 |
| Records.CompareHash | server/index.js:87 | a digest verifies the password it was made from, and exactly the passwords that agree with it on their first 72 characters |
| Records.LongPasswordsCollide | server/index.js:87 | two passwords that differ only after their 72nd character verify against each other's digest |
| Stories.ImageUpload | server/index.js:127-145 | 201 with `http://localhost:8000/uploads/<filename>` when a file came, whose basename gives the file name back for a plain name, or the placeholder URL when no file came |
| Paths.Basename | server/index.js:159 | the basename never contains '/', is no longer than the path, and a name without '/' is its own basename |
| Paths.TrimmedEnd | server/index.js:159 | the trimmed end is where the path's final run of '/' begins: everything after it is '/', and the character before it is not |
| Paths.LastSlashBefore | server/index.js:159 | the index found is a '/' with no '/' after it before the end, or -1 when there is no '/' |
| Paths.BasenameOfSegment | server/index.js:159 | the basename of dir + "/" + name is the name, for a non-empty name without '/' |
| Paths.BasenameOfUploadUrl | server/index.js:134 | the basename of an upload's URL is the uploaded file name (the upload/delete round trip) |
| Stories.StoryStore.DeleteImage | server/index.js:148-177 | empty imageUrl gives 400; otherwise a present file basename(imageUrl) is removed (200), an absent one leaves the directory unchanged with 200 error "Image not found", and a directory or disk fault gives 500; stories and journal unchanged |
| Stories.StoryStore.AddTravelStory | server/index.js:186-214 | any empty field, imageUrl included, or a visitedDate of 0 or none gives 400 with the store unchanged; otherwise exactly one story is appended, owned by the caller, with a fresh id, the given millisecond date and isFavourite false, and the answer is 201 with it |
| Queries.SortByFavourite | server/index.js:222-224 | the result puts every favourite before every non-favourite and is a permutation of its input |
| Queries.Query | server/index.js:222-224 | the answer holds each of the caller's rows the criterion selects exactly as often as the table does and nothing else, favourites first |
| Queries.GetAllStories | server/index.js:218-231 | 200 with a favourites-first permutation of exactly the caller's stories |
| Queries.ListingsAreOwnerScoped | server/index.js:222 | no listing contains a story of another user or one not in the table |
| Queries.FavouriteHeadsListing | server/index.js:222-224 | if the caller has a selected favourite, the answer starts with a favourite |
| Queries.AppendedStoryListed | server/index.js:208 | a story just added appears in its owner's listing |
| Stories.FindOwned | server/index.js:252 | the lookup finds a row with that id and that owner, or reports that the caller owns no row with that id |
| Stories.StoryStore.EditStory | server/index.js:235-272 | missing title, story, location or date gives 400 with the store unchanged; no (id, owner) match gives 400 "Travel Story not found" with the store unchanged; otherwise only that row changes, getting the new title, story, location and date and the given imageUrl or the placeholder, and keeping id, owner and isFavourite |
| Stories.StoryStore.Unlink | server/index.js:300-306 | the file leaves uploads only if it is present and the disk does not fail, and exactly one journal entry is added: FileRemoved when it left, RemovalFailed (the logged error) otherwise; stories unchanged |
| Stories.StoryStore.DeleteStory | server/index.js:275-313 | no (id, owner) match gives 404 with nothing changed; otherwise exactly that record is removed, the journal records the deletion before the unlink attempt, the file basename(imageUrl) leaves uploads only if present and the disk does not fail, and the answer is 200 whatever happened to the file |
| Stories.DeletedStoryNotListed | server/index.js:290 | after a delete, no listing of any user shows a story with the deleted id |
| Stories.StoryStore.UpdateIsFavourite | server/index.js:316-336 | no (id, owner) match gives 400 with the store unchanged; otherwise only that row's isFavourite changes, and the answer is 200 with it |
| Queries.Search | server/index.js:340-364 | 404 "Query is required" exactly when the query is empty; otherwise 200 with a favourites-first permutation of the caller's stories that match in title, story or location |
| Queries.SearchFinds | server/index.js:349-356 | a story is found exactly when it is the caller's and the query occurs, ignoring case, at some offset of its title, story or location |
| Queries.NoMatchEmptyListing | server/index.js:349-358 | a query nothing of the caller's matches gives an empty list, not an error |
| Text.ContainsIgnoreCaseSpec | server/index.js:352-354 | the matcher accepts exactly when the query occurs at some offset of the text, letters compared without case |
| Text.MissingLetterNoMatch | server/index.js:352-354 | a query whose first letter does not occur in the text, in either case, does not match |
| Queries.FilterByDate | server/index.js:367-388 | 200 with a favourites-first permutation of exactly the caller's stories with start <= visitedDate <= end |

## Left out

- Tokens: the JWT in the register and login answers, the signing secret and the `authenticateToken` middleware (its 401/403 answers) are not modelled. `utilities.js` is not part of this model. The authenticated `userId` is an input.
- bcrypt: salt generation, the cost of hashing and one-wayness are not modelled. `Digest` keeps the significant part of the password so that `Compare` can be stated.
- Records.Significant: bcrypt's 72-byte limit is counted in characters, which agrees with bcrypt for ASCII passwords only; a password with multi-byte UTF-8 characters reaches the limit sooner in bcrypt than in the model.
- Express routing, CORS, static serving of `uploads/` and `assets/`, `mongoose.connect` and `app.listen` are framework plumbing.
- multer: storing the uploaded file and choosing its name happen before the handler, and the `multer` configuration is not part of this model. `ImageUpload` takes the file name as input and does not add it to `uploads`.
- The handler `catch` branches for database faults, Mongoose validation errors and cast errors (a malformed `:id` or date) are not modelled. These are the 500 answers of most handlers and the 400 of add-story's catch. Only the file-system 500 of /delete-image is modelled.
- The Mongoose schemas are not part of this model. A new story's `isFavourite` is taken to default to false, and creation timestamps are not modelled. `visitedLocation` is modelled as a single string. If the schema made it a list of labels, the required-field check would still test the request value itself, so an empty list would pass it, and the search match would apply to each label.
- Dates are integer milliseconds. `parseInt` of non-numeric or fractional text, Invalid Date, and the Date range limit are not modelled. That covers missing filter bounds too.
- JSON values that are not strings in the string fields are not modelled, nor a request without `isFavourite`.
- Queries.Search: `$regex` with option `i` is modelled as a literal substring match with ASCII case folding. A query holding regular-expression metacharacters, or non-ASCII letters that differ only in case, would behave differently in MongoDB.
- Queries.SortByFavourite: the order among stories with the same `isFavourite` is left unclaimed, because MongoDB's sort is not stable.
- Stories.StoryStore.DeleteStory: the asynchronous `fs.unlink` is modelled as finishing within the request. Its interleaving with later requests is not modelled, nor any effect it could have, since it has none on the answer.
- File-system error messages are not modelled. The 500 body of /delete-image carries a fixed message.
- Concurrent requests are not modelled, including last-write-wins between edits of one story.
- The frontend (`frontend/src/...`, `frontend/tailwind.config.js`) and `server/config.js` have no server-side behaviour to model.
