# cutube core in Dafny

This project models the backend of cutube, a small video-sharing application.
Users register, receive a generated password by email, log in, edit a bio,
upload a profile picture, and upload videos with thumbnails to an S3 bucket.
It also models the client-side rules of the profile page that decide what is
sent to the backend and how its replies update the page.

One module per source file:

- `Wrappers`: `Option`, `Result`.
- `Bcrypt` (`bcrypt.hash` / `bcrypt.compare` as called by the controller): an ideal digest whose only verifying input is the hashed password.
- `Models` (`Backend/models/User.js`, `Backend/models/Video.js`): the two schemas, their `required` validation, and `Consistent`, the invariant of the stored collections (valid documents, unique emails, fresh ids, resolvable and single ownership links).
- `Http` (Express and multer): thrown errors, JSON bodies, responses, route tables, and first-match dispatch.
- `Password` (`getRandomChar`, `generatePassword`): the generator, with its random draws as parameters.
- `Storage` (`Backend/utils/s3.js`): object keys `folder/name-timestamp`, upload parameters, and the three folders.
- `Services` (the MongoDB collections, S3, `sendEmail`): class `Backend`: two maps, the id generator, a log of visible effects, and insert/save/upload/email operations that keep `Consistent`.
- `UserController` (`Backend/controller/userController.js`): `register`, `login`, `getUserDetails`, `getUserDetailsById`, `getAllUsers`.
- `UserRoutes` (`Backend/routes/UserRoutes.js`): the `/bio` handler and the router table.
- `UploadRoutes` (`Backend/routes/uploadRoutes.js`): the multer policies, the two upload handlers, and the error middleware.
- `ProfilePage` (`Frontend/src/page/Profile.jsx`): the 30-word description limit, the `setProfile` updaters, and class `Page` with the three submit handlers.

Handlers are methods on a `Backend` object. Each one states its response and
the new state of both collections and of the effect log. The log records the
order of emails sent, documents saved and objects stored. Randomness and the
environment are parameters:

- the password generator's draws;
- bcrypt's salt;
- `Date.now()`;
- the storage service's replies;
- `LOGIN_URL`.

Collections return documents in natural order. Ids come from one increasing
generator, so natural order is increasing id order.

Where the code and the design description differ, the model follows the code:

- A taken email answers 400, not a separate conflict status.
- A video is saved before its owner is looked up. A missing owner leaves the
  video owned by nobody. `Consistent` therefore allows unowned videos, and it
  requires at most one owner for each video.
- The video route's missing-file guard is never reached: `UploadVideo` answers a
  missing file as the code does (see Findings).

## Model

| member | source | states |
|---|---|---|
| Bcrypt.Hash | Backend/controller/userController.js:39 | the digest verifies against the password it was made from and records the cost factor it was given |
| Bcrypt.CompareAcceptsOnlyThePassword | Backend/controller/userController.js:82-86 | `compare` accepts a guess exactly when it equals the hashed password, whatever the salt |
| Models.NewUser | Backend/models/User.js:3-42 | a new user carries the given identity and digest; it has no videos, no bio and no picture, and `emailRegistered` is false; it passes validation iff all four required strings are non-empty |
| Models.InsertUserKeepsConsistent | Backend/models/User.js:15 | inserting a valid, video-less user under a fresh id with an unused email preserves the store invariant |
| Models.UpdateUserKeepsConsistent | Backend/controller/userController.js:90-91 | rewriting a user's non-identity fields, keeping its video list, preserves the store invariant |
| Models.InsertVideoKeepsConsistent | Backend/routes/uploadRoutes.js:66-73 | inserting a valid video under a fresh id preserves the invariant, and nobody owns the new video |
| Models.AppendVideoKeepsConsistent | Backend/routes/uploadRoutes.js:81-82 | appending a stored, unowned video to one user's list preserves the invariant, including single ownership |
| Http.FirstRoute | Backend/routes/UserRoutes.js:8-34 | the index found is the first route, in registration order, that handles the verb and path; none is found only when no route handles them |
| Password.RandomChar | Backend/controller/userController.js:10-13 | every one of the 62 draws is an ASCII letter or digit |
| Password.EveryAlphanumericCanBeDrawn | Backend/controller/userController.js:11-12 | every ASCII letter and digit is the result of some draw |
| Password.Leading2 | Backend/controller/userController.js:16-17 | `substring(0, 2)` is the prefix of length min(2, length) |
| Password.Trailing2 | Backend/controller/userController.js:18 | `substring(length - 2)` is the suffix of length min(2, length), so a shorter string is kept whole |
| Password.ShufflePermutes | Backend/controller/userController.js:22 | the random-comparator shuffle yields a permutation of its input: the same multiset of characters |
| Password.ShuffleReachesEveryPermutation | Backend/controller/userController.js:22 | every permutation of the input is produced by some choice of insertion slots |
| Password.GeneratedPasswordShape | Backend/controller/userController.js:15-23 | the password's length is the fragment lengths plus 2, and its characters are exactly the two name, two email and two mobile fragments plus the two random characters |
| Password.EveryArrangementIsGenerated | Backend/controller/userController.js:15-23 | every arrangement of those fragments is a password the generator can return |
| Storage.Folder | Backend/utils/s3.js:24-26 | each wrapper's folder is non-empty and contains no `/` |
| Storage.Decimal | Backend/utils/s3.js:7 | a timestamp prints as a non-empty string of decimal digits with no leading zero |
| Storage.DecimalRoundTrip | Backend/utils/s3.js:7 | parsing the printed timestamp gives the timestamp back |
| Storage.KeyFolder | Backend/utils/s3.js:7 | the folder read from a key is the slash-free prefix of the key that ends at its first `/` |
| Storage.KeyFolderOfStorageKey | Backend/utils/s3.js:7 | reading the folder back from a built key returns the folder the key was built with |
| Storage.KindsNeverCollide | Backend/utils/s3.js:24-26 | uploads of different kinds never share a key, whatever the names and timestamps |
| Storage.TimestampsNeverCollide | Backend/utils/s3.js:3-7 | the same name in the same folder at two different instants gets two different keys |
| Storage.Params | Backend/utils/s3.js:5-10 | the upload goes to the configured bucket with the file's bytes and MIME type, under the key `folder/originalname-timestamp` built from the kind's folder, so that key lies in that folder |
| Services.MissingUserPaths | Backend/models/User.js:4-24 | the list of empty required user paths is empty iff the user passes validation |
| Services.MissingVideoPaths | Backend/models/Video.js:3-20 | the list of empty required video paths is empty iff the video passes validation; it names `title` or `description` iff that field is empty |
| Services.FindOneByFirstname | Backend/controller/userController.js:76 | `findOne({ firstname })` returns the first user in natural order with that first name, or nothing when no user in range has it |
| Services.Backend.NewObjectId | Backend/controller/userController.js:42 | a new document's `_id` is used by no stored user or video |
| Services.Backend.SendEmail | Backend/controller/userController.js:60 | sending mail always returns, and appends exactly that email to the effect log |
| Services.Backend.Upload | Backend/utils/s3.js:3-21 | the service's reply is passed through; a successful upload logs the object under the computed parameters, and a failed one logs nothing |
| Services.Backend.InsertUser | Backend/controller/userController.js:62 | a save fails with the validation message iff a required path is empty, otherwise with a duplicate key iff the email is taken; it stores the user iff neither happens, and keeps the invariant |
| Services.Backend.SaveUser | Backend/controller/userController.js:91 | an update saves exactly the new user and logs it |
| Services.Backend.InsertVideo | Backend/routes/uploadRoutes.js:73 | a video saves iff it passes validation; the failure carries the validation message; a saved video is unowned |
| UserController.EmailCarriesPassword | Backend/controller/userController.js:52-57 | the account email holds the plaintext password at a fixed offset, followed by the login link |
| UserController.Populate | Backend/controller/userController.js:107 | `populate('videos')` yields only stored videos, each paired with its own document, and never more entries than ids |
| UserController.PopulateResolved | Backend/controller/userController.js:140 | when every id resolves, population keeps every id, in order |
| UserController.ViewShowsEveryVideo | Backend/controller/userController.js:107 | in a consistent store a user's public view lists all of its videos, in its own order |
| UserController.UserIds | Backend/controller/userController.js:140 | `find()` lists only stored users, in strictly increasing (natural) order |
| UserController.UserIdsComplete | Backend/controller/userController.js:140 | no stored user in range is missing from `find()` |
| UserController.AllUsers | Backend/controller/userController.js:138-146 | each listed entry is a stored user's password-free public view; entries are in strictly increasing id order |
| UserController.AllUsersListsEveryUser | Backend/controller/userController.js:140 | in a consistent store every user appears in the listing |
| UserController.Register | Backend/controller/userController.js:25-70 | a taken email answers 400 and changes nothing. Otherwise the email carrying the generated password is sent before the save. A valid user is stored with a bcrypt digest, never the plaintext, and the answer is 201. A user failing validation answers 500 after the email was sent. The invariant is kept |
| UserController.Login | Backend/controller/userController.js:72-98 | the first user with that first name is checked: no user answers 400 'User not found', a wrong password 400 'Invalid credentials'; success sets `emailRegistered`, saves it and returns a token for that user |
| UserController.LoginSearchesEveryUser | Backend/controller/userController.js:76-80 | in a consistent store the lookup finds nobody iff no user has that first name |
| UserController.GetUserDetails | Backend/controller/userController.js:105-118 | the authenticated user's public view with 200, or 404 when the id has no user |
| UserController.GetUserDetailsById | Backend/controller/userController.js:122-136 | a parameter that is not an ObjectId answers 500; otherwise 404 for an unknown id, or 200 with the public view |
| UserController.GetAllUsers | Backend/controller/userController.js:138-146 | answers 200 with the listing, every user once in natural order without passwords (see AllUsers and AllUsersListsEveryUser) |
| UserRoutes.UpdateBio | Backend/routes/UserRoutes.js:12-30 | an unknown user answers 404 and changes nothing; otherwise the bio is overwritten with the given value, whatever its length, and the answer is 200 |
| UserRoutes.ProtectedRoutes | Backend/routes/UserRoutes.js:8-34 | a request reaches a `protect`ed handler iff that handler is the bio update or `/me` |
| UserRoutes.FixedPathsWinOverTheParameter | Backend/routes/UserRoutes.js:32-34 | `GET /all` and `GET /me` reach their own handlers, not the `/:userId` lookup registered after them |
| UserRoutes.OtherSegmentsAreUserIds | Backend/routes/UserRoutes.js:34 | any other single-segment GET path reaches the unauthenticated id lookup |
| UserRoutes.NestedPathsAreNotRouted | Backend/routes/UserRoutes.js:8-34 | a path of two or more segments reaches no route |
| UploadRoutes.FileFilter | Backend/routes/uploadRoutes.js:11-19 | a file passes iff its MIME type is allowed; otherwise the error is 'Invalid file type' |
| UploadRoutes.Admit | Backend/routes/uploadRoutes.js:22-33 | a file is admitted iff its type is allowed and its size is at most the ceiling; a wrong type is reported before the size |
| UploadRoutes.AdmitFiles | Backend/routes/uploadRoutes.js:29-33 | both files are admitted iff each present file is admitted; a rejected video's error is the one reported, and otherwise a rejected thumbnail's own error |
| UploadRoutes.HandleError | Backend/routes/uploadRoutes.js:91-100 | the answer is 400 iff the error is multer's size error or the file filter's type error, each with its own message; anything else is 500 with the error's message |
| UploadRoutes.RejectedUploadsAnswer400 | Backend/routes/uploadRoutes.js:91-98 | every file multer turns away answers 400 |
| UploadRoutes.OtherMulterErrorsAnswer500 | Backend/routes/uploadRoutes.js:92-99 | any other multer error code answers 500 with its own message |
| UploadRoutes.PoliciesNest | Backend/routes/uploadRoutes.js:22-33 | every picture type is a media type; the ceilings are 3 MiB and 6 MiB; only media may be mp4 |
| UploadRoutes.SelectFilesAsWritten | Backend/routes/uploadRoutes.js:56-61 | as written, the file selection fails iff a field is missing, with the `TypeError` message; otherwise both files are selected |
| UploadRoutes.MissingFileGuardUnreachable | Backend/routes/uploadRoutes.js:56-61 | as written, the guard's message is never the answer; a missing thumbnail answers 500 with a `TypeError` message |
| UploadRoutes.RequiredFiles | Backend/routes/uploadRoutes.js:56-61 | corrected: a missing file fails with 'Both video and thumbnail files are required.'; otherwise both files are selected |
| UploadRoutes.CorrectionKeepsOutcome | Backend/routes/uploadRoutes.js:56-61 | the correction refuses exactly the requests the code refuses, selects the same files otherwise, and still answers 500 |
| UploadRoutes.UploadProfilePicture | Backend/routes/uploadRoutes.js:35-51 | a rejected file is answered by the error middleware and changes nothing; a missing file or a failed upload answers 500; the object is stored before the user lookup, so an unknown user answers 404 with the object left stored; otherwise the picture URL is saved and answered with 200 |
| UploadRoutes.UploadVideo | Backend/routes/uploadRoutes.js:53-88 | rejected files change nothing and answer 400; a missing file, as the code is written, answers 500 with the `TypeError` message and changes nothing; otherwise the effects are those of StoreAndSave |
| UploadRoutes.StoreAndSave | Backend/routes/uploadRoutes.js:63-88 | the video is stored, then the thumbnail, then the document is saved and linked; the first failure answers and leaves the earlier effects in place; success answers 201 with the new video and appends its id to the owner's list |
| UploadRoutes.SaveAndLink | Backend/routes/uploadRoutes.js:66-84 | an invalid video answers 500 with the validation message; a valid one is saved first, so a missing owner answers 500 and leaves it unowned; otherwise its id is appended to the owner's list and the answer is 201 |
| UploadRoutes.UploadsAreProtected | Backend/routes/uploadRoutes.js:35-53 | only POST `/profile-picture` and POST `/video` reach a handler, and both sit behind `protect` |
| ProfilePage.TrimRemovesOnlySpace | Frontend/src/page/Profile.jsx:113 | `trim` removes only whitespace, all of it at both ends: the text is whitespace, then the trimmed text, then whitespace |
| ProfilePage.SplitPiecesHaveNoSpace | Frontend/src/page/Profile.jsx:114 | no piece of `split(/\s+/)` contains whitespace |
| ProfilePage.SplitCountsWords | Frontend/src/page/Profile.jsx:114 | on trimmed, non-empty text, `split(/\s+/)` gives one piece per word |
| ProfilePage.WordCountIsWords | Frontend/src/page/Profile.jsx:113-114 | the page's count equals the number of words, except that blank text counts as one |
| ProfilePage.TooLongMeansOver30Words | Frontend/src/page/Profile.jsx:116 | a description is refused iff it has more than 30 words |
| ProfilePage.FromUser | Frontend/src/page/Profile.jsx:36-42 | the profile copies the user's names, bio and videos; a set, non-empty picture is shown as is, and the picture is the default iff the user has none or an empty one |
| ProfilePage.UpdatersTouchOneFieldAndCommute | Frontend/src/page/Profile.jsx:83-86 | each functional updater (bio, and likewise video at 140-143 and picture at 205-208) changes only its own field, so updaters of different fields commute |
| ProfilePage.UploadsAppendInOrder | Frontend/src/page/Profile.jsx:140-143 | successive video uploads append to the list in order and change nothing else |
| ProfilePage.VideoRequestFor | Frontend/src/page/Profile.jsx:112-126 | nothing is sent iff the description has more than 30 words; otherwise the trimmed description is sent with the title |
| ProfilePage.Page.constructor | Frontend/src/page/Profile.jsx:17-23 | the page starts with the empty profile, no errors, and every dialog closed and idle |
| ProfilePage.Page.DescriptionChanged | Frontend/src/page/Profile.jsx:155-166 | the raw text is kept, and the word-limit error is shown iff the text has more than 30 words |
| ProfilePage.Page.SubmitBio | Frontend/src/page/Profile.jsx:63-95 | an accepted reply stores the bio that was sent and closes the dialog; anything else leaves the profile and shows the bio error |
| ProfilePage.Page.SubmitVideo | Frontend/src/page/Profile.jsx:107-153 | a description over the limit is flagged and nothing is sent; otherwise the trimmed text is sent; an accepted reply appends the returned video and clears the form; a failure shows the video error and keeps the form |
| ProfilePage.Page.ApplyVideoReply | Frontend/src/page/Profile.jsx:136-152 | an accepted reply appends the returned video, closes the dialog and clears the description; otherwise the profile is kept and the video error shown |
| ProfilePage.Page.SubmitPhoto | Frontend/src/page/Profile.jsx:185-221 | an accepted reply shows the new picture and closes the dialog; an error reply shows the server's `error` text; no reply, or a 2xx reply without `success`, shows the generic message |

## Left out

- The `protect` middleware and JSON web tokens. A protected handler receives the authenticated user's id. A login token is modelled by its claims only.
- Multer's multipart parsing, other multer error codes, and non-multipart requests. A request arrives with its files already parsed into `Option<File>`s.
- The order in which multer streams the two video-route files. The model checks the video before the thumbnail, the order the page appends them in.
- Request bodies with missing or non-string fields (for example an `undefined` email reaching `substring`). Body fields are strings.
- Express's case-insensitive matching and trailing-slash tolerance. Paths match literally.
- Database and connection failures, and with them the 500 answers 'Error logging in user', 'Error fetching users' and 'Error updating bio'. The collections are maps that always answer.
- The text of MongoDB's E11000 duplicate-key error. `register` answers 500 'Error registering user' for it whatever the text says.
- Mongoose's cast of a route parameter to an ObjectId. It is an `Option` given to the handler.
- Concurrent requests. Each handler runs alone against the store.
- `sendEmail`'s transport (Backend/utils/sendEmail.js). The model records that an email was sent; delivery errors are swallowed inside it, so it always returns.
- The bcrypt cryptography. The digest is ideal: it verifies only its own preimage.
- Randomness: `Math.random` draws are indices below 62 and insertion slots; the bcrypt salt and `Date.now()` are parameters.
- Password.Leading2, Password.Trailing2 and Password.Shuffle work on Unicode scalar values, while JavaScript's `substring` and `split('')` work on UTF-16 code units. For names, emails or mobiles holding characters outside the Basic Multilingual Plane, the source can cut a surrogate pair, and `PasswordLength` and `GeneratedPasswordShape` then differ from it. Inputs within that plane behave identically.
- Password.Shuffle: `sort(() => 0.5 - Math.random())` is modelled as insertion at a chosen slot for each next character. The model proves only that the result is some permutation, and that every permutation is reachable, not the engine's probabilities.
- The profile page's rendering, loading spinners beyond the three handler flags, modal toggling outside the handlers, and the `/me` fetch hook's error path.
- ProfilePage.Page.SubmitVideo and ProfilePage.Page.SubmitPhoto: an accepted reply is assumed to have the body the matching backend route sends on success (`video` or `profilePictureUrl`).
- UserController.GetAllUsers: its contract states the listing as `AllUsers`. That every user appears in it is proved separately, under the store invariant, by `AllUsersListsEveryUser`.
- Backend/index.js, Backend/config/aws.js and the other frontend pages are not part of this model.

## Findings

| source | as written | input that shows it | evidently intended | confidence | as-written member | corrected member |
|---|---|---|---|---|---|---|
| Backend/routes/uploadRoutes.js:56-61 | `req.files.video[0]` and `req.files.thumbnail[0]` are read before the guard. A missing field is `undefined`, so reading index 0 throws a `TypeError`. The guard on the two files is never reached, and the client gets 500 "Cannot read properties of undefined (reading '0')" | a `/video` upload with a video file and no thumbnail | the request is refused with 'Both video and thumbnail files are required.' | not executed | UploadRoutes.MissingFileGuardUnreachable | UploadRoutes.RequiredFiles |
