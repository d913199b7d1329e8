# CrispColon upload pipeline, modelled in Dafny

CrispColon's backend takes an image from a logged-in user. It scores the image
with a prediction model, stores it on Cloudinary, and appends the result to the
user's `history` in MongoDB. This project models the request-handling core of
`CrispColon-Backend/server.js`:

- the `authenticate` middleware, a three-way gate on the `token` cookie;
- multer's disk-storage rule, which stages each upload as
  `<Date.now()>-<originalname>` in the uploads directory;
- the stand-in `model` and the shape of the record it resolves with;
- the `/api/upload` handler. It runs prediction, Cloudinary upload, removal of
  the staged file, user lookup, history append and save. Any rejection falls
  through to one 500 reply;
- `handleProfilePhoto`, which follows the same steps but overwrites
  `profilePic`.

Every external call is an outcome parameter. These are `jwt.verify` (a function
from token to payload-or-throw), the prediction step, the Cloudinary upload,
`User.findOne`, `user.save`, `JSON.stringify` (a function parameter) and the
clock. `fs.unlinkSync` is modelled on the state: it succeeds exactly when the
staged name is still in the uploads directory.

Modules:

- `Records`: the user document, history entry, decoded payload and reply.
- `Http`: the request and response objects the middlewares fill in.
- `Auth`: the gate `Decide` and the middleware `Authenticate`.
- `Staging`: the decimal rendering of the timestamp, the staged name, and its
  inverse.
- `Inference`: `Model`. The prediction step's outcome is `Model` applied to
  three `Math.random()` draws, or a rejection.
- `Pipeline`: both handlers as functions of the state, which is the set of
  staged file names plus the user collection. They are written as one state
  machine whose exits (`Exit`) are the points where a request leaves the
  handler.
- `Routes`: each route as Express chains it (gate, multer, handler), and runs
  of requests served one after another.
- `App`: a `Server` class holding the uploads set and the user map. Its methods
  run the handlers step by step, and each is proved to produce the state and
  reply that `Pipeline`/`Routes` describe.

## Behaviour of the code worth knowing

- The staged file is removed only after the Cloudinary upload succeeded
  (`server.js:132-137`, `server.js:169-173`). When the prediction or the upload
  rejects, the file stays in the uploads directory; see
  `Routes.StagedFileOutlivesFailedUpload` and
  `Routes.StagedPhotoOutlivesFailedUpload`.
- An `fs.unlinkSync` that throws (`server.js:137`, `server.js:173`) is caught
  like any other error: the request fails with a 500 (`UnlinkFailed` in
  `Pipeline.ExitOf`, covered by `Pipeline.Upload` and `Pipeline.ProfilePhoto`).
- When `user.save` rejects (`server.js:152`, `server.js:182`), the staged file
  is already gone and the image is already on Cloudinary. No history entry or
  profile picture is persisted and the reply is 500; see `Routes.StagedFileRemovedAfterStore`
  and the caller's-record clause of `Pipeline.Upload`.
- `req.file.path` is read before the `try` (`server.js:116`, `server.js:166`).
  Without a file the handler throws and sends nothing; the `NoFile` exit leaves
  the state unchanged and sends no reply (first clause of `Pipeline.Upload`).
- Staged names are `<Date.now()>-<originalname>` (`server.js:96`). They are
  unique only up to the pair (millisecond, original name); see
  `Staging.StagedNamesCollide`.
- The history stores the prediction as the string `JSON.stringify` makes
  (`server.js:127`, `server.js:149`), with the labels `Cancerous` and
  `Non-cancerous` (`server.js:41`); see `Pipeline.RecordedPredictionComesFromModel`.
- `!token` (`server.js:64`) is true for an empty cookie too, so an empty `token`
  gets the "No token" reply; see `Auth.HasToken`.

## Model

| member | source | states |
|---|---|---|
| `Auth.HasToken` | CrispColon-Backend/server.js:63-64 | an absent cookie and an empty one both fail the `!token` test; any non-empty token passes it |
| `Auth.Decide` | CrispColon-Backend/server.js:61-76 | a request passes exactly when it carries a non-empty token that verifies, and then with the decoded payload; no token (or an empty one) gives 401 "Unauthorized (No token)"; a token that fails verification gives 401 "Invalid or Expired token" |
| `Auth.Authenticate` | CrispColon-Backend/server.js:61-76 | `next` is called once on a pass and never on a denial; a pass sets `req.user` to the payload and sends nothing; a denial sends the 401 reply and leaves `req.user` as it was |
| `Staging.Decimal` | CrispColon-Backend/server.js:96 | the timestamp's text is non-empty, all decimal digits, with no leading zero |
| `Staging.DigitChar` | CrispColon-Backend/server.js:96 | each digit character denotes the digit it was made from |
| `Staging.DecimalRoundTrip` | CrispColon-Backend/server.js:96 | reading the rendered timestamp back gives the timestamp |
| `Staging.StagedName` | CrispColon-Backend/server.js:91-97 | a staged name starts with a digit and ends with `"-" + originalname` |
| `Staging.StagedNameRoundTrip` | CrispColon-Backend/server.js:95-97 | splitting a staged name at the end of its leading digits gives back the timestamp and the original name |
| `Staging.StagedNamesCollide` | CrispColon-Backend/server.js:95-97 | two staged names are equal exactly when both the millisecond and the original name are equal |
| `Inference.Model` | CrispColon-Backend/server.js:34-47 | the label is "Cancerous" exactly when the label draw exceeds 0.5 and is "Non-cancerous" otherwise; confidence lies in [0, 1); processing time lies in [1, 3) seconds |
| `Pipeline.ExitOf` | CrispColon-Backend/server.js:116-187 | where a request leaves either handler: no file exactly when `req.file` is absent; the staged file is unlinked exactly when prediction and upload succeeded and the file is there; the user is reported missing, or saved, only after the unlink and a lookup that did not throw, and saved only when found and the save resolved |
| `Pipeline.NewEntry` | CrispColon-Backend/server.js:146-150 | the pushed entry carries the request's date, exactly one image (the permanent `secure_url`), and the serialised record `model` resolved with |
| `Pipeline.Upload` | CrispColon-Backend/server.js:115-161 | no file: nothing changes and nothing is sent; the staged file is removed exactly when prediction and upload both succeeded; no user is added or removed and every record but the caller's is untouched; the caller's history gains exactly the entry `{now, [secure_url], prediction}` at its end on a full success and nothing otherwise, with all other fields kept; the reply is 200 `{prediction, user}` exactly at the saved and user-missing exits (with `user` null when missing) and 500 "Prediction failed" at every other exit |
| `Pipeline.ProfilePhoto` | CrispColon-Backend/server.js:165-189 | the same steps with no prediction: on a full success only `profilePic` changes, to `secure_url`, and history and every other field are kept; the reply is 200 `{profilePic, user}` at the saved and user-missing exits and 500 "Profile Updation failed" otherwise; the staged file is removed exactly when the upload succeeded |
| `Pipeline.RecordIgnoresStagedName` | CrispColon-Backend/server.js:132-150 | the recorded entry and the reply do not depend on the staged file's name: history holds only the permanent URL |
| `Pipeline.MissingUserStillSucceeds` | CrispColon-Backend/server.js:141-156 | when the user is absent, the staged file is removed, no record changes, and the reply is still success with `user: null` |
| `Pipeline.RecordedPredictionComesFromModel` | CrispColon-Backend/server.js:127-156 | on a saved upload the last history entry and the 200 reply carry the serialised `model` record, labelled "Cancerous" or "Non-cancerous" with a confidence in [0, 1) |
| `Routes.Stage` | CrispColon-Backend/server.js:91-101 | multer adds the attachment under exactly the name `StagedName(Date.now(), originalname)`, from which the millisecond and the original name can be recovered, and changes no user; without an attachment nothing is staged |
| `Routes.PostUpload` | CrispColon-Backend/server.js:115-161 | a denied request stages nothing and changes nothing, and gets the gate's reply; an authenticated request without a file gets no reply; the request's own staged file outlives it exactly when the prediction or the upload rejected, and no other file of the directory changes |
| `Routes.PutProfilePicture` | CrispColon-Backend/server.js:165-197 | the same gate; the staged photo outlives the request exactly when the Cloudinary upload rejected, and no other file changes |
| `Routes.HandleKeepsHistory` | CrispColon-Backend/server.js:141-152 | one request keeps every user's history as a prefix of the new one and adds at most one entry |
| `Routes.HandleTouchesOnlyItsFile` | CrispColon-Backend/server.js:132-173 | one request adds or removes no file of the uploads directory other than its own staged one |
| `Routes.HistoryAppendOnly` | CrispColon-Backend/server.js:141-152 | over any run of requests, users are never added or removed, every user keeps all earlier entries in order, and gains at most one entry per request |
| `Routes.UploadsOnlyChangeByStagedNames` | CrispColon-Backend/server.js:132-173 | over any run of requests, the uploads directory changes only at the names the requests themselves staged |
| `Routes.StagedFileOutlivesFailedUpload` | CrispColon-Backend/server.js:127-159 | when the staged name was not already in the directory and the prediction or the Cloudinary upload rejects, the directory ends with one more file than it started with, no user changes, and the reply is 500 "Prediction failed" |
| `Routes.StagedFileRemovedAfterStore` | CrispColon-Backend/server.js:132-159 | when the staged name was not already in the directory and prediction and upload succeeded, the directory ends as it started: the staged file is gone, whatever the lookup and the save do |
| `Routes.StagedPhotoOutlivesFailedUpload` | CrispColon-Backend/server.js:165-187 | when the staged name was not already in the directory and the profile photo's upload rejects, its staged file stays (one more file than at the start), no user changes, and the reply is 500 "Profile Updation failed" |
| `App.Server.StageFile` | CrispColon-Backend/server.js:91-97 | the uploads directory gains the staged name and `req.file` refers to it |
| `App.Server.HandleUpload` | CrispColon-Backend/server.js:115-161 | running the handler's steps in order leaves exactly the state and reply `Pipeline.Upload` gives |
| `App.Server.HandleProfilePhoto` | CrispColon-Backend/server.js:165-189 | running the handler's steps in order leaves exactly the state and reply `Pipeline.ProfilePhoto` gives |
| `App.Server.PostUpload` | CrispColon-Backend/server.js:115 | authenticate, multer and the handler in sequence leave exactly the state and reply `Routes.PostUpload` gives |
| `App.Server.PutProfilePicture` | CrispColon-Backend/server.js:197 | authenticate, multer and `handleProfilePhoto` in sequence leave exactly the state and reply `Routes.PutProfilePicture` gives |

## Left out

- Cryptographic token verification: `jwt.verify` is a function parameter that returns a payload or throws.
- Payload claims other than `id` are kept opaque. A payload without an `id` is not modelled.
- Cloudinary, Mongoose (`connect`, `findOne`, `save`) and the commented-out Flask call are left out as implementations. Each is an outcome parameter that resolves or rejects.
- The prediction step keeps a rejecting outcome. The stand-in `model` as written always resolves, but the handler's `catch` covers a rejection.
- `Math.random` values are the prediction step's outcome, reals in [0, 1). `setTimeout` and its delay are left out.
- Floating point is left out: confidence and processing time are reals.
- Inference.Model: `processingTime.toFixed(2)` is not modelled. The processing time is kept as the unrounded number of seconds rather than a two-decimal string.
- `JSON.stringify` of the prediction is a function parameter. The history stores its result as an opaque string.
- `fs.unlinkSync` errors other than a missing file (permissions, busy file) are not modelled.
- File paths are represented by the file's name within the uploads directory. The directory's location and its creation at startup are left out; it is assumed to exist.
- Express wiring, CORS, cookie and JSON parsing, `app.listen`, the `/check-auth` route and the `authRoutes`/`profileRoutes` routers are left out. So is what Express does with the handler's rejected promise when `req.file` is missing.
- Concurrent requests, and the lost update when two requests read and save the same user, are left out. Runs are modelled as requests served one after another.
- Console logging is left out.
- The frontend (React components, Redux, routing) is left out.
