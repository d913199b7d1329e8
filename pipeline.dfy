/** The `/api/upload` handler and `handleProfilePhoto` as functions of the
    state they touch: the set of staged file names in the uploads directory and
    the user collection. Every awaited call is an outcome parameter. */
module Pipeline {
  import opened Records
  import opened Inference

  /** What the uploads directory and the user collection hold between requests. */
  datatype State = State(uploads: set<string>, users: map<UserId, User>)

  /** The state after a handler, and the reply it sent (None: it sent nothing). */
  datatype Outcome = Outcome(state: State, reply: Option<Reply>)

  /** `await model(...)`: resolves with the record `Model` builds from its three
      `Math.random()` draws, or rejects. */
  datatype Inferred = Inferred(timeDraw: Draw, labelDraw: Draw, confidenceDraw: Draw) | InferenceThrows

  /** The record the prediction step resolved with. */
  function Predicted(i: Inferred): Prediction
    requires i.Inferred?
  {
    Model(i.timeDraw, i.labelDraw, i.confidenceDraw)
  }

  /** `await cloudinary.uploader.upload(path)`: resolves with `secure_url` or rejects. */
  datatype Uploaded = Uploaded(secureUrl: Url) | UploadThrows

  /** How the awaited calls of one `/api/upload` request turn out, and the
      clock reading `new Date()` takes. */
  datatype Calls = Calls(inference: Inferred, upload: Uploaded, findThrows: bool, saveThrows: bool, now: int)

  /** How the awaited calls of one profile-photo request turn out. */
  datatype PhotoCalls = PhotoCalls(upload: Uploaded, findThrows: bool, saveThrows: bool)

  /** Where a request leaves a handler. */
  datatype Exit =
    | NoFile            // `req.file.path` throws before the try: nothing is sent
    | InferenceFailed   // the prediction step rejects
    | UploadFailed      // the Cloudinary upload rejects
    | UnlinkFailed      // `fs.unlinkSync` throws: the staged file is not there
    | FindFailed        // `req.user.id` or `User.findOne` throws
    | NoUser            // `User.findOne` resolves with null
    | SaveFailed        // `user.save` rejects
    | Saved

  /** Both handlers run the same steps in the same order; the profile handler
      has no prediction step and passes `inferenceOk := true`. */
  function ExitOf(s: State, file: Option<string>, caller: Option<Payload>, inferenceOk: bool,
                  upload: Uploaded, findThrows: bool, saveThrows: bool): (e: Exit)
    ensures e.NoFile? <==> file.None?
    // the staged file is unlinked only after the prediction and the upload succeeded
    ensures Unlinked(e) <==> file.Some? && inferenceOk && upload.Uploaded? && file.value in s.uploads
    // the user is looked up only after the unlink, and saved only if found
    ensures e.NoUser? <==> Unlinked(e) && caller.Some? && !findThrows && caller.value.id !in s.users
    ensures e.Saved? <==>
      Unlinked(e) && caller.Some? && !findThrows && caller.value.id in s.users && !saveThrows
  {
    if file.None? then NoFile
    else if !inferenceOk then InferenceFailed
    else if upload.UploadThrows? then UploadFailed
    else if file.value !in s.uploads then UnlinkFailed
    else if caller.None? || findThrows then FindFailed
    else if caller.value.id !in s.users then NoUser
    else if saveThrows then SaveFailed
    else Saved
  }

  /** The exits reached after `fs.unlinkSync` succeeded. */
  predicate Unlinked(e: Exit)
  {
    e.FindFailed? || e.NoUser? || e.SaveFailed? || e.Saved?
  }

  /** The exits that send `{ success: true, ... }`. */
  predicate Succeeded(e: Exit)
  {
    e.NoUser? || e.Saved?
  }

  const PredictionFailed := Reply(500, ErrorBody("Prediction failed"))
  const ProfileFailed := Reply(500, ErrorBody("Profile Updation failed"))

  function UploadExit(s: State, file: Option<string>, caller: Option<Payload>, calls: Calls): Exit
  {
    ExitOf(s, file, caller, calls.inference.Inferred?, calls.upload, calls.findThrows, calls.saveThrows)
  }

  /** The history entry a successful upload appends. */
  function NewEntry(calls: Calls, stringify: Prediction -> string): (e: Entry)
    requires calls.inference.Inferred? && calls.upload.Uploaded?
    ensures e.date == calls.now
    // one image, the permanent URL, and the serialised record `model` resolved with
    ensures |e.images| == 1 && e.images[0] == calls.upload.secureUrl
    ensures e.predictedResult == stringify(Predicted(calls.inference))
  {
    Entry(calls.now, [calls.upload.secureUrl], stringify(Predicted(calls.inference)))
  }

  /** The `/api/upload` handler. `stringify` stands for `JSON.stringify`. */
  function Upload(s: State, file: Option<string>, caller: Option<Payload>, calls: Calls,
                  stringify: Prediction -> string): (o: Outcome)
    // no file: the handler throws before its try, so nothing changes and nothing is sent
    ensures file.None? ==> o == Outcome(s, None)
    // no user document is added or removed
    ensures o.state.users.Keys == s.users.Keys
    ensures file.Some? <==> o.reply.Some?
    // the reply is a success exactly at the exits past the lookup that did not fail
    ensures o.reply.Some? ==>
      (o.reply.value.status == 200 <==> Succeeded(UploadExit(s, file, caller, calls)))
    ensures o.reply.Some? && o.reply.value.status != 200 ==> o.reply.value == PredictionFailed
    ensures o.reply.Some? && o.reply.value.status == 200 ==>
      && calls.inference.Inferred? && caller.Some?
      && o.reply.value.body == PredictionBody(stringify(Predicted(calls.inference)),
           if caller.value.id in s.users then Some(o.state.users[caller.value.id]) else None)
    // the staged file is removed only once inference and the upload both succeeded
    ensures o.state.uploads ==
      if file.Some? && calls.inference.Inferred? && calls.upload.Uploaded?
      then s.uploads - {file.value} else s.uploads
    // every record but the caller's is untouched
    ensures forall k :: k in s.users && (caller.None? || k != caller.value.id) ==>
      o.state.users[k] == s.users[k]
    // the caller's record gains exactly one entry on a full success, none otherwise
    ensures caller.Some? && caller.value.id in s.users ==>
      var before := s.users[caller.value.id];
      o.state.users[caller.value.id] ==
        if UploadExit(s, file, caller, calls).Saved?
        then before.(history := before.history + [NewEntry(calls, stringify)])
        else before
  {
    var e := UploadExit(s, file, caller, calls);
    if e.NoFile? then Outcome(s, None)
    else
      var uploads := if Unlinked(e) then s.uploads - {file.value} else s.uploads;
      if e.Saved? then
        var id := caller.value.id;
        var user := s.users[id].(history := s.users[id].history + [NewEntry(calls, stringify)]);
        Outcome(State(uploads, s.users[id := user]),
                Some(Reply(200, PredictionBody(stringify(Predicted(calls.inference)), Some(user)))))
      else if e.NoUser? then
        Outcome(State(uploads, s.users), Some(Reply(200, PredictionBody(stringify(Predicted(calls.inference)), None))))
      else
        Outcome(State(uploads, s.users), Some(PredictionFailed))
  }

  function PhotoExit(s: State, file: Option<string>, caller: Option<Payload>, calls: PhotoCalls): Exit
  {
    ExitOf(s, file, caller, true, calls.upload, calls.findThrows, calls.saveThrows)
  }

  /** `handleProfilePhoto`. */
  function ProfilePhoto(s: State, file: Option<string>, caller: Option<Payload>, calls: PhotoCalls): (o: Outcome)
    ensures file.None? ==> o == Outcome(s, None)
    // no user document is added or removed
    ensures o.state.users.Keys == s.users.Keys
    ensures file.Some? <==> o.reply.Some?
    ensures o.reply.Some? ==>
      (o.reply.value.status == 200 <==> Succeeded(PhotoExit(s, file, caller, calls)))
    ensures o.reply.Some? && o.reply.value.status != 200 ==> o.reply.value == ProfileFailed
    ensures o.reply.Some? && o.reply.value.status == 200 ==>
      && calls.upload.Uploaded? && caller.Some?
      && o.reply.value.body == ProfilePicBody(calls.upload.secureUrl,
           if caller.value.id in s.users then Some(o.state.users[caller.value.id]) else None)
    ensures o.state.uploads ==
      if file.Some? && calls.upload.Uploaded? then s.uploads - {file.value} else s.uploads
    ensures forall k :: k in s.users && (caller.None? || k != caller.value.id) ==>
      o.state.users[k] == s.users[k]
    // only `profilePic` changes, and only on a full success
    ensures caller.Some? && caller.value.id in s.users ==>
      var before := s.users[caller.value.id];
      o.state.users[caller.value.id] ==
        if PhotoExit(s, file, caller, calls).Saved?
        then before.(profilePic := calls.upload.secureUrl)
        else before
  {
    var e := PhotoExit(s, file, caller, calls);
    if e.NoFile? then Outcome(s, None)
    else
      var uploads := if Unlinked(e) then s.uploads - {file.value} else s.uploads;
      if e.Saved? then
        var id := caller.value.id;
        var user := s.users[id].(profilePic := calls.upload.secureUrl);
        Outcome(State(uploads, s.users[id := user]),
                Some(Reply(200, ProfilePicBody(calls.upload.secureUrl, Some(user)))))
      else if e.NoUser? then
        Outcome(State(uploads, s.users), Some(Reply(200, ProfilePicBody(calls.upload.secureUrl, None))))
      else
        Outcome(State(uploads, s.users), Some(ProfileFailed))
  }

  /** The entry a successful upload records holds only the permanent
      `secure_url`: the staged file's name has no part in the new user
      collection or the reply. */
  lemma RecordIgnoresStagedName(s: State, n1: string, n2: string, caller: Option<Payload>, calls: Calls,
                                stringify: Prediction -> string)
    requires n1 in s.uploads && n2 in s.uploads
    ensures Upload(s, Some(n1), caller, calls, stringify).state.users == Upload(s, Some(n2), caller, calls, stringify).state.users
    ensures Upload(s, Some(n1), caller, calls, stringify).reply == Upload(s, Some(n2), caller, calls, stringify).reply
  {
  }

  /** A request for a user the collection does not hold still succeeds, with
      `user: null`, and changes no record. */
  lemma MissingUserStillSucceeds(s: State, file: string, caller: Payload, calls: Calls,
                                 stringify: Prediction -> string)
    requires file in s.uploads && caller.id !in s.users
    requires calls.inference.Inferred? && calls.upload.Uploaded? && !calls.findThrows
    ensures var o := Upload(s, Some(file), Some(caller), calls, stringify);
      && o.state == State(s.uploads - {file}, s.users)
      && o.reply == Some(Reply(200, PredictionBody(stringify(Predicted(calls.inference)), None)))
  {
  }

  /** The prediction a successful upload records and replies with is the
      serialised record of the stand-in `model`: labelled "Cancerous" or
      "Non-cancerous", with a confidence in [0, 1). */
  lemma RecordedPredictionComesFromModel(s: State, file: Option<string>, caller: Option<Payload>, calls: Calls,
                                         stringify: Prediction -> string)
    requires caller.Some? && caller.value.id in s.users
    requires UploadExit(s, file, caller, calls).Saved?
    ensures var o := Upload(s, file, caller, calls, stringify);
      var h := o.state.users[caller.value.id].history;
      var p := Predicted(calls.inference);
      && |h| > 0 && h[|h| - 1].predictedResult == stringify(p)
      && o.reply == Some(Reply(200, PredictionBody(stringify(p), Some(o.state.users[caller.value.id]))))
      && (p.prediction == "Cancerous" || p.prediction == "Non-cancerous")
      && 0.0 <= p.confidence < 1.0
  {
  }
}
