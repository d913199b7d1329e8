/** The server's mutable state and its request handlers, step by step as the
    handlers run them. Each method is proved to leave the state and the reply
    that the functions of `Pipeline` and `Routes` describe. */
module App {
  import opened Records
  import opened Http
  import opened Inference
  import opened Pipeline
  import Staging
  import Auth
  import Routes

  class Server {
    /** The names of the files in the uploads directory. */
    var uploads: set<string>
    /** The user collection, by `_id`. */
    var users: map<UserId, User>

    function Snapshot(): State
      reads this
    {
      State(uploads, users)
    }

    constructor (users: map<UserId, User>)
      ensures uploads == {} && this.users == users
    {
      uploads := {};
      this.users := users;
    }

    /** multer's disk storage: the attachment is written to the uploads
        directory under its staged name, and `req.file` refers to it. */
    method StageFile(req: Request, originalName: string, now: nat)
      modifies this`uploads, req`file
      ensures uploads == old(uploads) + {Staging.StagedName(now, originalName)}
      ensures req.file == Some(Staging.StagedName(now, originalName))
    {
      var name := Staging.StagedName(now, originalName);
      uploads := uploads + {name};
      req.file := Some(name);
    }

    /** The `/api/upload` handler. */
    method HandleUpload(req: Request, res: Response, calls: Calls, stringify: Prediction -> string)
      requires res.sent == None
      modifies this, res
      ensures Outcome(Snapshot(), res.sent) == Upload(old(Snapshot()), req.file, req.user, calls, stringify)
    {
      if req.file.None? {
        // reading `req.file.path` throws outside the try: no reply is sent
        return;
      }
      var imagePath := req.file.value;
      if calls.inference.InferenceThrows? {
        res.sent := Some(PredictionFailed);
        return;
      }
      var result := Model(calls.inference.timeDraw, calls.inference.labelDraw, calls.inference.confidenceDraw);
      var prediction := stringify(result);
      if calls.upload.UploadThrows? {
        res.sent := Some(PredictionFailed);
        return;
      }
      var secureUrl := calls.upload.secureUrl;
      if imagePath !in uploads {
        res.sent := Some(PredictionFailed);
        return;
      }
      uploads := uploads - {imagePath};
      if req.user.None? || calls.findThrows {
        res.sent := Some(PredictionFailed);
        return;
      }
      var id := req.user.value.id;
      if id in users {
        var user := users[id];
        user := user.(history := user.history + [Entry(calls.now, [secureUrl], prediction)]);
        if calls.saveThrows {
          res.sent := Some(PredictionFailed);
          return;
        }
        users := users[id := user];
        res.sent := Some(Reply(200, PredictionBody(prediction, Some(user))));
      } else {
        res.sent := Some(Reply(200, PredictionBody(prediction, None)));
      }
    }

    /** `handleProfilePhoto`. */
    method HandleProfilePhoto(req: Request, res: Response, calls: PhotoCalls)
      requires res.sent == None
      modifies this, res
      ensures Outcome(Snapshot(), res.sent) == ProfilePhoto(old(Snapshot()), req.file, req.user, calls)
    {
      if req.file.None? {
        return;
      }
      var profilePic := req.file.value;
      if calls.upload.UploadThrows? {
        res.sent := Some(ProfileFailed);
        return;
      }
      var secureUrl := calls.upload.secureUrl;
      if profilePic !in uploads {
        res.sent := Some(ProfileFailed);
        return;
      }
      uploads := uploads - {profilePic};
      if req.user.None? || calls.findThrows {
        res.sent := Some(ProfileFailed);
        return;
      }
      var id := req.user.value.id;
      if id in users {
        var user := users[id].(profilePic := secureUrl);
        if calls.saveThrows {
          res.sent := Some(ProfileFailed);
          return;
        }
        users := users[id := user];
        res.sent := Some(Reply(200, ProfilePicBody(secureUrl, Some(user))));
      } else {
        res.sent := Some(Reply(200, ProfilePicBody(secureUrl, None)));
      }
    }

    /** `POST /api/upload`: authenticate, then multer, then the handler. */
    method PostUpload(req: Request, res: Response, verify: string -> Auth.Verdict,
                      attachment: Option<string>, stagedAt: nat, calls: Calls,
                      stringify: Prediction -> string)
      requires req.user == None && req.file == None && res.sent == None
      modifies this, req, res
      ensures Outcome(Snapshot(), res.sent) ==
        Routes.PostUpload(old(Snapshot()), old(req.token), verify, attachment, stagedAt, calls, stringify)
    {
      var nextCalls := Auth.Authenticate(req, res, verify);
      if nextCalls == 0 {
        return;
      }
      if attachment.Some? {
        StageFile(req, attachment.value, stagedAt);
      }
      HandleUpload(req, res, calls, stringify);
    }

    /** `PUT /profile/update-picture`: authenticate, then multer, then the handler. */
    method PutProfilePicture(req: Request, res: Response, verify: string -> Auth.Verdict,
                             attachment: Option<string>, stagedAt: nat, calls: PhotoCalls)
      requires req.user == None && req.file == None && res.sent == None
      modifies this, req, res
      ensures Outcome(Snapshot(), res.sent) ==
        Routes.PutProfilePicture(old(Snapshot()), old(req.token), verify, attachment, stagedAt, calls)
    {
      var nextCalls := Auth.Authenticate(req, res, verify);
      if nextCalls == 0 {
        return;
      }
      if attachment.Some? {
        StageFile(req, attachment.value, stagedAt);
      }
      HandleProfilePhoto(req, res, calls);
    }
  }
}
