/** The two routes as Express wires them: `authenticate`, then multer's
    `upload.single("file")`, then the handler; and a run of such requests
    served one after another. */
module Routes {
  import opened Records
  import opened Inference
  import opened Pipeline
  import Staging
  import Auth

  /** multer stores the attachment, if there is one, under its staged name. */
  function Stage(s: State, attachment: Option<string>, stagedAt: nat): (r: (State, Option<string>))
    ensures r.0.users == s.users
    ensures r.1 == if attachment.Some? then Some(Staging.StagedName(stagedAt, attachment.value)) else None
    ensures r.0.uploads == if r.1.Some? then s.uploads + {r.1.value} else s.uploads
    // and the name gives back the millisecond and the original name
    ensures r.1.Some? ==> Staging.SplitStagedName(r.1.value) == Some((stagedAt, attachment.value))
  {
    if attachment.None? then (s, None)
    else
      var name := Staging.StagedName(stagedAt, attachment.value);
      Staging.StagedNameRoundTrip(stagedAt, attachment.value);
      (State(s.uploads + {name}, s.users), Some(name))
  }

  /** `POST /api/upload`. */
  function PostUpload(s: State, token: Option<string>, verify: string -> Auth.Verdict,
                      attachment: Option<string>, stagedAt: nat, calls: Calls,
                      stringify: Prediction -> string): (o: Outcome)
    // the gate: a denied request stages nothing and changes nothing
    ensures Auth.Decide(token, verify).Deny? ==>
      o == Outcome(s, Some(Auth.Decide(token, verify).reply))
    ensures Auth.Decide(token, verify).Pass? && attachment.None? ==> o == Outcome(s, None)
    ensures o.state.users.Keys == s.users.Keys
    // the request's own staged file outlives it exactly when the prediction or the
    // upload rejected; no other file of the directory changes
    ensures Auth.Decide(token, verify).Pass? && attachment.Some? ==>
      var name := Staging.StagedName(stagedAt, attachment.value);
      && (name in o.state.uploads <==> calls.inference.InferenceThrows? || calls.upload.UploadThrows?)
      && o.state.uploads - {name} == s.uploads - {name}
  {
    match Auth.Decide(token, verify)
    case Deny(reply) => Outcome(s, Some(reply))
    case Pass(user) =>
      var (staged, file) := Stage(s, attachment, stagedAt);
      Upload(staged, file, Some(user), calls, stringify)
  }

  /** `PUT /profile/update-picture`. */
  function PutProfilePicture(s: State, token: Option<string>, verify: string -> Auth.Verdict,
                             attachment: Option<string>, stagedAt: nat, calls: PhotoCalls): (o: Outcome)
    ensures Auth.Decide(token, verify).Deny? ==>
      o == Outcome(s, Some(Auth.Decide(token, verify).reply))
    ensures Auth.Decide(token, verify).Pass? && attachment.None? ==> o == Outcome(s, None)
    ensures o.state.users.Keys == s.users.Keys
    ensures Auth.Decide(token, verify).Pass? && attachment.Some? ==>
      var name := Staging.StagedName(stagedAt, attachment.value);
      && (name in o.state.uploads <==> calls.upload.UploadThrows?)
      && o.state.uploads - {name} == s.uploads - {name}
  {
    match Auth.Decide(token, verify)
    case Deny(reply) => Outcome(s, Some(reply))
    case Pass(user) =>
      var (staged, file) := Stage(s, attachment, stagedAt);
      ProfilePhoto(staged, file, Some(user), calls)
  }

  /** A request to one of the two routes, with the outcomes of its calls. */
  datatype RouteCall =
    | UploadRequest(token: Option<string>, attachment: Option<string>, stagedAt: nat, calls: Calls)
    | PhotoRequest(token: Option<string>, attachment: Option<string>, stagedAt: nat, photoCalls: PhotoCalls)

  function Handle(s: State, r: RouteCall, verify: string -> Auth.Verdict, stringify: Prediction -> string): Outcome
  {
    match r
    case UploadRequest(token, attachment, stagedAt, calls) =>
      PostUpload(s, token, verify, attachment, stagedAt, calls, stringify)
    case PhotoRequest(token, attachment, stagedAt, calls) =>
      PutProfilePicture(s, token, verify, attachment, stagedAt, calls)
  }

  /** The state after serving `rs` one after another. */
  function Serve(s: State, rs: seq<RouteCall>, verify: string -> Auth.Verdict, stringify: Prediction -> string): State
    decreases |rs|
  {
    if rs == [] then s else Serve(Handle(s, rs[0], verify, stringify).state, rs[1..], verify, stringify)
  }

  /** The names multer gives the attachments of `rs`. */
  function StagedNames(rs: seq<RouteCall>): set<string>
  {
    if rs == [] then {}
    else
      (if rs[0].attachment.Some? then {Staging.StagedName(rs[0].stagedAt, rs[0].attachment.value)} else {})
      + StagedNames(rs[1..])
  }

  /** One request: the user's history keeps its old entries as a prefix and
      grows by at most one. */
  lemma HandleKeepsHistory(s: State, r: RouteCall, verify: string -> Auth.Verdict,
                           stringify: Prediction -> string, k: UserId)
    requires k in s.users
    ensures var after := Handle(s, r, verify, stringify).state;
      && k in after.users
      && s.users[k].history <= after.users[k].history
      && |after.users[k].history| <= |s.users[k].history| + 1
  {
  }

  /** One request: the only file that can appear or disappear is its own staged one. */
  lemma HandleTouchesOnlyItsFile(s: State, r: RouteCall, verify: string -> Auth.Verdict,
                                 stringify: Prediction -> string)
    ensures var after := Handle(s, r, verify, stringify).state;
      after.uploads - StagedNames([r]) == s.uploads - StagedNames([r])
  {
  }

  /** History is append-only: over any run of requests every user keeps all
      earlier entries, in order, and gains at most one entry per request. */
  lemma {:induction false} HistoryAppendOnly(s: State, rs: seq<RouteCall>, verify: string -> Auth.Verdict,
                                             stringify: Prediction -> string)
    ensures Serve(s, rs, verify, stringify).users.Keys == s.users.Keys
    ensures forall k :: k in s.users ==>
      && s.users[k].history <= Serve(s, rs, verify, stringify).users[k].history
      && |Serve(s, rs, verify, stringify).users[k].history| <= |s.users[k].history| + |rs|
    decreases |rs|
  {
    if rs != [] {
      var next := Handle(s, rs[0], verify, stringify).state;
      HistoryAppendOnly(next, rs[1..], verify, stringify);
      forall k | k in s.users
        ensures s.users[k].history <= Serve(s, rs, verify, stringify).users[k].history
        ensures |Serve(s, rs, verify, stringify).users[k].history| <= |s.users[k].history| + |rs|
      {
        HandleKeepsHistory(s, rs[0], verify, stringify, k);
      }
    }
  }

  /** The handlers delete only the files their own requests staged, and the
      directory gains no file but a staged one. */
  lemma {:induction false} UploadsOnlyChangeByStagedNames(s: State, rs: seq<RouteCall>, verify: string -> Auth.Verdict,
                                                         stringify: Prediction -> string)
    ensures var after := Serve(s, rs, verify, stringify).uploads;
      && after - StagedNames(rs) == s.uploads - StagedNames(rs)
    decreases |rs|
  {
    if rs != [] {
      var next := Handle(s, rs[0], verify, stringify).state;
      UploadsOnlyChangeByStagedNames(next, rs[1..], verify, stringify);
      HandleTouchesOnlyItsFile(s, rs[0], verify, stringify);
      var mine, later := StagedNames([rs[0]]), StagedNames(rs[1..]);
      assert StagedNames(rs) == mine + later by { assert [rs[0]][1..] == []; }
      var after := Serve(s, rs, verify, stringify).uploads;
      calc {
        after - (mine + later);
        (after - later) - mine;
        (next.uploads - later) - mine;
        (next.uploads - mine) - later;
        (s.uploads - mine) - later;
      }
    }
  }

  /** As written, a request whose prediction or Cloudinary upload rejects
      leaves its staged file in the uploads directory: one more file than it
      found, a 500 reply, and no change to any user. */
  lemma StagedFileOutlivesFailedUpload(s: State, token: Option<string>, verify: string -> Auth.Verdict,
                                       attachment: string, stagedAt: nat, calls: Calls,
                                       stringify: Prediction -> string)
    requires Auth.Decide(token, verify).Pass?
    requires Staging.StagedName(stagedAt, attachment) !in s.uploads
    requires calls.inference.InferenceThrows? || calls.upload.UploadThrows?
    ensures var o := PostUpload(s, token, verify, Some(attachment), stagedAt, calls, stringify);
      && o.state == State(s.uploads + {Staging.StagedName(stagedAt, attachment)}, s.users)
      && o.reply == Some(PredictionFailed)
  {
  }

  /** Once the upload to permanent storage succeeded the staged file is gone,
      whatever happens at the lookup and the save. */
  lemma StagedFileRemovedAfterStore(s: State, token: Option<string>, verify: string -> Auth.Verdict,
                                    attachment: string, stagedAt: nat, calls: Calls,
                                    stringify: Prediction -> string)
    requires Auth.Decide(token, verify).Pass?
    requires Staging.StagedName(stagedAt, attachment) !in s.uploads
    requires calls.inference.Inferred? && calls.upload.Uploaded?
    ensures PostUpload(s, token, verify, Some(attachment), stagedAt, calls, stringify).state.uploads == s.uploads
  {
  }

  /** The same for a profile photo whose upload rejects. */
  lemma StagedPhotoOutlivesFailedUpload(s: State, token: Option<string>, verify: string -> Auth.Verdict,
                                        attachment: string, stagedAt: nat, calls: PhotoCalls)
    requires Auth.Decide(token, verify).Pass?
    requires Staging.StagedName(stagedAt, attachment) !in s.uploads
    requires calls.upload.UploadThrows?
    ensures var o := PutProfilePicture(s, token, verify, Some(attachment), stagedAt, calls);
      && o.state == State(s.uploads + {Staging.StagedName(stagedAt, attachment)}, s.users)
      && o.reply == Some(ProfileFailed)
  {
  }
}
