/** The values the upload pipeline reads and writes: user documents and their
    history entries, decoded credentials, and the replies sent to the client. */
module Records {

  datatype Option<+T> = None | Some(value: T)

  type UserId = string
  type Url = string

  /** One element of a user's `history` array: when it was recorded, the
      permanently stored images, and the serialised prediction. */
  datatype Entry = Entry(date: int, images: seq<Url>, predictedResult: string)

  /** A user document as the database holds it. Every field the pipeline does
      not touch is kept, opaque, in `otherFields`. */
  datatype User = User(profilePic: Url, history: seq<Entry>, otherFields: map<string, string>)

  /** The payload `jwt.verify` decodes from a valid token; `id` is the user's key. */
  datatype Payload = Payload(id: UserId, otherClaims: map<string, string>)

  /** The bodies the handlers send. */
  datatype Body =
    | Text(text: string)                                   // res.send(text)
    | Message(message: string)                             // { message }
    | PredictionBody(prediction: string, user: Option<User>) // { success: true, prediction, user }
    | ProfilePicBody(profilePic: Url, user: Option<User>)  // { success: true, profilePic, user }
    | ErrorBody(error: string)                             // { success: false, error }

  /** An HTTP status with its body; `res.json` without `res.status` sends 200. */
  datatype Reply = Reply(status: int, body: Body)
}
