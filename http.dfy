/** The two objects Express hands to every middleware: the request, whose
    fields the middlewares fill in, and the response, which is sent once. */
module Http {
  import opened Records

  class Request {
    /** `req.cookies?.token` */
    var token: Option<string>
    /** `req.user`, set by the authentication middleware */
    var user: Option<Payload>
    /** `req.file`, set by multer; the staged file's name in the uploads directory */
    var file: Option<string>

    constructor (token: Option<string>)
      ensures this.token == token && user == None && file == None
    {
      this.token := token;
      user := None;
      file := None;
    }
  }

  class Response {
    /** The reply sent so far; None while nothing has been sent. */
    var sent: Option<Reply>

    constructor ()
      ensures sent == None
    {
      sent := None;
    }
  }
}
