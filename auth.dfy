/** The `authenticate` middleware: a three-way gate on the `token` cookie. */
module Auth {
  import opened Records
  import opened Http

  /** What `jwt.verify` does with a token: it returns the decoded payload, or it
      throws (bad signature, malformed, expired). */
  datatype Verdict = Decoded(payload: Payload) | Throws

  /** Either the request goes on with an identity, or it ends with a reply. */
  datatype Gate = Pass(user: Payload) | Deny(reply: Reply)

  const NoTokenReply := Reply(401, Text("Unauthorized (No token)"))
  const InvalidTokenReply := Reply(401, Message("Invalid or Expired token"))

  /** The test `!token` fails: an absent cookie and an empty one are both falsy. */
  predicate HasToken(token: Option<string>)
    ensures token == None ==> !HasToken(token)
    ensures token == Some("") ==> !HasToken(token)
    ensures token.Some? && |token.value| > 0 ==> HasToken(token)
  {
    token.Some? && token.value != ""
  }

  /** The gate's decision for a request carrying `token`, given the verifier. */
  function Decide(token: Option<string>, verify: string -> Verdict): (g: Gate)
    ensures g.Pass? <==> HasToken(token) && verify(token.value).Decoded?
    ensures g.Pass? ==> HasToken(token) && g.user == verify(token.value).payload
    ensures g.Deny? ==> g.reply.status == 401
    ensures !HasToken(token) ==> g == Deny(NoTokenReply)
    ensures HasToken(token) && verify(token.value).Throws? ==> g == Deny(InvalidTokenReply)
  {
    if !HasToken(token) then Deny(NoTokenReply)
    else
      match verify(token.value)
      case Decoded(payload) => Pass(payload)
      case Throws => Deny(InvalidTokenReply)
  }

  /** The middleware itself. `nextCalls` counts the calls of `next()`. On a pass
      it sets `req.user` and sends nothing; on a denial it sends the 401 reply
      and leaves `req.user` as it was. */
  method Authenticate(req: Request, res: Response, verify: string -> Verdict) returns (nextCalls: nat)
    requires res.sent == None
    modifies req`user, res`sent
    ensures var g := Decide(req.token, verify);
      && nextCalls == (if g.Pass? then 1 else 0)
      && (g.Pass? ==> req.user == Some(g.user) && res.sent == None)
      && (g.Deny? ==> req.user == old(req.user) && res.sent == Some(g.reply))
  {
    nextCalls := 0;
    var token := req.token;
    if token.None? || token.value == "" {
      res.sent := Some(NoTokenReply);
      return;
    }
    var verdict := verify(token.value);
    if verdict.Throws? {
      res.sent := Some(InvalidTokenReply);
      return;
    }
    req.user := Some(verdict.payload);
    nextCalls := nextCalls + 1;
  }
}
