/** What a handler hands back to the web framework: a status and a JSON
    object, kept here as a map from keys to the few kinds of values the
    controller puts in it. Routing and JSON encoding are the framework's. */
module Http {
  import opened Wrappers

  /** The three statuses the controller uses. */
  datatype HttpStatus = Ok | NotModified | BadRequest {
    function Code(): int {
      match this
      case Ok => 200
      case NotModified => 304
      case BadRequest => 400
    }
  }

  /** A JSON value as the controller produces it: a string, a number (a Java
      `int`, or the `long` timestamp) or a boolean. */
  datatype Value = Text(text: string) | Number(number: int) | Flag(flag: bool)

  type Body = map<string, Value>

  datatype Response = Response(status: HttpStatus, body: Body)

  /** A response whose body holds only a message, as every error reply does. */
  function MessageReply(status: HttpStatus, message: string): (r: Response)
    ensures r.status == status && r.body.Keys == {"message"} && r.body["message"] == Text(message)
  {
    Response(status, map["message" := Text(message)])
  }

  /** The "message" string of a body, if it has one. */
  function MessageOf(r: Response): Option<string> {
    if "message" in r.body && r.body["message"].Text? then Some(r.body["message"].text) else None
  }

  /** The "pongShots" number of a body, if it has one. */
  function ShotsOf(r: Response): Option<int> {
    if "pongShots" in r.body && r.body["pongShots"].Number? then Some(r.body["pongShots"].number) else None
  }
}
