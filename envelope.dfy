/** The messages both roles exchange over the queue transport. */
module Envelope {

  datatype Option<T> = None | Some(value: T)

  /** An application payload. The protocol tells only one thing apart:
      whether the value is an Error object (it has a message and a stack)
      or anything else, which travels opaquely. */
  datatype Value =
    | Plain(repr: string)
    | ErrorObject(message: string, stack: string)

  /** The fields `handleResponse` reads from a reply body; each may be
      absent. `success` stands for the truthiness of the field. */
  datatype ReplyBody = ReplyBody(
    success: bool,
    data: Option<Value>,
    error: Option<string>,
    stack: Option<string>)

  /** A request as the requester sends it and the responder receives it. */
  datatype RequestMessage = RequestMessage(messageId: string, replyTo: string, body: Value)
}
