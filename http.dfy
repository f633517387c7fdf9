/**
 * The HTTP exchange between the form and the server: status codes, the JSON
 * bodies the server sends, what a handler run amounts to, and what the
 * browser's fetch hands back to the form.
 */
module Http {
  import opened Models
  import Kube

  const OK := 200
  const CREATED := 201
  const BAD_REQUEST := 400
  const INTERNAL_SERVER_ERROR := 500

  /** The JSON bodies the server sends: `{"message": ...}` or an array of templates. */
  datatype Body = MessageBody(message: string) | TemplatesBody(templates: seq<Job>)

  datatype Reply = Reply(status: int, body: Body)

  /** A handler either replies, or panics on an `unwrap` and drops the connection. */
  datatype Outcome = Replied(reply: Reply) | Panicked

  /** One handler invocation: the cluster calls it made, in order, and its outcome. */
  datatype Run = Run(calls: seq<Kube.ClientCall>, outcome: Outcome)

  /** What the browser's fetch resolves to: a response, or a rejection with a message. */
  datatype Response = Response(status: int, body: Body) | TransportFailure(message: string)

  /** The fetch API's `ok`: a status in the 2xx range. */
  predicate IsOk(status: int) {
    200 <= status <= 299
  }

  /** What the browser sees of a handler run; a dropped connection rejects with `transportMessage`. */
  function Received(outcome: Outcome, transportMessage: string): Response {
    match outcome
    case Replied(r) => Response(r.status, r.body)
    case Panicked => TransportFailure(transportMessage)
  }
}
