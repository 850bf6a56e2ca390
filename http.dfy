/** The plain JSON replies of the public endpoints: the payload itself, or `{ error }` with a
    status. */
module PublicReply {
  import opened ApiHelpers

  datatype Body<T> = Payload(data: T) | ErrorBody(error: string)

  datatype Reply<T> = Reply(status: int, body: Body<T>)

  /** The catch block shared by the public routes: 500 with the message of an `Error`, or the
      route's fallback text for anything else that was thrown. */
  function FailureReply<T>(e: Thrown, fallback: string): (r: Reply<T>)
    ensures r.status == 500 && r.body.ErrorBody?
    ensures e.IsErrorInstance() ==> r.body.error == e.message
    ensures !e.IsErrorInstance() ==> r.body.error == fallback
  {
    Reply(500, ErrorBody(if e.IsErrorInstance() then e.message else fallback))
  }
}
