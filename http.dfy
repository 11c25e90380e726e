/** The provider's side of an outbound HTTP call, as the core observes it through the
    `requests` client: either a reply, or a fault before any reply arrived. The network
    itself is not modelled; each handler receives the reply it would get as a parameter. */
module Http {
  import opened PyJson

  /** A reply. `body` is what response.json() yields, None when the text is not JSON;
      `errorText` is the description the client gives an HTTPError for this reply. */
  datatype Reply = Reply(status: int, text: string, body: Option<Json>, errorText: string)

  datatype Transport = Delivered(reply: Reply) | Failed(message: string)

  /** The statuses response.raise_for_status() refuses: client errors 400-499 and
      server errors 500-599. Anything else, redirects and odd codes included, passes. */
  predicate IsErrorStatus(status: int) {
    400 <= status < 600
  }

  /** response.raise_for_status(). */
  function RaiseForStatus(r: Reply): (e: Option<Exc>)
    ensures e.None? <==> !(400 <= r.status < 600)
    ensures e.Some? ==> e.value == HttpError(r.errorText)
  {
    if IsErrorStatus(r.status) then Some(HttpError(r.errorText)) else None
  }

  /** response.json(). */
  function JsonBody(r: Reply): (v: Py<Json>)
    ensures v.Ok? <==> r.body.Some?
    ensures v.Ok? ==> v.value == r.body.value
    ensures v.Raise? ==> v.exc == JsonDecodeError
  {
    match r.body
    case Some(j) => Ok(j)
    case None => Raise(JsonDecodeError)
  }

  /** The reply itself, or the fault `requests` raises when none arrived. */
  function Received(t: Transport): (r: Py<Reply>)
    ensures r.Ok? <==> t.Delivered?
    ensures t.Delivered? ==> r.value == t.reply
    ensures t.Failed? ==> r == Raise(RequestError(t.message))
  {
    match t
    case Delivered(reply) => Ok(reply)
    case Failed(message) => Raise(RequestError(message))
  }
}
