/** The proxy's replies and `handleResponse` of clientserver/common_imports.ts,
    which maps an upstream status to the status the client sees. The error
    bodies (`er.userError` and the like) are named, not spelled out. */
module ProxyResponse {

  datatype Body =
    | Text(text: string)     // a literal message
    | Data(data: string)     // the upstream response's data, passed through
    | UserError
    | ServerError
    | UnknownError

  datatype Reply = Reply(status: int, headers: seq<(string, string)>, body: Body)

  /** `handleResponse(res, response, correlationId)`: exactly one of four
      branches answers, each with the correlation id appended. */
  function HandleResponse(status: int, data: string, correlationId: string): (r: Reply)
    ensures r.headers == [("correlation-id", correlationId)]
    ensures 200 <= status < 300 ==> r.status == 200 && r.body == Data(data)
    ensures 400 <= status < 500 ==> r.status == 400 && r.body == UserError
    ensures status >= 500 ==> r.status == 500 && r.body == ServerError
    ensures status < 200 || 300 <= status < 400 ==> r.status == status && r.body == UnknownError
  {
    var headers := [("correlation-id", correlationId)];
    if 200 <= status < 300 then Reply(200, headers, Data(data))
    else if 400 <= status < 500 then Reply(400, headers, UserError)
    else if status >= 500 then Reply(500, headers, ServerError)
    else Reply(status, headers, UnknownError)
  }

  /** The mapping keeps the class of the answer: upstream success is client
      success, an upstream client error a client error, an upstream server
      error a server error; and the client only ever sees the upstream data
      on success. */
  lemma HandleResponseKeepsClass(status: int, data: string, correlationId: string)
    ensures var r := HandleResponse(status, data, correlationId);
            (200 <= r.status < 300 <==> 200 <= status < 300)
            && (400 <= r.status < 500 <==> 400 <= status < 500)
            && (r.status >= 500 <==> status >= 500)
            && (r.body.Data? <==> 200 <= status < 300)
  {
  }
}
