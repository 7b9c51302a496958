/** The proxy's request gates, clientserver/middleware/middleware.ts.

    `sizeLimit` compares the summed sizes of the four request parts with the
    limit. `xssCheck` compares each defined part's JSON text with its
    sanitised text; the source compares SHA-256 digests of the two, which is
    modelled as comparing the texts themselves. The sizes, the JSON texts
    and the sanitiser are inputs. */
module Middleware {
  import opened Common
  import opened ProxyResponse

  /** What a gate does: the reply it sends, if any, and whether it calls
      `next`. */
  datatype GateResult = GateResult(reply: Option<Reply>, callsNext: bool)

  const RequestTooLong: string := "Request too long"
  const InvalidCharacters: string := "Invalid characters in request"

  /** `sizeLimit`: a total above the limit is answered 400 and stops the
      chain; otherwise the chain goes on and nothing is sent. */
  function SizeLimit(body: int, headers: int, query: int, params: int, maxLength: int): (r: GateResult)
    ensures r.callsNext <==> body + headers + query + params <= maxLength
    ensures r.reply.Some? <==> !r.callsNext
    ensures r.reply.Some? ==> r.reply.value == Reply(400, [], Text(RequestTooLong))
  {
    var size := body + headers + query + params;
    if size > maxLength then GateResult(Some(Reply(400, [], Text(RequestTooLong))), false)
    else GateResult(None, true)
  }

  /** Whether one part's check fails: it is defined and sanitising changes
      its text. */
  predicate Tampered(part: Option<string>, xss: string -> string) {
    part.Some? && xss(part.value) != part.value
  }

  /** The running `fail = fail || …` over the parts, in order. */
  function RunningFail(fail: bool, parts: seq<Option<string>>, xss: string -> string): (r: bool)
    ensures fail ==> r
    ensures (forall i :: 0 <= i < |parts| ==> parts[i].None?) ==> r == fail
    decreases |parts|
  {
    if parts == [] then fail
    else RunningFail(fail || Tampered(parts[0], xss), parts[1..], xss)
  }

  /** `xssCheck` over body, headers, query and params: a failure is
      answered 400, and `next` is called whether or not it failed. */
  function XssCheck(body: Option<string>, headers: Option<string>, query: Option<string>, params: Option<string>,
                    xss: string -> string): (r: GateResult)
    ensures r.callsNext
    ensures r.reply.Some? <==> RunningFail(false, [body, headers, query, params], xss)
    ensures r.reply.Some? ==> r.reply.value == Reply(400, [], Text(InvalidCharacters))
  {
    if RunningFail(false, [body, headers, query, params], xss)
    then GateResult(Some(Reply(400, [], Text(InvalidCharacters))), true)
    else GateResult(None, true)
  }

  /** The running OR fails exactly when it started failed or some defined
      part changes under sanitising; undefined parts never count. */
  lemma {:induction false} RunningFailIff(fail: bool, parts: seq<Option<string>>, xss: string -> string)
    ensures RunningFail(fail, parts, xss) <==> fail || exists i :: 0 <= i < |parts| && Tampered(parts[i], xss)
    decreases |parts|
  {
    if parts != [] {
      RunningFailIff(fail || Tampered(parts[0], xss), parts[1..], xss);
      if RunningFail(fail, parts, xss) && !fail && !Tampered(parts[0], xss) {
        var j :| 0 <= j < |parts[1..]| && Tampered(parts[1..][j], xss);
        assert Tampered(parts[j + 1], xss);
      }
      if exists i :: 0 <= i < |parts| && Tampered(parts[i], xss) {
        var i :| 0 <= i < |parts| && Tampered(parts[i], xss);
        if i > 0 {
          assert Tampered(parts[1..][i - 1], xss);
        }
      }
    }
  }

  /** `xssCheck` fails iff some defined part's text changes under the
      sanitiser. */
  lemma XssCheckFailsIffTampered(body: Option<string>, headers: Option<string>, query: Option<string>,
                                 params: Option<string>, xss: string -> string)
    ensures XssCheck(body, headers, query, params, xss).reply.Some? <==>
              Tampered(body, xss) || Tampered(headers, xss) || Tampered(query, xss) || Tampered(params, xss)
  {
    var parts := [body, headers, query, params];
    RunningFailIff(false, parts, xss);
    if Tampered(body, xss) || Tampered(headers, xss) || Tampered(query, xss) || Tampered(params, xss) {
      assert Tampered(parts[0], xss) || Tampered(parts[1], xss) || Tampered(parts[2], xss) || Tampered(parts[3], xss);
    }
  }
}
