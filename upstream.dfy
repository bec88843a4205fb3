/**
 * The upstream client: a fetch settles to a response value, never to an error.
 * A received response keeps its status and headers and the concatenation of the
 * body chunks; a transport failure becomes a 500 with no headers and the
 * ERR_UNKNOWN error body.
 */
module Upstream {
  import opened Wrappers
  import opened Errors

  /** Response headers, passed through verbatim. */
  type Headers = map<string, string>

  /** What the cache stores and every waiting client is written. */
  datatype Response = Response(status: int, headers: Headers, body: string)

  /** How one upstream GET ended: a response whose body arrived in chunks, or an 'error' event. */
  datatype Outcome =
    | Received(status: int, headers: Headers, chunks: seq<string>)
    | TransportFailure

  /** The chunks of a body in arrival order. */
  function Concat(chunks: seq<string>): string
  {
    if chunks == [] then "" else Concat(chunks[..|chunks| - 1]) + chunks[|chunks| - 1]
  }

  lemma {:induction false} ConcatAppend(a: seq<string>, b: seq<string>)
    ensures Concat(a + b) == Concat(a) + Concat(b)
    decreases |b|
  {
    if b == [] {
      assert a + b == a;
    } else {
      var b' := b[..|b| - 1];
      assert (a + b)[..|a + b| - 1] == a + b';
      ConcatAppend(a, b');
    }
  }

  /** The response a fetch settles to. */
  function Settled(o: Outcome): Response
  {
    match o
    case Received(status, headers, chunks) => Response(status, headers, Concat(chunks))
    case TransportFailure => Response(500, map[], ProxyFailureBody())
  }

  /** A transport failure settles to a 500 whose body decodes to the ERR_UNKNOWN error. */
  lemma TransportFailureSettles()
    ensures var r := Settled(TransportFailure);
      && r.status == 500 && r.headers == map[]
      && DecodeMatrixError(r.body) == Some(("ERR_UNKNOWN", "Error proxying request"))
  {
    DecodeMatrixErrorRoundTrip("ERR_UNKNOWN", "Error proxying request");
  }

  /**
   * makeRequest: on a response the 'data' handler appends each chunk to the body
   * and 'end' resolves with status, headers and body; on 'error' the request
   * resolves with the synthesized 500.
   */
  method MakeRequest(o: Outcome) returns (r: Response)
    ensures r == Settled(o)
    ensures o.Received? ==> r.status == o.status && r.headers == o.headers
    ensures o.TransportFailure? ==> r.status == 500 && r.headers == map[] && r.body == ProxyFailureBody()
  {
    match o {
      case Received(status, headers, chunks) =>
        var body := "";
        var i := 0;
        while i < |chunks|
          invariant 0 <= i <= |chunks|
          invariant body == Concat(chunks[..i])
        {
          assert chunks[..i + 1][..i] == chunks[..i];
          body := body + chunks[i];
          i := i + 1;
        }
        assert chunks[..i] == chunks;
        r := Response(status, headers, body);
      case TransportFailure =>
        r := Response(500, map[], MatrixError("ERR_UNKNOWN", "Error proxying request"));
    }
  }
}
