/**
 * The proxy's error bodies: `matrixError(errcode, error)` is the JSON text of the
 * object {errcode, error}, with JSON.stringify's member order and quoting.
 */
module Errors {
  import opened Wrappers
  import opened Json

  const ErrcodePrefix: string := "{\"errcode\":"
  const ErrorInfix: string := ",\"error\":"

  function MatrixError(errcode: string, error: string): string
  {
    ErrcodePrefix + Quote(errcode) + ErrorInfix + Quote(error) + "}"
  }

  /** The value JSON.parse gives for MatrixError(errcode, error). */
  function ErrorObject(errcode: string, error: string): JsonValue
  {
    JObject([("errcode", JString(errcode)), ("error", JString(error))])
  }

  /** The rest of `t` after `prefix`, if `t` starts with it. */
  function StripPrefix(prefix: string, t: string): (r: Option<string>)
    ensures r.Some? ==> t == prefix + r.value
  {
    if |t| < |prefix| || t[..|prefix|] != prefix then None else Some(t[|prefix|..])
  }

  lemma StripPrefixConcat(prefix: string, rest: string)
    ensures StripPrefix(prefix, prefix + rest) == Some(rest)
  {
    var t := prefix + rest;
    assert t[..|prefix|] == prefix && t[|prefix|..] == rest;
  }

  /** Reference decoder for exactly the shape MatrixError writes. */
  function DecodeMatrixError(text: string): Option<(string, string)>
  {
    match StripPrefix(ErrcodePrefix, text)
    case None => None
    case Some(t1) =>
      match ParseQuoted(t1)
      case None => None
      case Some((errcode, r1)) =>
        match StripPrefix(ErrorInfix, r1)
        case None => None
        case Some(t2) =>
          match ParseQuoted(t2)
          case None => None
          case Some((error, r2)) => if r2 == "}" then Some((errcode, error)) else None
  }

  /** Round trip: both fields are recovered from the error body, whatever characters they hold. */
  lemma DecodeMatrixErrorRoundTrip(errcode: string, error: string)
    ensures DecodeMatrixError(MatrixError(errcode, error)) == Some((errcode, error))
  {
    var r1 := ErrorInfix + (Quote(error) + "}");
    assert MatrixError(errcode, error) == ErrcodePrefix + (Quote(errcode) + r1);
    StripPrefixConcat(ErrcodePrefix, Quote(errcode) + r1);
    assert StripPrefix(ErrcodePrefix, MatrixError(errcode, error)) == Some(Quote(errcode) + r1);
    ParseQuotedQuote(errcode, r1);
    assert ParseQuoted(Quote(errcode) + r1) == Some((errcode, r1));
    StripPrefixConcat(ErrorInfix, Quote(error) + "}");
    assert StripPrefix(ErrorInfix, r1) == Some(Quote(error) + "}");
    ParseQuotedQuote(error, "}");
    assert ParseQuoted(Quote(error) + "}") == Some((error, "}"));
  }

  /** Distinct (errcode, error) pairs give distinct bodies. */
  lemma MatrixErrorInjective(a: string, b: string, c: string, d: string)
    requires MatrixError(a, b) == MatrixError(c, d)
    ensures a == c && b == d
  {
    DecodeMatrixErrorRoundTrip(a, b);
    DecodeMatrixErrorRoundTrip(c, d);
  }

  /** The body of a 405 reply. */
  function InvalidMethodBody(): string
  {
    MatrixError("M_UNKNOWN", "Invalid method")
  }

  /** The body of a 404 reply. */
  function UnknownRequestBody(): string
  {
    MatrixError("M_NOT_FOUND", "Unknown proxy request")
  }

  /** The body of the response a transport failure settles to. */
  function ProxyFailureBody(): string
  {
    MatrixError("ERR_UNKNOWN", "Error proxying request")
  }

  /** For fields without characters that need escaping, the body is the fields between quotes. */
  lemma MatrixErrorPlain(errcode: string, error: string)
    requires forall c :: c in errcode ==> Plain(c)
    requires forall c :: c in error ==> Plain(c)
    ensures MatrixError(errcode, error)
         == ErrcodePrefix + ['"'] + errcode + ['"'] + ErrorInfix + ['"'] + error + ['"'] + "}"
  {
    EscapePlain(errcode);
    EscapePlain(error);
  }

  /** The 405 body: `{"errcode":"M_UNKNOWN","error":"Invalid method"}`. */
  lemma InvalidMethodBodyText()
    ensures InvalidMethodBody()
         == ErrcodePrefix + ['"'] + "M_UNKNOWN" + ['"'] + ErrorInfix + ['"'] + "Invalid method" + ['"'] + "}"
  {
    MatrixErrorPlain("M_UNKNOWN", "Invalid method");
  }

  /** The 404 body: `{"errcode":"M_NOT_FOUND","error":"Unknown proxy request"}`. */
  lemma UnknownRequestBodyText()
    ensures UnknownRequestBody()
         == ErrcodePrefix + ['"'] + "M_NOT_FOUND" + ['"'] + ErrorInfix + ['"'] + "Unknown proxy request" + ['"'] + "}"
  {
    MatrixErrorPlain("M_NOT_FOUND", "Unknown proxy request");
  }

  /** The transport-failure body: `{"errcode":"ERR_UNKNOWN","error":"Error proxying request"}`. */
  lemma ProxyFailureBodyText()
    ensures ProxyFailureBody()
         == ErrcodePrefix + ['"'] + "ERR_UNKNOWN" + ['"'] + ErrorInfix + ['"'] + "Error proxying request" + ['"'] + "}"
  {
    MatrixErrorPlain("ERR_UNKNOWN", "Error proxying request");
  }
}
