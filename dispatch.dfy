/**
 * doQuery: send one GET to the request URL and turn the reply into either a
 * decoded response or an error. The HTTP transport and the JSON codec are
 * not modelled; what they yield for a request is the abstract `Reply`.
 */
module Dispatch {
  import opened Wrappers
  import opened UrlValues
  import opened Address

  /** What decoding a non-200 body as a generic JSON object yields. */
  datatype ErrorEnvelope =
    | Unparsable                               // json.Unmarshal failed
    | Parsed(additional: Option<string>)       // None: `info.additional` is missing or not a string

  /** What json.Unmarshal leaves in the target, and the error it returns. */
  datatype Decoding<R> = Decoding(target: R, err: Option<string>)

  /** The outcome of http.Get followed by ioutil.ReadAll of the body. */
  datatype Reply<R> =
    | GetFailed(cause: string)
    | ReadFailed(cause: string)
    | Received(statusCode: int, status: string, envelope: ErrorEnvelope, decoding: Decoding<R>)

  /**
   * What doQuery hands back: the response target (left at `zero` unless a
   * 200 body was decoded into it) with the error, or a run-time panic from
   * the unchecked type assertion on the error envelope.
   */
  datatype Outcome<R> = Returned(response: R, err: Option<string>) | Panicked

  /** The part of doQuery after the request: classify the reply. */
  function Classify<R(==)>(reply: Reply<R>, zero: R): (o: Outcome<R>)
    // transport failures are passed through untouched
    ensures reply.GetFailed? || reply.ReadFailed? ==> o == Returned(zero, Some(reply.cause))
    // the only panic: a non-200 body that is JSON without a string info.additional
    ensures o.Panicked? <==> reply.Received? && reply.statusCode != 200 && reply.envelope == Parsed(None)
    // success exactly when the status is 200 and the body decodes
    ensures o.Returned? && o.err.None? <==>
            reply.Received? && reply.statusCode == 200 && reply.decoding.err.None?
    // a non-200 reply never fills the target and reports the server message or the status line
    ensures reply.Received? && reply.statusCode != 200 && o.Returned? ==>
            o.response == zero &&
            o.err == Some(if reply.envelope.Unparsable? then reply.status else reply.envelope.additional.value)
    // a 200 reply hands back whatever the decoder produced, with its error
    ensures reply.Received? && reply.statusCode == 200 ==>
            o == Returned(reply.decoding.target, reply.decoding.err)
  {
    match reply
    case GetFailed(cause) => Returned(zero, Some(cause))
    case ReadFailed(cause) => Returned(zero, Some(cause))
    case Received(code, status, envelope, decoding) =>
      if code != 200 then
        match envelope
        case Unparsable => Returned(zero, Some(status))
        case Parsed(None) => Panicked
        case Parsed(Some(message)) => Returned(zero, Some(message))
      else
        Returned(decoding.target, decoding.err)
  }

  /**
   * doQuery: one GET to buildURL(baseURI, datapath, params), its reply
   * classified. `get` stands for the transport and `encode` for url.Values.Encode.
   */
  function DoQuery<R(==)>(baseURI: string, datapath: string, params: Params,
                          encode: Params -> string, get: string -> Reply<R>, zero: R): (o: Outcome<R>)
    // without parameters the request goes to `<base>/<datapath>`, whatever the encoder
    ensures |params| == 0 ==> o == Classify(get(baseURI + "/" + datapath), zero)
    ensures |params| > 0 ==> o == Classify(get(baseURI + "/" + datapath + "?" + encode(params)), zero)
  {
    Classify(get(BuildURL(baseURI, datapath, params, encode)), zero)
  }
}
