/**
 * The fetch function that `fetchHTTP` (main.go) builds around an HTTP
 * client: a GET of `uri + endpoint` whose response counts as a success only
 * for a 2xx status.
 *
 * The network is an oracle from absolute URL to what the GET produced; the
 * response body is already read and decoded (reading can still fail, and
 * that failure is seen by the caller, as `ioutil.ReadAll` is called there).
 */
module Fetcher {

  /** What `ioutil.ReadAll` plus `json.Unmarshal` make of a response body.
      `names` is the list field the decoder filled in, in array order; the
      decode error itself is discarded by every caller, so a malformed body
      is simply the list the decoder left behind (usually empty). */
  datatype Body = Unreadable | Payload(names: seq<string>)

  /** What `client.Get(url)` produced: a transport error (connection,
      timeout, TLS) or a response with a status code and a body. */
  datatype HttpReply = ConnFailed | Reply(status: int, body: Body)

  /** The two error values the fetch function can return. */
  datatype FetchError = TransportError | HttpStatus(code: int)

  /** The result of one call of the fetch function. */
  datatype FetchResult = FetchFailed(error: FetchError) | Fetched(body: Body)

  /** The status test of the fetch function: the 2xx range. */
  predicate IsSuccess(status: int)
  {
    200 <= status && status < 300
  }

  /** A status succeeds exactly when its hundreds digit is 2 (status class
      "2xx" of HTTP). */
  lemma SuccessIsStatusClassTwo(status: int)
    requires status >= 0
    ensures IsSuccess(status) <==> status / 100 == 2
  {
    if 200 <= status < 300 {
      assert status / 100 == 2;
    } else if status < 200 {
      assert status / 100 <= 1;
    } else {
      assert status / 100 >= 3;
    }
  }

  /** The fetch function for base `uri` over network `net`, applied to
      `endpoint`. */
  function FetchHttp(uri: string, net: string -> HttpReply, endpoint: string): (r: FetchResult)
    ensures r.Fetched? <==> net(uri + endpoint).Reply? && IsSuccess(net(uri + endpoint).status)
    ensures r.Fetched? ==> r.body == net(uri + endpoint).body
    ensures net(uri + endpoint).ConnFailed? ==> r == FetchFailed(TransportError)
    ensures net(uri + endpoint).Reply? && !IsSuccess(net(uri + endpoint).status) ==>
              r == FetchFailed(HttpStatus(net(uri + endpoint).status))
  {
    match net(uri + endpoint)
    case ConnFailed => FetchFailed(TransportError)
    case Reply(status, body) =>
      if IsSuccess(status) then Fetched(body) else FetchFailed(HttpStatus(status))
  }

  /** The fetch function asks the network about the single URL
      `uri + endpoint` and about nothing else: two networks that agree on
      that URL give the same result. */
  lemma FetchHttpReadsOnlyItsUrl(uri: string, net1: string -> HttpReply, net2: string -> HttpReply, endpoint: string)
    requires net1(uri + endpoint) == net2(uri + endpoint)
    ensures FetchHttp(uri, net1, endpoint) == FetchHttp(uri, net2, endpoint)
  {
  }
}
