/** The JSON-RPC surface the chain client talks to: decoded JSON values, the two
    requests the parser issues, and the node seen as an oracle from a request to
    the decoded response object. */
module Rpc {
  import opened Results
  import Hex

  /** A value produced by decoding JSON into Go's `interface{}`. Numbers keep their
      literal text; the core never reads them. */
  datatype JsonValue =
    | JNull
    | JBool(b: bool)
    | JNumber(literal: string)
    | JString(s: string)
    | JArray(elems: seq<JsonValue>)
    | JObject(fields: map<string, JsonValue>)

  /** A JSON-RPC 2.0 request, reduced to its method name and parameters
      (`jsonrpc` is always "2.0" and `id` always 1). */
  datatype RpcRequest = RpcRequest(name: string, params: seq<JsonValue>)

  /** The decoded top-level response object (`respData`). */
  type Response = map<string, JsonValue>

  /** One round trip to the node: either the decoded response object, or the reason
      the request could not be built, sent, read or decoded. */
  type Node = RpcRequest -> Result<Response, string>

  /** The head-height request: `eth_blockNumber` with no parameters. */
  function BlockNumberRequest(): (r: RpcRequest)
    ensures forall h :: r != BlockByNumberRequest(h)
  {
    RpcRequest("eth_blockNumber", [])
  }

  /** The block request: `eth_getBlockByNumber` with the height as `"0x%x"` and
      `true` for full transaction objects. */
  function BlockByNumberRequest(blockNumber: int): RpcRequest
  {
    RpcRequest("eth_getBlockByNumber", [JString(Hex.EncodeBlockNumber(blockNumber)), JBool(true)])
  }

  /** A node reading a block request gets the height back: after the "0x" prefix, the
      first parameter parses as the height, for every 64-bit height. */
  lemma BlockRequestHeight(blockNumber: int)
    requires Hex.MinInt64 <= blockNumber <= Hex.MaxInt64
    ensures var r := BlockByNumberRequest(blockNumber);
            && r.name == "eth_getBlockByNumber" && |r.params| == 2 && r.params[1] == JBool(true)
            && r.params[0].JString? && |r.params[0].s| >= 2
            && Hex.ParseInt16(r.params[0].s[2..]) == Some(blockNumber)
  {
    Hex.EncodeBlockNumberParts(blockNumber);
    Hex.FormatRoundTrip(blockNumber);
  }

  /** The block requests for heights `lo+1 .. hi`, in that order. */
  function BlockRequests(lo: int, hi: int): seq<RpcRequest>
    decreases hi - lo
  {
    if hi <= lo then [] else BlockRequests(lo, hi - 1) + [BlockByNumberRequest(hi)]
  }

  /** Asking for one more height appends its request. */
  lemma BlockRequestsNext(lo: int, below: int)
    requires lo <= below
    ensures BlockRequests(lo, below + 1) == BlockRequests(lo, below) + [BlockByNumberRequest(below + 1)]
  {
  }

  /** With a cursor that is never negative, height 0 is never requested. */
  lemma NoGenesisRequest(lo: int, hi: int)
    requires 0 <= lo
    ensures BlockByNumberRequest(0) !in BlockRequests(lo, hi)
  {
    BlockRequestsAt(lo, hi);
    var r := BlockRequests(lo, hi);
    forall i | 0 <= i < |r|
      ensures r[i] != BlockByNumberRequest(0)
    {
      var h := lo + 1 + i;
      Hex.DigitsValueFormat(h);
      Hex.EncodeBlockNumberParts(h);
      Hex.EncodeBlockNumberParts(0);
      assert Hex.EncodeBlockNumber(h)[2] != '0';
      assert Hex.EncodeBlockNumber(0)[2] == '0';
    }
  }

  /** One request per height, ascending from `lo+1`. */
  lemma {:induction false} BlockRequestsAt(lo: int, hi: int)
    decreases hi - lo
    ensures var r := BlockRequests(lo, hi);
            && |r| == (if hi <= lo then 0 else hi - lo)
            && forall i :: 0 <= i < |r| ==> r[i] == BlockByNumberRequest(lo + 1 + i)
  {
    if hi > lo {
      BlockRequestsAt(lo, hi - 1);
      var r := BlockRequests(lo, hi);
      var q := BlockRequests(lo, hi - 1);
      assert r == q + [BlockByNumberRequest(hi)];
      forall i | 0 <= i < |r|
        ensures r[i] == BlockByNumberRequest(lo + 1 + i)
      {
        if i < |q| {
          assert r[i] == q[i];
        }
      }
    }
  }
}
