/**
 * The demo program of main.go: the `/craft-hackathon` handler, which appends
 * a dictated query to the end of the document, and its two helpers over blocks
 * and strings. The client calls it makes are inputs (what each call returned),
 * and the calls it makes are reported as a trace.
 */
module DemoServer {
  import opened Wrappers
  import opened Client

  /** The API endpoint the demo program talks to. */
  const BaseURL := "https://connect.craft.do/links/3tXZdMX0EIe/api/v1"

  // ---------------------------------------------------------------------
  // countBlocks
  // ---------------------------------------------------------------------

  /** Every node of the tree rooted at `b`, in document (pre-)order. */
  function Nodes(b: Block): seq<Block>
    decreases b
  {
    [b] + NodesOf(b.content)
  }

  /** Every node of the trees rooted at `bs`, one tree after another. */
  function NodesOf(bs: seq<Block>): seq<Block>
    decreases bs
  {
    if bs == [] then [] else Nodes(bs[0]) + NodesOf(bs[1..])
  }

  /** The nodes of a forest grow by the nodes of each tree appended to it. */
  lemma {:induction false} NodesOfAppend(bs: seq<Block>, b: Block)
    ensures NodesOf(bs + [b]) == NodesOf(bs) + Nodes(b)
    decreases bs
  {
    if bs == [] {
      assert [b][1..] == [];
    } else {
      assert (bs + [b])[1..] == bs[1..] + [b];
      NodesOfAppend(bs[1..], b);
    }
  }

  /** A tree of a forest has no more nodes than the whole forest. */
  lemma {:induction false} TreeWithinForest(bs: seq<Block>, i: nat)
    requires i < |bs|
    ensures |Nodes(bs[i])| <= |NodesOf(bs)|
    decreases bs
  {
    if i > 0 {
      TreeWithinForest(bs[1..], i - 1);
    }
  }

  /** The number of blocks in the tree `block` points to; 0 for a nil pointer. */
  method CountBlocks(block: Option<Block>) returns (count: nat)
    ensures block.None? ==> count == 0
    ensures block.Some? ==> count == |Nodes(block.value)|
    ensures block.Some? ==> count == 1 + |NodesOf(block.value.content)| >= 1
    decreases if block.Some? then |Nodes(block.value)| else 0
  {
    if block.None? {
      return 0;
    }
    var b := block.value;
    count := 1;
    for i := 0 to |b.content|
      invariant count == 1 + |NodesOf(b.content[..i])|
    {
      TreeWithinForest(b.content, i);
      var c := CountBlocks(Some(b.content[i]));
      NodesOfAppend(b.content[..i], b.content[i]);
      assert b.content[..i + 1] == b.content[..i] + [b.content[i]];
      count := count + c;
    }
    assert b.content[..|b.content|] == b.content;
  }

  /** The nodes of a forest are those of any prefix of it followed by those of the rest. */
  lemma {:induction false} NodesOfSplit(bs: seq<Block>, j: nat)
    requires j <= |bs|
    ensures NodesOf(bs) == NodesOf(bs[..j]) + NodesOf(bs[j..])
    decreases bs
  {
    if j == 0 {
      assert bs[..0] == [] && bs[0..] == bs;
    } else {
      assert bs[..j][0] == bs[0];
      assert bs[..j][1..] == bs[1..][..j - 1];
      assert bs[j..] == bs[1..][j - 1..];
      NodesOfSplit(bs[1..], j - 1);
    }
  }

  /**
   * Each child's subtree is counted in full, as a contiguous part of its
   * parent's nodes: right after the parent and the subtrees of the earlier
   * children, which is where CountBlocks has got to when it visits that child.
   */
  lemma {:induction false} ChildSubtreeCounted(b: Block, i: nat)
    requires i < |b.content|
    ensures Nodes(b)[0] == b
    ensures var start := 1 + |NodesOf(b.content[..i])|;
      start + |Nodes(b.content[i])| <= |Nodes(b)|
      && Nodes(b)[start..start + |Nodes(b.content[i])|] == Nodes(b.content[i])
  {
    var bs := b.content;
    NodesOfSplit(bs, i);
    var rest := bs[i..];
    assert rest[0] == bs[i];
    assert rest[1..] == bs[i + 1..];
    var before, mid, after := NodesOf(bs[..i]), Nodes(bs[i]), NodesOf(bs[i + 1..]);
    assert Nodes(b) == [b] + before + mid + after;
    var start := 1 + |before|;
    assert Nodes(b)[start..start + |mid|] == mid;
  }

  // ---------------------------------------------------------------------
  // truncate
  // ---------------------------------------------------------------------

  /**
   * `s` cut to `maxLen` characters, the last three of them "...". Go's slice
   * `s[:maxLen-3]` panics when `maxLen < 3`, so a cut needs `maxLen >= 3`.
   */
  function Truncate(s: string, maxLen: int): (r: string)
    requires |s| > maxLen ==> maxLen >= 3
    ensures |r| <= maxLen
    ensures r == s <==> |s| <= maxLen
    ensures |s| > maxLen ==> |r| == maxLen && r[..maxLen - 3] == s[..maxLen - 3] && r[maxLen - 3..] == "..."
  {
    if |s| <= maxLen then s else s[..maxLen - 3] + "..."
  }

  /** Truncating twice to the same length changes nothing more. */
  lemma TruncateIdempotent(s: string, maxLen: int)
    requires |s| > maxLen ==> maxLen >= 3
    ensures Truncate(Truncate(s, maxLen), maxLen) == Truncate(s, maxLen)
  {
  }

  // ---------------------------------------------------------------------
  // handleCraftHackathon
  // ---------------------------------------------------------------------

  /** The JSON body the endpoint expects. */
  datatype QueryRequest = QueryRequest(query: string)

  /** The JSON body of a successful answer. */
  datatype QueryResponse = QueryResponse(status: string, query: string)

  /** Why the handler answered with an error. */
  datatype Reason =
    | MethodNotAllowed
    | InvalidJson
    | FetchFailed(fetchError: ClientError)
    | InsertFailed(insertError: ClientError)

  /** The handler's answer: a plain-text error, or the JSON success body. */
  datatype Reply =
    | ErrorReply(code: int, reason: Reason)
    | JsonReply(code: int, response: QueryResponse)

  /** A call the handler makes on the client. */
  datatype ClientCall =
    | FetchCall(id: string, maxDepth: int, fetchMetadata: bool)
    | InsertCall(request: InsertRequest)

  /** The root fetch: no id, depth 0, no metadata. */
  const RootFetch := FetchCall("", 0, false)

  /** The insert the handler asks for: `query` as markdown at the end of page `rootId`. */
  function AppendQuery(query: string, rootId: string): (req: InsertRequest)
    ensures req.blocks == [] && req.markdown == query
    ensures req.position.position == "end" && req.position.pageId == rootId && req.position.siblingId == ""
  {
    InsertRequest([], query, Position("end", rootId, ""))
  }

  /**
   * Handles one request to `/craft-hackathon`. `body` is the decoded JSON body
   * (None if it did not decode); `fetched` and `inserted` are what the client's
   * FetchBlocks and InsertBlocks calls return, if the handler makes them.
   */
  method HandleCraftHackathon(
    httpMethod: string,
    body: Option<QueryRequest>,
    fetched: Result<Block, ClientError>,
    inserted: Result<seq<Block>, ClientError>)
    returns (reply: Reply, calls: seq<ClientCall>)
    requires inserted.Success? ==> |inserted.value| > 0
    ensures httpMethod != "POST" ==> reply == ErrorReply(405, MethodNotAllowed) && calls == []
    ensures httpMethod == "POST" && body.None? ==> reply == ErrorReply(400, InvalidJson) && calls == []
    ensures httpMethod == "POST" && body.Some? && fetched.Failure? ==>
      reply == ErrorReply(500, FetchFailed(fetched.error)) && calls == [RootFetch]
    ensures httpMethod == "POST" && body.Some? && fetched.Success? ==>
      calls == [RootFetch, InsertCall(AppendQuery(body.value.query, fetched.value.id))]
    ensures httpMethod == "POST" && body.Some? && fetched.Success? && inserted.Failure? ==>
      reply == ErrorReply(500, InsertFailed(inserted.error))
    ensures reply.JsonReply? <==> httpMethod == "POST" && body.Some? && fetched.Success? && inserted.Success?
    ensures reply.JsonReply? ==> reply == JsonReply(200, QueryResponse("created", body.value.query))
  {
    calls := [];
    if httpMethod != "POST" {
      return ErrorReply(405, MethodNotAllowed), calls;
    }
    if body.None? {
      return ErrorReply(400, InvalidJson), calls;
    }
    var req := body.value;

    calls := calls + [RootFetch];
    if fetched.Failure? {
      return ErrorReply(500, FetchFailed(fetched.error)), calls;
    }
    var root := fetched.value;

    var insertReq := AppendQuery(req.query, root.id);
    calls := calls + [InsertCall(insertReq)];
    if inserted.Failure? {
      return ErrorReply(500, InsertFailed(inserted.error)), calls;
    }
    // The id of the first inserted block, read only for logging (main.go:90);
    // the precondition on `inserted` is what keeps this index in range.
    var blockId := inserted.value[0].id;

    reply := JsonReply(200, QueryResponse("created", req.query));
  }

  /** The root fetch the handler records sends `maxDepth=0` and nothing else, with a `?`. */
  lemma RootFetchRequest()
    ensures FetchBlocksRequest(BaseURL, RootFetch.id, RootFetch.maxDepth, RootFetch.fetchMetadata).url
         == Url(BaseURL + "/blocks", Some(map["maxDepth" := [Decimal(0)]]))
  {
    var q := FetchQuery("", 0, false);
    assert q == map["maxDepth" := [Decimal(0)]];
  }
}
