/**
 * The Craft Blocks API client (client/client.go): the data it exchanges, the
 * request each of its eight operations sends, the statuses each accepts, and
 * how an HTTP answer becomes the operation's value or error.
 *
 * The HTTP exchange itself and JSON (de)serialisation are not modelled: a
 * request is described by a `Request` value, and what came back by an
 * `Exchange` whose `decoded` part is the already-decoded payload.
 */
module Client {
  import opened Wrappers

  // ---------------------------------------------------------------------
  // Data transfer objects
  // ---------------------------------------------------------------------

  /** The `width` field of a block: a pixel count or the token "auto". */
  datatype Width = Pixels(px: int) | Auto

  /** A node of the document tree; `content` holds its children in document order. */
  datatype Block = Block(
    id: string,
    blockType: string,
    textStyle: string,
    markdown: string,
    content: seq<Block>,
    indentationLevel: int,
    listStyle: string,
    font: string,
    color: string,
    url: string,
    altText: string,
    width: Option<Width>,
    height: int,
    fileName: string,
    mimeType: string,
    fileSize: int)

  /** Where to insert or move: "start"/"end" of `pageId`, or "before"/"after" `siblingId`. */
  datatype Position = Position(position: string, pageId: string, siblingId: string)

  datatype InsertRequest = InsertRequest(blocks: seq<Block>, markdown: string, position: Position)
  datatype UpdateRequest = UpdateRequest(blocks: seq<Block>)
  datatype DeleteRequest = DeleteRequest(blockIds: seq<string>)
  datatype MoveRequest = MoveRequest(blockIds: seq<string>, position: Position)

  datatype PagePathElement = PagePathElement(id: string, content: string)
  datatype ContextBlock = ContextBlock(blockId: string, markdown: string)
  datatype SearchMatch = SearchMatch(
    blockId: string,
    markdown: string,
    pageBlockPath: seq<PagePathElement>,
    beforeBlocks: seq<ContextBlock>,
    afterBlocks: seq<ContextBlock>)

  datatype UploadLinkRequest = UploadLinkRequest(fileName: string, mimeType: string)
  datatype UploadLink = UploadLink(uploadUrl: string, rawUrl: string)

  /** An element of the `items` array that delete and move answer with; only `id` is read. */
  datatype IdItem = IdItem(id: string)

  // ---------------------------------------------------------------------
  // Query parameters
  // ---------------------------------------------------------------------

  /** A parameter value: literal text, or `Decimal(n)` for the decimal text of `n`. */
  datatype Value = Text(s: string) | Decimal(n: int)

  /** A set of query parameters: each key with the values added under it, in order. */
  type Values = map<string, seq<Value>>

  /** Appends `v` to the values of `key`, as `url.Values.Add` does. */
  function Add(params: Values, key: string, v: Value): Values
  {
    params[key := (if key in params then params[key] else []) + [v]]
  }

  /** Adding under a key not yet present is the union with that one parameter. */
  lemma AddNewKey(params: Values, key: string, v: Value)
    requires key !in params
    ensures Add(params, key, v) == params + SentIf(true, key, v)
  {
    assert [] + [v] == [v];
  }

  /** The single parameter `key = v` when `cond` holds, no parameter otherwise. */
  function SentIf(cond: bool, key: string, v: Value): Values
  {
    if cond then map[key := [v]] else map[]
  }

  /** The query of FetchBlocks: `id` unless empty, `maxDepth` unless -1, `fetchMetadata` only when true. */
  function FetchQuery(id: string, maxDepth: int, fetchMetadata: bool): Values
  {
    SentIf(id != "", "id", Text(id))
    + SentIf(maxDepth != -1, "maxDepth", Decimal(maxDepth))
    + SentIf(fetchMetadata, "fetchMetadata", Text("true"))
  }

  /** The query of FetchBlocksMarkdown: `id` unless empty, `maxDepth` unless -1. */
  function MarkdownQuery(id: string, maxDepth: int): Values
  {
    SentIf(id != "", "id", Text(id))
    + SentIf(maxDepth != -1, "maxDepth", Decimal(maxDepth))
  }

  /** The query of Search: always `pattern`; the flag when true, each count when positive. */
  function SearchQuery(pattern: string, caseSensitive: bool, beforeCount: int, afterCount: int): Values
  {
    map["pattern" := [Text(pattern)]]
    + SentIf(caseSensitive, "caseSensitive", Text("true"))
    + SentIf(beforeCount > 0, "beforeBlockCount", Decimal(beforeCount))
    + SentIf(afterCount > 0, "afterBlockCount", Decimal(afterCount))
  }

  /** Builds the FetchBlocks parameters one `Add` at a time. */
  method BuildFetchQuery(id: string, maxDepth: int, fetchMetadata: bool) returns (params: Values)
    ensures params == FetchQuery(id, maxDepth, fetchMetadata)
  {
    params := map[];
    if id != "" {
      AddNewKey(params, "id", Text(id));
      params := Add(params, "id", Text(id));
    }
    assert params == SentIf(id != "", "id", Text(id));
    if maxDepth != -1 {
      AddNewKey(params, "maxDepth", Decimal(maxDepth));
      params := Add(params, "maxDepth", Decimal(maxDepth));
    }
    assert params == MarkdownQuery(id, maxDepth);
    if fetchMetadata {
      AddNewKey(params, "fetchMetadata", Text("true"));
      params := Add(params, "fetchMetadata", Text("true"));
    }
  }

  /** Builds the FetchBlocksMarkdown parameters one `Add` at a time. */
  method BuildMarkdownQuery(id: string, maxDepth: int) returns (params: Values)
    ensures params == MarkdownQuery(id, maxDepth)
  {
    params := map[];
    if id != "" {
      AddNewKey(params, "id", Text(id));
      params := Add(params, "id", Text(id));
    }
    assert params == SentIf(id != "", "id", Text(id));
    if maxDepth != -1 {
      AddNewKey(params, "maxDepth", Decimal(maxDepth));
      params := Add(params, "maxDepth", Decimal(maxDepth));
    }
  }

  /** Builds the Search parameters one `Add` at a time. */
  method BuildSearchQuery(pattern: string, caseSensitive: bool, beforeCount: int, afterCount: int)
    returns (params: Values)
    ensures params == SearchQuery(pattern, caseSensitive, beforeCount, afterCount)
  {
    params := map[];
    AddNewKey(params, "pattern", Text(pattern));
    params := Add(params, "pattern", Text(pattern));
    assert params == map[] + map["pattern" := [Text(pattern)]] == map["pattern" := [Text(pattern)]];
    if caseSensitive {
      AddNewKey(params, "caseSensitive", Text("true"));
      params := Add(params, "caseSensitive", Text("true"));
    }
    if beforeCount > 0 {
      AddNewKey(params, "beforeBlockCount", Decimal(beforeCount));
      params := Add(params, "beforeBlockCount", Decimal(beforeCount));
    }
    if afterCount > 0 {
      AddNewKey(params, "afterBlockCount", Decimal(afterCount));
      params := Add(params, "afterBlockCount", Decimal(afterCount));
    }
  }

  /** Each FetchBlocks parameter is present exactly when its rule says so, with one value. */
  lemma FetchQueryRules(id: string, maxDepth: int, fetchMetadata: bool)
    ensures FetchQuery(id, maxDepth, fetchMetadata).Keys <= {"id", "maxDepth", "fetchMetadata"}
    ensures "id" in FetchQuery(id, maxDepth, fetchMetadata) <==> id != ""
    ensures id != "" ==> FetchQuery(id, maxDepth, fetchMetadata)["id"] == [Text(id)]
    ensures "maxDepth" in FetchQuery(id, maxDepth, fetchMetadata) <==> maxDepth != -1
    ensures maxDepth != -1 ==> FetchQuery(id, maxDepth, fetchMetadata)["maxDepth"] == [Decimal(maxDepth)]
    ensures "fetchMetadata" in FetchQuery(id, maxDepth, fetchMetadata) <==> fetchMetadata
    ensures fetchMetadata ==> FetchQuery(id, maxDepth, fetchMetadata)["fetchMetadata"] == [Text("true")]
    ensures |FetchQuery(id, maxDepth, fetchMetadata)| == 0 <==> id == "" && maxDepth == -1 && !fetchMetadata
  {
    var q := FetchQuery(id, maxDepth, fetchMetadata);
    if |q| == 0 {
      assert q.Keys == {};
    }
  }

  /** The markdown fetch follows the same `id`/`maxDepth` rules and never sends `fetchMetadata`. */
  lemma MarkdownQueryIsFetchWithoutMetadata(id: string, maxDepth: int)
    ensures MarkdownQuery(id, maxDepth) == FetchQuery(id, maxDepth, false)
    ensures "fetchMetadata" !in MarkdownQuery(id, maxDepth)
  {
  }

  /** Search always sends `pattern`; the other three parameters follow their rules. */
  lemma SearchQueryRules(pattern: string, caseSensitive: bool, beforeCount: int, afterCount: int)
    ensures SearchQuery(pattern, caseSensitive, beforeCount, afterCount).Keys
         <= {"pattern", "caseSensitive", "beforeBlockCount", "afterBlockCount"}
    ensures "pattern" in SearchQuery(pattern, caseSensitive, beforeCount, afterCount)
    ensures SearchQuery(pattern, caseSensitive, beforeCount, afterCount)["pattern"] == [Text(pattern)]
    ensures "caseSensitive" in SearchQuery(pattern, caseSensitive, beforeCount, afterCount) <==> caseSensitive
    ensures caseSensitive ==>
      SearchQuery(pattern, caseSensitive, beforeCount, afterCount)["caseSensitive"] == [Text("true")]
    ensures "beforeBlockCount" in SearchQuery(pattern, caseSensitive, beforeCount, afterCount) <==> beforeCount > 0
    ensures beforeCount > 0 ==>
      SearchQuery(pattern, caseSensitive, beforeCount, afterCount)["beforeBlockCount"] == [Decimal(beforeCount)]
    ensures "afterBlockCount" in SearchQuery(pattern, caseSensitive, beforeCount, afterCount) <==> afterCount > 0
    ensures afterCount > 0 ==>
      SearchQuery(pattern, caseSensitive, beforeCount, afterCount)["afterBlockCount"] == [Decimal(afterCount)]
  {
  }

  // ---------------------------------------------------------------------
  // Request descriptors
  // ---------------------------------------------------------------------

  datatype HttpMethod = GET | POST | PUT | DELETE

  /** A request URL: `path` is base URL plus endpoint; `query`, when present, follows a `?`. */
  datatype Url = Url(path: string, query: Option<Values>)

  /** The JSON document sent as request body, if any. */
  datatype Body =
    | NoBody
    | InsertBody(insert: InsertRequest)
    | UpdateBody(update: UpdateRequest)
    | DeleteBody(delete: DeleteRequest)
    | MoveBody(move: MoveRequest)
    | UploadBody(upload: UploadLinkRequest)

  /** What one operation puts on the wire: HTTP method (`verb`), URL, `Accept` and `Content-Type` headers, body. */
  datatype Request = Request(
    verb: HttpMethod,
    url: Url,
    accept: Option<string>,
    contentType: Option<string>,
    body: Body)

  const JsonMediaType := "application/json"
  const MarkdownMediaType := "text/markdown"

  /** Attaches `?` and the parameters only when there is at least one. */
  function WithQuery(path: string, params: Values): Url
  {
    if |params| > 0 then Url(path, Some(params)) else Url(path, None)
  }

  /** A JSON-bodied request without query parameters. */
  function JsonRequest(verb: HttpMethod, path: string, body: Body): Request
  {
    Request(verb, Url(path, None), None, Some(JsonMediaType), body)
  }

  function FetchBlocksRequest(baseUrl: string, id: string, maxDepth: int, fetchMetadata: bool): (r: Request)
    ensures r.verb == GET && r.url.path == baseUrl + "/blocks"
    ensures r.accept == Some(JsonMediaType) && r.contentType == None && r.body == NoBody
    ensures r.url.query.None? <==> id == "" && maxDepth == -1 && !fetchMetadata
    ensures r.url.query.Some? ==> r.url.query.value == FetchQuery(id, maxDepth, fetchMetadata)
  {
    FetchQueryRules(id, maxDepth, fetchMetadata);
    Request(GET, WithQuery(baseUrl + "/blocks", FetchQuery(id, maxDepth, fetchMetadata)),
            Some(JsonMediaType), None, NoBody)
  }

  function FetchBlocksMarkdownRequest(baseUrl: string, id: string, maxDepth: int): (r: Request)
    ensures r.verb == GET && r.url.path == baseUrl + "/blocks"
    ensures r.accept == Some(MarkdownMediaType) && r.contentType == None && r.body == NoBody
    ensures r.url.query.None? <==> id == "" && maxDepth == -1
    ensures r.url.query.Some? ==> r.url.query.value == FetchQuery(id, maxDepth, false)
    ensures r.url.query.Some? ==> "fetchMetadata" !in r.url.query.value
  {
    FetchQueryRules(id, maxDepth, false);
    MarkdownQueryIsFetchWithoutMetadata(id, maxDepth);
    Request(GET, WithQuery(baseUrl + "/blocks", MarkdownQuery(id, maxDepth)),
            Some(MarkdownMediaType), None, NoBody)
  }

  function InsertBlocksRequest(baseUrl: string, req: InsertRequest): (r: Request)
    ensures r.verb == POST && r.url == Url(baseUrl + "/blocks", None)
    ensures r.accept == None && r.contentType == Some(JsonMediaType) && r.body == InsertBody(req)
  {
    JsonRequest(POST, baseUrl + "/blocks", InsertBody(req))
  }

  function UpdateBlocksRequest(baseUrl: string, req: UpdateRequest): (r: Request)
    ensures r.verb == PUT && r.url == Url(baseUrl + "/blocks", None)
    ensures r.accept == None && r.contentType == Some(JsonMediaType) && r.body == UpdateBody(req)
  {
    JsonRequest(PUT, baseUrl + "/blocks", UpdateBody(req))
  }

  function DeleteBlocksRequest(baseUrl: string, blockIds: seq<string>): (r: Request)
    ensures r.verb == DELETE && r.url == Url(baseUrl + "/blocks", None)
    ensures r.accept == None && r.contentType == Some(JsonMediaType)
    ensures r.body == DeleteBody(DeleteRequest(blockIds))
  {
    JsonRequest(DELETE, baseUrl + "/blocks", DeleteBody(DeleteRequest(blockIds)))
  }

  function MoveBlocksRequest(baseUrl: string, req: MoveRequest): (r: Request)
    ensures r.verb == PUT && r.url == Url(baseUrl + "/blocks/move", None)
    ensures r.accept == None && r.contentType == Some(JsonMediaType) && r.body == MoveBody(req)
  {
    JsonRequest(PUT, baseUrl + "/blocks/move", MoveBody(req))
  }

  function SearchRequest(baseUrl: string, pattern: string, caseSensitive: bool, beforeCount: int, afterCount: int)
    : (r: Request)
    ensures r.verb == GET && r.url.path == baseUrl + "/blocks/search"
    ensures r.accept == None && r.contentType == None && r.body == NoBody
    ensures r.url.query == Some(SearchQuery(pattern, caseSensitive, beforeCount, afterCount))
  {
    Request(GET, Url(baseUrl + "/blocks/search", Some(SearchQuery(pattern, caseSensitive, beforeCount, afterCount))),
            None, None, NoBody)
  }

  function GenerateUploadURLRequest(baseUrl: string, fileName: string, mimeType: string): (r: Request)
    ensures r.verb == POST && r.url == Url(baseUrl + "/upload-link", None)
    ensures r.accept == None && r.contentType == Some(JsonMediaType)
    ensures r.body == UploadBody(UploadLinkRequest(fileName, mimeType))
  {
    JsonRequest(POST, baseUrl + "/upload-link", UploadBody(UploadLinkRequest(fileName, mimeType)))
  }

  // ---------------------------------------------------------------------
  // Operations as a whole
  // ---------------------------------------------------------------------

  datatype OpKind = Fetch | FetchMarkdown | Insert | Update | Delete | Move | SearchBlocks | UploadURL

  /** A call of one of the eight client operations, with its arguments. */
  datatype Operation =
    | FetchBlocks(id: string, maxDepth: int, fetchMetadata: bool)
    | FetchBlocksMarkdown(id: string, maxDepth: int)
    | InsertBlocks(insert: InsertRequest)
    | UpdateBlocks(update: UpdateRequest)
    | DeleteBlocks(blockIds: seq<string>)
    | MoveBlocks(move: MoveRequest)
    | Search(pattern: string, caseSensitive: bool, beforeCount: int, afterCount: int)
    | GenerateUploadURL(fileName: string, mimeType: string)
  {
    function Kind(): OpKind
    {
      match this
      case FetchBlocks(_, _, _) => Fetch
      case FetchBlocksMarkdown(_, _) => FetchMarkdown
      case InsertBlocks(_) => Insert
      case UpdateBlocks(_) => Update
      case DeleteBlocks(_) => Delete
      case MoveBlocks(_) => Move
      case Search(_, _, _, _) => SearchBlocks
      case GenerateUploadURL(_, _) => UploadURL
    }
  }

  /** The request the client sends for `op` against `baseUrl`. */
  function RequestFor(baseUrl: string, op: Operation): Request
  {
    match op
    case FetchBlocks(id, maxDepth, fetchMetadata) => FetchBlocksRequest(baseUrl, id, maxDepth, fetchMetadata)
    case FetchBlocksMarkdown(id, maxDepth) => FetchBlocksMarkdownRequest(baseUrl, id, maxDepth)
    case InsertBlocks(req) => InsertBlocksRequest(baseUrl, req)
    case UpdateBlocks(req) => UpdateBlocksRequest(baseUrl, req)
    case DeleteBlocks(ids) => DeleteBlocksRequest(baseUrl, ids)
    case MoveBlocks(req) => MoveBlocksRequest(baseUrl, req)
    case Search(pattern, caseSensitive, beforeCount, afterCount) =>
      SearchRequest(baseUrl, pattern, caseSensitive, beforeCount, afterCount)
    case GenerateUploadURL(fileName, mimeType) => GenerateUploadURLRequest(baseUrl, fileName, mimeType)
  }

  /** Method, path and `Accept` header of a request: what selects the remote endpoint. */
  function Endpoint(r: Request): (HttpMethod, string, Option<string>)
  {
    (r.verb, r.url.path, r.accept)
  }

  /** No two kinds of operation share an endpoint, so the remote side can tell all eight apart. */
  lemma EndpointIdentifiesOperation(baseUrl: string, op1: Operation, op2: Operation)
    requires Endpoint(RequestFor(baseUrl, op1)) == Endpoint(RequestFor(baseUrl, op2))
    ensures op1.Kind() == op2.Kind()
  {
  }

  // ---------------------------------------------------------------------
  // Answers
  // ---------------------------------------------------------------------

  /** Whether the operation treats `status` as success: 200, and also 207 for delete and move. */
  predicate Accepted(kind: OpKind, status: int)
  {
    if kind == Delete || kind == Move then status == 200 || status == 207 else status == 200
  }

  /** 200 is always success, 207 only for the two batch operations, nothing else ever. */
  lemma AcceptedStatuses(kind: OpKind, status: int)
    ensures Accepted(kind, 200)
    ensures Accepted(kind, 207) <==> kind == Delete || kind == Move
    ensures Accepted(kind, status) ==> status == 200 || status == 207
  {
  }

  /** The error kinds an operation reports. */
  datatype ClientError =
    | CreatingRequest                            // marshalling the body or building the request failed
    | ExecutingRequest                           // the transport failed
    | UnexpectedStatus(status: int, body: string)
    | Decoding                                   // the body did not decode, or could not be read

  /**
   * What came of one HTTP exchange: no request could be built, the transport
   * failed, or an answer arrived with a status, the body text, and the payload
   * decoded from it (None if it did not decode).
   */
  datatype Exchange<T> =
    | ConstructionFailed
    | TransportFailed
    | Answered(status: int, body: string, decoded: Option<T>)

  /** Turns the outcome of an exchange into the operation's result, first error first. */
  function Unwrap<T>(kind: OpKind, ex: Exchange<T>): (r: Result<T, ClientError>)
    ensures r.Success? <==> ex.Answered? && Accepted(kind, ex.status) && ex.decoded.Some?
    ensures r.Success? ==> r.value == ex.decoded.value
    ensures ex.ConstructionFailed? ==> r == Failure(CreatingRequest)
    ensures ex.TransportFailed? ==> r == Failure(ExecutingRequest)
    ensures ex.Answered? && !Accepted(kind, ex.status) ==> r == Failure(UnexpectedStatus(ex.status, ex.body))
    ensures ex.Answered? && Accepted(kind, ex.status) && ex.decoded.None? ==> r == Failure(Decoding)
  {
    match ex
    case ConstructionFailed => Failure(CreatingRequest)
    case TransportFailed => Failure(ExecutingRequest)
    case Answered(status, body, decoded) =>
      if !Accepted(kind, status) then Failure(UnexpectedStatus(status, body))
      else if decoded.None? then Failure(Decoding)
      else Success(decoded.value)
  }

  /** A status error is reported exactly for a rejected status, carrying that status and body. */
  lemma StatusErrorIffRejected<T>(kind: OpKind, ex: Exchange<T>, status: int, body: string)
    ensures Unwrap(kind, ex) == Failure(UnexpectedStatus(status, body))
        <==> ex.Answered? && ex.status == status && ex.body == body && !Accepted(kind, status)
  {
  }

  /** 207 with a decodable payload is a success for delete and move, a status error otherwise. */
  lemma PartialSuccess<T>(kind: OpKind, body: string, payload: T)
    ensures kind == Delete || kind == Move ==> Unwrap(kind, Answered(207, body, Some(payload))) == Success(payload)
    ensures kind != Delete && kind != Move ==>
      Unwrap(kind, Answered(207, body, Some(payload))) == Failure(UnexpectedStatus(207, body))
  {
  }

  /** Copies the `id` of each decoded item into a slice of the same length, in order. */
  method ProjectIds(items: seq<IdItem>) returns (ids: seq<string>)
    ensures |ids| == |items|
    ensures forall i :: 0 <= i < |items| ==> ids[i] == items[i].id
  {
    var a := new string[|items|];
    for i := 0 to |items|
      invariant forall j :: 0 <= j < i ==> a[j] == items[j].id
    {
      a[i] := items[i].id;
    }
    ids := a[..];
  }

  /** The result of DeleteBlocks or MoveBlocks: unwrap the exchange, then project the ids. */
  method UnwrapIds(kind: OpKind, ex: Exchange<seq<IdItem>>) returns (r: Result<seq<string>, ClientError>)
    requires kind == Delete || kind == Move
    ensures r.Failure? <==> Unwrap(kind, ex).Failure?
    ensures r.Failure? ==> r.error == Unwrap(kind, ex).error
    ensures r.Success? ==> |r.value| == |ex.decoded.value|
    ensures r.Success? ==> forall i :: 0 <= i < |ex.decoded.value| ==> r.value[i] == ex.decoded.value[i].id
  {
    var u := Unwrap(kind, ex);
    if u.Failure? {
      return Failure(u.error);
    }
    var ids := ProjectIds(u.value);
    r := Success(ids);
  }
}
