# Craft Blocks API client and demo server, modelled in Dafny

This project models the decision logic of a small Go program that talks to the
Craft Blocks API, a remote service holding a document as a tree of blocks.

- `client.dfy` (module `Client`, from `client/client.go`) covers the client
  library. It has the data transfer objects: `Block` with its `Width` sum type,
  `Position`, the request records, `SearchMatch` and `UploadLink`. For each of
  the eight operations it gives the request the client sends: HTTP method, path
  under the base URL, query parameters, `Accept` and `Content-Type` headers,
  and body. It also gives the statuses each operation accepts, and how an HTTP
  answer becomes the operation's value or its error.
  The query parameters are a `url.Values`-like map from key to the values added
  under it. `BuildFetchQuery`, `BuildMarkdownQuery` and `BuildSearchQuery` add
  them one at a time, as the Go code does, and are proved equal to declarative
  definitions (`FetchQuery`, `MarkdownQuery`, `SearchQuery`). Lemmas state the
  rules about these definitions.
  Delete and move project the decoded `{id}` items into an array of ids in a
  loop (`ProjectIds`).
- `demo.dfy` (module `DemoServer`, from `main.go`) covers the demo program.
  `CountBlocks` is a recursive method that sums over the children in a loop. It
  is proved to return the number of nodes of the tree, that is the length of
  its pre-order listing `Nodes`. `Truncate` is the string helper.
  `HandleCraftHackathon` is the HTTP handler. It takes the results of its two
  client calls as inputs and returns its reply plus the trace of client calls
  it made.
- `wrappers.dfy` (module `Wrappers`) holds `Option` and `Result`.

Go strings are byte strings. Here they are `seq<char>`, one character standing
for one byte. `strconv.Itoa(n)` is written `Decimal(n)`: a query value that
stands for the decimal text of `n`.

Some details of the Go code that the model keeps as they are:
- `Position` is the Go struct of three strings (`position`, `pageId`, `siblingId`). Nothing checks that only one of `pageId` and `siblingId` is set.
- An `InsertRequest` may carry both blocks and markdown.
- Search sets no `Accept` header.

## Model

| member | source | states |
|---|---|---|
| `Client.BuildFetchQuery` | client/client.go:119-128 | Adding `id`, `maxDepth` and `fetchMetadata` one at a time under their conditions yields exactly the declarative FetchBlocks query |
| `Client.BuildMarkdownQuery` | client/client.go:163-169 | Adding `id` and `maxDepth` one at a time yields exactly the declarative FetchBlocksMarkdown query |
| `Client.BuildSearchQuery` | client/client.go:375-385 | Adding `pattern` unconditionally and the other three under their conditions yields exactly the declarative Search query |
| `Client.FetchQueryRules` | client/client.go:119-128 | `id` is sent iff the id is non-empty; `maxDepth` iff it is not -1 (so -2 is sent); `fetchMetadata` iff the flag is true, and then only as "true". Each has its single value, no other key appears, and the query is empty iff none applies |
| `Client.MarkdownQueryIsFetchWithoutMetadata` | client/client.go:163-169 | The markdown fetch's query equals the JSON fetch's query with the flag false, so it never carries `fetchMetadata` |
| `Client.SearchQueryRules` | client/client.go:375-385 | `pattern` is always sent with the given pattern. `caseSensitive` is sent iff true, as "true". Each block count is sent iff it is > 0, with its value. No other key appears |
| `Client.FetchBlocksRequest` | client/client.go:116-138 | GET `base + "/blocks"` with Accept `application/json`. There is no `?` exactly when id is empty, maxDepth is -1 and the flag is false. Otherwise the query is the FetchBlocks query |
| `Client.FetchBlocksMarkdownRequest` | client/client.go:160-179 | GET `base + "/blocks"` with Accept `text/markdown`. There is no `?` exactly when id is empty and maxDepth is -1. The query never holds `fetchMetadata` |
| `Client.InsertBlocksRequest` | client/client.go:201-213 | POST `base + "/blocks"`, no query, no Accept header, JSON content type, the insert request as body |
| `Client.UpdateBlocksRequest` | client/client.go:240-252 | PUT `base + "/blocks"`, no query, no Accept header, JSON content type, the update request as body |
| `Client.DeleteBlocksRequest` | client/client.go:279-292 | DELETE `base + "/blocks"`, no query, no Accept header, JSON content type, body `{blockIds}` holding the given ids |
| `Client.MoveBlocksRequest` | client/client.go:326-338 | PUT `base + "/blocks/move"`, no query, no Accept header, JSON content type, the move request as body |
| `Client.SearchRequest` | client/client.go:372-389 | GET `base + "/blocks/search"`, always with a query string: the Search query. No Accept or Content-Type header |
| `Client.GenerateUploadURLRequest` | client/client.go:419-435 | POST `base + "/upload-link"`, no query, no Accept header, JSON content type, body `{fileName, mimeType}` |
| `Client.EndpointIdentifiesOperation` | client/client.go:117-431 | Two operations whose requests share method, path and Accept header are of the same kind, so the eight endpoints are pairwise distinct |
| `Client.AcceptedStatuses` | client/client.go:300-303 | 200 is accepted by every operation. 207 is accepted exactly by delete and move. No other status is ever accepted |
| `Client.Unwrap` | client/client.go:134-156 | Success exactly when an answer arrived with an accepted status and its payload decoded, and then the value is that payload. A failed construction, a failed transport, a rejected status (carrying that status and body) and a decode failure give their distinct errors, checked in that order |
| `Client.StatusErrorIffRejected` | client/client.go:146-149 | The result is the status error for `(s, b)` iff the answer had status `s`, body `b`, and `s` is not accepted |
| `Client.PartialSuccess` | client/client.go:346-349 | A 207 answer with a decoded payload is a success for delete and move, and the status error `(207, body)` for every other operation |
| `Client.ProjectIds` | client/client.go:317-320 | The id array has the length of the decoded items, and position i holds item i's id, so order is kept and nothing is added or dropped |
| `Client.UnwrapIds` | client/client.go:300-322 | For delete and move, fails exactly when unwrapping fails, with the same error. On success it returns the ids of the decoded items, in order and one for one |
| `DemoServer.CountBlocks` | main.go:199-208 | 0 for a nil block. Otherwise the number of nodes of the tree, which is 1 plus the node count of the children's subtrees and so at least 1 |
| `DemoServer.ChildSubtreeCounted` | main.go:203-206 | A block's pre-order node listing starts with the block itself. Child i's whole listing appears in it as one contiguous run, right after the block and the listings of children 0..i-1, so each child's subtree is counted in full |
| `DemoServer.Truncate` | main.go:211-216 | The result never exceeds `maxLen`. It equals `s` iff `len(s) <= maxLen`. Otherwise it has length exactly `maxLen`: the first `maxLen - 3` characters of `s`, then "...". A cut requires `maxLen >= 3` |
| `DemoServer.TruncateIdempotent` | main.go:211-216 | Truncating an already truncated string to the same length leaves it unchanged |
| `DemoServer.AppendQuery` | main.go:75-81 | The insert request carries the query as markdown and no blocks, at position "end" of the page with the fetched root's id |
| `DemoServer.HandleCraftHackathon` | main.go:44-106 | A method other than POST gives 405 with no client call. An undecodable body gives 400 with no client call. A failed root fetch gives 500 after the fetch alone, with no insert. A failed insert gives 500. The reply is 200 `{"status":"created","query":…}` echoing the query exactly when both calls succeed. The only calls are the root fetch `("", 0, false)`, then the insert |
| `DemoServer.RootFetchRequest` | main.go:67 | The handler's root fetch goes to `BaseURL + "/blocks"`, and `maxDepth=0` is its only query parameter |

## Left out

- The HTTP exchange itself is left out: `http.NewRequest`, `HTTPClient.Do`, reading and closing bodies, `ListenAndServe`, and writing the reply. What a request returned is an `Exchange` value, or for the handler a `Result`, given as input.
- JSON encoding and decoding are left out. This includes the two-stage `items` envelope decode and the handler's body decode. The model takes the decoded payload (or `None` for a decode failure) as given.
- `Block.width` is Go's `any`. It is a `Pixels`/`Auto` sum type here; what `encoding/json` actually stores in it (a `float64` or a string) is not modelled.
- `url.Values.Encode` is left out: its key sorting and percent-encoding are library behaviour. A URL is a path plus an optional parameter map.
- `strconv.Itoa` is left out; `Decimal(n)` stands for its text.
- Go's fixed-width `int` and `int64` (depth, counts, sizes, `fileSize`) are unbounded integers here. Two places in the modelled logic could overflow in Go. The first is `countBlocks` on trees of more than 2^63 nodes. The second is `truncate`'s `maxLen-3` (main.go:215), which wraps when `maxLen` is within 3 of the smallest `int`. Go still panics there, because the slice end then lies past `len(s)`, and the precondition of `Truncate` already excludes that case.
- Go's error messages are collapsed into four kinds, and the wrapped cause is dropped. Marshalling failures (client/client.go:206, 245, 285, 330, 428) and request-building failures (client/client.go:136, 177, 211, 250, 290, 336, 391, 433) are both `CreatingRequest`. Envelope decode failures, `items` unmarshal failures (client/client.go:233, 272, 314, 360, 412) and markdown body-read failures (client/client.go:194) are all `Decoding`.
- Logging, `time.Now` timestamps and `fmt.Printf` output are left out. So is the error text that `http.Error` writes: the reply carries the status code and a `Reason`.
- A failure of the final `json.NewEncoder(w).Encode` in the handler is left out: it is only logged, after the status line has been written.
- The commented-out `mainOld` explorer (main.go:112-196) is left out.
- `DemoServer.HandleCraftHackathon`: indexing `insertedBlocks[0]` panics on an empty insert result. This is not modelled; a successful insert result is required to be non-empty instead.
- The remote service's behaviour is left out: which ids a 207 omits, what a search matches, and how identifiers are assigned. The client does not check any of it.
- Go's byte-oriented `len` and slicing of UTF-8 strings, which can cut a multi-byte character in `truncate`, are not modelled: one `char` stands for one byte.
