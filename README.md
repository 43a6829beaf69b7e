# MultiFastMCP: aggregating MCP proxy

`MultiFastMCP` (src/proxy_server.py) is an MCP server that stands in front
of several upstream MCP servers. Each upstream server is reached through its
own proxy, called a *peer* here. The server offers one merged view of the
peers' tools, resources, resource templates and prompts. It routes each tool
call, resource read and prompt render to the single peer that owns the name
or URI.

This Dafny project models that class.

- **Catalogs.** Each kind of catalog has a pair of fields. One maps a key to
  its owning peer. The other maps a key to its aggregated descriptor. Both
  start unset, and each pair is built at most once, on first use.
- **Building.** A build fetches the catalog from every peer concurrently. It
  then folds the results in configured peer order.
  - A peer whose fetch failed contributes nothing.
  - When two peers list the same key, the later peer overwrites the earlier
    one, both as owner and as descriptor.
  - The resource build reads `.exceptions` on every failed result. A plain
    exception, one that is not an exception group, therefore raises
    `AttributeError`. The resource map then stays unset.
  - The resource build also builds the template map. It does so only on the
    path where the resource map was still unset.
- **Dispatch.** A request goes unchanged to the owning peer. A key that no
  peer owns raises `McpError("Unknown tool: …")` or `McpError("Unknown
  prompt: …")`.
- **Resource reads.** An exact static URI match comes first. Otherwise the
  templates are tried in iteration order, and the first match that has an
  owner wins. If nothing matches, the read raises `McpError("Unknown
  resource: …")`.

Modules:

- `Wrappers`: `Option` and `Result`.
- `PyDict`: Python's insertion-ordered `dict`. It pairs an iteration order
  with a map. `Put` appends a new key and leaves an existing key where it is.
- `Catalog`: the fetch results and the shared build loop, `MergeCatalogs`.
  `MergeCatalogs` is proved against the fold `Merge`, and the lemmas about
  `Merge` state precedence, key sets and order.
- `TemplateMatcher`: the template scan `FindTemplate`, which is proved
  against `FirstMatch`.
- `Proxy`: the class `MultiProxy`. It has the eight optional fields, the
  build and get methods, and the three dispatch methods. Alongside it are
  specification functions for a build, and lemmas that relate successive
  builds.

The inputs are modelled as follows.

- **Peer fetches.** Each build method takes the results of one catalog
  fan-out, one entry per peer in peer order. This is what
  `asyncio.gather(..., return_exceptions=True)` returns.
- **Routing.** A dispatch method returns `Delegate(peer, request)` or
  `Raise(error)`. The peer is its index in the configured list. The request
  is exactly what that peer's own handler receives.
- **Template matching.** Whether a template matches a URI is decided by the
  library's `ResourceTemplate.matches`. It is the parameter `matches`.
- **Fetch log.** A ghost log `fanOuts` records every catalog fan-out. It
  makes "a second build fetches nothing" statable.

On name collisions the later peer wins. The loops at
src/proxy_server.py:86-89, 126-129, 155-158 and 201-204 overwrite the
earlier entry. The warning they log ("Using the one from …") names the
later peer. Precedence is decided by the configured order, whatever order
the fetches finish in.

## Model

| member | source | states |
|---|---|---|
| PyDict.Empty | src/proxy_server.py:74-75 | a fresh `{}` is a well-formed dict with no entries |
| PyDict.Put | src/proxy_server.py:88-89 | `d[k] = v` maps `k` to `v` and keeps every other entry. A new key is appended to the iteration order. An existing key keeps its position. Well-formedness is preserved |
| PyDict.FirstOccurrences | src/proxy_server.py:85-89 | the order of keys inserted one after another holds each inserted key exactly once, with no repeats |
| PyDict.FirstOccurrencesInOrder | src/proxy_server.py:85-89 | keys appear in that order in the order of their first insertion |
| PyDict.FirstOccurrencesPrefix | src/proxy_server.py:85-89 | inserting more keys never reorders the keys already present |
| Catalog.Merge | src/proxy_server.py:79-91 | the fold of all listings gives a well-formed descriptor dict. The owner map has the same key set, and that set is exactly the set of listed keys |
| Catalog.MergeCatalogs | src/proxy_server.py:116-133 | the build loop, with `readsSubExceptions` for the resource build. It raises `AttributeError('exceptions')` exactly when the resource build meets a failed fetch that is not an exception group. Otherwise it returns the owner map and descriptor dict of the fold `Merge` over the successful peers' listings, in peer order. The tool, template and prompt loops (79-91, 148-160, 194-206) are the same loop without `readsSubExceptions` |
| Catalog.MergePeer | src/proxy_server.py:84-89 | the loop over one peer's dict: afterwards the maps are the fold of everything before plus that peer's items in their iteration order, each item overwriting the owner and the descriptor of its key |
| Catalog.MergedKeysAreListedKeys | src/proxy_server.py:79-91 | a key is aggregated if and only if some peer's fetch returned a dict listing it. Failed and unexpected results contribute nothing |
| Catalog.MergeOwnerIsLastLister | src/proxy_server.py:84-89 | on a collision the later peer wins. The owner of a key lists it, no later peer lists it, and the key's descriptor is the one that owner gave |
| Catalog.AllFailedYieldsEmpty | src/proxy_server.py:79-83 | when no fetch returned a dict, both maps are empty |
| Catalog.MergeKeyOrder | src/proxy_server.py:85-89 | the iteration order of the aggregated dict is the order of first appearance over the peers in peer order. This holds even though the value comes from the last peer |
| Catalog.MergeKeepsKeyPositions | src/proxy_server.py:85-89 | folding more peers never moves a key that is already aggregated |
| Catalog.LaterPeerWinsExample | src/proxy_server.py:86-89 | when peers A and B both list `greet`, the aggregated `greet` is B's descriptor and is owned by B |
| TemplateMatcher.FirstMatch | src/proxy_server.py:275-285 | gives the first position, in iteration order, whose template matches and has an owner. None means no such position exists |
| TemplateMatcher.FindTemplate | src/proxy_server.py:275-285 | the scan loop with `break` returns the first matching template that has an owner, together with that owner, or nothing. A matching template without an owner is skipped |
| TemplateMatcher.OwnedTemplatesNeverSkipped | src/proxy_server.py:278-285 | when every template has an owner, the "matching template without an owner" branch is never taken. The scan picks the first matching template, and finds none exactly when no template matches |
| Proxy.BuiltIsConsistent | src/proxy_server.py:93-94 | a build sets both fields of the pair together. The key sets are equal and every owner is one of the configured peers |
| Proxy.TemplateRouteAfterBuild | src/proxy_server.py:275-294 | after a template build, a read delegated through the templates goes to the owner of the first matching template in iteration order. Conversely, when the first matching template has a non-empty key, the read is delegated to that template's owner. With no match it raises "Unknown resource" |
| Proxy.BuildOnceIsIdempotent | src/proxy_server.py:69-71 | a completed build leaves the map set, and any later build returns without changing it |
| Proxy.ResourceBuildIsIdempotent | src/proxy_server.py:106-108 | after a resource build that raised nothing, every later resource build returns at once. It changes nothing and fetches nothing |
| Proxy.PlainExceptionBuildsNothing | src/proxy_server.py:119-122 | a plain exception from a peer makes the resource build raise `AttributeError('exceptions')` after the resource fan-out. Neither map is set and templates are not fetched |
| Proxy.TemplateMapErrorReachable | src/proxy_server.py:258-263 | with the resource map set and the template map unset, the rebuild returns at line 108 and fetches nothing. A non-static read then raises "Resource template map could not be built." |
| Proxy.MultiProxy.constructor | src/proxy_server.py:35-65 | any peer list is accepted, including an empty one. The name defaults to "MultiFastMCP". All eight maps and caches start unset, and nothing has been fetched |
| Proxy.MultiProxy.BuildToolMap | src/proxy_server.py:67-95 | if the tool map is set, nothing changes and nothing is fetched. Otherwise one fan-out happens and both tool fields become the merge of the fetched catalogs. The class invariant holds |
| Proxy.MultiProxy.GetTools | src/proxy_server.py:97-102 | builds at most once and returns the aggregated tool dict, which is the cached one |
| Proxy.MultiProxy.BuildResourceMap | src/proxy_server.py:104-164 | the resource build. If the resource map is set, it does nothing, templates included. On a plain exception it raises `AttributeError` with nothing set. Otherwise it sets the resources, then sets the templates unless they are already set. Each fan-out is logged |
| Proxy.MultiProxy.BuildTemplateMap | src/proxy_server.py:137-164 | the template block, reached only once the resource map is set (as the class invariant requires, the template map is never set before the resource map): when the template map is set, it does nothing, fetches nothing and returns. Otherwise it runs one template fan-out and sets both template fields to the merge |
| Proxy.MultiProxy.GetResources | src/proxy_server.py:167-171 | builds when unset, propagates the build's `AttributeError`, and otherwise returns the cached resource dict |
| Proxy.MultiProxy.GetResourceTemplates | src/proxy_server.py:173-178 | when the template map is set, it changes nothing and returns the cache. Otherwise it runs the resource build and returns the templates. It returns `{}` when the build left the template map unset |
| Proxy.MultiProxy.BuildPromptMap | src/proxy_server.py:181-210 | if the prompt map is set, nothing changes and nothing is fetched. Otherwise one fan-out happens and both prompt fields become the merge |
| Proxy.MultiProxy.GetPrompts | src/proxy_server.py:212-216 | builds at most once and returns the cached prompt dict |
| Proxy.MultiProxy.CallTool | src/proxy_server.py:220-239 | after at most one build, the tool map is set, so "Tool map could not be built." is never raised. The call goes unchanged to the tool's owner, or raises "Unknown tool: key" |
| Proxy.MultiProxy.ReadResource | src/proxy_server.py:241-294 | propagates the build's `AttributeError`. Otherwise a static match goes to its owner with the URI unchanged. If the template map is unset, the read raises "Resource template map could not be built.". Otherwise the first matching owned template's owner receives the read, or "Unknown resource: uri" is raised |
| Proxy.MultiProxy.GetPrompt | src/proxy_server.py:297-314 | after at most one build, the prompt map is set. The render, with its optional arguments, goes unchanged to the prompt's owner, or raises "Unknown prompt: name" |

## Left out

- The asyncio locks and the concurrency of callers are not modelled. Each method runs to completion before the next one starts. The state with the resource map set and the template map unset comes only from an interleaving or a cancelled template fan-out. The model admits that state and proves how the class behaves in it, but it does not model the interleaving.
- `asyncio.gather` and the peers' network calls are not modelled. Their outcome is the input sequence of per-peer results.
- What a delegated call returns or raises upstream is not modelled. It passes through the proxy untouched, so the model stops at `Delegate`.
- `ResourceTemplate.matches` is the library's URI-template matcher. It is a parameter of the model.
- `str(uri)` is not modelled. URIs are strings from the start.
- Logging, including the conflict warnings and the per-peer error lines, has no effect on state and is left out.
- Peer names and client base URLs appear only in log lines and are left out.
- The truthiness of a peer object (`if target_proxy:`) is taken as always true, because a peer is a plain object.
- The final test of a resource read (line 288) also checks the truthiness of the matching template's key. A matching template keyed by the empty string therefore reads as "Unknown resource". The model keeps this as written in `TemplateRoute`.
- `create_proxy_server`, `run_proxy_server`, `all_from_real_server`, the proxy client and the demo servers are not part of this model.
