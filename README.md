# kube-rs typed API handle and the `auto_default!` macro, in Dafny

This project models two pieces of the kube-rs client library and proves their properties.

**The `auto_default!` procedural macro** (`auto-default/src/lib.rs`) rewrites a Rust expression. It looks at every struct literal it can reach through struct field values and call arguments:

- a struct literal with no `..base` gets `..Default::default()`;
- a struct literal whose base is the placeholder `..__` loses its base;
- any other base is kept as written.

Three modules cover it:

- `Syntax` is the abstract syntax tree. It has struct literals, calls, path expressions, and `Other` for every other expression kind.
- `AutoDefault` defines the rewrite as the pure function `AddDefaultBases` and proves what it does.
- `ExprTree` is the syntax tree as a mutable heap structure. Each node owns its children, which are the field values or arguments, and siblings have disjoint footprints, as with Rust's `Box`. The in-place method `Node.AddDefaultBases` is proved to turn the tree into exactly what the pure function computes. The macro itself is `AutoDefaultMacro`: parse, rewrite in place, re-emit.

**The typed handle `Api<K>`** (`src/api/typed.rs`) binds a resource type `K` to two collaborators:

- a request builder (`RawApi`), given to every operation as `RequestBuilder`, a record of arbitrary functions that may fail;
- a client (`APIClient`), a class that logs each request it sends. Its answer is an arbitrary function of the earlier requests and the current one.

With these, the model states the order in which failures are checked in each operation, and when nothing is sent. `SerializeKubeObject` models the two implementations of the payload trait. The module `WatchStream` models the post-processing of a watch stream: every item the client reports as an error is dropped, and the other items are kept in arrival order. The module `KubeTypes` holds the values that pass between these parts.

Three points about the code that the model follows:

- Scoping (`within`, `group`, `version`) takes the handle by value, overwrites its `api` field and returns it. The model uses a class method that changes `api` and returns the same object.
- A delete result is resolved to "object or status" entirely inside `APIClient::request_status`, which is not part of this model. `typed.rs` returns the client's answer unchanged, and so does the model.
- Splitting a byte stream into watch frames and decoding them also happens inside the client. `typed.rs` drops every item the client reports as an error, whatever the cause (a frame that failed to decode, for example). An `ERROR` event that the server sent arrives as an `Ok` item like any other event and is kept.

## Model

| member | source | states |
|---|---|---|
| `AutoDefault.StructLiteralRewrite` | auto-default/src/lib.rs:10-22 | a struct literal keeps its path and its field names in order, and each field value is rewritten; a missing base becomes `Default::default()`, a `__` base is removed, and any other base is kept |
| `AutoDefault.CallRewrite` | auto-default/src/lib.rs:24-28 | a call keeps its callee untouched and keeps its argument count; each argument is rewritten |
| `AutoDefault.OtherUntouched` | auto-default/src/lib.rs:29 | every expression that is neither a struct literal nor a call is returned unchanged, including everything nested in it |
| `AutoDefault.BaseNotRewritten` | auto-default/src/lib.rs:16 | a kept base is not itself rewritten: a base-less struct literal used as a base stays base-less, although rewriting it alone would add a base |
| `AutoDefault.RewriteAt` | auto-default/src/lib.rs:8-31 | the positions reachable through fields and arguments are the same before and after the rewrite, and what is found at each position is the rewrite of what was there |
| `AutoDefault.ReachableStructBase` | auto-default/src/lib.rs:8-31 | every reachable struct literal has a base after the rewrite if and only if its base was not `__`; a missing base becomes `Default::default()`, and any other base is kept |
| `AutoDefault.SkeletonPreserved` | auto-default/src/lib.rs:8-31 | erasing the bases of reachable struct literals gives the same tree before and after the rewrite, so only those bases change |
| `AutoDefault.RewriteCharacterised` | auto-default/src/lib.rs:8-31 | any tree that has the input's skeleton and carries the rewritten base at every reachable struct literal is the rewrite of the input |
| `AutoDefault.RewriteMeetsCharacterisation` | auto-default/src/lib.rs:8-31 | the rewrite has the input's skeleton and carries the rewritten base at every reachable struct literal |
| `AutoDefault.RewriteRemovesPlaceholders` | auto-default/src/lib.rs:11-19 | after the rewrite, no reachable struct literal has the base `__` |
| `AutoDefault.IdempotentWithoutPlaceholders` | auto-default/src/lib.rs:8-31 | on a tree with no reachable `__` base, rewriting twice gives the same tree as rewriting once |
| `AutoDefault.SecondPassIsFixpoint` | auto-default/src/lib.rs:8-31 | a third rewrite changes nothing after the second |
| `AutoDefault.NotIdempotent` | auto-default/src/lib.rs:12-15 | the rewrite is not idempotent: `S { ..__ }` becomes `S {}`, which a second pass turns into `S { ..Default::default() }` |
| `AutoDefault.AddDefaultBases` | auto-default/src/lib.rs:8-31 | defines the rewrite as a function: a struct literal or call stays a struct literal or call, and every other expression is returned as it is; the lemmas above state the rest |
| `AutoDefault.NewRest` | auto-default/src/lib.rs:11-19 | the new base is absent exactly when the old one was `__`; a missing base becomes `Default::default()`, and any other kept base is the old one |
| `Syntax.IsPlaceholder` | auto-default/src/lib.rs:15 | a base is the placeholder exactly when it is a path expression whose path is the single plain identifier `__`, with or without a qualifier |
| `Syntax.DefaultCall` | auto-default/src/lib.rs:12 | the inserted base `Default::default()` is a call with no arguments and is never the placeholder |
| `ExprTree.Node.AddDefaultBases` | auto-default/src/lib.rs:8-31 | rewriting the tree in place keeps the tree valid and its footprint the same, and leaves it holding exactly `AutoDefault.AddDefaultBases` of what it held before |
| `ExprTree.Node.RewriteKids` | auto-default/src/lib.rs:20-27 | the loop over the field values or arguments rewrites each child in place, the children stay valid with disjoint footprints, and every child keeps its own footprint |
| `ExprTree.Node.Build` | auto-default/src/lib.rs:35 | the parsed expression becomes a valid, freshly allocated tree that holds exactly that expression |
| `ExprTree.Node.ToExpr` | auto-default/src/lib.rs:37 | reading the tree back gives exactly the expression it holds |
| `ExprTree.AutoDefaultMacro` | auto-default/src/lib.rs:33-38 | a parse failure becomes a compile error carrying the parser's message; otherwise the output is exactly the rewrite of the parsed expression |
| `TypedApi.SerializeKubeObject` | src/api/typed.rs:26-35 | raw bytes serialise to themselves, without error; a typed object serialises to exactly the encoder's output, and an encoder error is returned wrapped as `SerdeError` |
| `TypedApi.Api.CustomResource` | src/api/typed.rs:140-146 | the new handle's `api` is the builder's custom-resource value for the given name, and its client is the given client |
| `TypedApi.Api.Within` | src/api/typed.rs:61-64 | only `api` changes, to the builder's namespaced value; the client is a `const` and so stays the same, and the same handle is returned |
| `TypedApi.Api.Group` | src/api/typed.rs:66-69 | only `api` changes, to the builder's value for the given group; the client is a `const` and so stays the same, and the same handle is returned |
| `TypedApi.Api.Version` | src/api/typed.rs:71-74 | only `api` changes, to the builder's value for the given version; the client is a `const` and so stays the same, and the same handle is returned |
| `TypedApi.Api.Get` | src/api/typed.rs:82-85 | a build error is returned and no request is sent; otherwise exactly one request is sent and the client's `request` answer is returned unchanged |
| `TypedApi.Api.Create` | src/api/typed.rs:87-90 | a serialisation error is returned before anything is built or sent; next, a build error is returned and nothing is sent; otherwise one request is sent and the client's answer is returned |
| `TypedApi.Api.Delete` | src/api/typed.rs:92-95 | a build error is returned and nothing is sent; otherwise one `request_status` call is made and its object-or-status answer is returned unchanged |
| `TypedApi.Api.List` | src/api/typed.rs:97-100 | a build error is returned and nothing is sent; otherwise one request is sent and the client's list is returned unchanged |
| `TypedApi.Api.DeleteCollection` | src/api/typed.rs:102-105 | a build error is returned and nothing is sent; otherwise one `request_status` call is made and its list-or-status answer is returned unchanged |
| `TypedApi.Api.Patch` | src/api/typed.rs:109-112 | the caller's bytes reach the builder unserialised; a build error is returned and nothing is sent; otherwise the client's answer is returned |
| `TypedApi.Api.Replace` | src/api/typed.rs:114-122 | serialise, build, then send, stopping at the first error; nothing is sent after a serialisation or build error |
| `TypedApi.Api.Watch` | src/api/typed.rs:124-130 | a build or connection error is returned instead of a stream; otherwise the stream is exactly the decoded events of the client's stream |
| `TypedApi.WatchDropsErrItemsKeepsErrorEvents` | src/api/typed.rs:129 | from the items ADDED, an arbitrary `Err`, MODIFIED and ERROR, the watch keeps ADDED, MODIFIED and ERROR in that order and drops the `Err` item |
| `WatchStream.OkEvents` | src/api/typed.rs:129 | defines the filter `filter_map` with `e.ok()` on a finite stream: the `Ok` values in arrival order, never more events than items (its full description is `OkEventsPositions`) |
| `WatchStream.OkEventsAppend` | src/api/typed.rs:129 | filtering a stream piece by piece gives the same events as filtering it whole |
| `WatchStream.OkEventsPositions` | src/api/typed.rs:129 | the events are the decoded items taken at strictly increasing positions, and every decoded item is taken |
| `WatchStream.OkEventsMembership` | src/api/typed.rs:129 | an event is produced if and only if it arrived as a decoded item |
| `WatchStream.AllDecoded` | src/api/typed.rs:129 | a stream in which every frame decoded is passed on whole, in order |
| `WatchStream.NoneDecoded` | src/api/typed.rs:129 | a stream in which no frame decoded yields no event and no error |

## Left out

- Token streams, `syn` parsing and `quote` re-emission are foreign library calls. `Node.Build` and `Node.ToExpr` stand in for them, and a parse failure is an input value.
- The syntax tree has only the node kinds the rewrite distinguishes. Attributes, punctuation, spans and the inner structure of other expression kinds are not modelled.
- `rest.clone()` allocates a copy of a kept base. Bases are immutable values here, so that copy cannot be observed.
- In the heap tree, only struct field values and call arguments are nodes. Callees, bases and other expression kinds are immutable values, because the rewrite never writes to them.
- `RawApi` request construction is not part of this model. Its operations are arbitrary functions passed to each operation as `builder`.
- `APIClient` transport, HTTP status handling and JSON decoding are not part of this model. Their results are arbitrary functions (`Server`) of the requests sent so far.
- The object-or-status decision of `request_status` lives in the client, so it is not modelled.
- `serde_json::to_vec` is an arbitrary encoder `toVec` that may fail.
- Async execution and the lazy `Stream` are not modelled. A watch stream is a finite sequence, so backpressure, dropping the stream to release the connection, and a stream that never ends are not captured.
- "Scoping is last-write-wins" cannot be proved. It depends on `RawApi::within`, which is not shown.
- "Create then get returns the created object" cannot be proved, because it depends on server behaviour.
- "No duplicate replay after list-then-watch" cannot be proved, because it also depends on server behaviour.
- `APIClient` takes the resource type `K` as a class type parameter, so one client value serves handles of one kind. In the source, `request::<K>` and `request::<ObjectList<K>>` are generic per call, and one client serves handles of every kind. No proved property depends on this.
- The crate's error type is one `Error` datatype. Only the `SerdeError` wrapping of a JSON encoding error is given a specific form, because that is the only conversion visible in `typed.rs`.
- `PhantomData`, the `#[deprecated]` attribute on `patch`, and `Clone` derivation are type-level only.
