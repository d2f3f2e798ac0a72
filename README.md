# ScreenCast portal negotiation of `main.c`, modelled in Dafny

`main.c` is a small client of the xdg-desktop-portal ScreenCast interface. It:

1. Asks for a session (`CreateSession`).
2. On the session's Response, subscribes to the session's `Closed` signal and selects a monitor source (`SelectSources`).
3. On that Response, starts the cast (`Start`).
4. On the Start Response, takes the first stream's node id and opens the PipeWire remote (`OpenPipeWireRemote`).
5. Hands the fd and node id to `process_pipewire` through `on_portal_done`.

Each request's Response arrives on the object path
`/org/freedesktop/portal/desktop/request/<sender>/<token>`. The sender is the connection's unique name with its leading `:` dropped and every `.` turned into `_`.

The model has these modules:

- `PortalTypes` (types.dfy): `uint32`, `int32`, `Option`, C-string predicates.
- `Decimal` (decimal.dfy): `%d` rendering of an `int32`, with a parser and the round trip `Parse(Render(n)) == n`.
- `ObjectPaths` (object_paths.dfy): `prepare_signal_handle` and `new_session_path`.
  - The sender is sanitised by an in-place loop over a NUL-terminated array (`SanitizedSender`), proved equal to the functional `Sanitize`.
  - The resulting paths are shown to determine the sender and the token.
- `Vardict` (vardict.dfy): the `a{sv}` option dictionaries as ordered `(key, variant)` lists.
  - Includes a first-match `Lookup` and a `VardictBuilder` class for `GVariantBuilder`.
- `SourceSelection` (select_sources.dfy): the option dictionary of `sources_request`.
  - It is specified by `SourcesOptions`.
  - It is built by `BuildSourcesOptions` in the source's order.
- `ScreenCastPortal` (portal_client.dfy): the response chain as the class `PortalClient`.
  - Its fields are the globals of `main.c`: `session_handle_`, `portal_handle`, the signal ids, `start_handle`, `pw_stream_node_id`, `capture_source_type`, `pw_fd`.
  - A `doneCalls` counter counts the runs of `on_portal_done`.
  - There is one method per request function and per signal handler.

Bus traffic is not performed. Every subscription, unsubscription and portal call, and every `process_pipewire` hand-over, is appended to `trace`.

What the bus answers is passed in as method parameters:

- statuses;
- the session handle;
- the stream list;
- subscription ids;
- call errors;
- the fd from `g_unix_fd_list_get`.

The random draws of `g_random_int_range(0, G_MAXINT)` are parameters too.

The ghost field `pending` records which handlers the bus may still invoke. It is the precondition of each handler method.

The invariant `Valid()` holds across every method:

- `doneCalls` equals the number of hand-overs in `trace`.
- Every portal call that has a Response was immediately preceded by a subscription of its handler, on the request path of the call's own `handle_token`.
- The `Closed` subscription is made at most once, and dropped only by `on_session_closed_signal`.

The model keeps these behaviours of the code as written:

- A failed CreateSession response (nonzero status or no `session_handle`) returns without the done hook (main.c:270-275). The error notification there, `OnPortalDone(RequestResponse::kError)`, is commented out (main.c:273).
- A failed Start response (nonzero status or no results) calls the done hook but does not return (main.c:190-193). The handler goes on to the stream walk and `open_pipewire_remote`, so the hook can run twice in one handler.
- An fd of -1 from `OpenPipeWireRemote` returns without the done hook (main.c:162-166).
- A failed or superseded request never unsubscribes its Response subscription. Only the `Closed` subscription is ever dropped.
- The SelectSources and Start handle tokens share the format `pythonMss%d`. `RequestPathsOfDraws` shows that their Response paths coincide exactly when the two draws are equal. Since the SelectSources subscription is never dropped, the Start Response would then also reach the SelectSources handler; the model does not follow that second delivery (see "Left out").

## Model

| member | source | states |
|---|---|---|
| ObjectPaths.ReplaceDots | main.c:46-52 | the result has the input's length, contains no '.', and has '_' wherever the input had '.' and the input's character everywhere else |
| ObjectPaths.Sanitize | main.c:44-52 | the sender drops exactly the first character of the unique name, has length one less, contains no '.', and maps each later character to '_' if it was '.' and to itself otherwise |
| ObjectPaths.SanitizedSender | main.c:44-52 | the in-place loop over the copied NUL-terminated name, which stops at the NUL and replaces each '.', yields exactly `Sanitize` of the unique name |
| ObjectPaths.PrepareSignalHandle | main.c:40-56 | the handle is the request base, "/", the sanitised sender, "/" and the token, concatenated |
| ObjectPaths.RequestPathDeterminesParts | main.c:53-55 | for names without '/', two request paths are equal if and only if the sanitised senders are equal and the tokens are equal |
| ObjectPaths.RequestPathShape | main.c:53-54 | a request path starts with the request base and '/', ends with '/' and the token, and is one character shorter than base, '/', unique name, '/' and token (the ':' is dropped) |
| ObjectPaths.SessionPath | main.c:231-234 | `new_session_path` yields the session base, then '/', then a component that starts with '-' exactly when the token is negative |
| ObjectPaths.SessionPathParses | main.c:230-234 | a session path is the session base, then "/", then a tail that parses back to the token |
| ObjectPaths.SessionPathInjective | main.c:230-234 | distinct tokens give distinct session paths |
| Decimal.NatDigits | main.c:233 | the decimal digits of a natural are non-empty, all digits, and have no leading zero |
| Decimal.Render | main.c:233 | `%d` of an `int32` is non-empty, NUL-free, starts with '-' exactly for negatives, and is all digits otherwise |
| Decimal.DigitsValueOfNatDigits | main.c:233 | reading the digits of n back gives n |
| Decimal.ParseRender | main.c:233 | parsing the `%d` rendering of any `int32` gives that number back |
| Decimal.RenderInjective | main.c:233 | distinct numbers render differently |
| Decimal.PrefixedRenderInjective | main.c:89 | a fixed prefix followed by `%d` still determines the number |
| Vardict.Lookup | main.c:343-389 | reading an option dictionary as the portal does: a value is found exactly when the key is present, and it is the value of the first entry with that key |
| Vardict.NamesDistinct | main.c:292-297 | distinct option keys have distinct spellings on the bus |
| Vardict.LookupUnique | main.c:343-389 | with unique keys, looking up an entry's key yields that entry's value |
| Vardict.VardictBuilder.Add | main.c:343-348 | `g_variant_builder_add` appends the entry and keeps the earlier ones in order |
| SourceSelection.CursorModeAdvertised | main.c:350-365 | the cursor mode is requested exactly when `AvailableCursorModes` is cached and `modes & 4 != 0`; the arithmetic bit test the model computes with is proved equal to the bitwise `and` |
| SourceSelection.SourcesOptions | main.c:341-389 | the options hold `types`=1 first and `multiple`=false second, end with `handle_token`=token, have unique keys, and have 3 entries plus one per optional key that is present |
| SourceSelection.SourcesOptionsLookups | main.c:350-386 | `cursor_mode`=4 is present exactly when `AvailableCursorModes` is cached and has bit 4, `persist_mode`=0 is present exactly when `version` is cached and at least 4, and `restore_token` is never present |
| SourceSelection.BuildSourcesOptions | main.c:341-389 | the builder calls of `sources_request`, in order, produce exactly `SourcesOptions` |
| ScreenCastPortal.TokensParse | main.c:290-296 | "pythonMss_session%d", "pythonMss_%d" and (as at main.c:89 and main.c:387) "pythonMss%d" are NUL-free, start with their fixed prefix, and the text after the prefix reads back as the draw |
| ScreenCastPortal.CreateSessionOptions | main.c:289-298 | the CreateSession options have unique keys, `session_handle_token` = "pythonMss_session%d" of the first draw, and `handle_token` = "pythonMss_%d" of the second |
| ScreenCastPortal.StartOptions | main.c:86-91 | the Start options have unique keys and carry the given `handle_token` |
| ScreenCastPortal.BuildCreateSessionOptions | main.c:289-298 | the builder calls of `setup_session_request_handlers` produce exactly `CreateSessionOptions` |
| ScreenCastPortal.BuildStartOptions | main.c:86-91 | the builder calls of `start_request` produce exactly `StartOptions` |
| ScreenCastPortal.RequestPathsOfDraws | main.c:387-391 | the CreateSession Response path never equals a SelectSources or Start Response path, and the latter two coincide exactly when their draws are equal |
| ScreenCastPortal.Snoc | main.c:61-70 | appending one action adds to each tally exactly when the action is of that kind, and keeps "every call that has a Response was announced by a subscription on its request path" when the new action is itself announced |
| ScreenCastPortal.AppendAction | main.c:73-76 | appending a hand-over, an unsubscription, a plain subscription or a call without a Response keeps the trace invariant, and counts the hand-over |
| ScreenCastPortal.AppendRequest | main.c:61-70 | subscribing on the request path of a call's `handle_token` and then issuing the call keeps the trace invariant and leaves the subscription tallies unchanged |
| ScreenCastPortal.FirstStream | main.c:203-218 | the loop, which breaks after its first iteration, finds a stream exactly when the list is non-empty, and the stream it finds is the first one |
| ScreenCastPortal.PortalClient.constructor | main.c:25-36 | the globals start as in the source: `session_handle_` = "", empty handles, zero ids, node, type and fd, no calls to the done hook, an empty trace |
| ScreenCastPortal.PortalClient.IssueRequest | main.c:61-70 | a request subscribes to its Response on the path of its own `handle_token`, then issues the call, keeping the trace invariant |
| ScreenCastPortal.PortalClient.PortalDone | main.c:73-76 | `on_portal_done` hands the current `pw_fd` and `pw_stream_node_id` to `process_pipewire` once, and changes nothing else |
| ScreenCastPortal.PortalClient.RequestSession | main.c:284-311 | `portal_handle` is the request path of the "pythonMss_%d" token. The trace is a subscription of the session handler on it, then CreateSession with both tokens. Only the session Response is awaited |
| ScreenCastPortal.PortalClient.OnSessionResponse | main.c:250-282 | the handle is stored. On a nonzero status or missing handle nothing is subscribed or issued and nothing is awaited. Otherwise `Closed` is subscribed on the session handle with its id stored, then SelectSources is requested on its own Response path |
| ScreenCastPortal.PortalClient.SubscribeSessionClosed | main.c:277-280 | the `Closed` subscription is on the session handle and its id is stored |
| ScreenCastPortal.PortalClient.RequestSources | main.c:387-402 | the subscription is on the request path of "pythonMss%d" and SelectSources carries exactly `SourcesOptions` of the cached properties. Its id is stored. The SelectSources Response becomes awaited |
| ScreenCastPortal.PortalClient.OnSourcesResponse | main.c:113-131 | a nonzero status runs the done hook exactly once and issues no Start. Status 0 issues Start on its own Response path, plus a hand-over when that call fails |
| ScreenCastPortal.PortalClient.StartRequest | main.c:81-111 | `start_handle` is the request path of the token. Start carries the session handle, an empty parent window and the token. A failing call adds one hand-over |
| ScreenCastPortal.PortalClient.OnStartResponse | main.c:175-228 | a failed Start runs the done hook and still continues. A non-empty stream list sets the node id to the first stream's id. The source type changes only if that stream has one. Then OpenPipeWireRemote is issued and `pw_fd` is the fd |
| ScreenCastPortal.PortalClient.OpenPipeWireRemoteFd | main.c:140-169 | OpenPipeWireRemote is issued with empty options. `pw_fd` becomes the fd. The done hook runs once with that fd and the current node id exactly when the fd is not -1 |
| ScreenCastPortal.PortalClient.OnSessionClosed | main.c:319-333 | the only unsubscription ever made drops exactly the stored `session_closed_signal_id_`, and the `Closed` handler is no longer awaited |

`ScreenCastPortal.SessionFailed` (main.c:270), `ScreenCastPortal.StartFailed` (main.c:190), `ScreenCastPortal.StreamList` (main.c:198) and `SourceSelection.PersistSupported` (main.c:369-374) are the branch conditions of those lines, each defined in one line. The contracts of `OnSessionResponse`, `OnStartResponse` and `SourcesOptionsLookups` state what the branches do.

## Left out

- `wire.c`, the PipeWire context and loop plumbing: its callbacks are empty, and its format negotiation exists only as commented-out code.
- GDBus machinery: the connection and proxy creation, and `main`'s `g_main_loop_run`, are out of the model.
  - Subscriptions and calls are recorded in `trace`, not performed.
  - Subscription ids, call errors and the fd are parameters.
  - Which handler may run next is the ghost `pending` flag set, standing for the bus's delivery of one Response per request.
- The random draws of `g_random_int_range(0, G_MAXINT)` are parameters constrained to `0 <= r < G_MAXINT`. The token strings are formatted from them exactly as the source does.
- The `restore_token` lookup (main.c:221-225): the "s" format needs a `gchar **`, but `restore_token_` (a `gchar *` pointing at the literal "") is passed, so a token that is found would be written through a pointer into that literal. This has no defined behaviour.
- The `session_handle_ == ""` test (main.c:270) compares pointers and never matches a freshly duplicated string. The model's failure test is "status nonzero or handle missing".
- The Start handler reading a missing results dictionary (a NULL `response_data`): the model gives it an empty stream list.
- The reply variant of a failed `OpenPipeWireRemote` call: the `fd` parameter stands for whatever `g_unix_fd_list_get` yields, -1 included.
- `printf` logging, the empty `cleanup` and `StartScreenCastStream`, and the SDL include.
- `exit(-1)` when CreateSession fails (main.c:312-316): the model records the call and leaves the process running.
- ScreenCastPortal.PortalClient.RequestSources: the `return -1` of a failed SelectSources call (main.c:403-406) changes nothing the model observes, so a call error is not a parameter there.
- `session_request_signal_id` and `session_closed_signal_id_` are C `int`, while GDBus returns `guint`. The model keeps them as `uint32`, which is what the stored value means.
- ScreenCastPortal.PortalClient.OnSourcesResponse: a second delivery to the SelectSources handler is excluded (its `requires pending.sources` is cleared after the first). In the source the SelectSources subscription (main.c:392-394) is never dropped, so when the Start draw equals the SelectSources draw the Start Response arrives on the same path and also runs this handler, which then issues Start again (status 0) or runs the done hook (nonzero status). The model does not follow that branch.
- ScreenCastPortal.PortalClient.OnStartResponse: the `g_autoptr` locals `iter` (main.c:186) and `variant` (main.c:201) are not initialised, so with a missing or empty `streams` array they are freed without having been assigned, which has no defined behaviour. The model assumes the handler survives that and goes on to `open_pipewire_remote`.
- ScreenCastPortal.PortalClient.RequestSession: `g_autoptr(GError) error` (main.c:307) is not initialised, while `g_dbus_proxy_call_sync` expects `*error == NULL`. The model assumes the CreateSession call is issued normally.
