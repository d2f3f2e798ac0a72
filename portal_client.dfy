/**
 * The ScreenCast portal negotiation of main.c as a state machine.
 *
 * The process-wide globals of main.c become the fields of a `PortalClient`,
 * and each signal handler becomes a method that the bus invokes when the
 * matching signal arrives.  Calls to the bus are not performed: each
 * subscription, unsubscription and method call the client issues is appended
 * to `trace`, and so is every hand-over to the PipeWire side
 * (`on_portal_done` calling `process_pipewire(pw_fd, pw_stream_node_id)`).
 * What the bus answers (statuses, the session handle, the stream list,
 * subscription ids, call errors, the file descriptor) and the random draws
 * behind the tokens are method parameters.
 */
module ScreenCastPortal {
  import opened PortalTypes
  import opened Vardict
  import Decimal
  import ObjectPaths
  import SourceSelection

  const TokenPrefix: string := "pythonMss"

  /** A draw of `g_random_int_range(0, G_MAXINT)`. */
  predicate Drawn(r: int32) {
    0 <= r as int < GMaxInt
  }

  /** "pythonMss_session%d": the `session_handle_token` of CreateSession. */
  function SessionHandleTokenText(r: int32): string {
    TokenPrefix + "_session" + Decimal.Render(r)
  }

  /** "pythonMss_%d": the `handle_token` of CreateSession. */
  function SessionRequestToken(r: int32): string {
    TokenPrefix + "_" + Decimal.Render(r)
  }

  /** "pythonMss%d": the `handle_token` of SelectSources and of Start. */
  function PortalRequestToken(r: int32): string {
    TokenPrefix + Decimal.Render(r)
  }

  /**
   * The Response paths the client subscribes to: the CreateSession path never
   * equals a SelectSources or Start path (the '_' after the prefix is not a
   * digit), and two SelectSources/Start paths coincide exactly when their
   * draws do.
   */
  lemma RequestPathsOfDraws(uniqueName: string, a: int32, b: int32)
    requires |uniqueName| >= 1 && Free(uniqueName, '/') && Drawn(a) && Drawn(b)
    ensures ObjectPaths.RequestPath(uniqueName, SessionRequestToken(a))
              != ObjectPaths.RequestPath(uniqueName, PortalRequestToken(b))
    ensures (ObjectPaths.RequestPath(uniqueName, PortalRequestToken(a))
               == ObjectPaths.RequestPath(uniqueName, PortalRequestToken(b))) <==> a == b
  {
    ObjectPaths.RequestPathDeterminesParts(uniqueName, SessionRequestToken(a), uniqueName, PortalRequestToken(b));
    ObjectPaths.RequestPathDeterminesParts(uniqueName, PortalRequestToken(a), uniqueName, PortalRequestToken(b));
    var n := |TokenPrefix|;
    assert SessionRequestToken(a)[n] == '_';
    assert PortalRequestToken(b)[n] == Decimal.Render(b)[0];
    assert Decimal.IsDigit(Decimal.Render(b)[0]);
    Decimal.PrefixedRenderInjective(TokenPrefix, a, b);
  }

  /**
   * Each token is its fixed prefix followed by `%d` of the draw: NUL-free, and
   * the text after the prefix reads back as the draw.
   */
  lemma TokensParse(r: int32)
    ensures var t, k := SessionHandleTokenText(r), |TokenPrefix + "_session"|;
            CString(t) && |t| > k && t[..k] == TokenPrefix + "_session" && Decimal.Parse(t[k..]) == Some(r as int)
    ensures var t, k := SessionRequestToken(r), |TokenPrefix| + 1;
            CString(t) && |t| > k && t[..k] == TokenPrefix + "_" && Decimal.Parse(t[k..]) == Some(r as int)
    ensures var t, k := PortalRequestToken(r), |TokenPrefix|;
            CString(t) && |t| > k && t[..k] == TokenPrefix && Decimal.Parse(t[k..]) == Some(r as int)
  {
    Decimal.ParseRender(r);
    assert SessionHandleTokenText(r)[|TokenPrefix + "_session"|..] == Decimal.Render(r);
    assert SessionRequestToken(r)[|TokenPrefix| + 1..] == Decimal.Render(r);
    assert PortalRequestToken(r)[|TokenPrefix|..] == Decimal.Render(r);
  }

  /** The CreateSession options: the session's token, then the request's `handle_token`. */
  function CreateSessionOptions(sessionDraw: int32, requestDraw: int32): (opts: seq<Entry>)
    ensures UniqueKeys(opts)
    ensures Lookup(opts, Key.SessionHandleToken) == Some(Str(SessionHandleTokenText(sessionDraw)))
    ensures RequestToken(opts) == Some(SessionRequestToken(requestDraw))
  {
    var opts := [Entry(Key.SessionHandleToken, Str(SessionHandleTokenText(sessionDraw))),
                 Entry(Key.HandleToken, Str(SessionRequestToken(requestDraw)))];
    LookupUnique(opts, 0);
    LookupUnique(opts, 1);
    opts
  }

  /** The Start options: only the request's `handle_token`. */
  function StartOptions(token: string): (opts: seq<Entry>)
    ensures UniqueKeys(opts) && RequestToken(opts) == Some(token)
  {
    [Entry(Key.HandleToken, Str(token))]
  }

  /** The CreateSession options as `setup_session_request_handlers` adds them. */
  method BuildCreateSessionOptions(sessionDraw: int32, requestDraw: int32) returns (options: seq<Entry>)
    ensures options == CreateSessionOptions(sessionDraw, requestDraw)
  {
    var builder := new VardictBuilder();
    builder.Add(Key.SessionHandleToken, Str(SessionHandleTokenText(sessionDraw)));
    builder.Add(Key.HandleToken, Str(SessionRequestToken(requestDraw)));
    options := builder.entries;
  }

  /** The Start options as `start_request` adds them. */
  method BuildStartOptions(token: string) returns (options: seq<Entry>)
    ensures options == StartOptions(token)
  {
    var builder := new VardictBuilder();
    builder.Add(Key.HandleToken, Str(token));
    options := builder.entries;
  }

  /** The signal handlers main.c registers. */
  datatype Handler =
    | SessionResponse   // request_session_response_signale_handler
    | SourcesResponse   // sources_request_response_signal_handler
    | StartResponse     // start_request_response_signal_handler
    | SessionClosed     // on_session_closed_signal

  /** The ScreenCast methods, with their arguments. */
  datatype PortalCall =
    | CreateSession(options: seq<Entry>)
    | SelectSources(session: string, options: seq<Entry>)
    | Start(session: string, parentWindow: string, options: seq<Entry>)
    | OpenPipeWireRemote(session: string, options: seq<Entry>)

  /** The handler that receives the Response of a call; OpenPipeWireRemote answers directly. */
  function ResponseHandler(c: PortalCall): (handler: Option<Handler>) {
    match c
    case CreateSession(_) => Some(SessionResponse)
    case SelectSources(_, _) => Some(SourcesResponse)
    case Start(_, _, _) => Some(StartResponse)
    case OpenPipeWireRemote(_, _) => None
  }

  /** The handlers the bus may still invoke, one flag per handler. */
  datatype Awaiting = Awaiting(session: bool, sources: bool, start: bool, closed: bool)

  const Nothing := Awaiting(false, false, false, false)

  /** What the client does on the bus, and its hand-over to the PipeWire side. */
  datatype Action =
    | Subscribe(path: string, handler: Handler, id: uint32)
    | Unsubscribe(id: uint32)
    | Call(call: PortalCall)
    | ProcessPipeWire(fd: int32, node: uint32)

  /** One entry of the `streams` array of the Start response: its node id and optional `source_type`. */
  datatype Stream = Stream(id: uint32, sourceType: Option<uint32>)

  /** The Start response's result dictionary, reduced to its `streams` entry (absent or present). */
  datatype StartResults = StartResults(streams: Option<seq<Stream>>)

  /** The streams the handler walks: none when the dictionary or its `streams` entry is missing. */
  function StreamList(results: Option<StartResults>): (streams: seq<Stream>)
    ensures results.None? || results.value.streams.None? ==> streams == []
    ensures results.Some? && results.value.streams.Some? ==> streams == results.value.streams.value
  {
    if results.Some? && results.value.streams.Some? then results.value.streams.value else []
  }

  /** The CreateSession response handler gives up on a nonzero status or a missing handle. */
  predicate SessionFailed(status: uint32, handle: Option<string>): (failed: bool)
    ensures !failed <==> status == 0 && handle.Some?
  {
    status != 0 || handle.None?
  }

  /** The Start response handler reports failure on a nonzero status or a missing dictionary. */
  predicate StartFailed(status: uint32, results: Option<StartResults>): (failed: bool)
    ensures !failed <==> status == 0 && results.Some?
  {
    status != 0 || results.None?
  }

  // ---------------------------------------------------------------------------
  // Tallies over the trace

  datatype Tally = Handoffs | Unsubscriptions | ClosedSubscriptions

  predicate Counts(a: Action, k: Tally) {
    match k
    case Handoffs => a.ProcessPipeWire?
    case Unsubscriptions => a.Unsubscribe?
    case ClosedSubscriptions => a.Subscribe? && a.handler == SessionClosed
  }

  function Count(t: seq<Action>, k: Tally): (n: nat) {
    if t == [] then 0 else Count(t[..|t| - 1], k) + (if Counts(t[|t| - 1], k) then 1 else 0)
  }

  /**
   * The action at index `i` is announced: if it is a call that expects a
   * Response, the action just before it subscribes that call's handler on the
   * Response path of the call's own `handle_token`, so the Response cannot
   * slip by unobserved.
   */
  predicate AnnouncedAt(uniqueName: string, t: seq<Action>, i: nat)
    requires i < |t|
  {
    t[i].Call? && ResponseHandler(t[i].call).Some? ==>
      |uniqueName| >= 1 && i > 0 && RequestToken(t[i].call.options).Some?
      && t[i - 1].Subscribe?
      && t[i - 1].handler == ResponseHandler(t[i].call).value
      && t[i - 1].path == ObjectPaths.RequestPath(uniqueName, RequestToken(t[i].call.options).value)
  }

  predicate SubscribedBeforeCalled(uniqueName: string, t: seq<Action>) {
    forall i :: 0 <= i < |t| ==> AnnouncedAt(uniqueName, t, i)
  }

  lemma Snoc(uniqueName: string, t: seq<Action>, a: Action)
    ensures forall k :: Count(t + [a], k) == Count(t, k) + (if Counts(a, k) then 1 else 0)
    ensures SubscribedBeforeCalled(uniqueName, t) && AnnouncedAt(uniqueName, t + [a], |t|) ==>
              SubscribedBeforeCalled(uniqueName, t + [a])
  {
    var t' := t + [a];
    assert t'[..|t|] == t;
    if SubscribedBeforeCalled(uniqueName, t) && AnnouncedAt(uniqueName, t', |t|) {
      forall i | 0 <= i < |t'| ensures AnnouncedAt(uniqueName, t', i) {
        if i < |t| {
          assert AnnouncedAt(uniqueName, t, i);
          assert t'[i] == t[i];
          assert i > 0 ==> t'[i - 1] == t[i - 1];
        }
      }
    }
  }

  /** The bookkeeping of a trace: hand-overs counted in `done`, every request announced. */
  ghost predicate TraceOk(uniqueName: string, t: seq<Action>, done: nat) {
    |uniqueName| >= 1 && CString(uniqueName)
    && done == Count(t, Handoffs)
    && SubscribedBeforeCalled(uniqueName, t)
  }

  /**
   * The awaited handlers agree with the trace: while the CreateSession
   * Response is awaited nothing else is; the SelectSources and Start
   * Responses are awaited only with a session handle; the Closed
   * subscription is made at most once and dropped at most once.
   */
  ghost predicate AwaitOk(t: seq<Action>, sessionHandle: Option<string>, p: Awaiting) {
    (p.session ==> p == Awaiting(true, false, false, false) && Count(t, ClosedSubscriptions) == 0)
    && (p.sources || p.start ==> sessionHandle.Some?)
    && Count(t, ClosedSubscriptions) <= 1
    && Count(t, Unsubscriptions) + (if p.closed then 1 else 0) == Count(t, ClosedSubscriptions)
  }

  /** Appending an action that is not a request keeps the bookkeeping. */
  lemma AppendAction(uniqueName: string, t: seq<Action>, done: nat, a: Action)
    requires TraceOk(uniqueName, t, done)
    requires a.Call? ==> ResponseHandler(a.call).None?
    ensures TraceOk(uniqueName, t + [a], done + (if a.ProcessPipeWire? then 1 else 0))
    ensures Count(t + [a], Unsubscriptions) == Count(t, Unsubscriptions) + (if a.Unsubscribe? then 1 else 0)
    ensures Count(t + [a], ClosedSubscriptions)
              == Count(t, ClosedSubscriptions) + (if a.Subscribe? && a.handler == SessionClosed then 1 else 0)
  {
    Snoc(uniqueName, t, a);
  }

  /** Subscribing to a request's Response path and then issuing it keeps the bookkeeping. */
  lemma AppendRequest(uniqueName: string, t: seq<Action>, done: nat, id: uint32, c: PortalCall)
    requires TraceOk(uniqueName, t, done)
    requires ResponseHandler(c).Some? && RequestToken(c.options).Some?
    ensures var s := Subscribe(ObjectPaths.RequestPath(uniqueName, RequestToken(c.options).value),
                               ResponseHandler(c).value, id);
            TraceOk(uniqueName, t + [s] + [Call(c)], done)
            && Count(t + [s] + [Call(c)], Unsubscriptions) == Count(t, Unsubscriptions)
            && Count(t + [s] + [Call(c)], ClosedSubscriptions) == Count(t, ClosedSubscriptions)
  {
    var s := Subscribe(ObjectPaths.RequestPath(uniqueName, RequestToken(c.options).value), ResponseHandler(c).value, id);
    Snoc(uniqueName, t, s);
    Snoc(uniqueName, t + [s], Call(c));
  }

  /** Regrouping of three appended actions, the step `OnSessionResponse` needs to join its two sub-traces. */
  lemma AppendThree(t: seq<Action>, a: Action, b: Action, c: Action)
    ensures t + [a] + [b, c] == t + [a, b, c]
  {
  }

  // ---------------------------------------------------------------------------
  // The stream-list walk

  /**
   * The `while (g_variant_iter_next(...)) { ...; break; }` walk over the
   * streams array.  The unconditional `break` is the `!found` half of the
   * loop guard: the walk stops after the first stream.
   */
  method FirstStream(streams: seq<Stream>) returns (found: bool, first: Stream)
    ensures found <==> |streams| > 0
    ensures found ==> first == streams[0]
  {
    found, first := false, Stream(0, None);
    var next := 0;
    while next < |streams| && !found
      invariant next <= |streams| && next <= 1
      invariant found <==> next == 1
      invariant found ==> first == streams[0]
    {
      first := streams[next];
      next := next + 1;
      found := true;
    }
  }

  // ---------------------------------------------------------------------------
  // The client

  class PortalClient {
    /** The connection's unique bus name, e.g. ":1.42". */
    const uniqueName: string
    /** The proxy's cached `AvailableCursorModes` and `version` properties. */
    const cursorModes: Option<uint32>
    const version: Option<uint32>

    var sessionHandle: Option<string>       // session_handle_ (None: NULL)
    var portalHandle: string                // portal_handle
    var sessionRequestSignalId: uint32      // session_request_signal_id
    var sessionClosedSignalId: uint32       // session_closed_signal_id_
    var sourcesRequestSignalId: uint32      // sources_request_signal_id_
    var startHandle: string                 // start_handle
    var startRequestSignalId: uint32        // start_request_signal_id
    var pwStreamNodeId: uint32              // pw_stream_node_id
    var captureSourceType: uint32           // capture_source_type
    var pwFd: int32                         // pw_fd
    /** How often `on_portal_done` ran. */
    var doneCalls: nat
    /** Everything issued so far, oldest first. */
    var trace: seq<Action>
    /** The handlers the bus may still invoke. */
    ghost var pending: Awaiting

    ghost predicate Valid()
      reads this
    {
      TraceOk(uniqueName, trace, doneCalls) && AwaitOk(trace, sessionHandle, pending)
    }

    /** The program's state before `main` starts the negotiation. */
    constructor (uniqueName: string, cursorModes: Option<uint32>, version: Option<uint32>)
      requires |uniqueName| >= 1 && CString(uniqueName)
      ensures Valid()
      ensures this.uniqueName == uniqueName && this.cursorModes == cursorModes && this.version == version
      ensures sessionHandle == Some("") && portalHandle == "" && startHandle == ""
      ensures sessionRequestSignalId == 0 && sessionClosedSignalId == 0
      ensures sourcesRequestSignalId == 0 && startRequestSignalId == 0
      ensures pwStreamNodeId == 0 && captureSourceType == 0 && pwFd == 0
      ensures doneCalls == 0 && trace == [] && pending == Nothing
    {
      this.uniqueName := uniqueName;
      this.cursorModes := cursorModes;
      this.version := version;
      sessionHandle := Some("");
      portalHandle, sessionRequestSignalId, sessionClosedSignalId := "", 0, 0;
      sourcesRequestSignalId, startHandle, startRequestSignalId := 0, "", 0;
      pwStreamNodeId, captureSourceType, pwFd := 0, 0, 0;
      doneCalls, trace, pending := 0, [], Nothing;
    }

    method Record(a: Action)
      modifies this`trace
      ensures trace == old(trace) + [a]
    {
      trace := trace + [a];
    }

    /**
     * Subscribes to the Response signal on the request path of the call's
     * `handle_token`, then issues the call.
     */
    method IssueRequest(c: PortalCall, subscriptionId: uint32)
      requires TraceOk(uniqueName, trace, doneCalls)
      requires ResponseHandler(c).Some? && RequestToken(c.options).Some?
      modifies this`trace
      ensures TraceOk(uniqueName, trace, doneCalls)
      ensures Count(trace, Unsubscriptions) == Count(old(trace), Unsubscriptions)
      ensures Count(trace, ClosedSubscriptions) == Count(old(trace), ClosedSubscriptions)
      ensures trace == old(trace) + [
                Subscribe(ObjectPaths.RequestPath(uniqueName, RequestToken(c.options).value),
                          ResponseHandler(c).value, subscriptionId),
                Call(c)]
    {
      var s := Subscribe(ObjectPaths.RequestPath(uniqueName, RequestToken(c.options).value),
                         ResponseHandler(c).value, subscriptionId);
      AppendRequest(uniqueName, trace, doneCalls, subscriptionId, c);
      Record(s);
      Record(Call(c));
    }

    /** `on_portal_done`: hands the current fd and node id to `process_pipewire`. */
    method PortalDone()
      requires Valid()
      modifies this`trace, this`doneCalls
      ensures Valid()
      ensures doneCalls == old(doneCalls) + 1
      ensures trace == old(trace) + [ProcessPipeWire(pwFd, pwStreamNodeId)]
    {
      AppendAction(uniqueName, trace, doneCalls, ProcessPipeWire(pwFd, pwStreamNodeId));
      Record(ProcessPipeWire(pwFd, pwStreamNodeId));
      doneCalls := doneCalls + 1;
    }

    /**
     * `setup_session_request_handlers`: subscribes to the Response of the
     * CreateSession request, then issues it.
     */
    method RequestSession(sessionDraw: int32, requestDraw: int32, subscriptionId: uint32)
      requires Valid() && trace == [] && pending == Nothing
      requires Drawn(sessionDraw) && Drawn(requestDraw)
      modifies this`trace, this`pending, this`portalHandle, this`sessionRequestSignalId
      ensures Valid()
      ensures portalHandle == ObjectPaths.RequestPath(uniqueName, SessionRequestToken(requestDraw))
      ensures sessionRequestSignalId == subscriptionId
      ensures trace == old(trace) + [Subscribe(portalHandle, SessionResponse, subscriptionId),
                                     Call(CreateSession(CreateSessionOptions(sessionDraw, requestDraw)))]
      ensures pending == Nothing.(session := true)
    {
      var options := BuildCreateSessionOptions(sessionDraw, requestDraw);
      var token := SessionRequestToken(requestDraw);
      portalHandle := ObjectPaths.PrepareSignalHandle(token, uniqueName);
      sessionRequestSignalId := subscriptionId;
      IssueRequest(CreateSession(options), subscriptionId);
      pending := pending.(session := true);
    }

    /**
     * `request_session_response_signale_handler`: stores the session handle;
     * on success subscribes to the session's Closed signal and requests the
     * sources, on failure returns without notifying anyone.
     */
    method OnSessionResponse(status: uint32, handle: Option<string>, closedId: uint32,
                             sourcesDraw: int32, sourcesId: uint32)
      requires Valid() && pending.session && Drawn(sourcesDraw)
      modifies this`trace, this`pending, this`sessionHandle, this`sessionClosedSignalId, this`sourcesRequestSignalId
      ensures Valid()
      ensures sessionHandle == handle
      ensures SessionFailed(status, handle) ==>
                trace == old(trace) && pending == Nothing
                && sessionClosedSignalId == old(sessionClosedSignalId)
                && sourcesRequestSignalId == old(sourcesRequestSignalId)
      ensures !SessionFailed(status, handle) ==>
                var token := PortalRequestToken(sourcesDraw);
                pending == Awaiting(false, true, false, true)
                && sessionClosedSignalId == closedId && sourcesRequestSignalId == sourcesId
                && trace == old(trace) + [
                     Subscribe(handle.value, SessionClosed, closedId),
                     Subscribe(ObjectPaths.RequestPath(uniqueName, token), SourcesResponse, sourcesId),
                     Call(SelectSources(handle.value, SourceSelection.SourcesOptions(cursorModes, version, token)))]
    {
      assert pending == Awaiting(true, false, false, false) && Count(trace, Unsubscriptions) == 0;
      pending := pending.(session := false);
      sessionHandle := handle;
      if handle.None? || status != 0 {
        return;
      }
      ghost var t0 := trace;
      SubscribeSessionClosed(closedId);
      ghost var closed := trace[|trace| - 1];
      RequestSources(sourcesDraw, sourcesId);
      ghost var sources, call := trace[|trace| - 2], trace[|trace| - 1];
      AppendThree(t0, closed, sources, call);
    }

    /** The subscription to the established session's Closed signal. */
    method SubscribeSessionClosed(closedId: uint32)
      requires Valid() && sessionHandle.Some? && pending == Nothing && Count(trace, ClosedSubscriptions) == 0
      modifies this`trace, this`sessionClosedSignalId, this`pending
      ensures Valid()
      ensures sessionClosedSignalId == closedId
      ensures trace == old(trace) + [Subscribe(sessionHandle.value, SessionClosed, closedId)]
      ensures pending == Nothing.(closed := true)
    {
      sessionClosedSignalId := closedId;
      AppendAction(uniqueName, trace, doneCalls, Subscribe(sessionHandle.value, SessionClosed, closedId));
      Record(Subscribe(sessionHandle.value, SessionClosed, closedId));
      pending := pending.(closed := true);
    }

    /**
     * `sources_request`: builds the SelectSources options, subscribes to the
     * Response on the path of their `handle_token`, then issues the call.
     * A failing call is ignored.
     */
    method RequestSources(draw: int32, subscriptionId: uint32)
      requires Valid() && sessionHandle.Some? && Drawn(draw) && !pending.session
      modifies this`trace, this`sourcesRequestSignalId, this`pending
      ensures Valid()
      ensures pending == old(pending).(sources := true)
      ensures sourcesRequestSignalId == subscriptionId
      ensures var token := PortalRequestToken(draw);
              trace == old(trace) + [
                Subscribe(ObjectPaths.RequestPath(uniqueName, token), SourcesResponse, subscriptionId),
                Call(SelectSources(sessionHandle.value, SourceSelection.SourcesOptions(cursorModes, version, token)))]
    {
      var token := PortalRequestToken(draw);
      var options := SourceSelection.BuildSourcesOptions(cursorModes, version, token);
      sourcesRequestSignalId := subscriptionId;
      IssueRequest(SelectSources(sessionHandle.value, options), subscriptionId);
      pending := pending.(sources := true);
    }

    /**
     * `sources_request_response_signal_handler`: a nonzero status runs the
     * done hook and stops; status 0 goes on to the Start request.
     */
    method OnSourcesResponse(status: uint32, startDraw: int32, startId: uint32, startFails: bool)
      requires Valid() && pending.sources && Drawn(startDraw)
      modifies this`trace, this`pending, this`doneCalls, this`startHandle, this`startRequestSignalId
      ensures Valid()
      ensures status != 0 ==>
                pending == old(pending).(sources := false)
                && startHandle == old(startHandle) && startRequestSignalId == old(startRequestSignalId)
                && doneCalls == old(doneCalls) + 1
                && trace == old(trace) + [ProcessPipeWire(pwFd, pwStreamNodeId)]
      ensures status == 0 ==>
                var token := PortalRequestToken(startDraw);
                pending == old(pending).(sources := false, start := true)
                && startHandle == ObjectPaths.RequestPath(uniqueName, token)
                && startRequestSignalId == startId
                && doneCalls == old(doneCalls) + (if startFails then 1 else 0)
                && trace == old(trace) + [
                     Subscribe(startHandle, StartResponse, startId),
                     Call(Start(sessionHandle.value, "", StartOptions(token)))]
                     + (if startFails then [ProcessPipeWire(pwFd, pwStreamNodeId)] else [])
    {
      pending := pending.(sources := false);
      if status != 0 {
        PortalDone();
        return;
      }
      StartRequest(startDraw, startId, startFails);
    }

    /**
     * `start_request`: subscribes to the Response of Start on the path of its
     * `handle_token`, issues Start with an empty parent window, and runs the
     * done hook if the call itself fails.
     */
    method StartRequest(draw: int32, subscriptionId: uint32, callFails: bool)
      requires Valid() && sessionHandle.Some? && Drawn(draw) && !pending.session
      modifies this`trace, this`startHandle, this`startRequestSignalId, this`doneCalls, this`pending
      ensures Valid()
      ensures pending == old(pending).(start := true)
      ensures startHandle == ObjectPaths.RequestPath(uniqueName, PortalRequestToken(draw))
      ensures startRequestSignalId == subscriptionId
      ensures doneCalls == old(doneCalls) + (if callFails then 1 else 0)
      ensures trace == old(trace) + [
                Subscribe(startHandle, StartResponse, subscriptionId),
                Call(Start(sessionHandle.value, "", StartOptions(PortalRequestToken(draw))))]
                + (if callFails then [ProcessPipeWire(pwFd, pwStreamNodeId)] else [])
    {
      var token := PortalRequestToken(draw);
      var options := BuildStartOptions(token);
      startHandle := ObjectPaths.PrepareSignalHandle(token, uniqueName);
      startRequestSignalId := subscriptionId;
      IssueRequest(Start(sessionHandle.value, "", options), subscriptionId);
      pending := pending.(start := true);
      if callFails {
        PortalDone();
      }
    }

    /**
     * `start_request_response_signal_handler`.  A nonzero status or a missing
     * dictionary runs the done hook but does not stop the handler.  The first
     * stream, if any, gives the node id and, when it has one, the source type.
     * Then the PipeWire remote is opened.
     */
    method OnStartResponse(status: uint32, results: Option<StartResults>, fd: int32)
      requires Valid() && pending.start
      modifies this`trace, this`pending, this`doneCalls, this`pwStreamNodeId, this`captureSourceType, this`pwFd
      ensures Valid()
      ensures pending == old(pending).(start := false)
      ensures var streams := StreamList(results);
              && (|streams| > 0 ==> pwStreamNodeId == streams[0].id)
              && (|streams| > 0 && streams[0].sourceType.Some? ==> captureSourceType == streams[0].sourceType.value)
              && (|streams| == 0 || streams[0].sourceType.None? ==> captureSourceType == old(captureSourceType))
              && (|streams| == 0 ==> pwStreamNodeId == old(pwStreamNodeId))
      ensures pwFd == fd
      ensures doneCalls == old(doneCalls) + (if StartFailed(status, results) then 1 else 0) + (if fd != -1 then 1 else 0)
      ensures trace == old(trace)
                + (if StartFailed(status, results) then [ProcessPipeWire(old(pwFd), old(pwStreamNodeId))] else [])
                + [Call(OpenPipeWireRemote(sessionHandle.value, []))]
                + (if fd != -1 then [ProcessPipeWire(fd, pwStreamNodeId)] else [])
    {
      pending := pending.(start := false);
      if status != 0 || results.None? {
        PortalDone();
      }
      var found, first := FirstStream(StreamList(results));
      if found {
        if first.sourceType.Some? {
          captureSourceType := first.sourceType.value;
        }
        pwStreamNodeId := first.id;
      }
      OpenPipeWireRemoteFd(fd);
    }

    /**
     * `open_pipewire_remote`: issues OpenPipeWireRemote; `fd` is what
     * `g_unix_fd_list_get` yields for the reply (-1 when the call or the fd
     * list failed).  On -1 it returns without the done hook; otherwise the
     * done hook hands the fd over.
     */
    method OpenPipeWireRemoteFd(fd: int32)
      requires sessionHandle.Some? && Valid()
      modifies this`trace, this`pwFd, this`doneCalls
      ensures Valid()
      ensures pwFd == fd
      ensures doneCalls == old(doneCalls) + (if fd != -1 then 1 else 0)
      ensures trace == old(trace) + [Call(OpenPipeWireRemote(sessionHandle.value, []))]
                + (if fd != -1 then [ProcessPipeWire(fd, pwStreamNodeId)] else [])
    {
      var builder := new VardictBuilder();
      AppendAction(uniqueName, trace, doneCalls, Call(OpenPipeWireRemote(sessionHandle.value, builder.entries)));
      Record(Call(OpenPipeWireRemote(sessionHandle.value, builder.entries)));
      pwFd := fd;
      if pwFd == -1 {
        return;
      }
      PortalDone();
    }

    /**
     * `on_session_closed_signal`: drops the subscription whose id was stored
     * when the session was established.
     */
    method OnSessionClosed()
      requires Valid() && pending.closed
      modifies this`trace, this`pending
      ensures Valid()
      ensures trace == old(trace) + [Unsubscribe(sessionClosedSignalId)]
      ensures pending == old(pending).(closed := false)
      ensures Count(trace, Unsubscriptions) == 1
    {
      AppendAction(uniqueName, trace, doneCalls, Unsubscribe(sessionClosedSignalId));
      Record(Unsubscribe(sessionClosedSignalId));
      pending := pending.(closed := false);
    }
  }
}
