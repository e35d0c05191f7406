/** The state of a lib/rdbg.js `Client` and of the domain modules it has
    created, as a value, and each operation of the client as a function on it.
    The classes in module Rdbg are proved to follow these functions. */
module ClientSpec {
  import opened Json
  import opened Wire
  import opened Domains

  /** Events the client emits on itself. */
  datatype ClientEvent =
    | SocketEmitted
    | ConnectEmitted
    | RequestEmitted(request: Envelope)
    | ResponseEmitted(command: Option<Envelope>, response: Value)
    | MessageEmitted(methodName: Value, params: Value)
    | ErrorEmitted
    | CloseEmitted

  /** `_counter`, `_callbacks`, `_commands`, whether `_socket` is set, the
      envelopes handed to the socket, the client's emitted events, the calls of
      the application's callbacks, and the state of each domain module that
      has been created (`None` until its getter first runs). */
  datatype World = World(
    counter: nat,
    callbacks: map<string, Option<Continuation>>,
    commands: map<string, Envelope>,
    socket: bool,
    sent: seq<Envelope>,
    emitted: seq<ClientEvent>,
    delivered: seq<Delivery>,
    console: Option<ConsoleState>,
    debugger: Option<seq<DebuggerEvent>>,
    css: Option<CssState>,
    dom: Option<bool>)

  /** A freshly constructed client. */
  const Initial: World := World(0, map[], map[], false, [], [], [], None, None, None, None)

  /** The result of an operation that may throw; effects before the throw stay. */
  datatype Step = Step(world: World, threw: bool)

  /** The continuation `if (callback)` finds under a key: none when the key is
      absent or the stored callback was left out. */
  function Pending(w: World, key: string): Option<Continuation> {
    if key in w.callbacks then w.callbacks[key] else None
  }

  /** `connect`: the socket is stored and `socket` is emitted. */
  function Connected(w: World): World {
    Emitted(w.(socket := true), SocketEmitted)
  }

  /** The socket's `open` handler only emits `connect`. */
  function Opened(w: World): (r: World)
    ensures r.callbacks == w.callbacks && r.commands == w.commands && r.sent == w.sent
    ensures r.delivered == w.delivered && r.emitted == w.emitted + [ConnectEmitted]
  {
    Emitted(w, ConnectEmitted)
  }

  /** The socket's `error` handler re-emits the error on the client. */
  function SocketFailed(w: World): (r: World)
    ensures r.callbacks == w.callbacks && r.commands == w.commands && r.sent == w.sent
    ensures r.delivered == w.delivered && r.emitted == w.emitted + [ErrorEmitted]
  {
    Emitted(w, ErrorEmitted)
  }

  /** The socket's `close` handler: pending callbacks stay pending. */
  function Closed(w: World): (r: World)
    ensures r.callbacks == w.callbacks && r.commands == w.commands
    ensures r.delivered == w.delivered && r.emitted == w.emitted + [CloseEmitted]
  {
    Emitted(w, CloseEmitted)
  }

  /** `request(method, parameters, id, callback)`: both tables are written under
      the id's key, `request` is emitted, and only then is the envelope handed
      to the socket, which throws when there is none. */
  function Call(w: World, methodName: string, parameters: Arg<Continuation>, id: Arg<Continuation>,
                callback: Option<Continuation>): (r: Step)
    ensures var n := Normalize(parameters, id, callback, w.counter);
            var env := Envelope(n.id, methodName, n.params);
            var key := PropertyKey(n.id);
            && r.threw == !w.socket
            && r.world.counter == n.counter
            && key in r.world.callbacks && r.world.callbacks[key] == n.callback
            && key in r.world.commands && r.world.commands[key] == env
            && r.world.emitted == w.emitted + [RequestEmitted(env)]
            && r.world.sent == (if w.socket then w.sent + [env] else w.sent)
  {
    var n := Normalize(parameters, id, callback, w.counter);
    var request := Envelope(n.id, methodName, n.params);
    Send(Register(w, request, n.callback, n.counter), request)
  }

  /** The first half of `request`: both tables are written under the id's
      key, the counter takes its new value, and `request` is emitted. */
  function Register(w: World, request: Envelope, callback: Option<Continuation>, counter: nat): World {
    var key := PropertyKey(request.id);
    w.(counter := counter,
       callbacks := w.callbacks[key := callback],
       commands := w.commands[key := request],
       emitted := w.emitted + [RequestEmitted(request)])
  }

  /** The second half: `this._socket.send(...)`, which throws without a socket. */
  function Send(w: World, request: Envelope): Step {
    if w.socket then Step(w.(sent := w.sent + [request]), false) else Step(w, true)
  }

  /** Calling a callback; calling one the caller left out throws a TypeError. */
  function Invoke(w: World, cb: Option<Callback>, args: seq<Value>): Step {
    if cb.None? then Step(w, true)
    else Step(w.(delivered := w.delivered + [Delivery(cb.value, args)]), false)
  }

  /** The arguments the message handler passes to a response's callback:
      `(error)` when `error` is truthy, else `(null, result)`. */
  function ResponseArgs(message: Value): (args: seq<Value>)
    ensures Truthy(Prop(message, "error")) ==> args == [Prop(message, "error")]
    ensures !Truthy(Prop(message, "error")) ==> args == [Null, Prop(message, "result")]
  {
    var error := Prop(message, "error");
    if Truthy(error) then [error] else [Null, Prop(message, "result")]
  }

  /** Running a stored continuation with the arguments of its response. */
  function Run(w: World, k: Continuation, args: seq<Value>): Step {
    var error := if |args| > 0 then args[0] else Undefined;
    var result := if |args| > 1 then args[1] else Undefined;
    match k
    case Direct(cb) => Invoke(w, Some(cb), args)
    case ErrorOnly(cb) => Invoke(w, cb, [error])
    case Field(cb, name) =>
      if Truthy(error) then Invoke(w, cb, [error])
      else if Nullish(result) then Step(w, true)
      else Invoke(w, cb, [Null, Prop(result, name)])
    case Evaluated(cb) =>
      if Truthy(error) then Invoke(w, cb, [error])
      else if Nullish(result) then Step(w, true)
      else Invoke(w, cb, [Null, Prop(result, "result"), Prop(result, "wasThrown")])
    case DomEnabled(next) => DomEnableDone(w, next, error)
    case CssEnabled(cb) => CssEnableDone(w, cb, error)
  }

  /** `DOM.enable`'s callback: on success DOM's flag is set; then the caller
      hears the error, or CSS goes on to send `CSS.enable`. */
  function DomEnableDone(w: World, next: DomNext, error: Value): Step {
    var w1 := if !Truthy(error) && w.dom.Some? then w.(dom := Some(true)) else w;
    match next
    case Report(cb) => Invoke(w1, cb, [error])
    case ThenCss(cb) =>
      if !Truthy(error) then Call(w1, "CSS.enable", Fn(CssEnabled(cb)), Val(Undefined), None)
      else Invoke(w1, cb, [error])
  }

  /** `CSS.enable`'s callback: on success CSS's flag is set; the caller hears the error. */
  function CssEnableDone(w: World, cb: Option<Callback>, error: Value): Step {
    var w1 := if !Truthy(error) && w.css.Some? then w.(css := Some(w.css.value.(enabled := true))) else w;
    Invoke(w1, cb, [error])
  }

  /** Console's `message` listener, when the console module exists. */
  function ConsoleListen(w: World, methodName: Value, params: Value): (r: Step)
    ensures r.world == w.(console := r.world.console) && r.world.console.Some? == w.console.Some?
  {
    if w.console.None? then Step(w, false)
    else
      var c := ConsoleRoute(methodName, params);
      if c == ListenerThrew then Step(w, true)
      else if c.Emit? then Step(w.(console := Some(ConsoleApply(w.console.value, c.event))), false)
      else Step(w, false)
  }

  /** Debugger's `message` listener, when the debugger module exists; it never throws. */
  function DebuggerListen(w: World, methodName: Value, params: Value): (r: World)
    ensures r == w.(debugger := r.debugger) && r.debugger.Some? == w.debugger.Some?
  {
    if w.debugger.None? then w
    else
      var d := DebuggerRoute(methodName, params);
      if d.Emit? then w.(debugger := Some(w.debugger.value + [d.event])) else w
  }

  /** CSS's `message` listener, when the CSS module exists. */
  function CssListen(w: World, methodName: Value, params: Value): (r: Step)
    ensures r.world == w.(css := r.world.css) && r.world.css.Some? == w.css.Some?
    ensures w.css.Some? ==> r.world.css.value.enabled == w.css.value.enabled
  {
    if w.css.None? then Step(w, false)
    else
      var c := CssRoute(methodName, params);
      if c == ListenerThrew then Step(w, true)
      else if c.Emit? then Step(w.(css := Some(w.css.value.(events := w.css.value.events + [c.event]))), false)
      else Step(w, false)
  }

  /** The `message` listeners of the domain modules that exist, in the order
      the modules were created when that is console, debugger, CSS; a throw
      stops the later listeners. At most one of them reacts to any one event
      name. */
  function Listen(w: World, methodName: Value, params: Value): (r: Step)
    ensures r.world == w.(console := r.world.console, debugger := r.world.debugger, css := r.world.css)
    ensures r.world.console.Some? == w.console.Some? && r.world.debugger.Some? == w.debugger.Some?
    ensures r.world.css.Some? == w.css.Some? && (w.css.Some? ==> r.world.css.value.enabled == w.css.value.enabled)
  {
    var c := ConsoleListen(w, methodName, params);
    if c.threw then c
    else CssListen(DebuggerListen(c.world, methodName, params), methodName, params)
  }

  /** The client emits one event. */
  function Emitted(w: World, e: ClientEvent): World {
    w.(emitted := w.emitted + [e])
  }

  /** `delete this._callbacks[id]`. */
  function ForgetCallback(w: World, key: string): World {
    w.(callbacks := w.callbacks - {key})
  }

  /** `delete this._commands[id]`. */
  function ForgetCommand(w: World, key: string): World {
    w.(commands := w.commands - {key})
  }

  /** The handler's response branch: `response` is emitted, a pending
      continuation runs and its callback entry is deleted, then the command
      entry is deleted; a throw skips the deletions and is reported as `error`. */
  function Respond(w: World, message: Value): World
    requires !Nullish(message)
  {
    var key := PropertyKey(Prop(message, "id"));
    var command := if key in w.commands then Some(w.commands[key]) else None;
    Settle(Emitted(w, ResponseEmitted(command, message)), key, ResponseArgs(message))
  }

  /** The rest of the response branch, once `response` is emitted. */
  function Settle(w: World, key: string, args: seq<Value>): World {
    match Pending(w, key)
    case None => ForgetCommand(w, key)
    case Some(k) =>
      var s := Run(w, k, args);
      if s.threw then Emitted(s.world, ErrorEmitted)
      else ForgetCommand(ForgetCallback(s.world, key), key)
  }

  /** The handler's event branch: `message(method, params)` is emitted to the
      domain modules' listeners. */
  function Broadcast(w: World, message: Value): World
    requires !Nullish(message)
  {
    var methodName, params := Prop(message, "method"), Prop(message, "params");
    var s := Listen(Emitted(w, MessageEmitted(methodName, params)), methodName, params);
    if s.threw then Emitted(s.world, ErrorEmitted) else s.world
  }

  /** The socket's `message` handler. */
  function Receive(w: World, inbound: Inbound): World {
    match inbound
    case Unparsable => Emitted(w, ErrorEmitted)
    case Parsed(message) =>
      if Nullish(message) then Emitted(w, ErrorEmitted)
      else if Prop(message, "id") != Undefined then Respond(w, message)
      else Broadcast(w, message)
  }

  /** `CSS.enable`: reading `client.dom` creates the DOM module if needed; when
      it is not enabled, `DOM.enable` is sent and `CSS.enable` waits for its
      success, otherwise `CSS.enable` is sent at once. */
  function CssEnable(w: World, cb: Option<Callback>): Step {
    CssEnableWithDom(if w.dom.None? then w.(dom := Some(false)) else w, cb)
  }

  /** `CSS.enable` once the DOM module exists. */
  function CssEnableWithDom(w: World, cb: Option<Callback>): Step
    requires w.dom.Some?
  {
    if !w.dom.value then Call(w, "DOM.enable", Fn(DomEnabled(ThenCss(cb))), Val(Undefined), None)
    else Call(w, "CSS.enable", Fn(CssEnabled(cb)), Val(Undefined), None)
  }

  // ------------------------------------------------------------- properties

  /** A response to `id` carrying `error` and `result`. */
  function ResponseTo(id: Value, error: Value, result: Value): Value {
    Obj(map["id" := id, "error" := error, "result" := result])
  }

  /** Text that does not parse changes nothing but the emitted `error`. */
  lemma UnparsableChangesNothing(w: World)
    ensures Receive(w, Unparsable) == w.(emitted := w.emitted + [ErrorEmitted])
  {
  }

  /** A message without an id is an event: the counter, both tables, the
      socket log and the callbacks are untouched. */
  lemma EventLeavesTables(w: World, message: Value)
    requires !Nullish(message) && Prop(message, "id") == Undefined
    ensures var r := Receive(w, Parsed(message));
      && r.counter == w.counter && r.callbacks == w.callbacks && r.commands == w.commands
      && r.sent == w.sent && r.delivered == w.delivered
      && r.emitted[..|w.emitted| + 1] == w.emitted + [MessageEmitted(Prop(message, "method"), Prop(message, "params"))]
  {
    var s := Listen(w.(emitted := w.emitted + [MessageEmitted(Prop(message, "method"), Prop(message, "params"))]),
                    Prop(message, "method"), Prop(message, "params"));
    assert s.world.emitted == w.emitted + [MessageEmitted(Prop(message, "method"), Prop(message, "params"))];
  }

  /** A response whose id has no pending callback calls nothing, still emits
      `response` and removes the command. */
  lemma UnknownResponseCallsNothing(w: World, message: Value)
    requires !Nullish(message) && Prop(message, "id") != Undefined
    requires Pending(w, PropertyKey(Prop(message, "id"))) == None
    ensures var r := Receive(w, Parsed(message)); var key := PropertyKey(Prop(message, "id"));
      && r.delivered == w.delivered && r.callbacks == w.callbacks
      && r.commands == w.commands - {key} && r.sent == w.sent && r.counter == w.counter
      && r.emitted == w.emitted + [ResponseEmitted(if key in w.commands then Some(w.commands[key]) else None, message)]
  {
  }

  /** Exactly-once delivery: the callback registered under a response's id
      receives `(error)` or `(null, result)`, both entries go, every other
      entry stays, and the same response again calls nothing. */
  lemma {:induction false} DeliveredExactlyOnce(w: World, message: Value, cb: Callback)
    requires !Nullish(message) && Prop(message, "id") != Undefined
    requires Pending(w, PropertyKey(Prop(message, "id"))) == Some(Direct(cb))
    ensures var r := Receive(w, Parsed(message)); var key := PropertyKey(Prop(message, "id"));
      && r.delivered == w.delivered + [Delivery(cb, ResponseArgs(message))]
      && key !in r.callbacks && key !in r.commands
      && (forall k :: k != key ==> Pending(r, k) == Pending(w, k))
      && (forall k :: k != key && k in w.commands ==> k in r.commands && r.commands[k] == w.commands[k])
      && Receive(r, Parsed(message)).delivered == r.delivered
  {
    var key := PropertyKey(Prop(message, "id"));
    var r := Receive(w, Parsed(message));
    assert Pending(r, key) == None;
    UnknownResponseCallsNothing(r, message);
  }

  /** The `enable`, `disable` and `pause` closures pass on only the error:
      the caller receives `(error)` on a truthy error and `(null)` otherwise,
      and both entries go. */
  lemma ErrorOnlyResponse(w: World, message: Value, cb: Callback)
    requires !Nullish(message) && Prop(message, "id") != Undefined
    requires Pending(w, PropertyKey(Prop(message, "id"))) == Some(ErrorOnly(Some(cb)))
    ensures var r := Receive(w, Parsed(message)); var key := PropertyKey(Prop(message, "id"));
      var error := Prop(message, "error");
      && r.delivered == w.delivered + [Delivery(cb, [if Truthy(error) then error else Null])]
      && key !in r.callbacks && key !in r.commands
  {
  }

  /** The getters' closures (`canSetScriptSource`, `getScriptSource`,
      `getDocument`, `querySelector`, `querySelectorAll`, `getStyleSheetText`)
      pass on `(error)`, or `(null, result[name])` when the result is an
      object; both entries go. */
  lemma FieldResponse(w: World, message: Value, cb: Callback, name: string)
    requires !Nullish(message) && Prop(message, "id") != Undefined
    requires Pending(w, PropertyKey(Prop(message, "id"))) == Some(Field(Some(cb), name))
    requires Truthy(Prop(message, "error")) || !Nullish(Prop(message, "result"))
    ensures var r := Receive(w, Parsed(message)); var key := PropertyKey(Prop(message, "id"));
      var error, result := Prop(message, "error"), Prop(message, "result");
      && r.delivered == w.delivered + [Delivery(cb, if Truthy(error) then [error] else [Null, Prop(result, name)])]
      && key !in r.callbacks && key !in r.commands
  {
  }

  /** `evaluate`'s closure passes on `(error)`, or `(null, result.result,
      result.wasThrown)`; both entries go. */
  lemma EvaluatedResponse(w: World, message: Value, cb: Callback)
    requires !Nullish(message) && Prop(message, "id") != Undefined
    requires Pending(w, PropertyKey(Prop(message, "id"))) == Some(Evaluated(Some(cb)))
    requires Truthy(Prop(message, "error")) || !Nullish(Prop(message, "result"))
    ensures var r := Receive(w, Parsed(message)); var key := PropertyKey(Prop(message, "id"));
      var error, result := Prop(message, "error"), Prop(message, "result");
      && r.delivered == w.delivered + [Delivery(cb, if Truthy(error) then [error]
                                                    else [Null, Prop(result, "result"), Prop(result, "wasThrown")])]
      && key !in r.callbacks && key !in r.commands
  {
  }

  /** A success without a result makes a getter's or `evaluate`'s closure
      throw on `result[name]`: nothing is delivered, `error` is emitted after
      `response`, and both entries stay. */
  lemma MissingResultThrows(w: World, message: Value, k: Continuation)
    requires !Nullish(message) && Prop(message, "id") != Undefined
    requires Pending(w, PropertyKey(Prop(message, "id"))) == Some(k) && (k.Field? || k.Evaluated?)
    requires !Truthy(Prop(message, "error")) && Nullish(Prop(message, "result"))
    ensures var r := Receive(w, Parsed(message)); var key := PropertyKey(Prop(message, "id"));
      var command := if key in w.commands then Some(w.commands[key]) else None;
      && r.delivered == w.delivered
      && r.callbacks == w.callbacks && r.commands == w.commands
      && r.emitted == w.emitted + [ResponseEmitted(command, message), ErrorEmitted]
  {
  }

  /** A response for a closure whose caller left out the callback throws on
      the call: the entries stay and `error` is emitted. */
  lemma MissingCallbackThrows(w: World, message: Value)
    requires !Nullish(message) && Prop(message, "id") != Undefined
    requires Pending(w, PropertyKey(Prop(message, "id"))) == Some(ErrorOnly(None))
    ensures var r := Receive(w, Parsed(message)); var key := PropertyKey(Prop(message, "id"));
      var command := if key in w.commands then Some(w.commands[key]) else None;
      && r.delivered == w.delivered
      && r.callbacks == w.callbacks && r.commands == w.commands
      && r.emitted == w.emitted + [ResponseEmitted(command, message), ErrorEmitted]
  {
  }

  /** A request followed by the response to its id: the callback receives the
      response's arguments and both tables are as before the request. */
  lemma {:induction false} RequestThenResponse(w: World, methodName: string, parameters: Value,
                                               cb: Callback, error: Value, result: Value)
    requires w.socket
    requires PropertyKey(Num(w.counter)) !in w.callbacks && PropertyKey(Num(w.counter)) !in w.commands
    ensures var c := Call(w, methodName, Val(parameters), Val(Undefined), Some(Direct(cb)));
            var r := Receive(c.world, Parsed(ResponseTo(Num(w.counter), error, result)));
      && !c.threw
      && c.world.sent == w.sent + [Envelope(Num(w.counter), methodName, if parameters == Undefined then Obj(map[]) else parameters)]
      && r.delivered == w.delivered + [Delivery(cb, if Truthy(error) then [error] else [Null, result])]
      && r.callbacks == w.callbacks && r.commands == w.commands
      && r.counter == w.counter + 1
  {
    var c := Call(w, methodName, Val(parameters), Val(Undefined), Some(Direct(cb)));
    var message := ResponseTo(Num(w.counter), error, result);
    var key := PropertyKey(Num(w.counter));
    assert Prop(message, "id") == Num(w.counter);
    DeliveredExactlyOnce(c.world, message, cb);
    var r := Receive(c.world, Parsed(message));
    assert r.callbacks == w.callbacks by {
      forall k ensures k in r.callbacks <==> k in w.callbacks {
        if k != key { assert Pending(r, k) == Pending(c.world, k); }
      }
      assert r.callbacks == Respond(c.world, message).callbacks;
    }
  }

  /** Requests issued with no id: each takes the counter as its id. */
  datatype AutoRequest = AutoRequest(methodName: string, parameters: Arg<Continuation>, callback: Option<Continuation>)

  function IssueAll(w: World, requests: seq<AutoRequest>): World
    decreases |requests|
  {
    if requests == [] then w
    else
      var q := requests[0];
      IssueAll(Call(w, q.methodName, q.parameters, Val(Undefined), q.callback).world, requests[1..])
  }

  /** The envelopes a run of auto-id requests should send from `counter` on. */
  function AutoSent(counter: nat, requests: seq<AutoRequest>): seq<Envelope>
    decreases |requests|
  {
    if requests == [] then []
    else
      var q := requests[0];
      [AutoEnvelope(counter, q)] + AutoSent(counter + 1, requests[1..])
  }

  /** The envelope an auto-id request sends when the counter is at `counter`. */
  function AutoEnvelope(counter: nat, q: AutoRequest): Envelope {
    Envelope(Num(counter), q.methodName, Normalize(q.parameters, Val(Undefined), q.callback, counter).params)
  }

  /** One auto-id request with a socket sends its envelope and advances the counter. */
  lemma AutoCall(w: World, q: AutoRequest)
    requires w.socket
    ensures var r := Call(w, q.methodName, q.parameters, Val(Undefined), q.callback).world;
      r.sent == w.sent + [AutoEnvelope(w.counter, q)] && r.counter == w.counter + 1 && r.socket
  {
  }

  /** With a socket, issuing the requests sends exactly those envelopes and
      advances the counter once per request. */
  lemma {:induction false} IssueAllSends(w: World, requests: seq<AutoRequest>)
    requires w.socket
    ensures var r := IssueAll(w, requests);
      r.sent == w.sent + AutoSent(w.counter, requests) && r.counter == w.counter + |requests| && r.socket
    decreases |requests|
  {
    if requests != [] {
      var q := requests[0];
      var w1 := Call(w, q.methodName, q.parameters, Val(Undefined), q.callback).world;
      AutoCall(w, q);
      IssueAllSends(w1, requests[1..]);
      assert IssueAll(w, requests) == IssueAll(w1, requests[1..]);
      assert AutoSent(w.counter, requests) == [AutoEnvelope(w.counter, q)] + AutoSent(w1.counter, requests[1..]);
      assert w.sent + AutoSent(w.counter, requests) == w1.sent + AutoSent(w1.counter, requests[1..]);
    }
  }

  /** Auto-assigned ids are the counter's values in order. */
  lemma {:induction false} AutoIdsAreConsecutive(counter: nat, requests: seq<AutoRequest>)
    ensures |AutoSent(counter, requests)| == |requests|
    ensures forall i :: 0 <= i < |requests| ==>
      AutoSent(counter, requests)[i].id == Num(counter + i)
      && AutoSent(counter, requests)[i].methodName == requests[i].methodName
    decreases |requests|
  {
    if requests != [] {
      AutoIdsAreConsecutive(counter + 1, requests[1..]);
      forall i | 1 <= i < |requests|
        ensures AutoSent(counter, requests)[i] == AutoSent(counter + 1, requests[1..])[i - 1]
        ensures requests[i] == requests[1..][i - 1]
      {
      }
    }
  }

  /** Two auto-assigned envelopes never have ids with the same key. */
  lemma AutoSentKeysDistinct(counter: nat, requests: seq<AutoRequest>, i: nat, j: nat)
    requires i < j < |requests|
    ensures |AutoSent(counter, requests)| == |requests|
    ensures PropertyKey(AutoSent(counter, requests)[i].id) != PropertyKey(AutoSent(counter, requests)[j].id)
  {
    AutoIdsAreConsecutive(counter, requests);
    var sent := AutoSent(counter, requests);
    if PropertyKey(sent[i].id) == PropertyKey(sent[j].id) {
      NumKeysInjective(counter + i, counter + j);
    }
  }

  /** Corollary: two auto-assigned requests never share a table entry. */
  lemma AutoKeysDistinct(w: World, requests: seq<AutoRequest>, i: nat, j: nat)
    requires w.socket && i < j < |requests|
    ensures var r := IssueAll(w, requests);
      |r.sent| == |w.sent| + |requests| &&
      PropertyKey(r.sent[|w.sent| + i].id) != PropertyKey(r.sent[|w.sent| + j].id)
  {
    IssueAllSends(w, requests);
    AutoSentKeysDistinct(w.counter, requests, i, j);
    var r := IssueAll(w, requests);
    var sent := AutoSent(w.counter, requests);
    assert r.sent == w.sent + sent;
    var ki, kj := PropertyKey(sent[i].id), PropertyKey(sent[j].id);
    assert PropertyKey(r.sent[|w.sent| + i].id) == ki by {
      assert (w.sent + sent)[|w.sent| + i] == sent[i];
    }
    assert PropertyKey(r.sent[|w.sent| + j].id) == kj by {
      assert (w.sent + sent)[|w.sent| + j] == sent[j];
    }
  }

  /** A request registers its continuation under its id's key and leaves
      every other entry as it was; nothing is delivered. */
  lemma CallPending(w: World, methodName: string, parameters: Arg<Continuation>, id: Arg<Continuation>,
                    callback: Option<Continuation>, k: string)
    ensures var n := Normalize(parameters, id, callback, w.counter);
            var r := Call(w, methodName, parameters, id, callback).world;
      && Pending(r, k) == (if k == PropertyKey(n.id) then n.callback else Pending(w, k))
      && (k != PropertyKey(n.id) ==> (k in r.commands <==> k in w.commands))
      && (k != PropertyKey(n.id) && k in w.commands ==> r.commands[k] == w.commands[k])
      && r.delivered == w.delivered && r.socket == w.socket
      && r.console == w.console && r.debugger == w.debugger && r.css == w.css && r.dom == w.dom
  {
  }

  /** Two callbacks pending under distinct keys: answering `b` and then `a`
      delivers to each its own response. */
  lemma {:induction false} TwoResponses(w: World, ma: Value, mb: Value, a: Callback, b: Callback)
    requires !Nullish(ma) && Prop(ma, "id") != Undefined && !Nullish(mb) && Prop(mb, "id") != Undefined
    requires PropertyKey(Prop(ma, "id")) != PropertyKey(Prop(mb, "id"))
    requires Pending(w, PropertyKey(Prop(ma, "id"))) == Some(Direct(a))
    requires Pending(w, PropertyKey(Prop(mb, "id"))) == Some(Direct(b))
    ensures Receive(Receive(w, Parsed(mb)), Parsed(ma)).delivered ==
      w.delivered + [Delivery(b, ResponseArgs(mb)), Delivery(a, ResponseArgs(ma))]
  {
    DeliveredExactlyOnce(w, mb, b);
    var w1 := Receive(w, Parsed(mb));
    assert Pending(w1, PropertyKey(Prop(ma, "id"))) == Some(Direct(a));
    DeliveredExactlyOnce(w1, ma, a);
  }

  /** Two requests outstanding, responses in reverse order: each callback gets
      its own response. */
  lemma {:induction false} OutOfOrderResponses(w: World, a: Callback, b: Callback, ra: Value, rb: Value)
    requires w.socket
    ensures var w1 := Call(w, "A", Val(Undefined), Val(Undefined), Some(Direct(a))).world;
            var w2 := Call(w1, "B", Val(Undefined), Val(Undefined), Some(Direct(b))).world;
            var w3 := Receive(w2, Parsed(ResponseTo(Num(w.counter + 1), Undefined, rb)));
            var w4 := Receive(w3, Parsed(ResponseTo(Num(w.counter), Undefined, ra)));
      w4.delivered == w.delivered + [Delivery(b, [Null, rb]), Delivery(a, [Null, ra])]
  {
    var w1 := Call(w, "A", Val(Undefined), Val(Undefined), Some(Direct(a))).world;
    var w2 := Call(w1, "B", Val(Undefined), Val(Undefined), Some(Direct(b))).world;
    var ka, kb := PropertyKey(Num(w.counter)), PropertyKey(Num(w.counter + 1));
    if ka == kb { NumKeysInjective(w.counter, w.counter + 1); }
    CallPending(w, "A", Val(Undefined), Val(Undefined), Some(Direct(a)), ka);
    CallPending(w1, "B", Val(Undefined), Val(Undefined), Some(Direct(b)), ka);
    CallPending(w1, "B", Val(Undefined), Val(Undefined), Some(Direct(b)), kb);
    var mb := ResponseTo(Num(w.counter + 1), Undefined, rb);
    var ma := ResponseTo(Num(w.counter), Undefined, ra);
    assert Prop(mb, "id") == Num(w.counter + 1) && Prop(mb, "error") == Undefined && Prop(mb, "result") == rb;
    assert Prop(ma, "id") == Num(w.counter) && Prop(ma, "error") == Undefined && Prop(ma, "result") == ra;
    TwoResponses(w2, ma, mb, a, b);
  }

  /** The socket closing leaves every pending callback pending and calls none. */
  lemma CloseFailsNothing(w: World, key: string)
    ensures Pending(Closed(w), key) == Pending(w, key)
    ensures Closed(w).delivered == w.delivered
  {
  }

  /** `CSS.enable` with DOM not yet enabled sends `DOM.enable` first, waiting
      under the counter's id; neither flag changes yet. */
  lemma CssEnableSendsDomFirst(w: World, cb: Option<Callback>)
    requires w.socket && w.css.Some? && w.dom != Some(true)
    ensures var r := CssEnable(w, cb);
      && !r.threw
      && r.world.sent == w.sent + [Envelope(Num(w.counter), "DOM.enable", Obj(map[]))]
      && Pending(r.world, PropertyKey(Num(w.counter))) == Some(DomEnabled(ThenCss(cb)))
      && r.world.dom == Some(false) && r.world.css == w.css
      && r.world.delivered == w.delivered && r.world.counter == w.counter + 1
  {
  }

  /** With DOM already enabled, `CSS.enable` is sent at once. */
  lemma CssEnableWithDomEnabled(w: World, cb: Option<Callback>)
    requires w.socket && w.dom == Some(true)
    ensures var r := CssEnable(w, cb);
      && r.world.sent == w.sent + [Envelope(Num(w.counter), "CSS.enable", Obj(map[]))]
      && Pending(r.world, PropertyKey(Num(w.counter))) == Some(CssEnabled(cb))
  {
  }

  /** When `DOM.enable` fails, the error reaches the caller, `CSS.enable` is
      never sent and neither module becomes enabled. */
  lemma {:induction false} DomFailureStopsCss(w: World, cb: Callback, error: Value, result: Value)
    requires w.socket && w.css.Some? && w.dom != Some(true) && Truthy(error)
    ensures var w1 := CssEnable(w, Some(cb)).world;
            var w2 := Receive(w1, Parsed(ResponseTo(Num(w.counter), error, result)));
      && w2.sent == w1.sent
      && w2.delivered == w.delivered + [Delivery(cb, [error])]
      && w2.dom == Some(false) && w2.css == w.css
      && PropertyKey(Num(w.counter)) !in w2.callbacks
  {
    CssEnableSendsDomFirst(w, Some(cb));
    var w1 := CssEnable(w, Some(cb)).world;
    var message := ResponseTo(Num(w.counter), error, result);
    assert Prop(message, "id") == Num(w.counter) && Prop(message, "error") == error;
    assert ResponseArgs(message) == [error];
  }

  /** A successful response to a `DOM.enable` sent for CSS marks DOM enabled,
      sends `CSS.enable`, and then deletes both entries of the answered id. */
  lemma DomEnabledThenCss(w: World, message: Value, cb: Option<Callback>)
    requires !Nullish(message) && Prop(message, "id") != Undefined && !Truthy(Prop(message, "error"))
    requires Pending(w, PropertyKey(Prop(message, "id"))) == Some(DomEnabled(ThenCss(cb)))
    requires w.dom.Some? && w.socket
    ensures var key := PropertyKey(Prop(message, "id"));
            var command := if key in w.commands then Some(w.commands[key]) else None;
            var c := Call(Emitted(w, ResponseEmitted(command, message)).(dom := Some(true)),
                          "CSS.enable", Fn(CssEnabled(cb)), Val(Undefined), None);
      Receive(w, Parsed(message)) == ForgetCommand(ForgetCallback(c.world, key), key)
  {
    var key := PropertyKey(Prop(message, "id"));
    var command := if key in w.commands then Some(w.commands[key]) else None;
    var we := Emitted(w, ResponseEmitted(command, message));
    var args := ResponseArgs(message);
    assert args == [Null, Prop(message, "result")];
    assert Receive(w, Parsed(message)) == Settle(we, key, args);
    assert Pending(we, key) == Some(DomEnabled(ThenCss(cb)));
    var c := Call(we.(dom := Some(true)), "CSS.enable", Fn(CssEnabled(cb)), Val(Undefined), None);
    assert Run(we, DomEnabled(ThenCss(cb)), args) == c;
  }

  /** When `DOM.enable` succeeds, DOM becomes enabled and `CSS.enable` goes
      out under the next id, with CSS's own continuation. */
  lemma {:induction false} DomSuccessSendsCss(w: World, cb: Option<Callback>, result: Value)
    requires w.socket && w.css.Some? && w.dom != Some(true)
    ensures var w1 := CssEnable(w, cb).world;
            var w2 := Receive(w1, Parsed(ResponseTo(Num(w.counter), Undefined, result)));
      && w2.sent == w1.sent + [Envelope(Num(w.counter + 1), "CSS.enable", Obj(map[]))]
      && Pending(w2, PropertyKey(Num(w.counter + 1))) == Some(CssEnabled(cb))
      && PropertyKey(Num(w.counter)) !in w2.callbacks
      && w2.dom == Some(true) && w2.css == w.css && w2.delivered == w.delivered
  {
    CssEnableSendsDomFirst(w, cb);
    var w1 := CssEnable(w, cb).world;
    var message := ResponseTo(Num(w.counter), Undefined, result);
    var ka, kb := PropertyKey(Num(w.counter)), PropertyKey(Num(w.counter + 1));
    assert Prop(message, "id") == Num(w.counter) && Prop(message, "error") == Undefined;
    if ka == kb {
      NumKeysInjective(w.counter, w.counter + 1);
    }
    DomEnabledThenCss(w1, message, cb);
    var command := if ka in w1.commands then Some(w1.commands[ka]) else None;
    var before := Emitted(w1, ResponseEmitted(command, message)).(dom := Some(true));
    var c := Call(before, "CSS.enable", Fn(CssEnabled(cb)), Val(Undefined), None);
    assert c.world.sent == w1.sent + [Envelope(Num(w.counter + 1), "CSS.enable", Obj(map[]))];
    assert Pending(c.world, kb) == Some(CssEnabled(cb));
    assert c.world.dom == Some(true) && c.world.css == w.css && c.world.delivered == w.delivered;
  }

  /** CSS's flag becomes true exactly when `CSS.enable` succeeds, and the
      caller hears `(error)` or `(null)`. */
  lemma CssFlagOnResponse(w: World, key: Value, cb: Callback, error: Value, result: Value)
    requires w.css.Some? && key != Undefined
    requires Pending(w, PropertyKey(key)) == Some(CssEnabled(Some(cb)))
    ensures var r := Receive(w, Parsed(ResponseTo(key, error, result)));
      && r.css == Some(w.css.value.(enabled := w.css.value.enabled || !Truthy(error)))
      && r.delivered == w.delivered + [Delivery(cb, [if Truthy(error) then error else Null])]
      && r.sent == w.sent
  {
    var message := ResponseTo(key, error, result);
    assert Prop(message, "id") == key && Prop(message, "error") == error;
  }

  /** `error: false` is not an error: the callback receives `(null, result)`. */
  lemma FalseErrorIsSuccess(id: Value, result: Value)
    ensures ResponseArgs(ResponseTo(id, Bool(false), result)) == [Null, result]
  {
    assert Prop(ResponseTo(id, Bool(false), result), "error") == Bool(false);
  }
}
