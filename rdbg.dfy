/** The objects of lib/rdbg.js: the `Client` with its counter and two tables,
    and the domain modules it creates lazily. Each method is proved to have
    exactly the effect the matching function of ClientSpec describes. */
module Rdbg {
  import opened Json
  import opened Wire
  import opened Domains
  import opened ClientSpec

  class Client {
    var counter: nat
    var callbacks: map<string, Option<Continuation>>
    var commands: map<string, Envelope>
    var socket: bool
    var sent: seq<Envelope>
    var emitted: seq<ClientEvent>
    var delivered: seq<Delivery>
    var console: Console?
    var debugger: Debugger?
    var runtime: Runtime?
    var css: Css?
    var dom: Dom?

    /** Every domain module the client created refers back to it. */
    ghost predicate Valid()
      reads this
    {
      && (console != null ==> console.client == this)
      && (debugger != null ==> debugger.client == this)
      && (runtime != null ==> runtime.client == this)
      && (css != null ==> css.client == this)
      && (dom != null ==> dom.client == this)
    }

    ghost function Modules(): (Console?, Debugger?, Runtime?, Css?, Dom?)
      reads this
    {
      (console, debugger, runtime, css, dom)
    }

    /** The client and its domain modules as a value. */
    ghost function State(): World
      reads this, console, debugger, css, dom
    {
      World(counter, callbacks, commands, socket, sent, emitted, delivered,
            if console == null then None else Some(ConsoleState(console.queue, console.clears)),
            if debugger == null then None else Some(debugger.events),
            if css == null then None else Some(CssState(css.enabled, css.events)),
            if dom == null then None else Some(dom.enabled))
    }

    constructor ()
      ensures Valid() && State() == Initial && runtime == null
    {
      counter := 0;
      callbacks := map[];
      commands := map[];
      socket := false;
      sent, emitted, delivered := [], [], [];
      console, debugger, runtime, css, dom := null, null, null, null, null;
    }

    method Connect()
      modifies this
      ensures State() == Connected(old(State())) && Modules() == old(Modules())
    {
      socket := true;
      emitted := emitted + [SocketEmitted];
    }

    /** The socket's `open` handler. */
    method OnOpen()
      modifies this
      ensures State() == Opened(old(State())) && Modules() == old(Modules())
    {
      EmitEvent(ConnectEmitted);
    }

    /** The socket's `error` handler. */
    method OnError()
      modifies this
      ensures State() == SocketFailed(old(State())) && Modules() == old(Modules())
    {
      EmitEvent(ErrorEmitted);
    }

    /** The socket's `close` handler. */
    method OnClose()
      modifies this
      ensures State() == Closed(old(State())) && Modules() == old(Modules())
    {
      EmitEvent(CloseEmitted);
    }

    method Request(methodName: string, parameters: Arg<Continuation>, id: Arg<Continuation>,
                   callback: Option<Continuation>) returns (threw: bool)
      modifies this
      ensures Step(State(), threw) == Call(old(State()), methodName, parameters, id, callback)
      ensures Modules() == old(Modules())
    {
      var n := Normalize(parameters, id, callback, counter);
      var request := Envelope(n.id, methodName, n.params);
      Store(request, n.callback, n.counter);
      threw := Transmit(request);
    }

    method Store(request: Envelope, callback: Option<Continuation>, next: nat)
      modifies this
      ensures State() == Register(old(State()), request, callback, next)
      ensures Modules() == old(Modules())
    {
      counter := next;
      callbacks := callbacks[PropertyKey(request.id) := callback];
      commands := commands[PropertyKey(request.id) := request];
      emitted := emitted + [RequestEmitted(request)];
    }

    method Transmit(request: Envelope) returns (threw: bool)
      modifies this
      ensures Step(State(), threw) == Send(old(State()), request)
      ensures Modules() == old(Modules())
    {
      if socket {
        sent := sent + [request];
      }
      threw := !socket;
    }

    method CallBack(cb: Option<Callback>, args: seq<Value>) returns (threw: bool)
      modifies this
      ensures var s := Invoke(old(State()), cb, args); State() == s.world && threw == s.threw
      ensures Modules() == old(Modules())
    {
      if cb.None? {
        return true;
      }
      delivered := delivered + [Delivery(cb.value, args)];
      return false;
    }

    /** Runs a stored continuation: the bodies of the closures the domain
        modules pass to `request`. */
    method RunContinuation(k: Continuation, args: seq<Value>) returns (threw: bool)
      modifies this, dom, css
      ensures var s := Run(old(State()), k, args); State() == s.world && threw == s.threw
      ensures Modules() == old(Modules())
    {
      var error := if |args| > 0 then args[0] else Undefined;
      var result := if |args| > 1 then args[1] else Undefined;
      match k
      case Direct(cb) =>
        threw := CallBack(Some(cb), args);
      case ErrorOnly(cb) =>
        threw := CallBack(cb, [error]);
      case Field(cb, name) =>
        if Truthy(error) {
          threw := CallBack(cb, [error]);
        } else if Nullish(result) {
          threw := true;
        } else {
          threw := CallBack(cb, [Null, Prop(result, name)]);
        }
      case Evaluated(cb) =>
        if Truthy(error) {
          threw := CallBack(cb, [error]);
        } else if Nullish(result) {
          threw := true;
        } else {
          threw := CallBack(cb, [Null, Prop(result, "result"), Prop(result, "wasThrown")]);
        }
      case DomEnabled(next) =>
        threw := DomEnableCallback(next, error);
      case CssEnabled(cb) =>
        threw := CssEnableCallback(cb, error);
    }

    method DomEnableCallback(next: DomNext, error: Value) returns (threw: bool)
      modifies this, dom
      ensures Step(State(), threw) == DomEnableDone(old(State()), next, error)
      ensures Modules() == old(Modules())
    {
      if !Truthy(error) && dom != null {
        dom.enabled := true;
      }
      match next {
        case Report(cb) =>
          threw := CallBack(cb, [error]);
        case ThenCss(cb) =>
          if !Truthy(error) {
            threw := Request("CSS.enable", Fn(CssEnabled(cb)), Val(Undefined), None);
          } else {
            threw := CallBack(cb, [error]);
          }
      }
    }

    method CssEnableCallback(cb: Option<Callback>, error: Value) returns (threw: bool)
      modifies this, css
      ensures Step(State(), threw) == CssEnableDone(old(State()), cb, error)
      ensures Modules() == old(Modules())
    {
      if !Truthy(error) && css != null {
        css.enabled := true;
      }
      threw := CallBack(cb, [error]);
    }

    /** Emits `message(method, params)` to the listeners of the domain modules. */
    method EmitMessage(methodName: Value, params: Value) returns (threw: bool)
      modifies console, debugger, css
      ensures Step(State(), threw) == Listen(old(State()), methodName, params)
    {
      threw := ToConsole(methodName, params);
      if !threw {
        threw := ToDebuggerAndCss(methodName, params);
      }
    }

    /** The listeners after console's, once console's has not thrown. */
    method ToDebuggerAndCss(methodName: Value, params: Value) returns (threw: bool)
      modifies debugger, css
      ensures Step(State(), threw) == CssListen(DebuggerListen(old(State()), methodName, params), methodName, params)
    {
      ToDebugger(methodName, params);
      threw := ToCss(methodName, params);
    }

    method ToConsole(methodName: Value, params: Value) returns (threw: bool)
      modifies console
      ensures Step(State(), threw) == ConsoleListen(old(State()), methodName, params)
    {
      threw := false;
      if console != null {
        threw := console.Listener(methodName, params);
      }
    }

    method ToDebugger(methodName: Value, params: Value)
      modifies debugger
      ensures State() == DebuggerListen(old(State()), methodName, params)
    {
      if debugger != null {
        debugger.Listener(methodName, params);
      }
    }

    method ToCss(methodName: Value, params: Value) returns (threw: bool)
      modifies css
      ensures Step(State(), threw) == CssListen(old(State()), methodName, params)
    {
      threw := false;
      if css != null {
        threw := css.Listener(methodName, params);
      }
    }

    method EmitEvent(e: ClientEvent)
      modifies this
      ensures State() == Emitted(old(State()), e) && Modules() == old(Modules())
    {
      emitted := emitted + [e];
    }

    method DeleteCallback(key: string)
      modifies this
      ensures State() == ForgetCallback(old(State()), key) && Modules() == old(Modules())
    {
      callbacks := callbacks - {key};
    }

    method DeleteCommand(key: string)
      modifies this
      ensures State() == ForgetCommand(old(State()), key) && Modules() == old(Modules())
    {
      commands := commands - {key};
    }

    /** The handler's branch for a message with an id. */
    method OnResponse(message: Value)
      requires !Nullish(message)
      modifies this, css, dom
      ensures State() == Respond(old(State()), message)
      ensures Modules() == old(Modules())
    {
      var key := PropertyKey(Prop(message, "id"));
      var command := if key in commands then Some(commands[key]) else None;
      EmitEvent(ResponseEmitted(command, message));
      Complete(key, ResponseArgs(message));
    }

    /** Runs the pending callback, if any, and deletes the entries. */
    method Complete(key: string, args: seq<Value>)
      modifies this, css, dom
      ensures State() == Settle(old(State()), key, args)
      ensures Modules() == old(Modules())
    {
      var callback := if key in callbacks then callbacks[key] else None;
      if callback.Some? {
        var threw := RunContinuation(callback.value, args);
        if threw {
          EmitEvent(ErrorEmitted);
        } else {
          DeleteCallback(key);
          DeleteCommand(key);
        }
      } else {
        DeleteCommand(key);
      }
    }

    /** The handler's branch for a message without an id. */
    method OnEvent(message: Value)
      requires !Nullish(message)
      modifies this, console, debugger, css
      ensures State() == Broadcast(old(State()), message)
      ensures Modules() == old(Modules())
    {
      EmitEvent(MessageEmitted(Prop(message, "method"), Prop(message, "params")));
      var threw := EmitMessage(Prop(message, "method"), Prop(message, "params"));
      if threw {
        EmitEvent(ErrorEmitted);
      }
    }

    /** The socket's `message` handler. */
    method OnMessage(inbound: Inbound)
      modifies this, console, debugger, css, dom
      ensures State() == Receive(old(State()), inbound)
      ensures Modules() == old(Modules())
    {
      match inbound
      case Unparsable =>
        EmitEvent(ErrorEmitted);
      case Parsed(message) =>
        if Nullish(message) {
          EmitEvent(ErrorEmitted);
        } else if Prop(message, "id") != Undefined {
          OnResponse(message);
        } else {
          OnEvent(message);
        }
    }

    /** The `console` getter: creates the module once, then returns the same one. */
    method GetConsole() returns (c: Console)
      requires Valid()
      modifies this
      ensures Valid() && c == console
      ensures old(console) != null ==> c == old(console) && State() == old(State())
      ensures old(console) == null ==> fresh(c) && State() == old(State()).(console := Some(ConsoleState([], 0)))
      ensures (debugger, runtime, css, dom) == old((debugger, runtime, css, dom))
    {
      if console == null {
        console := new Console(this);
      }
      c := console;
    }

    /** The `debugger` getter. */
    method GetDebugger() returns (d: Debugger)
      requires Valid()
      modifies this
      ensures Valid() && d == debugger
      ensures old(debugger) != null ==> d == old(debugger) && State() == old(State())
      ensures old(debugger) == null ==> fresh(d) && State() == old(State()).(debugger := Some([]))
      ensures (console, runtime, css, dom) == old((console, runtime, css, dom))
    {
      if debugger == null {
        debugger := new Debugger(this);
      }
      d := debugger;
    }

    /** The `runtime` getter; the runtime module holds no state of its own. */
    method GetRuntime() returns (r: Runtime)
      requires Valid()
      modifies this
      ensures Valid() && r == runtime && State() == old(State())
      ensures old(runtime) != null ==> r == old(runtime)
      ensures old(runtime) == null ==> fresh(r)
      ensures (console, debugger, css, dom) == old((console, debugger, css, dom))
    {
      if runtime == null {
        runtime := new Runtime(this);
      }
      r := runtime;
    }

    /** The `css` getter. */
    method GetCss() returns (c: Css)
      requires Valid()
      modifies this
      ensures Valid() && c == css
      ensures old(css) != null ==> c == old(css) && State() == old(State())
      ensures old(css) == null ==> fresh(c) && State() == old(State()).(css := Some(CssState(false, [])))
      ensures (console, debugger, runtime, dom) == old((console, debugger, runtime, dom))
    {
      if css == null {
        css := new Css(this);
      }
      c := css;
    }

    /** The `dom` getter. */
    method GetDom() returns (d: Dom)
      requires Valid()
      modifies this
      ensures Valid() && d == dom
      ensures old(dom) != null ==> d == old(dom) && State() == old(State())
      ensures old(dom) == null ==> fresh(d) && State() == old(State()).(dom := Some(false))
      ensures (console, debugger, runtime, css) == old((console, debugger, runtime, css))
    {
      if dom == null {
        dom := new Dom(this);
      }
      d := dom;
    }
  }

  /** A readable stream of console messages. */
  class Console {
    const client: Client
    var queue: seq<Value>
    var clears: nat

    constructor (client: Client)
      ensures this.client == client && queue == [] && clears == 0
    {
      this.client := client;
      queue := [];
      clears := 0;
    }

    /** The listener the constructor adds to the client's `message` event. */
    method Listener(methodName: Value, params: Value) returns (threw: bool)
      modifies this
      ensures var r := ConsoleRoute(methodName, params);
        && threw == (r == ListenerThrew)
        && ConsoleState(queue, clears) == (if r.Emit? then ConsoleApply(old(ConsoleState(queue, clears)), r.event)
                                           else old(ConsoleState(queue, clears)))
    {
      var r := ConsoleRoute(methodName, params);
      threw := r == ListenerThrew;
      if r.Emit? {
        match r.event {
          case Push(m) => queue := queue + [m];
          case Cleared => clears := clears + 1;
        }
      }
    }

    method Enable(callback: Option<Callback>) returns (threw: bool)
      modifies client
      ensures var s := Call(old(client.State()), "Console.enable", Fn(ErrorOnly(callback)), Val(Undefined), None);
        client.State() == s.world && threw == s.threw
      ensures client.Modules() == old(client.Modules())
    {
      threw := client.Request("Console.enable", Fn(ErrorOnly(callback)), Val(Undefined), None);
    }

    /** Sends `Console.enable`, as lib/rdbg.js:41-45 is written. */
    method Disable(callback: Option<Callback>) returns (threw: bool)
      modifies client
      ensures var s := Call(old(client.State()), "Console.enable", Fn(ErrorOnly(callback)), Val(Undefined), None);
        client.State() == s.world && threw == s.threw
      ensures client.Modules() == old(client.Modules())
    {
      threw := client.Request("Console.enable", Fn(ErrorOnly(callback)), Val(Undefined), None);
    }
  }

  class Debugger {
    const client: Client
    var events: seq<DebuggerEvent>

    constructor (client: Client)
      ensures this.client == client && events == []
    {
      this.client := client;
      events := [];
    }

    /** The listener the constructor adds to the client's `message` event. */
    method Listener(methodName: Value, params: Value)
      modifies this
      ensures var r := DebuggerRoute(methodName, params);
        events == if r.Emit? then old(events) + [r.event] else old(events)
    {
      var r := DebuggerRoute(methodName, params);
      if r.Emit? {
        events := events + [r.event];
      }
    }

    method Enable(callback: Option<Callback>) returns (threw: bool)
      modifies client
      ensures var s := Call(old(client.State()), "Debugger.enable", Fn(ErrorOnly(callback)), Val(Undefined), None);
        client.State() == s.world && threw == s.threw
      ensures client.Modules() == old(client.Modules())
    {
      threw := client.Request("Debugger.enable", Fn(ErrorOnly(callback)), Val(Undefined), None);
    }

    method Disable(callback: Option<Callback>) returns (threw: bool)
      modifies client
      ensures var s := Call(old(client.State()), "Debugger.disable", Fn(ErrorOnly(callback)), Val(Undefined), None);
        client.State() == s.world && threw == s.threw
      ensures client.Modules() == old(client.Modules())
    {
      threw := client.Request("Debugger.disable", Fn(ErrorOnly(callback)), Val(Undefined), None);
    }

    method Pause(callback: Option<Callback>) returns (threw: bool)
      modifies client
      ensures var s := Call(old(client.State()), "Debugger.pause", Fn(ErrorOnly(callback)), Val(Undefined), None);
        client.State() == s.world && threw == s.threw
      ensures client.Modules() == old(client.Modules())
    {
      threw := client.Request("Debugger.pause", Fn(ErrorOnly(callback)), Val(Undefined), None);
    }

    method CanSetScriptSource(callback: Option<Callback>) returns (threw: bool)
      modifies client
      ensures var s := Call(old(client.State()), "Debugger.canSetScriptSource", Fn(Field(callback, "result")), Val(Undefined), None);
        client.State() == s.world && threw == s.threw
      ensures client.Modules() == old(client.Modules())
    {
      threw := client.Request("Debugger.canSetScriptSource", Fn(Field(callback, "result")), Val(Undefined), None);
    }

    method GetScriptSource(scriptId: Value, callback: Option<Callback>) returns (threw: bool)
      modifies client
      ensures var s := Call(old(client.State()), "Debugger.getScriptSource",
                            Val(Obj(map["scriptId" := scriptId])), Fn(Field(callback, "scriptSource")), None);
        client.State() == s.world && threw == s.threw
      ensures client.Modules() == old(client.Modules())
    {
      threw := client.Request("Debugger.getScriptSource", Val(Obj(map["scriptId" := scriptId])),
                              Fn(Field(callback, "scriptSource")), None);
    }

    method SetScriptSource(scriptId: Value, source: Value, callback: Option<Callback>) returns (threw: bool)
      modifies client
      ensures var s := Call(old(client.State()), "Debugger.setScriptSource",
                            Val(Obj(map["scriptId" := scriptId, "scriptSource" := source])), Passed(callback), None);
        client.State() == s.world && threw == s.threw
      ensures client.Modules() == old(client.Modules())
    {
      threw := client.Request("Debugger.setScriptSource",
                              Val(Obj(map["scriptId" := scriptId, "scriptSource" := source])), Passed(callback), None);
    }
  }

  class Runtime {
    const client: Client

    constructor (client: Client)
      ensures this.client == client
    {
      this.client := client;
    }

    method Enable(callback: Option<Callback>) returns (threw: bool)
      modifies client
      ensures var s := Call(old(client.State()), "Runtime.enable", Fn(ErrorOnly(callback)), Val(Undefined), None);
        client.State() == s.world && threw == s.threw
      ensures client.Modules() == old(client.Modules())
    {
      threw := client.Request("Runtime.enable", Fn(ErrorOnly(callback)), Val(Undefined), None);
    }

    /** `evaluate(cmd, options, callback)`, where a function in the options
        slot is the callback. */
    method Evaluate(cmd: Value, options: Arg<Callback>, callback: Option<Callback>) returns (threw: bool)
      modifies client
      ensures var opts := if options.Fn? then Undefined else options.v;
              var cb := if options.Fn? then Some(options.f) else callback;
              var s := Call(old(client.State()), "Runtime.evaluate", Val(EvaluateParams(cmd, opts)), Fn(Evaluated(cb)), None);
        client.State() == s.world && threw == s.threw
      ensures client.Modules() == old(client.Modules())
    {
      var opts, cb := Undefined, callback;
      if options.Fn? {
        cb := Some(options.f);
      } else {
        opts := options.v;
      }
      threw := client.Request("Runtime.evaluate", Val(EvaluateParams(cmd, opts)), Fn(Evaluated(cb)), None);
    }
  }

  class Css {
    const client: Client
    var enabled: bool
    var events: seq<CssEvent>

    constructor (client: Client)
      ensures this.client == client && !enabled && events == []
    {
      this.client := client;
      enabled := false;
      events := [];
    }

    /** The listener the constructor adds to the client's `message` event. */
    method Listener(methodName: Value, params: Value) returns (threw: bool)
      modifies this
      ensures var r := CssRoute(methodName, params);
        && threw == (r == ListenerThrew) && enabled == old(enabled)
        && events == if r.Emit? then old(events) + [r.event] else old(events)
    {
      var r := CssRoute(methodName, params);
      threw := r == ListenerThrew;
      if r.Emit? {
        events := events + [r.event];
      }
    }

    /** Enables DOM first when it is not enabled; see ClientSpec.CssEnable. */
    method Enable(callback: Option<Callback>) returns (threw: bool)
      requires client.Valid() && client.css == this
      modifies client
      ensures client.Valid() && client.css == this && client.dom != null
      ensures var s := CssEnable(old(client.State()), callback); client.State() == s.world && threw == s.threw
      ensures old(client.dom) != null ==> client.dom == old(client.dom)
      ensures old(client.dom) == null ==> fresh(client.dom)
      ensures (client.console, client.debugger, client.runtime) == old((client.console, client.debugger, client.runtime))
    {
      var dom := client.GetDom();
      threw := EnableWith(dom, callback);
    }

    method EnableWith(dom: Dom, callback: Option<Callback>) returns (threw: bool)
      requires client.Valid() && client.dom == dom && dom.client == client
      modifies client
      ensures client.State().dom.Some?
      ensures Step(client.State(), threw) == CssEnableWithDom(old(client.State()), callback)
      ensures client.Modules() == old(client.Modules())
    {
      if !dom.enabled {
        threw := dom.Enable(ThenCss(callback));
      } else {
        threw := client.Request("CSS.enable", Fn(CssEnabled(callback)), Val(Undefined), None);
      }
    }

    method GetStyleSheetText(styleSheetId: Value, callback: Option<Callback>) returns (threw: bool)
      modifies client
      ensures var s := Call(old(client.State()), "CSS.getStyleSheetText",
                            Val(Obj(map["styleSheetId" := styleSheetId])), Fn(Field(callback, "text")), None);
        client.State() == s.world && threw == s.threw
      ensures client.Modules() == old(client.Modules())
    {
      threw := client.Request("CSS.getStyleSheetText", Val(Obj(map["styleSheetId" := styleSheetId])),
                              Fn(Field(callback, "text")), None);
    }

    method SetStyleSheetText(styleSheetId: Value, text: Value, callback: Option<Callback>) returns (threw: bool)
      modifies client
      ensures var s := Call(old(client.State()), "CSS.setStyleSheetText",
                            Val(Obj(map["styleSheetId" := styleSheetId, "text" := text])), Passed(callback), None);
        client.State() == s.world && threw == s.threw
      ensures client.Modules() == old(client.Modules())
    {
      threw := client.Request("CSS.setStyleSheetText", Val(Obj(map["styleSheetId" := styleSheetId, "text" := text])),
                              Passed(callback), None);
    }
  }

  class Dom {
    const client: Client
    var enabled: bool

    constructor (client: Client)
      ensures this.client == client && !enabled
    {
      this.client := client;
      enabled := false;
    }

    /** `enable(callback)`; `next` is the caller's callback, or the rest of
        `CSS.enable` when CSS asks. */
    method Enable(next: DomNext) returns (threw: bool)
      requires client.Valid() && client.dom == this
      modifies client
      ensures var s := Call(old(client.State()), "DOM.enable", Fn(DomEnabled(next)), Val(Undefined), None);
        client.State() == s.world && threw == s.threw
      ensures client.Modules() == old(client.Modules())
    {
      threw := client.Request("DOM.enable", Fn(DomEnabled(next)), Val(Undefined), None);
    }

    method GetDocument(callback: Option<Callback>) returns (threw: bool)
      modifies client
      ensures var s := Call(old(client.State()), "DOM.getDocument", Val(Obj(map[])), Fn(Field(callback, "root")), None);
        client.State() == s.world && threw == s.threw
      ensures client.Modules() == old(client.Modules())
    {
      threw := client.Request("DOM.getDocument", Val(Obj(map[])), Fn(Field(callback, "root")), None);
    }

    method QuerySelector(nodeId: Value, selector: Value, callback: Option<Callback>) returns (threw: bool)
      modifies client
      ensures var s := Call(old(client.State()), "DOM.querySelector",
                            Val(Obj(map["nodeId" := nodeId, "selector" := selector])), Fn(Field(callback, "nodeId")), None);
        client.State() == s.world && threw == s.threw
      ensures client.Modules() == old(client.Modules())
    {
      threw := client.Request("DOM.querySelector", Val(Obj(map["nodeId" := nodeId, "selector" := selector])),
                              Fn(Field(callback, "nodeId")), None);
    }

    method QuerySelectorAll(nodeId: Value, selector: Value, callback: Option<Callback>) returns (threw: bool)
      modifies client
      ensures var s := Call(old(client.State()), "DOM.querySelectorAll",
                            Val(Obj(map["nodeId" := nodeId, "selector" := selector])), Fn(Field(callback, "nodeIds")), None);
        client.State() == s.world && threw == s.threw
      ensures client.Modules() == old(client.Modules())
    {
      threw := client.Request("DOM.querySelectorAll", Val(Obj(map["nodeId" := nodeId, "selector" := selector])),
                              Fn(Field(callback, "nodeIds")), None);
    }

    method SetNodeValue(nodeId: Value, text: Value, callback: Option<Callback>) returns (threw: bool)
      modifies client
      ensures var s := Call(old(client.State()), "DOM.setNodeValue",
                            Val(Obj(map["nodeId" := nodeId, "string" := text])), Passed(callback), None);
        client.State() == s.world && threw == s.threw
      ensures client.Modules() == old(client.Modules())
    {
      threw := client.Request("DOM.setNodeValue", Val(Obj(map["nodeId" := nodeId, "string" := text])),
                              Passed(callback), None);
    }

    method SetAttributeValue(nodeId: Value, name: Value, value: Value, callback: Option<Callback>) returns (threw: bool)
      modifies client
      ensures var s := Call(old(client.State()), "DOM.setAttributeValue",
                            Val(Obj(map["nodeId" := nodeId, "name" := name, "value" := value])), Passed(callback), None);
        client.State() == s.world && threw == s.threw
      ensures client.Modules() == old(client.Modules())
    {
      threw := client.Request("DOM.setAttributeValue", Val(Obj(map["nodeId" := nodeId, "name" := name, "value" := value])),
                              Passed(callback), None);
    }
  }
}
