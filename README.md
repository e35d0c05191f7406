# node-rdbg core in Dafny

This project models the request/response correlation and event dispatch of
node-rdbg, a client for the Chrome DevTools remote-debugging protocol.

**lib/rdbg.js, `Client`.**
- `request` resolves its overloaded arguments.
- It takes an id from the per-client `_counter` unless the caller gives one.
- It stores the callback in `_callbacks` and the envelope in `_commands`, both under that id, emits `request`, then hands the envelope to the socket.
- The socket's `message` handler sorts every inbound message:
  - A message whose `id` is defined is a response. The stored callback gets `(error)` or `(null, result)`, then both entries are deleted.
  - Any other message is an event, emitted as `message(method, params)` to the domain modules' listeners.
  - A parse failure, or anything thrown in between, is emitted as `error`.
- The domain modules are created lazily by memoising getters:
  - `Console` queues `messageAdded` payloads and emits `clear`.
  - `Debugger` and `CSS` rename protocol events.
  - `Runtime.evaluate` merges its options into `{expression}`.
  - `DOM` and `CSS` keep an `enabled` flag, and `CSS.enable` enables DOM first when needed.

**lib/index.js** carries the same `Client`, without the CSS and DOM modules. Its `Debugger` class body defines `disable` twice.

**index.js, `ChromeConnection`.** An older connection class:
- `_send` keys callbacks by `Date.now()`.
- `_process` tells responses from events by whether `id` is truthy.
- Every `Debugger.scriptParsed` event is remembered.
- `source(filename, …)` finds the first script whose URL basename is `filename`, then sends `Debugger.setScriptSource`.

## Layout

| file | module | content |
|---|---|---|
| json.dfy | Json | JavaScript values, truthiness, property reads, `String(v)` as a property key, injectivity of decimal keys |
| wire.dfy | Wire | envelopes, inbound messages, opaque application callbacks, `request`'s argument normalisation |
| domains.dfy | Domains | the closures the domain modules store as callbacks, their event routing, `Runtime.evaluate`'s parameters |
| client_spec.dfy | ClientSpec | the state of a client and its modules as a value (`World`), one function per operation, and the properties |
| rdbg.dfy | Rdbg | the classes `Client`, `Console`, `Debugger`, `Runtime`, `Css`, `Dom`, each method proved to follow its function in ClientSpec |
| lib_index.dfy | ClassBodies | how a class body with a repeated method name resolves, and the Debugger and Console bodies of both files |
| chrome_connection.dfy | Chrome | `ChromeConnection` as a value with its functions and properties, and the class proved to follow them |

**How the model handles JavaScript.**
- A JavaScript value is `Json.Value`, and a table key is `PropertyKey(id)`, the string `String(id)` that JavaScript uses as the key.
- An application callback is an opaque token. Calling one appends a `Delivery` to a log.
- Emitted events are a log, and so is the socket: the envelopes handed to it.
- Reading a property of `null` or `undefined`, or calling a callback the caller left out, throws a TypeError. This is modelled as a `threw` flag, and effects before the throw remain.

**Behaviour of the code the model keeps as written.**
- When the socket closes, pending callbacks are not failed; only `close` is emitted.
- A request made before `connect` throws at `this._socket.send`. The client itself makes no "not connected" check; a socket that is not open is left to the WebSocket library (see "## Left out").
- A response's `error` and `result` are not exclusive. A truthy `error` wins, and a missing `result` is delivered as `undefined`.
- `Console.disable` sends `Console.enable`.
- In index.js:
  - ids come from the clock, so two requests in the same millisecond share an entry;
  - a response with id 0 is taken for an event;
  - scripts are never de-duplicated, and `source` uses the earliest matching script, not the latest;
  - a callback receives a response's `params`, not its `result`.

## Model

| member | source | states |
|---|---|---|
| Json.NumKeysInjective | lib/rdbg.js:390-391 | two numeric ids share a table entry only when they are equal |
| Json.CanonicalDigitsPrint | lib/rdbg.js:390-391 | every decimal string without a leading zero is what `String` prints for the number it spells |
| Json.StringIdAliasesNumber | lib/rdbg.js:390-391 | for every canonical decimal string and every natural, a caller's string id names the same entry as the numeric id exactly when it spells that number |
| Wire.Normalize | lib/rdbg.js:366-383 | a function in the id slot, else in the parameters slot, becomes the callback; omitted parameters become `{}` and any other value, `null` included, is kept; an omitted id is the counter's value and advances it by one, and an explicit id is kept and leaves the counter alone |
| Domains.ConsoleRoute | lib/rdbg.js:17-23 | an emitted console event comes from the protocol event of its kind, and a push carries `params.message`; the listener throws exactly on `messageAdded` without `params` |
| Domains.ConsoleIgnores | lib/rdbg.js:17-23 | the console listener ignores exactly the events no console event comes from |
| Domains.DebuggerRoute | lib/rdbg.js:54-62 | the debugger listener never throws, re-emits only its three source events, and passes `params` along |
| Domains.DebuggerRenaming | lib/index.js:54-62 | the listener and the renaming table `scriptParsed`→`scriptParse`, `scriptFailedToParse`→`scriptError`, `globalObjectCleared`→`clear` agree in both directions, and every other event is ignored |
| Domains.CssRoute | lib/rdbg.js:165-173 | each re-emitted CSS event comes from its protocol event and carries `params.header` or `params.styleSheetId` |
| Domains.CssListenerOutcomes | lib/rdbg.js:165-173 | the CSS listener throws exactly on its own three events without `params`, and ignores exactly the events none of them comes from |
| Domains.EvaluateParams | lib/rdbg.js:147-149 | the parameters are an object holding `expression` and every key of the options, where the options' values win; without options they are exactly `{expression: cmd}` |
| ClientSpec.Call | lib/rdbg.js:366-396 | `request` stores the callback and the envelope `{id, method, params}` under the id's key, sets the counter as normalisation says, emits `request`, sends the envelope when there is a socket, and throws when there is none |
| ClientSpec.ResponseArgs | lib/rdbg.js:431-436 | a truthy `error` gives the arguments `(error)`, anything else gives `(null, result)` |
| ClientSpec.Listen | lib/rdbg.js:445 | broadcasting an event changes only the domain modules' own state; none is created or removed, and CSS's `enabled` flag never changes |
| ClientSpec.Opened | lib/rdbg.js:405-408 | the socket opening only emits `connect` |
| ClientSpec.SocketFailed | lib/rdbg.js:415-418 | a socket error only emits `error` |
| ClientSpec.Closed | lib/rdbg.js:410-413 | the socket closing only emits `close`; tables and deliveries are untouched |
| ClientSpec.UnparsableChangesNothing | lib/rdbg.js:421-449 | text that does not parse only emits `error` |
| ClientSpec.EventLeavesTables | lib/rdbg.js:443-446 | a message without an id emits `message(method, params)` and leaves the counter, both tables, the socket log and the deliveries unchanged |
| ClientSpec.UnknownResponseCallsNothing | lib/rdbg.js:424-441 | a response with no pending callback calls nothing, emits `response(command, message)` and removes only the command |
| ClientSpec.ErrorOnlyResponse | lib/rdbg.js:35-39 | an `enable`, `disable` or `pause` closure gives the caller `(error)` on a truthy error and `(null)` otherwise, and both entries of the id go |
| ClientSpec.FieldResponse | lib/rdbg.js:89-97 | a getter's closure gives the caller `(error)`, or `(null, result[name])` when the result is present, and both entries of the id go |
| ClientSpec.EvaluatedResponse | lib/rdbg.js:147-157 | `evaluate`'s closure gives the caller `(error)`, or `(null, result.result, result.wasThrown)`, and both entries of the id go |
| ClientSpec.MissingResultThrows | lib/rdbg.js:431-441 | a success without a result makes a getter's or `evaluate`'s closure throw: nothing is delivered, `response` then `error` are emitted, and both tables are unchanged |
| ClientSpec.MissingCallbackThrows | lib/rdbg.js:35-39 | a response for a closure whose caller gave no callback throws on the call: nothing is delivered, `error` is emitted, and both tables are unchanged |
| ClientSpec.DeliveredExactlyOnce | lib/rdbg.js:424-441 | the pending callback receives the response's arguments once; both entries of that id go, every other entry stays, and the same response again calls nothing |
| ClientSpec.RequestThenResponse | lib/rdbg.js:366-441 | a request and then the response to its counter id: `{id, method, params}` is sent, the callback gets `(error)` or `(null, result)`, and both tables return to their earlier state |
| ClientSpec.IssueAllSends | lib/rdbg.js:380-396 | a run of requests without ids sends exactly the expected envelopes and advances the counter once per request |
| ClientSpec.AutoIdsAreConsecutive | lib/rdbg.js:380-382 | the auto-assigned ids are counter, counter+1, … in order, each with its request's method |
| ClientSpec.AutoSentKeysDistinct | lib/rdbg.js:380-391 | no two auto-assigned envelopes have the same table key |
| ClientSpec.AutoKeysDistinct | lib/rdbg.js:380-391 | two requests without ids never share a table entry |
| ClientSpec.CallPending | lib/rdbg.js:390-391 | after a request, the id's key holds its callback; every other key keeps its callback and its command; nothing is delivered, and the socket and the domain modules are unchanged |
| ClientSpec.TwoResponses | lib/rdbg.js:424-441 | two callbacks pending under different keys each receive their own response, in arrival order |
| ClientSpec.OutOfOrderResponses | lib/rdbg.js:366-441 | two requests answered in reverse order deliver each response to its own callback |
| ClientSpec.CloseFailsNothing | lib/rdbg.js:410-413 | closing leaves every pending callback pending and calls none |
| ClientSpec.CssEnableSendsDomFirst | lib/rdbg.js:186-197 | `CSS.enable` with DOM not enabled creates the DOM module if needed and sends `DOM.enable` first; neither flag changes yet |
| ClientSpec.CssEnableWithDomEnabled | lib/rdbg.js:198-210 | with DOM enabled, `CSS.enable` is sent at once with CSS's continuation |
| ClientSpec.DomFailureStopsCss | lib/rdbg.js:189-196 | a failed `DOM.enable` reports its error to the caller, never sends `CSS.enable`, and leaves both flags false |
| ClientSpec.DomEnabledThenCss | lib/rdbg.js:186-211 | a successful `DOM.enable` response sets DOM's flag, sends `CSS.enable`, and deletes the answered entries |
| ClientSpec.DomSuccessSendsCss | lib/rdbg.js:186-211 | after `DOM.enable` succeeds, `CSS.enable` goes out under the next id with CSS's continuation, and nothing is delivered yet |
| ClientSpec.CssFlagOnResponse | lib/rdbg.js:204-209 | CSS's flag becomes true exactly on a successful `CSS.enable` response, and the caller receives `(error)` or `(null)` |
| ClientSpec.FalseErrorIsSuccess | lib/index.js:271-275 | `error: false` counts as success, and the callback receives `(null, result)` |
| ClassBodies.Define | lib/index.js:50-123 | every name a class body defines is in its method table |
| ClassBodies.DefinedNames | lib/index.js:50-123 | the method table defines exactly the names the body defines |
| ClassBodies.Resolve | lib/index.js:50-123 | a name resolves exactly when some definition carries it |
| ClassBodies.LastDefinitionWins | lib/index.js:77-93 | a name resolves to the command of its last definition |
| ClassBodies.Shadowed | lib/index.js:77-93 | dropping a definition that a later one of the same name replaces leaves the method table unchanged |
| ClassBodies.Swapped | lib/index.js:77-87 | two neighbouring definitions with different names can be given in either order |
| ClassBodies.IndexDisableSendsDisable | lib/index.js:77-93 | in lib/index.js, `Debugger.disable` sends `Debugger.disable`, although the first definition sent `Debugger.enable` |
| ClassBodies.DebuggerBodiesAgree | lib/index.js:71-122 | the two files' `Debugger` bodies produce the same method table, so every name resolves alike |
| ClassBodies.ConsoleDisableSendsEnable | lib/index.js:41-45 | `Console.disable` sends `Console.enable` |
| Rdbg.Client.constructor | lib/rdbg.js:313-319 | a new client has counter 0, empty tables, no socket and no modules |
| Rdbg.Client.Connect | lib/rdbg.js:452-453 | stores the socket and emits `socket` |
| Rdbg.Client.OnOpen | lib/rdbg.js:405-408 | follows `Opened` |
| Rdbg.Client.OnError | lib/rdbg.js:415-418 | follows `SocketFailed` |
| Rdbg.Client.OnClose | lib/rdbg.js:410-413 | follows `Closed` |
| Rdbg.Client.Request | lib/rdbg.js:366-396 | follows `Call` and creates no module |
| Rdbg.Client.Store | lib/rdbg.js:390-394 | writes both tables, the counter and the `request` event, in the order of the source |
| Rdbg.Client.Transmit | lib/rdbg.js:395 | appends the envelope to the socket log, or throws without a socket |
| Rdbg.Client.RunContinuation | lib/rdbg.js:431-436 | runs a stored closure as `Run` says |
| Rdbg.Client.DomEnableCallback | lib/rdbg.js:254-259 | sets DOM's flag on success, then reports or continues `CSS.enable` |
| Rdbg.Client.CssEnableCallback | lib/rdbg.js:204-209 | sets CSS's flag on success and reports the error |
| Rdbg.Client.EmitMessage | lib/rdbg.js:445 | runs the console, debugger and CSS listeners in turn, and stops at a throw |
| Rdbg.Client.OnResponse | lib/rdbg.js:424-441 | follows the response branch `Respond` |
| Rdbg.Client.Complete | lib/rdbg.js:431-441 | runs the pending closure and deletes the entries, or reports a throw and keeps them |
| Rdbg.Client.OnEvent | lib/rdbg.js:443-446 | follows the event branch `Broadcast` |
| Rdbg.Client.OnMessage | lib/rdbg.js:420-450 | follows the message handler `Receive` |
| Rdbg.Client.GetConsole | lib/rdbg.js:326-331 | returns the existing console, or creates it once with an empty queue |
| Rdbg.Client.GetDebugger | lib/rdbg.js:334-339 | returns the existing debugger, or creates it once with no events |
| Rdbg.Client.GetRuntime | lib/rdbg.js:342-347 | returns the existing runtime, or creates it once |
| Rdbg.Client.GetCss | lib/rdbg.js:350-355 | returns the existing CSS module, or creates it once, not enabled |
| Rdbg.Client.GetDom | lib/rdbg.js:358-363 | returns the existing DOM module, or creates it once, not enabled |
| Rdbg.Console.constructor | lib/rdbg.js:12-26 | a new console has an empty queue and no clears |
| Rdbg.Console.Listener | lib/rdbg.js:17-23 | pushes `params.message` or counts a clear as `ConsoleRoute` says, and throws on `messageAdded` without `params` |
| Rdbg.Console.Enable | lib/rdbg.js:35-39 | sends `Console.enable` with a closure passing only the error |
| Rdbg.Console.Disable | lib/rdbg.js:41-45 | sends `Console.enable` too |
| Rdbg.Debugger.constructor | lib/rdbg.js:51-65 | a new debugger has no events |
| Rdbg.Debugger.Listener | lib/rdbg.js:54-62 | appends the renamed event, or nothing |
| Rdbg.Debugger.Enable | lib/rdbg.js:71-75 | sends `Debugger.enable` |
| Rdbg.Debugger.Disable | lib/rdbg.js:77-81 | sends `Debugger.disable` |
| Rdbg.Debugger.Pause | lib/rdbg.js:83-87 | sends `Debugger.pause` |
| Rdbg.Debugger.CanSetScriptSource | lib/rdbg.js:89-97 | sends `Debugger.canSetScriptSource`, answering with `result.result` |
| Rdbg.Debugger.GetScriptSource | lib/rdbg.js:99-109 | sends `{scriptId}`, answering with `result.scriptSource` |
| Rdbg.Debugger.SetScriptSource | lib/rdbg.js:111-116 | sends `{scriptId, scriptSource}` with the caller's callback as it is |
| Rdbg.Runtime.constructor | lib/rdbg.js:122-129 | the runtime belongs to its client |
| Rdbg.Runtime.Enable | lib/rdbg.js:135-139 | sends `Runtime.enable` |
| Rdbg.Runtime.Evaluate | lib/rdbg.js:141-156 | a function in the options slot is the callback; sends `EvaluateParams`, answering with `result.result` and `result.wasThrown` |
| Rdbg.Css.constructor | lib/rdbg.js:162-176 | a new CSS module is not enabled and has no events |
| Rdbg.Css.Listener | lib/rdbg.js:165-173 | appends the re-emitted event or throws as `CssRoute` says; the flag is untouched |
| Rdbg.Css.Enable | lib/rdbg.js:186-211 | follows `CssEnable`, creating the DOM module when there is none |
| Rdbg.Css.EnableWith | lib/rdbg.js:187-210 | sends `DOM.enable` or `CSS.enable` depending on DOM's flag |
| Rdbg.Css.GetStyleSheetText | lib/rdbg.js:213-223 | sends `{styleSheetId}`, answering with `result.text` |
| Rdbg.Css.SetStyleSheetText | lib/rdbg.js:225-230 | sends `{styleSheetId, text}` |
| Rdbg.Dom.constructor | lib/rdbg.js:236-243 | a new DOM module is not enabled |
| Rdbg.Dom.Enable | lib/rdbg.js:253-260 | sends `DOM.enable` with the flag-setting closure |
| Rdbg.Dom.GetDocument | lib/rdbg.js:262-271 | sends `DOM.getDocument` with `{}`, answering with `result.root` |
| Rdbg.Dom.QuerySelector | lib/rdbg.js:273-283 | sends `{nodeId, selector}`, answering with `result.nodeId` |
| Rdbg.Dom.QuerySelectorAll | lib/rdbg.js:285-295 | sends `{nodeId, selector}`, answering with `result.nodeIds` |
| Rdbg.Dom.SetNodeValue | lib/rdbg.js:297-301 | sends `{nodeId, string}` |
| Rdbg.Dom.SetAttributeValue | lib/rdbg.js:303-307 | sends `{nodeId, name, value}` |
| Chrome.Send | index.js:20-31 | stores the closure under the clock's key, replacing whatever was there, and keeps every other entry; sends `{id: now, method, params}` with a socket and throws without one |
| Chrome.Arguments | index.js:38-42 | a stored callback receives `(error)` when `error` is truthy, and otherwise `(null, params)`, the response's `params` and not its `result` |
| Chrome.Run | index.js:114-120 | the `attach` closure appends its target to the attached targets; the `source` wrapper gives the application `(error)` on a truthy error, else `(null, params)`; a wrapper without an application callback throws and changes nothing; no closure touches the callbacks, the scripts or the socket log |
| Chrome.Process | index.js:33-51 | `null` throws and changes nothing; a truthy id is answered from the callback table; any other message neither throws nor changes anything but the scripts, and the scripts grow by the message's `params` exactly for a `Debugger.scriptParsed` event; nothing is ever sent |
| Chrome.Answer | index.js:34-45 | the answered entry is deleted unless the callback throws, and every other entry stays |
| Chrome.Receive | index.js:89-95 | unparsable text changes nothing, and nothing is sent |
| Chrome.Attach | index.js:79-98 | throws exactly for a nullish target; otherwise only stores the socket |
| Chrome.BasenameIsLastSegment | index.js:102 | a basename holds no slash and ends the path once its trailing slashes are dropped |
| Chrome.BasenameOfJoin | index.js:102 | `dir/name` has basename `name` |
| Chrome.UrlMatches | index.js:101-103 | the filter's test throws exactly for a nullish script or a `url` that is not a string |
| Chrome.FindScriptMeaning | index.js:101-103 | the lookup throws exactly when some script cannot be examined, finds nothing exactly when every script is rejected, and otherwise finds the first match |
| Chrome.Source | index.js:100-121 | an unknown file name calls back with `Unknown script <filename>` and sends nothing; a test that throws makes `source` throw |
| Chrome.UnusableMessagesIgnored | index.js:89-95 | malformed text and a `null` message change nothing |
| Chrome.AnsweredOnce | index.js:34-45 | a response delivers `(error)` or `(null, params)` to its callback and deletes it, so the same response again delivers nothing |
| Chrome.IdZeroNeverAnswered | index.js:34-50 | a response with id 0 is treated as an event: the callback stored under "0" stays and nothing is delivered |
| Chrome.SameClockOverwrites | index.js:20-31 | two sends in the same millisecond leave only the second callback, and only it receives the response |
| Chrome.ScriptsNotDeduplicated | index.js:46-50 | the same `scriptParsed` event twice is remembered twice |
| Chrome.FirstScriptWins | index.js:101-103 | of two scripts with the same file name, `source` picks the earlier |
| Chrome.SourceRoundTrip | index.js:100-121 | a known file sends `Debugger.setScriptSource` with the first match's `scriptId` and the contents, and the response reaches the caller's callback |
| Chrome.AttachAfterEnable | index.js:79-87 | after `attach` and `open`, `Debugger.enable` is sent, and its response emits `attach` with the target, even when it fails |
| Chrome.ResultNotForwarded | index.js:38-42 | a response carrying only `result` reaches the callback as `(null, undefined)` |
| Chrome.ChromeConnection.constructor | index.js:8-16 | a new connection has no callbacks, no scripts and no socket |
| Chrome.ChromeConnection.SendMessage | index.js:20-31 | follows `Send` |
| Chrome.ChromeConnection.Call | index.js:114-120 | follows `Run` |
| Chrome.ChromeConnection.ProcessMessage | index.js:33-51 | follows `Process` |
| Chrome.ChromeConnection.OnMessage | index.js:89-95 | follows `Receive` |
| Chrome.ChromeConnection.AttachTo | index.js:79-98 | follows `Attach` |
| Chrome.ChromeConnection.OnOpen | index.js:83-87 | follows `Opened` |
| Chrome.ChromeConnection.ReplaceSource | index.js:100-121 | follows `Source` |

## Left out

- The WebSocket itself is left out: `ws.connect` and the URI. The socket is a flag plus a log of sent envelopes.
- `Client.close()` (lib/rdbg.js:456-460) is left out. It only closes the socket, and its effect arrives as the `close` event, which is modelled.
- Listener registration is left out: `connect(uri, callback)` adding a `connect` listener, and the module-level `connect` functions (lib/rdbg.js:465-474, lib/index.js:304-313, index.js:126-134). The listeners the application registers are not part of this model.
- HTTP target discovery is left out (`list`, `get`, `targets`): it is network I/O.
- `JSON.parse` and `JSON.stringify` are left out. The parsed message is given as input, and sent envelopes are logged as values. `debuglog` and `util.inspect` have no effect on state.
- EventEmitter machinery is left out:
  - Emitted events are logs.
  - The modules' `message` listeners run in the order console, debugger, CSS. This assumes the modules were created in that order.
  - Emitting `error` with no listener throws in Node; this is not modelled.
  - Application callbacks that throw are not modelled. Only a callback that was left out throws.
- The Readable stream behind `Console` is modelled as a queue. Pushing `null` would end that stream; the model appends it like any other value.
- Numbers are unbounded integers, while JavaScript numbers are doubles. Fractional ids and their keys are not modelled. `this._counter++` stops advancing at 2^53, and `String(n)` switches to exponent form from 1e21.
- ClientSpec.AutoIdsAreConsecutive, ClientSpec.AutoSentKeysDistinct, ClientSpec.AutoKeysDistinct and Json.NumKeysInjective hold in the source only for ids below 2^53.
- `Json.Prop`: property reads see only own fields of objects. `length` and index reads on strings and arrays are not modelled.
- Table keys inherited from `Object.prototype` are left out. `this._commands[message.id]` and `this._callbacks[message.id]` (lib/rdbg.js:425-426, index.js:35) read through the prototype chain. So a response with id `hasOwnProperty` finds an inherited function, emits it as the `command` of `response`, calls it and reports `error`; the model finds no pending entry. A request with the explicit id `__proto__` (lib/rdbg.js:390-391) replaces the tables' prototype instead of adding an entry.
- `Domains.EvaluateParams`: any options value other than a plain object, including an array, is treated as no options. `Object.assign` (lib/rdbg.js:147-149) would copy an array's indexed elements and a string's characters.
- `Date.now()` is a parameter `now`.
- `Chrome.Basename` follows POSIX `path.basename`. Windows separators are not modelled.
- `source` takes `filename` as a string. A non-string filename and its loose comparison are not modelled.
- `ChromeConnection` stores host and port only for `targets`, which is left out. A second `attach` leaves the old socket's handlers running, and `ws.connect` may throw on a malformed URL; neither is modelled.
- The `Runtime` and `DOM` constructors register empty `message` listeners, so there is nothing to model for them.
- Rdbg.Css.Enable and Rdbg.Dom.Enable require the module to be the client's own, the one its getter created. The module classes are exported (lib/rdbg.js:48, 119, 159, 233, 310), and an application may build one directly, as `new CSS(client)` or `new DOM(client)`. Such a module is not part of the client's state in this model. In particular:
  - the enabled flag of a directly built `DOM` or `CSS` is not modelled (lib/rdbg.js:186-197, 253-258);
  - directly built `Console` and `Debugger` modules do not receive `message` events in this model, while in the source their constructors subscribe to them (lib/rdbg.js:17, 54).
- ClientSpec.Call, Rdbg.Client.Transmit and Chrome.Send accept every send once `connect` or `attach` has stored a socket. The WebSocket library's `send` throws while the socket is not open: before `open`, and, in the ws 1.x releases, after `close`. In the source such a request throws after both table entries are written; the model logs it as sent.
- Callback arguments are modelled as functions or absent (`Option<Callback>`). `setScriptSource`, `setStyleSheetText`, `setNodeValue` and `setAttributeValue` pass their `callback` in `request`'s id slot (lib/rdbg.js:111-116, 225-230, 297-307). There, a truthy value that is not a function would become an explicit id, and the counter would not advance (lib/rdbg.js:375-382). That case is not modelled.
- lib/index.js has no separate copy here. Its `Client`, `Console`, `Debugger` and `Runtime` are the lib/rdbg.js code without the CSS and DOM getters, so `Rdbg` models both. `ClassBodies` shows that the two `Debugger` bodies resolve alike.
