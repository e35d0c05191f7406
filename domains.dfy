/** The pure part of the domain modules of lib/rdbg.js: the closures they store
    as callbacks of their requests, how they route protocol events to their own
    events, and the parameters of `Runtime.evaluate`. */
module Domains {
  import opened Json
  import opened Wire

  /** What `DOM.enable`'s callback continues with: the caller's callback, or
      the rest of `CSS.enable` (send `CSS.enable` on success). */
  datatype DomNext = Report(cb: Option<Callback>) | ThenCss(cb: Option<Callback>)

  /** A function stored in the client's callback table. `None` callbacks are
      arguments the caller left out. */
  datatype Continuation =
    | Direct(fn: Callback)                      // the caller's own function
    | ErrorOnly(cb: Option<Callback>)            // error => callback(error)
    | Field(cb: Option<Callback>, name: string)  // callback(error) or callback(null, result[name])
    | Evaluated(cb: Option<Callback>)            // callback(null, result.result, result.wasThrown)
    | DomEnabled(next: DomNext)                  // sets DOM's flag on success, then `next`
    | CssEnabled(cb: Option<Callback>)           // sets CSS's flag on success, then callback(error)

  /** A caller's callback handed to `request` as it is, in the id slot
      (`request(method, params, callback)`); left out, the slot is empty. */
  function Passed(callback: Option<Callback>): Arg<Continuation> {
    if callback.Some? then Fn(Direct(callback.value)) else Val(Undefined)
  }

  /** What a domain's `message` listener does with one event. */
  datatype Routed<+E> = Ignored | Emit(event: E) | ListenerThrew

  // ---------------------------------------------------------------- Console

  datatype ConsoleEvent = Push(message: Value) | Cleared

  /** The protocol event each console event comes from. */
  function ConsoleSource(e: ConsoleEvent): string {
    match e
    case Push(_) => "Console.messageAdded"
    case Cleared => "Console.messagesCleared"
  }

  /** Console's listener: `messageAdded` pushes `params.message` onto the
      stream, `messagesCleared` emits `clear`, every other event is ignored. */
  function ConsoleRoute(methodName: Value, params: Value): (r: Routed<ConsoleEvent>)
    ensures r.Emit? ==> methodName == Str(ConsoleSource(r.event))
    ensures r.Emit? && r.event.Push? ==> r.event.message == Prop(params, "message")
    ensures r == ListenerThrew <==> methodName == Str("Console.messageAdded") && Nullish(params)
  {
    if methodName == Str("Console.messageAdded") then
      if Nullish(params) then ListenerThrew else Emit(Push(Prop(params, "message")))
    else if methodName == Str("Console.messagesCleared") then Emit(Cleared)
    else Ignored
  }

  /** Console's listener ignores exactly the events no console event comes from. */
  lemma ConsoleIgnores(methodName: Value, params: Value)
    ensures ConsoleRoute(methodName, params) == Ignored <==> forall e: ConsoleEvent :: methodName != Str(ConsoleSource(e))
  {
    if methodName == Str("Console.messageAdded") {
      assert methodName == Str(ConsoleSource(Push(Undefined)));
    }
  }

  datatype ConsoleState = ConsoleState(queue: seq<Value>, clears: nat)

  function ConsoleApply(s: ConsoleState, e: ConsoleEvent): ConsoleState {
    match e
    case Push(m) => s.(queue := s.queue + [m])
    case Cleared => s.(clears := s.clears + 1)
  }

  // --------------------------------------------------------------- Debugger

  datatype DebuggerEvent = ScriptParse(params: Value) | ScriptError(params: Value) | Clear

  /** The protocol event each debugger event comes from. */
  function DebuggerSource(e: DebuggerEvent): string {
    match e
    case ScriptParse(_) => "Debugger.scriptParsed"
    case ScriptError(_) => "Debugger.scriptFailedToParse"
    case Clear => "Debugger.globalObjectCleared"
  }

  /** The name under which the debugger module re-emits it. */
  function DebuggerName(e: DebuggerEvent): string {
    match e
    case ScriptParse(_) => "scriptParse"
    case ScriptError(_) => "scriptError"
    case Clear => "clear"
  }

  /** Protocol event name to the debugger module's own event name. */
  const DebuggerRenames: map<string, string> := map[
    "Debugger.scriptParsed" := "scriptParse",
    "Debugger.scriptFailedToParse" := "scriptError",
    "Debugger.globalObjectCleared" := "clear"]

  /** Debugger's listener re-emits three protocol events under its own names,
      passing `params` along, and ignores every other event. */
  function DebuggerRoute(methodName: Value, params: Value): (r: Routed<DebuggerEvent>)
    ensures r != ListenerThrew
    ensures r.Emit? ==> methodName == Str(DebuggerSource(r.event))
    ensures r.Emit? && !r.event.Clear? ==> r.event.params == params
  {
    if methodName == Str("Debugger.scriptParsed") then Emit(ScriptParse(params))
    else if methodName == Str("Debugger.scriptFailedToParse") then Emit(ScriptError(params))
    else if methodName == Str("Debugger.globalObjectCleared") then Emit(Clear)
    else Ignored
  }

  /** The renaming table and the listener agree in both directions. */
  lemma DebuggerRenaming(methodName: Value, params: Value)
    ensures DebuggerRoute(methodName, params) == Ignored <==> forall e: DebuggerEvent :: methodName != Str(DebuggerSource(e))
    ensures DebuggerRoute(methodName, params).Emit? <==> methodName.Str? && methodName.s in DebuggerRenames
    ensures DebuggerRoute(methodName, params).Emit? ==>
      DebuggerName(DebuggerRoute(methodName, params).event) == DebuggerRenames[methodName.s]
  {
  }

  // -------------------------------------------------------------------- CSS

  datatype CssEvent = StyleSheetAdded(header: Value) | StyleSheetRemoved(removedId: Value) | StyleSheetChanged(changedId: Value)

  function CssSource(e: CssEvent): string {
    match e
    case StyleSheetAdded(_) => "CSS.styleSheetAdded"
    case StyleSheetRemoved(_) => "CSS.styleSheetRemoved"
    case StyleSheetChanged(_) => "CSS.styleSheetChanged"
  }

  /** CSS's listener re-emits three events with one field of `params`; reading
      that field of a missing `params` throws. */
  function CssRoute(methodName: Value, params: Value): (r: Routed<CssEvent>)
    ensures r.Emit? ==> methodName == Str(CssSource(r.event))
    ensures r.Emit? && r.event.StyleSheetAdded? ==> r.event.header == Prop(params, "header")
    ensures r.Emit? && r.event.StyleSheetRemoved? ==> r.event.removedId == Prop(params, "styleSheetId")
    ensures r.Emit? && r.event.StyleSheetChanged? ==> r.event.changedId == Prop(params, "styleSheetId")
    ensures r.Emit? ==> !Nullish(params)
  {
    if methodName == Str("CSS.styleSheetAdded") then
      if Nullish(params) then ListenerThrew else Emit(StyleSheetAdded(Prop(params, "header")))
    else if methodName == Str("CSS.styleSheetRemoved") then
      if Nullish(params) then ListenerThrew else Emit(StyleSheetRemoved(Prop(params, "styleSheetId")))
    else if methodName == Str("CSS.styleSheetChanged") then
      if Nullish(params) then ListenerThrew else Emit(StyleSheetChanged(Prop(params, "styleSheetId")))
    else Ignored
  }

  /** CSS's listener throws exactly on its own three events without `params`,
      and ignores every event that none of them comes from. */
  lemma CssListenerOutcomes(methodName: Value, params: Value)
    ensures CssRoute(methodName, params) == ListenerThrew <==>
      Nullish(params) && exists e: CssEvent :: methodName == Str(CssSource(e))
    ensures CssRoute(methodName, params) == Ignored <==> forall e: CssEvent :: methodName != Str(CssSource(e))
  {
    if methodName == Str("CSS.styleSheetAdded") {
      assert methodName == Str(CssSource(StyleSheetAdded(Undefined)));
    } else if methodName == Str("CSS.styleSheetRemoved") {
      assert methodName == Str(CssSource(StyleSheetRemoved(Undefined)));
    } else if methodName == Str("CSS.styleSheetChanged") {
      assert methodName == Str(CssSource(StyleSheetChanged(Undefined)));
    }
  }

  datatype CssState = CssState(enabled: bool, events: seq<CssEvent>)

  // ---------------------------------------------------------------- Runtime

  /** `Object.assign({}, {expression: cmd}, options)`: the expression, overlaid
      with the options' own keys, which win; no options gives `{expression: cmd}`. */
  function EvaluateParams(cmd: Value, options: Value): (p: Value)
    ensures p.Obj?
    ensures options.Obj? ==> p.fields.Keys == {"expression"} + options.fields.Keys
    ensures options.Obj? ==> forall k :: k in options.fields ==> p.fields[k] == options.fields[k]
    ensures options.Obj? && "expression" !in options.fields ==> p.fields["expression"] == cmd
    ensures !options.Obj? ==> p == Obj(map["expression" := cmd])
  {
    var target := map["expression" := cmd];
    if options.Obj? then Obj(target + options.fields) else Obj(target)
  }
}
