/** The `ChromeConnection` of index.js: an older, smaller client that keys its
    callbacks by the clock, remembers every parsed script and replaces a
    script's source by its file name. Its state is modelled as a value `Conn`
    with one function per operation; class `ChromeConnection` is proved to
    follow them. */
module Chrome {
  import opened Json
  import opened Wire

  /** The two closures the connection stores in `_callbacks`: the one `attach`
      passes when the socket opens, which emits `attach` with the target, and
      the wrapper `source` puts around the application's callback. */
  datatype Pending = AttachDone(target: Value) | Forward(callback: Option<Callback>)

  /** `_callbacks`, `_scripts`, whether `_socket` is set, the envelopes handed
      to the socket, the calls of the application's callbacks and the targets
      emitted with `attach`. */
  datatype Conn = Conn(
    callbacks: map<string, Pending>,
    scripts: seq<Value>,
    socket: bool,
    sent: seq<Envelope>,
    delivered: seq<Delivery>,
    attached: seq<Value>)

  /** A freshly constructed connection. */
  const Fresh: Conn := Conn(map[], [], false, [], [], [])

  /** The result of an operation that may throw; effects before the throw stay. */
  datatype Step = Step(conn: Conn, threw: bool)

  /** The id `_send` gives a request: the clock's reading in milliseconds. */
  function ClockKey(now: nat): string {
    PropertyKey(Num(now))
  }

  /** `_send(method, params, callback)`: the callback is stored under the
      clock's key before the socket is used, so it stays registered when the
      missing socket throws. */
  function Send(c: Conn, methodName: string, params: Value, pending: Pending, now: nat): (r: Step)
    ensures ClockKey(now) in r.conn.callbacks && r.conn.callbacks[ClockKey(now)] == pending
    ensures forall k :: k != ClockKey(now) ==>
      (k in r.conn.callbacks <==> k in c.callbacks) && (k in c.callbacks ==> r.conn.callbacks[k] == c.callbacks[k])
    ensures r.threw <==> !c.socket
    ensures r.conn.sent == if c.socket then c.sent + [Envelope(Num(now), methodName, params)] else c.sent
    ensures r.conn.scripts == c.scripts && r.conn.delivered == c.delivered && r.conn.attached == c.attached
  {
    var stored := c.(callbacks := c.callbacks[ClockKey(now) := pending]);
    if c.socket then Step(stored.(sent := c.sent + [Envelope(Num(now), methodName, params)]), false)
    else Step(stored, true)
  }

  /** The arguments `_process` passes to a stored callback: `(error)` when the
      message's `error` is truthy, else `(null, params)`. */
  function Arguments(message: Value): (args: seq<Value>)
    ensures Truthy(Prop(message, "error")) ==> args == [Prop(message, "error")]
    ensures !Truthy(Prop(message, "error")) ==> args == [Null, Prop(message, "params")]
    ensures Truthy(args[0]) <==> Truthy(Prop(message, "error"))
  {
    if Truthy(Prop(message, "error")) then [Prop(message, "error")] else [Null, Prop(message, "params")]
  }

  /** Calling a stored closure with `args`. The `attach` closure ignores its
      arguments; the `source` wrapper passes `(error)` on a truthy error and
      `(null, params)` otherwise, and throws when the application gave no
      callback. */
  function Run(c: Conn, pending: Pending, args: seq<Value>): (r: Step)
    requires |args| >= 1
    ensures r.conn.callbacks == c.callbacks && r.conn.scripts == c.scripts && r.conn.sent == c.sent
    ensures pending.AttachDone? ==> !r.threw && r.conn == c.(attached := c.attached + [pending.target])
    ensures pending == Forward(None) ==> r.threw && r.conn == c
    ensures pending.Forward? && pending.callback.Some? ==>
      var forwarded := if Truthy(args[0]) then [args[0]] else [Null, if |args| > 1 then args[1] else Undefined];
      !r.threw && r.conn == c.(delivered := c.delivered + [Delivery(pending.callback.value, forwarded)])
  {
    match pending
    case AttachDone(target) => Step(c.(attached := c.attached + [target]), false)
    case Forward(None) => Step(c, true)
    case Forward(Some(cb)) =>
      var forwarded := if Truthy(args[0]) then [args[0]] else [Null, if |args| > 1 then args[1] else Undefined];
      Step(c.(delivered := c.delivered + [Delivery(cb, forwarded)]), false)
  }

  /** `message.method == 'Debugger.scriptParsed'` with JavaScript's loose
      equality: a string compares by content, an array or object through its
      string conversion, and no number, boolean, `null` or `undefined` equals
      a string that is not numeric. */
  predicate LooselyEqualsString(v: Value, s: string)
    requires s != "" && forall i :: 0 <= i < |s| ==> s[i] !in "0123456789"
  {
    match v
    case Str(t) => t == s
    case Arr(_) => PropertyKey(v) == s
    case Obj(_) => PropertyKey(v) == s
    case _ => false
  }

  const ScriptParsed: string := "Debugger.scriptParsed"

  /** `_process(message)`: a truthy `id` answers the callback stored under
      its key, which is then deleted; any other message is an event, and a
      `Debugger.scriptParsed` event appends its `params` to the scripts.
      Reading a property of `null` throws. */
  function Process(c: Conn, message: Value): (r: Step)
    ensures r.conn.sent == c.sent && r.conn.socket == c.socket
    ensures Nullish(message) ==> r == Step(c, true)
    ensures !Nullish(message) && Truthy(Prop(message, "id")) ==>
      r == Answer(c, PropertyKey(Prop(message, "id")), message)
    ensures !Nullish(message) && !Truthy(Prop(message, "id")) ==>
      !r.threw && r.conn == c.(scripts := r.conn.scripts)
    ensures r.conn.scripts ==
      if !Nullish(message) && !Truthy(Prop(message, "id")) && LooselyEqualsString(Prop(message, "method"), ScriptParsed)
      then c.scripts + [Prop(message, "params")] else c.scripts
  {
    if Nullish(message) then Step(c, true)
    else if Truthy(Prop(message, "id")) then Answer(c, PropertyKey(Prop(message, "id")), message)
    else if LooselyEqualsString(Prop(message, "method"), ScriptParsed) then
      Step(c.(scripts := c.scripts + [Prop(message, "params")]), false)
    else Step(c, false)
  }

  /** The response branch of `_process` for the key of a truthy id: nothing
      when no callback is stored; otherwise the callback runs and its entry is
      deleted, unless the call throws. */
  function Answer(c: Conn, key: string, message: Value): (r: Step)
    ensures r.conn.scripts == c.scripts && r.conn.sent == c.sent && r.conn.socket == c.socket
    ensures !r.threw ==> key !in r.conn.callbacks
    ensures forall k :: k != key ==>
      (k in r.conn.callbacks <==> k in c.callbacks) && (k in c.callbacks ==> r.conn.callbacks[k] == c.callbacks[k])
  {
    if key !in c.callbacks then Step(c, false)
    else
      var s := Run(c, c.callbacks[key], Arguments(message));
      if s.threw then s else Step(s.conn.(callbacks := s.conn.callbacks - {key}), false)
  }

  /** The socket's `message` handler: text that does not parse and anything
      `_process` throws are swallowed. */
  function Receive(c: Conn, inbound: Inbound): (r: Conn)
    ensures r.sent == c.sent && r.socket == c.socket
    ensures inbound.Unparsable? ==> r == c
  {
    match inbound
    case Unparsable => c
    case Parsed(message) => Process(c, message).conn
  }

  /** `attach(target)`: reading `webSocketDebuggerUrl` of a nullish target
      throws; otherwise the socket is stored. */
  function Attach(c: Conn, target: Value): (r: Step)
    ensures r.threw <==> Nullish(target)
    ensures !r.threw ==> r.conn == c.(socket := true)
  {
    if Nullish(target) then Step(c, true) else Step(c.(socket := true), false)
  }

  /** The socket's `open` handler: `Debugger.enable` is sent with the closure
      that emits `attach` for the target. */
  function Opened(c: Conn, target: Value, now: nat): Step {
    Send(c, "Debugger.enable", Obj(map[]), AttachDone(target), now)
  }

  /** `path.basename` on POSIX paths: trailing slashes are dropped and the
      part after the last remaining slash is kept. */
  function Basename(path: string): (name: string)
  {
    AfterLastSlash(TrimTrailingSlashes(path))
  }

  function TrimTrailingSlashes(path: string): (r: string)
  {
    if path != [] && path[|path| - 1] == '/' then TrimTrailingSlashes(path[..|path| - 1]) else path
  }

  function AfterLastSlash(path: string): (r: string)
  {
    if path == [] || path[|path| - 1] == '/' then []
    else AfterLastSlash(path[..|path| - 1]) + [path[|path| - 1]]
  }

  /** A basename holds no slash and ends the path once its trailing slashes
      are dropped. */
  lemma {:induction false} BasenameIsLastSegment(path: string)
    ensures '/' !in Basename(path)
    ensures var trimmed := TrimTrailingSlashes(path);
      |Basename(path)| <= |trimmed| && Basename(path) == trimmed[|trimmed| - |Basename(path)|..]
  {
    AfterLastSlashIsSuffix(TrimTrailingSlashes(path));
  }

  lemma {:induction false} AfterLastSlashIsSuffix(path: string)
    ensures '/' !in AfterLastSlash(path)
    ensures |AfterLastSlash(path)| <= |path| && AfterLastSlash(path) == path[|path| - |AfterLastSlash(path)|..]
    decreases |path|
  {
    if path != [] && path[|path| - 1] != '/' {
      var prefix := path[..|path| - 1];
      AfterLastSlashIsSuffix(prefix);
      var r := AfterLastSlash(prefix);
      assert path[|path| - |r| - 1..] == prefix[|prefix| - |r|..] + [path[|path| - 1]];
    }
  }

  /** The name in a path: a directory followed by a slash and a name without
      slashes has that name as its basename. */
  lemma {:induction false} BasenameOfJoin(dir: string, name: string)
    requires name != [] && '/' !in name
    ensures Basename(dir + "/" + name) == name
  {
    var path := dir + "/" + name;
    assert path[|path| - 1] == name[|name| - 1];
    assert TrimTrailingSlashes(path) == path;
    AfterSlashIsName(dir + "/", name);
  }

  lemma {:induction false} AfterSlashIsName(dir: string, name: string)
    requires dir != [] && dir[|dir| - 1] == '/' && '/' !in name
    ensures AfterLastSlash(dir + name) == name
    decreases |name|
  {
    if name == [] {
      assert dir + name == dir;
    } else {
      var path := dir + name;
      assert path[..|path| - 1] == dir + name[..|name| - 1];
      assert path[|path| - 1] == name[|name| - 1];
      AfterSlashIsName(dir, name[..|name| - 1]);
    }
  }

  /** One test of the `filter` in `source`: `None` when reading `src.url` or
      `path.basename` of a url that is not a string throws. */
  function UrlMatches(src: Value, filename: string): (r: Option<bool>)
    ensures r.None? <==> Nullish(src) || !Prop(src, "url").Str?
  {
    if Nullish(src) then None
    else
      var url := Prop(src, "url");
      if url.Str? then Some(Basename(url.s) == filename) else None
  }

  /** The outcome of `_scripts.filter(...)[0]`. */
  datatype Lookup = Threw | NotFound | Found(script: Value)

  /** The filter's test throws on this script. */
  predicate Unreadable(src: Value, filename: string) {
    UrlMatches(src, filename).None?
  }

  /** The filter's test keeps this script. */
  predicate Matches(src: Value, filename: string) {
    UrlMatches(src, filename) == Some(true)
  }

  /** `filter` tests every script, so one that throws anywhere makes the
      lookup throw; otherwise the first matching script is found. */
  function FindScript(scripts: seq<Value>, filename: string): Lookup
    decreases |scripts|
  {
    if scripts == [] then NotFound
    else
      var rest := FindScript(scripts[1..], filename);
      if Unreadable(scripts[0], filename) || rest.Threw? then Threw
      else if Matches(scripts[0], filename) then Found(scripts[0])
      else rest
  }

  /** The lookup throws exactly when some script cannot be examined, finds
      nothing exactly when every script was examined and rejected, and
      otherwise finds a matching script with no match before it. */
  lemma {:induction false} FindScriptMeaning(scripts: seq<Value>, filename: string)
    ensures FindScript(scripts, filename).Threw? <==>
      exists i :: 0 <= i < |scripts| && Unreadable(scripts[i], filename)
    ensures FindScript(scripts, filename).NotFound? <==>
      forall i :: 0 <= i < |scripts| ==> !Unreadable(scripts[i], filename) && !Matches(scripts[i], filename)
    ensures FindScript(scripts, filename).Found? ==>
      exists i :: 0 <= i < |scripts| && FirstMatch(scripts, filename, i)
        && scripts[i] == FindScript(scripts, filename).script
    decreases |scripts|
  {
    if scripts != [] {
      var rest := scripts[1..];
      FindScriptMeaning(rest, filename);
      assert forall i :: 1 <= i < |scripts| ==> scripts[i] == rest[i - 1];
      if !Unreadable(scripts[0], filename) && Matches(scripts[0], filename) && !FindScript(rest, filename).Threw? {
        assert FirstMatch(scripts, filename, 0);
      } else if FindScript(rest, filename).Found? && !Unreadable(scripts[0], filename) {
        var i :| 0 <= i < |rest| && FirstMatch(rest, filename, i) && rest[i] == FindScript(rest, filename).script;
        assert FirstMatch(scripts, filename, i + 1);
      }
    }
  }

  /** Script `i` matches and no earlier one does. */
  predicate FirstMatch(scripts: seq<Value>, filename: string, i: nat)
    requires i < |scripts|
  {
    Matches(scripts[i], filename) && forall j :: 0 <= j < i ==> !Matches(scripts[j], filename)
  }

  /** The parameters of `Debugger.setScriptSource` for a found script. */
  function SourceParams(script: Value, contents: Value): Value {
    Obj(map["scriptId" := Prop(script, "scriptId"), "scriptSource" := contents])
  }

  /** `source(filename, contents, callback)`: an unknown file name is reported
      to the callback without sending anything; a known one sends
      `Debugger.setScriptSource` for the first matching script. */
  function Source(c: Conn, filename: string, contents: Value, callback: Option<Callback>, now: nat): (r: Step)
    ensures FindScript(c.scripts, filename).Threw? ==> r == Step(c, true)
    ensures FindScript(c.scripts, filename).NotFound? ==> r.conn.sent == c.sent && r.conn.callbacks == c.callbacks
    ensures FindScript(c.scripts, filename).NotFound? && callback.Some? ==>
      !r.threw && r.conn.delivered == c.delivered + [Delivery(callback.value, [Str("Unknown script " + filename)])]
  {
    match FindScript(c.scripts, filename)
    case Threw => Step(c, true)
    case NotFound =>
      if callback.None? then Step(c, true)
      else Step(c.(delivered := c.delivered + [Delivery(callback.value, [Str("Unknown script " + filename)])]), false)
    case Found(script) =>
      Send(c, "Debugger.setScriptSource", SourceParams(script, contents), Forward(callback), now)
  }

  // Properties

  /** Malformed text and a `null` message change nothing. */
  lemma UnusableMessagesIgnored(c: Conn)
    ensures Receive(c, Unparsable) == c && Receive(c, Parsed(Null)) == c
  {
  }

  /** A response answers its callback once: the callback is deleted, so the
      same response again delivers nothing more. */
  lemma {:induction false} AnsweredOnce(c: Conn, message: Value, cb: Callback)
    requires Truthy(Prop(message, "id"))
    requires PropertyKey(Prop(message, "id")) in c.callbacks
    requires c.callbacks[PropertyKey(Prop(message, "id"))] == Forward(Some(cb))
    ensures var once := Receive(c, Parsed(message));
      && once.delivered == c.delivered + [Delivery(cb, Arguments(message))]
      && PropertyKey(Prop(message, "id")) !in once.callbacks
      && Receive(once, Parsed(message)).delivered == once.delivered
  {
    var key := PropertyKey(Prop(message, "id"));
    var args := Arguments(message);
    var once := Receive(c, Parsed(message));
    assert once == Answer(c, key, message).conn;
    assert Receive(once, Parsed(message)) == Answer(once, key, message).conn;
  }

  /** Because `if (message.id)` tests truthiness, a response with id 0 is
      taken for an event: a callback stored under "0" stays pending and
      nothing is delivered. */
  lemma IdZeroNeverAnswered(c: Conn, message: Value)
    requires message.Obj? && Prop(message, "id") == Num(0)
    requires "0" in c.callbacks
    ensures var r := Receive(c, Parsed(message));
      r.callbacks == c.callbacks && r.delivered == c.delivered && r.attached == c.attached
  {
  }

  /** Two requests sent in the same millisecond share a key: the second
      callback replaces the first, and a response to that id reaches only the
      second. */
  lemma {:induction false} SameClockOverwrites(c: Conn, m1: string, p1: Value, m2: string, p2: Value,
                                               first: Callback, second: Callback, now: nat, response: Value)
    requires c.socket && Prop(response, "id") == Num(now) && now != 0
    ensures var s := Send(Send(c, m1, p1, Forward(Some(first)), now).conn, m2, p2, Forward(Some(second)), now).conn;
      && s.callbacks[ClockKey(now)] == Forward(Some(second))
      && |s.sent| == |c.sent| + 2
      && Receive(s, Parsed(response)).delivered == c.delivered + [Delivery(second, Arguments(response))]
  {
    var s := Send(Send(c, m1, p1, Forward(Some(first)), now).conn, m2, p2, Forward(Some(second)), now).conn;
    assert Receive(s, Parsed(response)) == Answer(s, ClockKey(now), response).conn;
  }

  /** `scriptParsed` events are not de-duplicated: the same script parsed
      twice is remembered twice. */
  lemma ScriptsNotDeduplicated(c: Conn, event: Value)
    requires Prop(event, "method") == Str(ScriptParsed) && !Truthy(Prop(event, "id"))
    ensures var twice := Receive(Receive(c, Parsed(event)), Parsed(event));
      twice.scripts == c.scripts + [Prop(event, "params"), Prop(event, "params")]
  {
  }

  /** With two scripts of the same file name, `source` finds the earlier one. */
  lemma {:induction false} FirstScriptWins(earlier: Value, later: Value, filename: string)
    requires Matches(earlier, filename) && Matches(later, filename)
    ensures FindScript([earlier, later], filename) == Found(earlier)
  {
    assert [earlier, later][1..] == [later];
    assert [later][1..] == [];
    assert FindScript([later], filename) == Found(later);
  }

  /** `source` for a known file sends `Debugger.setScriptSource` for that
      script, and the response then reaches the application's callback with
      its error or its `params`. */
  lemma {:induction false} SourceRoundTrip(c: Conn, filename: string, contents: Value, cb: Callback,
                                           now: nat, response: Value)
    requires c.socket && FindScript(c.scripts, filename).Found? && now != 0
    requires Prop(response, "id") == Num(now)
    ensures var s := Source(c, filename, contents, Some(cb), now);
      && !s.threw
      && s.conn.sent == c.sent + [Envelope(Num(now), "Debugger.setScriptSource",
                                           SourceParams(FindScript(c.scripts, filename).script, contents))]
      && Receive(s.conn, Parsed(response)).delivered == c.delivered + [Delivery(cb, Arguments(response))]
  {
    var s := Source(c, filename, contents, Some(cb), now);
    assert s.conn.callbacks[ClockKey(now)] == Forward(Some(cb));
    assert Receive(s.conn, Parsed(response)) == Answer(s.conn, ClockKey(now), response).conn;
  }

  /** Once the socket opens, `Debugger.enable` is sent, and its response,
      failed or not, emits `attach` with the target. */
  lemma {:induction false} AttachAfterEnable(c: Conn, target: Value, now: nat, response: Value)
    requires !Nullish(target) && now != 0 && Prop(response, "id") == Num(now)
    ensures var a := Attach(c, target).conn;
            var o := Opened(a, target, now);
      && !o.threw
      && o.conn.sent == c.sent + [Envelope(Num(now), "Debugger.enable", Obj(map[]))]
      && Receive(o.conn, Parsed(response)).attached == c.attached + [target]
  {
    var o := Opened(Attach(c, target).conn, target, now);
    assert Receive(o.conn, Parsed(response)) == Answer(o.conn, ClockKey(now), response).conn;
  }

  /** `_process` hands the callback a response's `params`, not its `result`:
      a response that carries only `result` reaches the application as
      `(null, undefined)`. */
  lemma ResultNotForwarded(c: Conn, cb: Callback, now: nat, result: Value)
    requires now != 0 && ClockKey(now) in c.callbacks && c.callbacks[ClockKey(now)] == Forward(Some(cb))
    ensures var response := Obj(map["id" := Num(now), "result" := result]);
      Process(c, response).conn.delivered == c.delivered + [Delivery(cb, [Null, Undefined])]
  {
    var response := Obj(map["id" := Num(now), "result" := result]);
    assert Prop(response, "id") == Num(now) && Prop(response, "params") == Undefined;
    assert !Truthy(Prop(response, "error"));
  }

  /** The connection object: its fields are the components of `Conn`, and each
      method is proved to follow the function of the same operation. */
  class ChromeConnection {
    var callbacks: map<string, Pending>
    var scripts: seq<Value>
    var socket: bool
    var sent: seq<Envelope>
    var delivered: seq<Delivery>
    var attached: seq<Value>

    ghost function State(): Conn
      reads this
    {
      Conn(callbacks, scripts, socket, sent, delivered, attached)
    }

    constructor ()
      ensures State() == Fresh
    {
      callbacks := map[];
      scripts := [];
      socket := false;
      sent := [];
      delivered := [];
      attached := [];
    }

    /** `_send`, with the clock's reading passed in. */
    method SendMessage(methodName: string, params: Value, pending: Pending, now: nat) returns (threw: bool)
      modifies this
      ensures Step(State(), threw) == Send(old(State()), methodName, params, pending, now)
    {
      callbacks := callbacks[ClockKey(now) := pending];
      if !socket {
        return true;
      }
      sent := sent + [Envelope(Num(now), methodName, params)];
      threw := false;
    }

    /** Calling a stored closure. */
    method Call(pending: Pending, args: seq<Value>) returns (threw: bool)
      requires |args| >= 1
      modifies this
      ensures Step(State(), threw) == Run(old(State()), pending, args)
    {
      threw := false;
      match pending {
        case AttachDone(target) =>
          attached := attached + [target];
        case Forward(callback) =>
          if callback.None? {
            threw := true;
          } else if Truthy(args[0]) {
            delivered := delivered + [Delivery(callback.value, [args[0]])];
          } else {
            delivered := delivered + [Delivery(callback.value, [Null, if |args| > 1 then args[1] else Undefined])];
          }
      }
    }

    /** `_process`. */
    method ProcessMessage(message: Value) returns (threw: bool)
      modifies this
      ensures Step(State(), threw) == Process(old(State()), message)
    {
      if Nullish(message) {
        return true;
      }
      var id := Prop(message, "id");
      if Truthy(id) {
        var key := PropertyKey(id);
        if key in callbacks {
          threw := Call(callbacks[key], Arguments(message));
          if !threw {
            callbacks := callbacks - {key};
          }
        } else {
          threw := false;
        }
      } else {
        if LooselyEqualsString(Prop(message, "method"), ScriptParsed) {
          scripts := scripts + [Prop(message, "params")];
        }
        threw := false;
      }
    }

    /** The socket's `message` handler. */
    method OnMessage(inbound: Inbound)
      modifies this
      ensures State() == Receive(old(State()), inbound)
    {
      if inbound.Parsed? {
        var _ := ProcessMessage(inbound.message);
      }
    }

    /** `attach(target)`. */
    method AttachTo(target: Value) returns (threw: bool)
      modifies this
      ensures Step(State(), threw) == Attach(old(State()), target)
    {
      if Nullish(target) {
        return true;
      }
      socket := true;
      threw := false;
    }

    /** The socket's `open` handler. */
    method OnOpen(target: Value, now: nat) returns (threw: bool)
      modifies this
      ensures Step(State(), threw) == Opened(old(State()), target, now)
    {
      threw := SendMessage("Debugger.enable", Obj(map[]), AttachDone(target), now);
    }

    /** `source(filename, contents, callback)`. */
    method ReplaceSource(filename: string, contents: Value, callback: Option<Callback>, now: nat)
      returns (threw: bool)
      modifies this
      ensures Step(State(), threw) == Source(old(State()), filename, contents, callback, now)
    {
      match FindScript(scripts, filename) {
        case Threw =>
          threw := true;
        case NotFound =>
          if callback.None? {
            threw := true;
          } else {
            delivered := delivered + [Delivery(callback.value, [Str("Unknown script " + filename)])];
            threw := false;
          }
        case Found(script) =>
          threw := SendMessage("Debugger.setScriptSource", SourceParams(script, contents), Forward(callback), now);
      }
    }
  }
}
