/** The envelopes exchanged with the remote endpoint, the callbacks of the
    embedding application, and the argument conventions of `Client.request`. */
module Wire {
  import opened Json

  datatype Option<+T> = None | Some(value: T)

  /** A callback of the embedding application: an opaque token. Calling it
      is observable only as a `Delivery` in the client's log. */
  datatype Callback = Callback(token: nat)

  /** One call of a callback, with the argument list it received. */
  datatype Delivery = Delivery(callback: Callback, args: seq<Value>)

  /** A slot of an overloaded JavaScript signature: a function, or any other value
      (`Val(Undefined)` is an omitted argument). */
  datatype Arg<+F> = Fn(f: F) | Val(v: Value)

  /** An outbound request `{id, method, params}`. */
  datatype Envelope = Envelope(id: Value, methodName: string, params: Value)

  /** What the transport hands to the message handler: text that `JSON.parse`
      rejects, or the value it parsed. */
  datatype Inbound = Unparsable | Parsed(message: Value)

  /** The arguments of `request(method, parameters, id, callback)` after the
      overloads are resolved, and the counter after an id was taken from it. */
  datatype Normalized<+F> = Normalized(params: Value, id: Value, callback: Option<F>, counter: nat)

  /** Argument normalisation of `request`: a function in the parameters slot or
      in the id slot is the callback (the id slot wins), omitted parameters are
      `{}`, and an omitted id is the counter's value, which then advances. */
  function Normalize<F>(parameters: Arg<F>, id: Arg<F>, callback: Option<F>, counter: nat): (r: Normalized<F>)
    ensures id.Fn? ==> r.callback == Some(id.f)
    ensures !id.Fn? && parameters.Fn? ==> r.callback == Some(parameters.f)
    ensures !id.Fn? && !parameters.Fn? ==> r.callback == callback
    ensures parameters.Fn? || parameters == Val(Undefined) ==> r.params == Obj(map[])
    ensures parameters.Val? && parameters.v != Undefined ==> r.params == parameters.v
    ensures id.Fn? || id == Val(Undefined) ==> r.id == Num(counter) && r.counter == counter + 1
    ensures id.Val? && id.v != Undefined ==> r.id == id.v && r.counter == counter
  {
    var callback := if parameters.Fn? then Some(parameters.f) else callback;
    var parameters := if parameters.Fn? then Undefined else parameters.v;
    var callback := if id.Fn? then Some(id.f) else callback;
    var id := if id.Fn? then Undefined else id.v;
    var parameters := if parameters == Undefined then Obj(map[]) else parameters;
    if id == Undefined then Normalized(parameters, Num(counter), callback, counter + 1)
    else Normalized(parameters, id, callback, counter)
  }
}
