/** lib/index.js carries the same client as lib/rdbg.js, without the CSS and
    DOM modules, but its `Debugger` class body defines `disable` twice. A class
    body defines its methods in order, and a later method of the same name
    replaces the earlier one; this module models that resolution and compares
    the resulting method tables of the two files. */
module ClassBodies {
  import opened Wire

  /** A method of a domain class that sends one protocol command. */
  datatype MethodDef = MethodDef(name: string, sends: string)

  /** The method table a class body produces: each definition in order, a
      later one of the same name replacing the earlier. */
  function Define(body: seq<MethodDef>): (table: map<string, string>)
    ensures forall i :: 0 <= i < |body| ==> body[i].name in table
    decreases |body|
  {
    if body == [] then map[]
    else
      var last := body[|body| - 1];
      Define(body[..|body| - 1])[last.name := last.sends]
  }

  /** The table defines exactly the names the body defines. */
  lemma {:induction false} DefinedNames(body: seq<MethodDef>, name: string)
    ensures name in Define(body) <==> exists i :: 0 <= i < |body| && body[i].name == name
    decreases |body|
  {
    if body != [] {
      var prefix := body[..|body| - 1];
      DefinedNames(prefix, name);
      if name in Define(prefix) {
        var i :| 0 <= i < |prefix| && prefix[i].name == name;
        assert body[i] == prefix[i];
      }
    }
  }

  /** The command a name resolves to, when the body defines it. */
  function Resolve(body: seq<MethodDef>, name: string): (r: Option<string>)
    ensures r.Some? <==> exists i :: 0 <= i < |body| && body[i].name == name
  {
    DefinedNames(body, name);
    var table := Define(body);
    if name in table then Some(table[name]) else None
  }

  /** The last definition of a name wins: the table holds what that
      definition sends. */
  lemma {:induction false} LastDefinitionWins(body: seq<MethodDef>, i: nat)
    requires i < |body|
    requires forall j :: i < j < |body| ==> body[j].name != body[i].name
    ensures Resolve(body, body[i].name) == Some(body[i].sends)
    decreases |body|
  {
    if i < |body| - 1 {
      var prefix := body[..|body| - 1];
      assert prefix[i] == body[i];
      forall j | i < j < |prefix|
        ensures prefix[j].name != prefix[i].name
      {
        assert prefix[j] == body[j];
      }
      LastDefinitionWins(prefix, i);
    }
  }

  /** The body without its `i`-th definition. */
  function Remove(body: seq<MethodDef>, i: nat): (r: seq<MethodDef>)
    requires i < |body|
    ensures |r| == |body| - 1
    ensures forall k :: 0 <= k < i ==> r[k] == body[k]
    ensures forall k :: i <= k < |r| ==> r[k] == body[k + 1]
  {
    body[..i] + body[i + 1..]
  }

  /** Dropping a definition before the last one, the last one is still
      applied last. */
  lemma RemoveBeforeLast(body: seq<MethodDef>, i: nat)
    requires i < |body| - 1
    ensures var prefix, last := body[..|body| - 1], body[|body| - 1];
      Define(Remove(body, i)) == Define(Remove(prefix, i))[last.name := last.sends]
  {
    var prefix, last := body[..|body| - 1], body[|body| - 1];
    assert Remove(body, i) == Remove(prefix, i) + [last];
    assert (Remove(prefix, i) + [last])[..|body| - 2] == Remove(prefix, i);
  }

  /** Dropping a definition leaves every other name's entry as it was. */
  lemma {:induction false} RemoveAgrees(body: seq<MethodDef>, i: nat, key: string)
    requires i < |body| && key != body[i].name
    ensures key in Define(Remove(body, i)) <==> key in Define(body)
    ensures key in Define(body) ==> Define(Remove(body, i))[key] == Define(body)[key]
    decreases |body|
  {
    var n := |body|;
    var prefix := body[..n - 1];
    if i == n - 1 {
      assert Remove(body, i) == prefix;
    } else {
      RemoveBeforeLast(body, i);
      RemoveAgrees(prefix, i, key);
    }
  }

  /** A table without a definition and the full table agree once the
      name of that definition is written over. */
  lemma Overwritten(body: seq<MethodDef>, i: nat, last: MethodDef)
    requires i < |body| && body[i].name == last.name
    ensures Define(Remove(body, i))[last.name := last.sends] == Define(body)[last.name := last.sends]
  {
    forall key | key != last.name
      ensures key in Define(Remove(body, i)) <==> key in Define(body)
      ensures key in Define(body) ==> Define(Remove(body, i))[key] == Define(body)[key]
    {
      RemoveAgrees(body, i, key);
    }
  }

  /** A definition that a later one of the same name replaces does not
      matter: the body without it produces the same table. */
  lemma {:induction false} Shadowed(body: seq<MethodDef>, i: nat, j: nat)
    requires i < j < |body| && body[i].name == body[j].name
    ensures Define(Remove(body, i)) == Define(body)
    decreases |body|
  {
    var n := |body|;
    var prefix := body[..n - 1];
    var last := body[n - 1];
    RemoveBeforeLast(body, i);
    if j == n - 1 {
      Overwritten(prefix, i, last);
    } else {
      Shadowed(prefix, i, j);
    }
  }

  /** Two neighbouring definitions of different names may be given in
      either order. */
  lemma {:induction false} Swapped(before: seq<MethodDef>, a: MethodDef, b: MethodDef, after: seq<MethodDef>)
    requires a.name != b.name
    ensures Define(before + [a, b] + after) == Define(before + [b, a] + after)
    decreases |after|
  {
    var ab, ba := before + [a, b] + after, before + [b, a] + after;
    if after == [] {
      assert ab[..|ab| - 1] == before + [a] && (before + [a])[..|before|] == before;
      assert ba[..|ba| - 1] == before + [b] && (before + [b])[..|before|] == before;
    } else {
      var rest := after[..|after| - 1];
      assert ab[..|ab| - 1] == before + [a, b] + rest;
      assert ba[..|ba| - 1] == before + [b, a] + rest;
      Swapped(before, a, b, rest);
    }
  }

  /** The `Debugger` class body of lib/index.js, in source order. */
  const IndexDebugger: seq<MethodDef> := [
    MethodDef("enable", "Debugger.enable"),
    MethodDef("disable", "Debugger.enable"),
    MethodDef("pause", "Debugger.pause"),
    MethodDef("disable", "Debugger.disable"),
    MethodDef("canSetScriptSource", "Debugger.canSetScriptSource"),
    MethodDef("getScriptSource", "Debugger.getScriptSource"),
    MethodDef("setScriptSource", "Debugger.setScriptSource")]

  /** The `Debugger` class body of lib/rdbg.js, in source order. */
  const RdbgDebugger: seq<MethodDef> := [
    MethodDef("enable", "Debugger.enable"),
    MethodDef("disable", "Debugger.disable"),
    MethodDef("pause", "Debugger.pause"),
    MethodDef("canSetScriptSource", "Debugger.canSetScriptSource"),
    MethodDef("getScriptSource", "Debugger.getScriptSource"),
    MethodDef("setScriptSource", "Debugger.setScriptSource")]

  /** The `Console` class body, the same in both files. */
  const ConsoleBody: seq<MethodDef> := [
    MethodDef("enable", "Console.enable"),
    MethodDef("disable", "Console.enable")]

  /** In lib/index.js `disable` sends `Debugger.disable`: the second
      definition replaces the first, which sent `Debugger.enable`. */
  lemma IndexDisableSendsDisable()
    ensures Resolve(IndexDebugger, "disable") == Some("Debugger.disable")
    ensures IndexDebugger[1].name == "disable" && IndexDebugger[1].sends == "Debugger.enable"
  {
    LastDefinitionWins(IndexDebugger, 3);
  }

  /** The two `Debugger` bodies produce the same method table: the first
      `disable` of lib/index.js is shadowed, and without it the body is the
      one of lib/rdbg.js. */
  lemma DebuggerBodiesAgree(name: string)
    ensures Define(IndexDebugger) == Define(RdbgDebugger)
    ensures Resolve(IndexDebugger, name) == Resolve(RdbgDebugger, name)
  {
    var head, tail := [IndexDebugger[0]], IndexDebugger[4..];
    var pause, disable := IndexDebugger[2], IndexDebugger[3];
    assert Remove(IndexDebugger, 1) == head + [pause, disable] + tail;
    assert RdbgDebugger == head + [disable, pause] + tail;
    Swapped(head, pause, disable, tail);
    Shadowed(IndexDebugger, 1, 3);
  }

  /** `Console.disable` sends `Console.enable` in both files. */
  lemma ConsoleDisableSendsEnable()
    ensures Resolve(ConsoleBody, "disable") == Some("Console.enable")
  {
    LastDefinitionWins(ConsoleBody, 1);
  }
}
