/**
 * The command router and template map of the HTTP server.
 *
 * The server keeps two string-keyed tables that the application fills in:
 * a template map (placeholder -> replacement, consulted when a page is
 * rendered) and a command map (command name -> callable, consulted for each
 * parameter of a request on the command endpoint). The callables are
 * represented by the application action `A` they stand for and the way they
 * were registered; running one is recorded as an `Invocation`, which the
 * application then carries out.
 */
module Http {

  /** Template processing is compiled in (USE_TEMPLATES). */
  const USE_TEMPLATES: bool := true

  /**
   * What a command-map entry holds. `Unset` is an empty std::function, which
   * only the string flavour can store; the other variants are the four
   * registration flavours, each standing for a non-empty callable. The
   * float, int and void flavours store a wrapper around the callable they
   * are given, so their entries are never empty.
   */
  datatype Handler<A> =
    | Unset
    | StringHandler(action: A)
    | FloatHandler(action: A)
    | IntHandler(action: A)
    | VoidHandler(action: A)

  /**
   * What the called action receives. The float and int flavours hand over
   * the library's numeric conversion of the raw text, which is kept
   * symbolic here.
   */
  datatype Argument = Text(raw: string) | FloatOf(raw: string) | IntOf(raw: string) | NoArgument

  datatype Invocation<A> = Call(action: A, arg: Argument)

  /** One request parameter: its name and its value text. */
  datatype Param = Param(name: string, value: string)

  /** Looking up a placeholder: its replacement, or the placeholder itself. */
  function Lookup(templates: map<string, string>, placeholder: string): (r: string)
    ensures placeholder in templates ==> r == templates[placeholder]
    ensures placeholder !in templates ==> r == placeholder
  {
    if placeholder in templates then templates[placeholder] else placeholder
  }

  /** The call a handler makes for a parameter value, if it is callable at all. */
  function Invoke<A>(h: Handler<A>, value: string): (r: seq<Invocation<A>>)
    ensures h.Unset? <==> r == []
    ensures !h.Unset? ==> |r| == 1 && r[0].action == h.action
    ensures h.VoidHandler? ==> r == [Call(h.action, NoArgument)]
    ensures h.StringHandler? ==> r == [Call(h.action, Text(value))]
  {
    match h
    case Unset => []
    case StringHandler(a) => [Call(a, Text(value))]
    case FloatHandler(a) => [Call(a, FloatOf(value))]
    case IntHandler(a) => [Call(a, IntOf(value))]
    case VoidHandler(a) => [Call(a, NoArgument)]
  }

  /** The calls made for one parameter: none when its name is not registered. */
  function Step<A>(cmds: map<string, Handler<A>>, p: Param): (r: seq<Invocation<A>>)
    ensures |r| <= 1
    ensures r == [] <==> p.name !in cmds || cmds[p.name].Unset?
  {
    if p.name in cmds then Invoke(cmds[p.name], p.value) else []
  }

  /** The calls made for a whole request, parameter by parameter. */
  function Dispatch<A>(cmds: map<string, Handler<A>>, params: seq<Param>): (r: seq<Invocation<A>>)
    ensures |r| <= |params|
  {
    if params == [] then [] else Dispatch(cmds, params[..|params| - 1]) + Step(cmds, params[|params| - 1])
  }

  /** Dispatching two requests' parameters one after the other is dispatching their concatenation. */
  lemma {:induction false} DispatchAppend<A>(cmds: map<string, Handler<A>>, ps: seq<Param>, qs: seq<Param>)
    ensures Dispatch(cmds, ps + qs) == Dispatch(cmds, ps) + Dispatch(cmds, qs)
    decreases |qs|
  {
    if qs == [] {
      assert ps + qs == ps;
    } else {
      var last := qs[|qs| - 1];
      assert (ps + qs)[..|ps + qs| - 1] == ps + qs[..|qs| - 1];
      DispatchAppend(cmds, ps, qs[..|qs| - 1]);
    }
  }

  /** A parameter whose name is not registered, or whose entry is not callable, adds no call. */
  lemma DispatchSkipsUncallable<A>(cmds: map<string, Handler<A>>, ps: seq<Param>, p: Param, qs: seq<Param>)
    requires p.name !in cmds || cmds[p.name].Unset?
    ensures Dispatch(cmds, ps + [p] + qs) == Dispatch(cmds, ps + qs)
  {
    var single := Dispatch(cmds, [p]);
    assert [p][..0] == [];
    assert single == [];
    DispatchAppend(cmds, ps, [p]);
    var left := Dispatch(cmds, ps + [p]);
    assert left == Dispatch(cmds, ps);
    DispatchAppend(cmds, ps + [p], qs);
    DispatchAppend(cmds, ps, qs);
  }

  /** When no parameter names a callable entry, a request makes no call at all. */
  lemma {:induction false} DispatchNothingRegistered<A>(cmds: map<string, Handler<A>>, ps: seq<Param>)
    requires forall i :: 0 <= i < |ps| ==> ps[i].name !in cmds || cmds[ps[i].name].Unset?
    ensures Dispatch(cmds, ps) == []
  {
    if ps != [] {
      DispatchNothingRegistered(cmds, ps[..|ps| - 1]);
    }
  }

  /**
   * When every parameter names a callable entry, the request makes exactly
   * one call per parameter, in parameter order, each with that parameter's
   * value.
   */
  lemma {:induction false} DispatchAllRegistered<A>(cmds: map<string, Handler<A>>, ps: seq<Param>)
    requires forall i :: 0 <= i < |ps| ==> ps[i].name in cmds && !cmds[ps[i].name].Unset?
    ensures |Dispatch(cmds, ps)| == |ps|
    ensures forall i :: 0 <= i < |ps| ==> [Dispatch(cmds, ps)[i]] == Invoke(cmds[ps[i].name], ps[i].value)
  {
    if ps != [] {
      DispatchAllRegistered(cmds, ps[..|ps| - 1]);
    }
  }

  /** A second registration under the same name replaces the first. */
  lemma RegisterLastWins<A>(cmds: map<string, Handler<A>>, name: string, first: Handler<A>, second: Handler<A>, ps: seq<Param>)
    ensures Dispatch(cmds[name := first][name := second], ps) == Dispatch(cmds[name := second], ps)
  {
    assert cmds[name := first][name := second] == cmds[name := second];
  }

  class HttpServer<A> {
    /** Placeholder -> replacement, used when pages are rendered. */
    var templateMap: map<string, string>
    /** Command name -> callable, used by the command endpoint. */
    var cmdMap: map<string, Handler<A>>

    constructor ()
      ensures templateMap == map[] && cmdMap == map[]
    {
      templateMap := map[];
      cmdMap := map[];
    }

    /** Sets one template entry, replacing any earlier value for that placeholder. */
    method SetTemplate(placeholder: string, replacement: string)
      modifies this`templateMap
      ensures templateMap == old(templateMap)[placeholder := replacement]
      ensures Lookup(templateMap, placeholder) == replacement
      ensures forall k :: k != placeholder ==> Lookup(templateMap, k) == Lookup(old(templateMap), k)
    {
      if USE_TEMPLATES {
        templateMap := templateMap[placeholder := replacement];
      }
    }

    /** Registers a callable that receives the raw value text (possibly an empty callable). */
    method RegisterStringCb(name: string, callback: Handler<A>)
      requires !callback.Unset? ==> callback.StringHandler?
      modifies this`cmdMap
      ensures cmdMap == old(cmdMap)[name := callback]
    {
      cmdMap := cmdMap[name := callback];
    }

    /** Registers an action that receives the value converted to a float. */
    method RegisterFloatCb(name: string, action: A)
      modifies this`cmdMap
      ensures cmdMap == old(cmdMap)[name := FloatHandler(action)]
    {
      cmdMap := cmdMap[name := FloatHandler(action)];
    }

    /** Registers an action that receives the value converted to an integer. */
    method RegisterIntCb(name: string, action: A)
      modifies this`cmdMap
      ensures cmdMap == old(cmdMap)[name := IntHandler(action)]
    {
      cmdMap := cmdMap[name := IntHandler(action)];
    }

    /** Registers an action that takes no argument: the value text is dropped. */
    method RegisterVoidCb(name: string, action: A)
      modifies this`cmdMap
      ensures cmdMap == old(cmdMap)[name := VoidHandler(action)]
    {
      cmdMap := cmdMap[name := VoidHandler(action)];
    }

    /** The replacement text for a placeholder; an unknown placeholder stands for itself. */
    method TemplateProcessor(placeholder: string) returns (r: string)
      ensures placeholder in templateMap ==> r == templateMap[placeholder]
      ensures placeholder !in templateMap ==> r == placeholder
    {
      if placeholder !in templateMap {
        return placeholder;
      }
      r := templateMap[placeholder];
    }

    /**
     * Handles a request on the command endpoint: for each parameter in turn,
     * calls the entry registered under its name with its value; names that
     * are not registered and entries that are not callable are skipped.
     * Neither table changes.
     */
    method OnCmdRequest(params: seq<Param>) returns (calls: seq<Invocation<A>>)
      ensures calls == Dispatch(cmdMap, params)
    {
      calls := [];
      var i := 0;
      while i < |params|
        invariant 0 <= i <= |params|
        invariant calls == Dispatch(cmdMap, params[..i])
      {
        var p := params[i];
        assert params[..i + 1][..i] == params[..i];
        if p.name !in cmdMap {
          i := i + 1;
          continue;
        }
        var callback := cmdMap[p.name];
        if callback.Unset? {
          i := i + 1;
          continue;
        }
        calls := calls + Invoke(callback, p.value);
        i := i + 1;
      }
      assert params[..i] == params;
    }
  }
}
