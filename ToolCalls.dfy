/**
 * The tool-call layer of `generateWithTools`: the marker stripped from the
 * model's text, `invokeTool`'s lookup and exception wrapping, and the
 * fail-fast dispatch of a list of call specs.
 */
module ToolCalls {
  import opened Wrappers
  import opened Exceptions
  import opened Json
  import opened JavaStrings

  /** The marker some models put in front of their tool calls. */
  const ToolCallsMarker: string := "[TOOL_CALLS]"

  const NoSuchToolPrefix: string := "No such tool: "
  const InvocationFailurePrefix: string := "Failed to invoke tool: "

  /** `ToolFunctionCallSpec`: a tool name and its arguments; usable as a map key. */
  datatype ToolFunctionCallSpec = ToolFunctionCallSpec(name: string, arguments: map<string, JsonValue>)

  /** What a tool handler does when applied: returns an object or throws. */
  datatype HandlerOutcome = Returned(value: JsonValue) | Threw(thrown: Throwable)

  /** `ToolFunction.apply(arguments)`, as a deterministic function of the arguments. */
  type ToolFunction = map<string, JsonValue> -> HandlerOutcome

  /** The registry as `getFunction` reads it: tool name to handler. */
  type ToolRegistry = map<string, ToolFunction>

  /**
   * `if (text.contains("[TOOL_CALLS]")) text = text.replace("[TOOL_CALLS]", "")`.
   */
  function StripToolCallsMarker(text: string): (r: string)
    ensures Contains(text, ToolCallsMarker) ==> |r| < |text|
    ensures !Contains(text, ToolCallsMarker) ==> r == text
  {
    if Contains(text, ToolCallsMarker) then
      RemoveAllPresent(text, ToolCallsMarker);
      RemoveAll(text, ToolCallsMarker)
    else text
  }

  /**
   * The `contains` guard changes nothing: the result is always what
   * `replace` alone gives, and text without the marker is passed through.
   */
  lemma StripIsPlainReplace(text: string)
    ensures StripToolCallsMarker(text) == RemoveAll(text, ToolCallsMarker)
    ensures !Contains(text, ToolCallsMarker) ==> StripToolCallsMarker(text) == text
  {
    if !Contains(text, ToolCallsMarker) {
      RemoveAllAbsent(text, ToolCallsMarker);
    }
  }

  /** Stripping changes the text exactly when the text contains the marker. */
  lemma StripChangesIff(text: string)
    ensures StripToolCallsMarker(text) == text <==> !Contains(text, ToolCallsMarker)
  {
    RemoveAllChangesIff(text, ToolCallsMarker);
  }

  /** The two halves of the marker, split where a nested marker can be put. */
  const MarkerLead: string := "[TOOL_"
  const MarkerTrail: string := "CALLS]"

  /** A marker written inside another one. */
  const NestedMarkers: string := MarkerLead + ToolCallsMarker + MarkerTrail

  /**
   * `replace` makes a single pass, so deleting an inner marker can join the
   * surrounding text into a new marker that is left in place.
   */
  lemma StripCanLeaveMarker()
    ensures StripToolCallsMarker(NestedMarkers) == ToolCallsMarker
  {
    var s := NestedMarkers;
    assert |MarkerLead| == 6 && |ToolCallsMarker| == 12;
    assert ToolCallsMarker[6] == 'C';
    assert MarkerLead[0] == '[' && MarkerLead[1] == 'T' && MarkerLead[2] == 'O';
    assert MarkerLead[3] == 'O' && MarkerLead[4] == 'L' && MarkerLead[5] == '_';
    assert s[6..18] == ToolCallsMarker;
    assert OccursAt(s, ToolCallsMarker, 6);
    forall j | 0 <= j < 6 ensures !OccursAt(s, ToolCallsMarker, j) {
      assert s[j..j + 12][0] == s[j];
      assert s[0..12][6] == s[6];
    }
    RemoveAllKeepsPrefix(s, ToolCallsMarker, 6);
    assert s[18..] == MarkerTrail;
    assert s[..6] == MarkerLead;
  }

  /**
   * `invokeTool(spec)`: look the name up; a missing tool raises
   * `ToolNotFoundException`, which, like any `Exception` the handler throws,
   * is wrapped in `ToolInvocationException("Failed to invoke tool: " + name)`.
   * A `java.lang.Error` is not caught and passes through unwrapped.
   */
  function InvokeTool(registry: ToolRegistry, spec: ToolFunctionCallSpec): (r: Result<JsonValue, Throwable>)
    ensures spec.name !in registry ==>
      r == Err(ToolInvocationException(InvocationFailurePrefix + spec.name,
                                       ToolNotFoundException(NoSuchToolPrefix + spec.name)))
    ensures spec.name in registry ==>
      match registry[spec.name](spec.arguments)
      case Returned(v) => r == Ok(v)
      case Threw(t) =>
        r == Err(if t.IsException() then ToolInvocationException(InvocationFailurePrefix + spec.name, t) else t)
    ensures r.Err? && r.error.IsException() ==>
      r.error.ToolInvocationException? && r.error.message == InvocationFailurePrefix + spec.name
  {
    if spec.name !in registry then
      Err(ToolInvocationException(InvocationFailurePrefix + spec.name,
                                  ToolNotFoundException(NoSuchToolPrefix + spec.name)))
    else
      match registry[spec.name](spec.arguments)
      case Returned(v) => Ok(v)
      case Threw(t) =>
        if t.IsException() then Err(ToolInvocationException(InvocationFailurePrefix + spec.name, t))
        else Err(t)
  }

  /**
   * The dispatch loop of `generateWithTools` as a fold over the specs in list
   * order: each result is `put` under its spec, and the first failure ends the
   * batch.
   */
  function DispatchAll(registry: ToolRegistry, specs: seq<ToolFunctionCallSpec>)
    : (r: Result<map<ToolFunctionCallSpec, JsonValue>, Throwable>)
    ensures r.Ok? ==> r.value.Keys == set s | s in specs
    ensures r.Err? ==> exists i :: 0 <= i < |specs| && InvokeTool(registry, specs[i]) == Err(r.error)
    decreases |specs|
  {
    if specs == [] then Ok(map[])
    else
      var prefix, last := specs[..|specs| - 1], specs[|specs| - 1];
      assert specs == prefix + [last];
      match DispatchAll(registry, prefix)
      case Err(e) =>
        assert forall i :: 0 <= i < |prefix| ==> prefix[i] == specs[i];
        Err(e)
      case Ok(results) =>
        match InvokeTool(registry, last)
        case Err(e) => Err(e)
        case Ok(v) =>
          assert (set s | s in specs) == (set s | s in prefix) + {last};
          Ok(results[last := v])
  }

  /** The index of the first spec whose invocation fails, or `|specs|` when none does. */
  function FirstFailure(registry: ToolRegistry, specs: seq<ToolFunctionCallSpec>): (k: nat)
    ensures k <= |specs|
    ensures forall j :: 0 <= j < k ==> InvokeTool(registry, specs[j]).Ok?
    ensures k < |specs| ==> InvokeTool(registry, specs[k]).Err?
    decreases |specs|
  {
    if specs == [] then 0
    else if InvokeTool(registry, specs[0]).Err? then 0
    else 1 + FirstFailure(registry, specs[1..])
  }

  /** Every spec's invocation succeeds. */
  predicate AllSucceed(registry: ToolRegistry, specs: seq<ToolFunctionCallSpec>)
  {
    forall s :: s in specs ==> InvokeTool(registry, s).Ok?
  }

  /** The result map built independently of the loop: each spec that occurs, with its handler's value. */
  function ResultsOf(registry: ToolRegistry, specs: seq<ToolFunctionCallSpec>): (r: map<ToolFunctionCallSpec, JsonValue>)
    requires AllSucceed(registry, specs)
  {
    map s | s in specs :: InvokeTool(registry, s).value
  }

  /**
   * The handlers a dispatch calls, in order: every spec before the first
   * failure and, when that failure is a handler's, the failing spec itself; a
   * spec whose tool is missing fails without calling anything.
   */
  ghost function HandlersInvoked(registry: ToolRegistry, specs: seq<ToolFunctionCallSpec>): (invoked: seq<ToolFunctionCallSpec>)
  {
    var k := FirstFailure(registry, specs);
    if k < |specs| && specs[k].name in registry then specs[..k + 1] else specs[..k]
  }

  /**
   * Dispatch succeeds exactly when every spec's invocation succeeds, and then
   * holds one entry per distinct spec; otherwise it fails with the error of the
   * first spec that failed.
   */
  lemma {:induction false} DispatchAllCharacterised(registry: ToolRegistry, specs: seq<ToolFunctionCallSpec>)
    ensures DispatchAll(registry, specs).Ok? <==> AllSucceed(registry, specs)
    ensures AllSucceed(registry, specs) ==> DispatchAll(registry, specs) == Ok(ResultsOf(registry, specs))
    ensures FirstFailure(registry, specs) == |specs| <==> AllSucceed(registry, specs)
    ensures !AllSucceed(registry, specs) ==>
      DispatchAll(registry, specs) == Err(InvokeTool(registry, specs[FirstFailure(registry, specs)]).error)
  {
    FirstFailureMarksAllSucceed(registry, specs);
    if AllSucceed(registry, specs) {
      DispatchSucceeds(registry, specs);
    } else {
      DispatchFailsAtFirstFailure(registry, specs);
    }
  }

  /** No failing spec exactly when every spec succeeds. */
  lemma FirstFailureMarksAllSucceed(registry: ToolRegistry, specs: seq<ToolFunctionCallSpec>)
    ensures FirstFailure(registry, specs) == |specs| <==> AllSucceed(registry, specs)
  {
    if FirstFailure(registry, specs) == |specs| {
      forall s | s in specs ensures InvokeTool(registry, s).Ok? {
        var j :| 0 <= j < |specs| && specs[j] == s;
      }
    }
  }

  /** When every spec succeeds, the dispatch holds each spec's value. */
  lemma {:induction false} DispatchSucceeds(registry: ToolRegistry, specs: seq<ToolFunctionCallSpec>)
    requires AllSucceed(registry, specs)
    ensures DispatchAll(registry, specs) == Ok(ResultsOf(registry, specs))
    decreases |specs|
  {
    if specs != [] {
      var n := |specs| - 1;
      var prefix, last := specs[..n], specs[n];
      assert specs == prefix + [last];
      assert AllSucceed(registry, prefix);
      DispatchSucceeds(registry, prefix);
      assert ResultsOf(registry, specs) == ResultsOf(registry, prefix)[last := InvokeTool(registry, last).value];
    }
  }

  /** When some spec fails, the dispatch fails with the error of the first one that does. */
  lemma {:induction false} DispatchFailsAtFirstFailure(registry: ToolRegistry, specs: seq<ToolFunctionCallSpec>)
    requires FirstFailure(registry, specs) < |specs|
    ensures DispatchAll(registry, specs) == Err(InvokeTool(registry, specs[FirstFailure(registry, specs)]).error)
    decreases |specs|
  {
    var k := FirstFailure(registry, specs);
    var n := |specs| - 1;
    var prefix, last := specs[..n], specs[n];
    assert specs == prefix + [last];
    if k < n {
      assert FirstFailure(registry, prefix) == k by {
        FirstFailureOfPrefix(registry, specs, n);
      }
      DispatchFailsAtFirstFailure(registry, prefix);
      assert prefix[k] == specs[k];
    } else {
      assert FirstFailure(registry, prefix) == n by {
        FirstFailureOfPrefix(registry, specs, n);
      }
      FirstFailureMarksAllSucceed(registry, prefix);
      DispatchSucceeds(registry, prefix);
    }
  }

  /** The first failure of a prefix is the first failure of the whole list, capped at the prefix's length. */
  lemma FirstFailureOfPrefix(registry: ToolRegistry, specs: seq<ToolFunctionCallSpec>, n: nat)
    requires n <= |specs|
    ensures FirstFailure(registry, specs[..n]) == if FirstFailure(registry, specs) < n then FirstFailure(registry, specs) else n
  {
    var k, kp := FirstFailure(registry, specs), FirstFailure(registry, specs[..n]);
    if kp < n {
      assert specs[..n][kp] == specs[kp];
    }
    if k < n {
      assert specs[..n][k] == specs[k];
    }
  }

  /** Dispatching no specs yields an empty map and calls no handler. */
  lemma DispatchEmpty(registry: ToolRegistry)
    ensures DispatchAll(registry, []) == Ok(map[])
    ensures HandlersInvoked(registry, []) == []
  {
  }

  /**
   * Dispatch reads only the registry entries the specs name: registering or
   * replacing any other tool does not change it.
   */
  lemma DispatchReadsOnlyNamedTools(r1: ToolRegistry, r2: ToolRegistry, specs: seq<ToolFunctionCallSpec>)
    requires forall s :: s in specs ==> (s.name in r1 <==> s.name in r2)
    requires forall s :: s in specs && s.name in r1 ==> r1[s.name] == r2[s.name]
    ensures DispatchAll(r1, specs) == DispatchAll(r2, specs)
    ensures HandlersInvoked(r1, specs) == HandlersInvoked(r2, specs)
  {
    forall s | s in specs ensures InvokeTool(r1, s) == InvokeTool(r2, s) {
    }
    SameInvocationsSameDispatch(r1, r2, specs);
    SameInvocationsSameFirstFailure(r1, r2, specs);
  }

  lemma {:induction false} SameInvocationsSameDispatch(r1: ToolRegistry, r2: ToolRegistry, specs: seq<ToolFunctionCallSpec>)
    requires forall s :: s in specs ==> InvokeTool(r1, s) == InvokeTool(r2, s)
    ensures DispatchAll(r1, specs) == DispatchAll(r2, specs)
    decreases |specs|
  {
    if specs != [] {
      var n := |specs| - 1;
      var prefix, last := specs[..n], specs[n];
      assert last in specs;
      assert forall s :: s in prefix ==> s in specs;
      SameInvocationsSameDispatch(r1, r2, prefix);
      assert InvokeTool(r1, last) == InvokeTool(r2, last);
      DispatchUnfolds(r1, specs);
      DispatchUnfolds(r2, specs);
    }
  }

  /** One step of the dispatch: the prefix is dispatched first, then the last spec is invoked. */
  lemma DispatchUnfolds(registry: ToolRegistry, specs: seq<ToolFunctionCallSpec>)
    requires specs != []
    ensures DispatchAll(registry, specs) ==
      match DispatchAll(registry, specs[..|specs| - 1])
      case Err(e) => Err(e)
      case Ok(results) =>
        match InvokeTool(registry, specs[|specs| - 1])
        case Err(e) => Err(e)
        case Ok(v) => Ok(results[specs[|specs| - 1] := v])
  {
  }

  lemma {:induction false} SameInvocationsSameFirstFailure(r1: ToolRegistry, r2: ToolRegistry, specs: seq<ToolFunctionCallSpec>)
    requires forall s :: s in specs ==> InvokeTool(r1, s) == InvokeTool(r2, s)
    ensures FirstFailure(r1, specs) == FirstFailure(r2, specs)
    decreases |specs|
  {
    if specs != [] {
      assert specs[0] in specs;
      assert forall s :: s in specs[1..] ==> s in specs;
      SameInvocationsSameFirstFailure(r1, r2, specs[1..]);
    }
  }
}
