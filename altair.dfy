/**
 * The tool-call mediator of the Altair component: the one tool it declares to
 * the remote model, the handler that reacts to a batch of tool calls (first
 * match fills the "current graph" slot, every call gets a success response),
 * and the guard of the effect that renders the slot.
 */
module Altair {
  import opened Wrappers

  // ---------------------------------------------------------------------------
  // The declared tool catalog
  // ---------------------------------------------------------------------------

  datatype SchemaType = STRING | OBJECT

  datatype PropertySchema = PropertySchema(schemaType: SchemaType, description: string)

  datatype ParameterSchema = ParameterSchema(
    schemaType: SchemaType,
    properties: map<string, PropertySchema>,
    required: seq<string>)

  datatype FunctionDeclaration = FunctionDeclaration(
    name: string,
    description: string,
    parameters: ParameterSchema)

  /** One entry of the `tools` list handed to the session configuration. */
  datatype Tool = GoogleSearch | FunctionDeclarations(declarations: seq<FunctionDeclaration>)

  const ToolName: string := "render_altair"
  const ArgName: string := "json_graph"

  const Declaration: FunctionDeclaration :=
    FunctionDeclaration(
      ToolName,
      "Displays an altair graph in json format.",
      ParameterSchema(
        OBJECT,
        map[ArgName := PropertySchema(
          STRING,
          "JSON STRING representation of the graph to render. Must be a string, not a json object")],
        [ArgName]))

  /** The tool list of the session configuration: Google search plus the one declaration. */
  const Tools: seq<Tool> := [GoogleSearch, FunctionDeclarations([Declaration])]

  /** Every function declaration carried by a tool list, in order. */
  function DeclaredFunctions(tools: seq<Tool>): (r: seq<FunctionDeclaration>)
    ensures forall d :: d in r <==> exists t :: t in tools && t.FunctionDeclarations? && d in t.declarations
  {
    if tools == [] then []
    else
      (match tools[0]
       case GoogleSearch => []
       case FunctionDeclarations(ds) => ds)
      + DeclaredFunctions(tools[1..])
  }

  /** The catalog declares exactly one function, `render_altair`, whose only
      parameter `json_graph` is a required string. */
  lemma CatalogDeclaresRenderAltair()
    ensures DeclaredFunctions(Tools) == [Declaration]
    ensures Declaration.name == "render_altair"
    ensures Declaration.parameters.schemaType == OBJECT
    ensures Declaration.parameters.properties.Keys == {"json_graph"}
    ensures Declaration.parameters.properties["json_graph"].schemaType == STRING
    ensures Declaration.parameters.required == ["json_graph"]
  {
    assert DeclaredFunctions(Tools[2..]) == [];
    assert DeclaredFunctions(Tools[1..]) == [Declaration];
  }

  // ---------------------------------------------------------------------------
  // Tool calls and their arguments
  // ---------------------------------------------------------------------------

  /** A JSON value as the arguments of a tool call may hold it. */
  datatype JsonValue =
    | JNull
    | JBool(b: bool)
    | JNumber(n: real)
    | JString(s: string)
    | JArray(items: seq<JsonValue>)
    | JObject(fields: map<string, JsonValue>)

  /** JavaScript truthiness of a possibly-undefined value (`None` is `undefined`):
      false exactly for `undefined`, `null`, `false`, `0` and the empty string. */
  predicate Truthy(v: Option<JsonValue>)
    ensures Truthy(v) <==> v.Some? && v.value !in {JNull, JBool(false), JNumber(0.0), JString("")}
  {
    match v
    case None => false
    case Some(JNull) => false
    case Some(JBool(b)) => b
    case Some(JNumber(n)) => n != 0.0
    case Some(JString(s)) => s != ""
    case Some(JArray(_)) => true
    case Some(JObject(_)) => true
  }

  datatype FunctionCall = FunctionCall(id: string, name: string, args: map<string, JsonValue>)

  datatype ToolCall = ToolCall(functionCalls: seq<FunctionCall>)

  /** Index of the first call named `name`, as `Array.prototype.find` selects it. */
  function FindFirst(calls: seq<FunctionCall>, name: string): (r: Option<nat>)
    ensures r.Some? ==> r.value < |calls| && calls[r.value].name == name
    ensures r.Some? ==> forall j :: 0 <= j < r.value ==> calls[j].name != name
    ensures r.None? <==> forall j :: 0 <= j < |calls| ==> calls[j].name != name
  {
    if calls == [] then None
    else if calls[0].name == name then Some(0)
    else
      match FindFirst(calls[1..], name)
      case None => None
      case Some(k) => Some(k + 1)
  }

  /** `fc.args.json_graph`: the argument, or `undefined` when the call has none. */
  function JsonGraphArg(call: FunctionCall): (r: Option<JsonValue>)
    ensures r.None? <==> ArgName !in call.args
    ensures r.Some? ==> call.args[ArgName] == r.value
  {
    if ArgName in call.args then Some(call.args[ArgName]) else None
  }

  /** The "current graph" slot after a batch: the `json_graph` argument of the
      first `render_altair` call, or the old slot when no call matches. */
  function NextSlot(slot: Option<JsonValue>, calls: seq<FunctionCall>): (r: Option<JsonValue>)
    ensures forall i :: 0 <= i < |calls| && calls[i].name == ToolName &&
                        (forall j :: 0 <= j < i ==> calls[j].name != ToolName)
                    ==> r == JsonGraphArg(calls[i])
    ensures (forall i :: 0 <= i < |calls| ==> calls[i].name != ToolName) ==> r == slot
  {
    match FindFirst(calls, ToolName)
    case Some(k) => JsonGraphArg(calls[k])
    case None => slot
  }

  /** Once a batch holds a matching call, calls appended after it change nothing,
      and neither does the slot's old value. */
  lemma LaterMatchesIgnored(slot: Option<JsonValue>, other: Option<JsonValue>,
                            calls: seq<FunctionCall>, rest: seq<FunctionCall>)
    requires exists i :: 0 <= i < |calls| && calls[i].name == ToolName
    ensures NextSlot(slot, calls + rest) == NextSlot(other, calls)
  {
    var k := FindFirst(calls, ToolName).value;
    var all := calls + rest;
    assert all[k] == calls[k];
    assert forall j :: 0 <= j < k ==> all[j] == calls[j];
  }

  /** An empty batch leaves the slot as it was. */
  lemma EmptyBatchKeepsSlot(slot: Option<JsonValue>)
    ensures NextSlot(slot, []) == slot
  {
  }

  // ---------------------------------------------------------------------------
  // The response batch
  // ---------------------------------------------------------------------------

  /** `{ sucess: true }`, spelled as the component spells it. */
  datatype SuccessOutput = SuccessOutput(sucess: bool)

  datatype ResponseBody = ResponseBody(output: SuccessOutput)

  datatype FunctionResponse = FunctionResponse(response: ResponseBody, id: string)

  const SuccessBody: ResponseBody := ResponseBody(SuccessOutput(true))

  /** One fixed success response per call, each carrying its call's id. */
  function BuildResponses(calls: seq<FunctionCall>): (r: seq<FunctionResponse>)
    ensures |r| == |calls|
    ensures forall i :: 0 <= i < |r| ==> r[i].id == calls[i].id
    ensures forall i :: 0 <= i < |r| ==> r[i].response == SuccessBody
  {
    if calls == [] then []
    else [FunctionResponse(SuccessBody, calls[0].id)] + BuildResponses(calls[1..])
  }

  function CallIds(calls: seq<FunctionCall>): seq<string>
  {
    seq(|calls|, i requires 0 <= i < |calls| => calls[i].id)
  }

  function ResponseIds(responses: seq<FunctionResponse>): seq<string>
  {
    seq(|responses|, i requires 0 <= i < |responses| => responses[i].id)
  }

  /** The responses carry the batch's ids in the batch's order, hence every id
      as often as the batch does. */
  lemma ResponsesCoverEveryId(calls: seq<FunctionCall>)
    ensures ResponseIds(BuildResponses(calls)) == CallIds(calls)
    ensures multiset(ResponseIds(BuildResponses(calls))) == multiset(CallIds(calls))
  {
  }

  /** The responses depend on the ids alone: names and arguments, and so whether
      a call matched or had a usable argument, do not change them. */
  lemma ResponsesIgnoreNamesAndArgs(calls: seq<FunctionCall>, others: seq<FunctionCall>)
    requires CallIds(calls) == CallIds(others)
    ensures BuildResponses(calls) == BuildResponses(others)
  {
    assert |calls| == |CallIds(calls)| == |CallIds(others)| == |others|;
    forall i | 0 <= i < |calls|
      ensures calls[i].id == others[i].id
    {
      assert CallIds(calls)[i] == CallIds(others)[i];
    }
  }

  // ---------------------------------------------------------------------------
  // The render guard
  // ---------------------------------------------------------------------------

  /** The effect renders only when the anchor element exists and the slot is truthy. */
  predicate ShouldRender(anchorMounted: bool, slot: Option<JsonValue>)
    ensures ShouldRender(anchorMounted, slot) <==>
      anchorMounted && slot.Some? && slot.value !in {JNull, JBool(false), JNumber(0.0), JString("")}
  {
    anchorMounted && Truthy(slot)
  }

  /** For a string slot, a render is attempted exactly when the string is non-empty;
      an absent slot never renders. (Truthy non-string values render as well.) */
  lemma StringSlotRenderGuard(anchorMounted: bool, s: string)
    ensures ShouldRender(anchorMounted, Some(JString(s))) <==> anchorMounted && s != ""
    ensures !ShouldRender(anchorMounted, None)
  {
  }

  // ---------------------------------------------------------------------------
  // The component state
  // ---------------------------------------------------------------------------

  /** What the component hands to its collaborators: a response batch scheduled
      on the session client, or a slot value given to the renderer. */
  datatype Outbound =
    | ScheduledToolResponse(functionResponses: seq<FunctionResponse>)
    | Embed(graph: JsonValue)

  class AltairComponent {
    /** The "current graph" slot; `None` is the `undefined` a missing argument leaves. */
    var jsonString: Option<JsonValue>
    /** Whether the element the graph is rendered into exists. */
    var anchorMounted: bool
    var outbox: seq<Outbound>

    constructor (anchorMounted: bool)
      ensures jsonString == Some(JString(""))
      ensures this.anchorMounted == anchorMounted
      ensures outbox == []
    {
      jsonString := Some(JString(""));
      this.anchorMounted := anchorMounted;
      outbox := [];
    }

    /** The `toolcall` handler. */
    method OnToolCall(toolCall: ToolCall)
      modifies this`jsonString, this`outbox
      ensures jsonString == NextSlot(old(jsonString), toolCall.functionCalls)
      ensures outbox == old(outbox) +
        (if |toolCall.functionCalls| > 0
         then [ScheduledToolResponse(BuildResponses(toolCall.functionCalls))]
         else [])
    {
      var calls := toolCall.functionCalls;
      var fc := FindFirst(calls, ToolName);
      if fc.Some? {
        jsonString := JsonGraphArg(calls[fc.value]);
      }
      if |calls| > 0 {
        outbox := outbox + [ScheduledToolResponse(BuildResponses(calls))];
      }
    }

    /** One run of the render effect. */
    method RenderEffect()
      modifies this`outbox
      ensures outbox == old(outbox) +
        (if ShouldRender(anchorMounted, jsonString) then [Embed(jsonString.value)] else [])
    {
      if anchorMounted && Truthy(jsonString) {
        outbox := outbox + [Embed(jsonString.value)];
      }
    }
  }

  /** A client of the component: one matching call fills the slot, schedules one
      response for its id, and makes the next effect run render the graph. */
  method Scenario()
  {
    var c := new AltairComponent(true);
    var graph := JString("{\"mark\":\"bar\"}");
    var call := FunctionCall("c1", "render_altair", map["json_graph" := graph]);
    c.OnToolCall(ToolCall([call]));
    assert c.jsonString == Some(graph);
    assert BuildResponses([call]) == [FunctionResponse(SuccessBody, "c1")];
    assert c.outbox == [ScheduledToolResponse([FunctionResponse(SuccessBody, "c1")])];
    c.RenderEffect();
    assert c.outbox[1] == Embed(graph);
    c.OnToolCall(ToolCall([]));
    assert c.jsonString == Some(graph) && |c.outbox| == 2;
  }
}
