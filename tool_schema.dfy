/**
  Tool descriptors as the tool providers report them, function definitions as the
  completion service takes them, and the per-tool conversion between the two
  (chat_open_ai.go, McpToolToOpenAITool).
*/
module ToolSchema {
  import opened Base

  /** A provider's input schema; the empty type, a nil property map and a nil
      required list are all distinguishable from their filled-in forms. */
  datatype InputSchema = InputSchema(
    schemaType: string,
    properties: Option<map<string, Json>>,
    required: Option<seq<string>>)

  /** A tool descriptor. `annotations` stands for every field beyond the name,
      the description and the input schema. */
  datatype Tool = Tool(
    name: string,
    description: string,
    inputSchema: InputSchema,
    annotations: map<string, Json>)

  /** The JSON-schema parameters of a function definition: every part present. */
  datatype Parameters = Parameters(
    schemaType: string,
    properties: map<string, Json>,
    required: seq<string>)

  /** A function tool as the completion service sees it. */
  datatype FunctionTool = FunctionTool(name: string, description: string, parameters: Parameters)

  /** The defaults: an empty type becomes "object", a nil property map the empty
      map and a nil required list the empty list; anything set passes through. */
  function Normalize(s: InputSchema): (p: Parameters)
    ensures p.schemaType != ""
    ensures s.schemaType == "" ==> p.schemaType == "object"
    ensures s.schemaType != "" ==> p.schemaType == s.schemaType
    ensures p.properties == if s.properties.None? then map[] else s.properties.value
    ensures p.required == if s.required.None? then [] else s.required.value
  {
    Parameters(
      if s.schemaType == "" then "object" else s.schemaType,
      match s.properties case None => map[] case Some(props) => props,
      match s.required case None => [] case Some(req) => req)
  }

  /** A complete parameter object read back as an input schema. */
  function Embed(p: Parameters): InputSchema
  {
    InputSchema(p.schemaType, Some(p.properties), Some(p.required))
  }

  /** Normalisation changes nothing in a schema that is already complete. */
  lemma NormalizeKeepsComplete(p: Parameters)
    requires p.schemaType != ""
    ensures Normalize(Embed(p)) == p
  {
  }

  /** Normalisation is idempotent. */
  lemma NormalizeIdempotent(s: InputSchema)
    ensures Normalize(Embed(Normalize(s))) == Normalize(s)
  {
    NormalizeKeepsComplete(Normalize(s));
  }

  /** One descriptor turned into a function definition. */
  function ToFunctionTool(t: Tool): (f: FunctionTool)
    ensures f.name == t.name && f.description == t.description
    ensures f.parameters == Normalize(t.inputSchema)
  {
    FunctionTool(t.name, t.description, Normalize(t.inputSchema))
  }

  /** Every descriptor converted, one for one and in order. */
  function McpToolToOpenAITool(tools: seq<Tool>): (r: seq<FunctionTool>)
    ensures |r| == |tools|
    ensures forall i :: 0 <= i < |tools| ==>
      r[i].name == tools[i].name && r[i].description == tools[i].description &&
      r[i].parameters == Normalize(tools[i].inputSchema)
  {
    if tools == [] then []
    else McpToolToOpenAITool(tools[..|tools| - 1]) + [ToFunctionTool(tools[|tools| - 1])]
  }

  /** Converting a concatenation converts each part. */
  lemma {:induction false} ConvertAppend(a: seq<Tool>, b: seq<Tool>)
    ensures McpToolToOpenAITool(a + b) == McpToolToOpenAITool(a) + McpToolToOpenAITool(b)
  {
    if b != [] {
      assert (a + b)[..|a + b| - 1] == a + b[..|b| - 1];
      ConvertAppend(a, b[..|b| - 1]);
    } else {
      assert a + b == a;
    }
  }

  /** The example schema {type: "", properties: nil, required: nil}. */
  lemma EmptySchemaExample(name: string, description: string)
    ensures ToFunctionTool(Tool(name, description, InputSchema("", None, None), map[])).parameters
         == Parameters("object", map[], [])
  {
  }
}
