/**
  The tool-provider client (mcp_client.go): the tools it last listed and the
  normalisation of tool-call arguments before a call. The provider process and
  the library routines are abstract oracles.
*/
module Mcp {
  import opened Base
  import opened ToolSchema

  /** A block of a provider's call result. */
  datatype Content = TextContent(text: string) | OtherContent(payload: Json)

  /** The arguments a tool call comes with, by dynamic shape: encoded text,
      an already decoded map, or anything else. */
  datatype RawArgs = Encoded(text: string) | Structured(fields: map<string, Json>) | OtherShape(value: Json)

  /** The library routines a call relies on: JSON decoding into a map (a nil map
      when the text is `null`) and the extraction of text from call content. */
  datatype Lib = Lib(unmarshal: string -> Result<Args>, textFromContent: seq<Content> -> string)

  /** The provider process behind a client: how its start (with the
      handshake), its tool listing, its tool calls and its close turn out.
      None is a nil error. */
  datatype Server = Server(
    start: Option<string>,
    listing: Result<seq<Tool>>,
    call: (string, Args) -> Result<seq<Content>>,
    close: Option<string>)

  /** A listed tool as the client keeps it: name, description and input schema only. */
  function Kept(t: Tool): (k: Tool)
    ensures k.name == t.name && k.description == t.description && k.inputSchema == t.inputSchema
    ensures k.annotations == map[]
  {
    Tool(t.name, t.description, t.inputSchema, map[])
  }

  /** A listing as the client keeps it, one for one and in order. */
  function KeptTools(listed: seq<Tool>): (r: seq<Tool>)
    ensures |r| == |listed|
    ensures forall i :: 0 <= i < |listed| ==> r[i] == Kept(listed[i])
  {
    if listed == [] then [] else KeptTools(listed[..|listed| - 1]) + [Kept(listed[|listed| - 1])]
  }

  /** A client of one provider process. */
  class McpClient {
    const server: Server
    var tools: seq<Tool>

    /** A client that has listed nothing yet. */
    constructor (server: Server)
      ensures this.server == server && tools == []
    {
      this.server := server;
      tools := [];
    }

    /** List the provider's tools; keep them only when the listing succeeds. */
    method SetTools() returns (err: Option<string>)
      modifies this`tools
      ensures server.listing.Err? ==> err == Some(server.listing.error) && tools == old(tools)
      ensures server.listing.Ok? ==> err == None && tools == KeptTools(server.listing.value)
    {
      var listing := server.listing;
      if listing.Err? {
        return Some(listing.error);
      }
      var listed := listing.value;
      var kept: seq<Tool> := [];
      for i := 0 to |listed|
        invariant kept == KeptTools(listed[..i])
      {
        assert listed[..i + 1][..i] == listed[..i];
        kept := kept + [Tool(listed[i].name, listed[i].description, listed[i].inputSchema, map[])];
      }
      assert listed[..|listed|] == listed;
      tools := kept;
      return None;
    }

    /** The tools as last listed. */
    function GetTool(): (r: seq<Tool>)
      reads this
      ensures r == tools
    {
      tools
    }

    /** Call a tool. Text arguments are decoded and a decoding error is returned
        without calling the provider; a map is passed as it is; any other shape
        becomes the nil map and the call goes ahead. A provider error is returned;
        otherwise the text extracted from the content. */
    function CallTool(lib: Lib, name: string, arg: RawArgs): (r: Result<string>)
      ensures arg.Encoded? && lib.unmarshal(arg.text).Err? ==> r == Err(lib.unmarshal(arg.text).error)
      ensures arg.Encoded? && lib.unmarshal(arg.text).Ok? ==> r == Reply(lib, server.call(name, lib.unmarshal(arg.text).value))
      ensures arg.Structured? ==> r == Reply(lib, server.call(name, Some(arg.fields)))
      ensures arg.OtherShape? ==> r == Reply(lib, server.call(name, None))
    {
      var arguments :=
        match arg
        case Encoded(text) => lib.unmarshal(text)
        case Structured(fields) => Ok(Some(fields))
        case OtherShape(_) => Ok(None);
      match arguments
      case Err(e) => Err(e)
      case Ok(args) =>
        match server.call(name, args)
        case Err(e) => Err(e)
        case Ok(content) => Ok(lib.textFromContent(content))
    }
  }

  /** A provider's answer as the caller sees it: its error, or the extracted text. */
  function Reply(lib: Lib, res: Result<seq<Content>>): (r: Result<string>)
    ensures res.Err? ==> r == Err(res.error)
    ensures res.Ok? ==> r == Ok(lib.textFromContent(res.value))
  {
    match res
    case Err(e) => Err(e)
    case Ok(content) => Ok(lib.textFromContent(content))
  }

  /** Text that fails to decode gives the same error whatever the provider would
      do: the provider is not reached. */
  lemma DecodeFailureSkipsProvider(c: McpClient, d: McpClient, lib: Lib, name: string, text: string)
    requires lib.unmarshal(text).Err?
    ensures c.CallTool(lib, name, Encoded(text)) == d.CallTool(lib, name, Encoded(text))
    ensures c.CallTool(lib, name, Encoded(text)).Err?
  {
  }

  /** Text that decodes to a map is called exactly as that map would be. */
  lemma EncodedAgreesWithStructured(c: McpClient, lib: Lib, name: string, text: string, fields: map<string, Json>)
    requires lib.unmarshal(text) == Ok(Some(fields))
    ensures c.CallTool(lib, name, Encoded(text)) == c.CallTool(lib, name, Structured(fields))
  {
  }

  /** Any other shape is sent as the nil map, never fails before the provider,
      and its value is ignored. */
  lemma OtherShapeSendsNil(c: McpClient, lib: Lib, name: string, v: Json, w: Json)
    ensures c.CallTool(lib, name, OtherShape(v)) == c.CallTool(lib, name, OtherShape(w))
    ensures c.CallTool(lib, name, OtherShape(v)).Err? <==> c.server.call(name, None).Err?
  {
  }
}
