/** The MCP server's two request handlers over its `tools` registry: the tool
    listing, and the call handler that finds a tool by name and wraps every
    outcome (unknown tool, result, thrown error) in a response envelope. A
    tool's `execute` is abstracted as a function from the descriptor to its
    result or thrown message, the call's arguments being fixed. */
module Dispatcher {
  import opened Wrappers

  /** One property of a tool's input schema: its JSON type and, when the
      schema lists one, the allowed values. */
  datatype Property = Property(name: string, jsonType: string, allowed: Option<seq<string>>)

  /** `{type: "object", properties, required}`. */
  datatype Schema = Schema(properties: seq<Property>, required: seq<string>)

  /** A tool as the registry holds it, `execute` aside. */
  datatype ToolDescriptor = ToolDescriptor(name: string, description: string, parameters: Schema)

  /** One entry of the ListTools answer. */
  datatype Listing = Listing(name: string, description: string, inputSchema: Schema)

  /** The text payload of a CallTool answer before it is serialised: the raw
      tool result, or `{success: false, error}`. */
  datatype Payload<R> = Returned(value: R) | Failed(error: string)

  /** `{content: [{type: "text", text}], isError?}`; an absent `isError` is
      false. */
  datatype Response<R> = Response(payload: Payload<R>, isError: bool)

  const NotFoundPrefix: string := "Tool not found: "

  /** The registry, in the server's order. */
  function Registry(): (tools: seq<ToolDescriptor>)
    ensures |tools| == 5
  {
    [ ToolDescriptor("crypto_converter",
                     "Convert cryptocurrency to another coin or fiat using real-time rates",
                     Schema([Property("from", "string", None), Property("to", "string", None),
                             Property("amount", "number", None)],
                            ["from", "to", "amount"])),
      ToolDescriptor("frax_transactions",
                     "Fetch latest 5 FRAX token transactions",
                     Schema([Property("address", "string", None),
                             Property("chain", "string", Some(["ethereum", "fraxtal"]))],
                            ["address"])),
      ToolDescriptor("wallet_balance",
                     "Get wallet balance across Ethereum, Polygon, or Arbitrum",
                     Schema([Property("address", "string", None),
                             Property("chain", "string", Some(["ethereum", "polygon", "arbitrum"]))],
                            ["address"])),
      ToolDescriptor("gas_estimator",
                     "Fetch current gas prices using Etherscan Gas Oracle (V2)",
                     Schema([Property("chain", "string", Some(["ethereum", "polygon", "arbitrum"]))], [])),
      ToolDescriptor("telegram_bot",
                     "Send message to Telegram chat/channel",
                     Schema([Property("message", "string", None)], ["message"])) ]
  }

  /** The ListTools handler: one listing per registered tool, in registry
      order, exposing `parameters` as `inputSchema`. */
  function ListTools(tools: seq<ToolDescriptor>): (r: seq<Listing>)
    ensures |r| == |tools|
    ensures forall i :: 0 <= i < |r| ==>
      r[i] == Listing(tools[i].name, tools[i].description, tools[i].parameters)
  {
    seq(|tools|, i requires 0 <= i < |tools| => Listing(tools[i].name, tools[i].description, tools[i].parameters))
  }

  /** `tools.find(t => t.name === name)`, as a position: the first tool whose
      name is exactly `name`, or none when no tool has that name. */
  function FindIndex(tools: seq<ToolDescriptor>, name: string): (r: Option<nat>)
    ensures r.None? <==> forall j :: 0 <= j < |tools| ==> tools[j].name != name
    ensures r.Some? ==> r.value < |tools| && tools[r.value].name == name
    ensures r.Some? ==> forall j :: 0 <= j < r.value ==> tools[j].name != name
  {
    if tools == [] then None
    else if tools[0].name == name then Some(0)
    else
      match FindIndex(tools[1..], name)
      case None => None
      case Some(i) => Some(i + 1)
  }

  /** The CallTool handler. An unknown name answers
      `{success: false, error: "Tool not found: <name>"}` as an error and
      runs nothing; otherwise the first tool of that name is run, its result
      is returned as it is and not marked as an error, and a thrown error
      becomes `{success: false, error: <message>}` marked as an error. No
      failure escapes the handler. */
  function CallTool<R>(tools: seq<ToolDescriptor>, name: string, execute: ToolDescriptor -> Result<R>)
    : (r: Response<R>)
    ensures (forall j :: 0 <= j < |tools| ==> tools[j].name != name) ==>
              r == Response(Failed(NotFoundPrefix + name), true)
    ensures r.isError <==> r.payload.Failed?
    ensures r.payload.Returned? ==>
              exists i :: 0 <= i < |tools| && tools[i].name == name && execute(tools[i]) == Success(r.payload.value)
    ensures FindIndex(tools, name).Some? ==>
              var e := execute(tools[FindIndex(tools, name).value]);
              && (e.Success? ==> r == Response(Returned(e.value), false))
              && (e.Failure? ==> r == Response(Failed(e.error), true))
  {
    match FindIndex(tools, name)
    case None => Response(Failed(NotFoundPrefix + name), true)
    case Some(i) =>
      match execute(tools[i])
      case Success(v) => Response(Returned(v), false)
      case Failure(message) => Response(Failed(message), true)
  }

  /** The registry's names, in order. */
  lemma RegistryOrder()
    ensures |ListTools(Registry())| == 5
    ensures ListTools(Registry())[0].name == "crypto_converter"
    ensures ListTools(Registry())[1].name == "frax_transactions"
    ensures ListTools(Registry())[2].name == "wallet_balance"
    ensures ListTools(Registry())[3].name == "gas_estimator"
    ensures ListTools(Registry())[4].name == "telegram_bot"
  {
  }

  /** No two registered tools share a name. */
  predicate DistinctNames(tools: seq<ToolDescriptor>) {
    forall i, j :: 0 <= i < j < |tools| ==> tools[i].name != tools[j].name
  }

  /** Calling a registered tool by its own name runs that tool and no other:
      its result comes back unwrapped, its thrown message as an error. */
  lemma {:induction false} CallRunsNamedTool<R>(tools: seq<ToolDescriptor>, i: nat,
                                               execute: ToolDescriptor -> Result<R>)
    requires DistinctNames(tools) && i < |tools|
    ensures var r := CallTool(tools, tools[i].name, execute);
      && (execute(tools[i]).Success? ==> r == Response(Returned(execute(tools[i]).value), false))
      && (execute(tools[i]).Failure? ==> r == Response(Failed(execute(tools[i]).error), true))
  {
    var k := FindIndex(tools, tools[i].name);
    assert k.Some?;
    assert k.value == i;
  }

  /** Every name the listing shows can be called, and calls the tool listed
      under it. */
  lemma RegistryCallsListedTools<R>(i: nat, execute: ToolDescriptor -> Result<R>)
    requires i < |Registry()|
    ensures var r := CallTool(Registry(), ListTools(Registry())[i].name, execute);
      var e := execute(Registry()[i]);
      && (e.Success? ==> r == Response(Returned(e.value), false))
      && (e.Failure? ==> r == Response(Failed(e.error), true))
  {
    assert DistinctNames(Registry());
    CallRunsNamedTool(Registry(), i, execute);
  }

  /** A name no tool has never runs a tool: the answer is the same whatever
      the tools would do. */
  lemma UnknownNameRunsNothing<R>(tools: seq<ToolDescriptor>, name: string,
                                  e1: ToolDescriptor -> Result<R>, e2: ToolDescriptor -> Result<R>)
    requires forall j :: 0 <= j < |tools| ==> tools[j].name != name
    ensures CallTool(tools, name, e1) == CallTool(tools, name, e2)
  {
  }
}
