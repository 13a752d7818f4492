/** The tool catalogue and dispatcher of src/agent/tools/tools.rs: the one
    tool it advertises and the routing of a model-issued call by name. */
module Tools {
  import opened Wrappers
  import opened Text
  import Json
  import OpenAi
  import opened DiscordModel
  import GuildChannelList

  const ChannelListToolName := "get_channel_id_list_from_guild_id"
  const ChannelListDescription :=
    "List channel id from guild id. Columns are output as `<channel_name>: <channel_id> (<channel_type>)`."

  /** `tool_definitions()`: the channel-listing tool, with `guild_id` required. */
  function ToolDefinitions(): (defs: seq<OpenAi.ToolDefinition>)
    ensures |defs| == 1 && defs[0].name == ChannelListToolName
    ensures defs[0].required == Some(["guild_id"])
    ensures |defs[0].properties| == 1 && defs[0].properties[0].name == "guild_id"
  {
    [OpenAi.ToolDefinition(
      ChannelListToolName,
      ChannelListDescription,
      [OpenAi.Property("guild_id", "integer", "Guild id.", None)],
      Some(["guild_id"]))]
  }

  /** The names `execute_tool_call` dispatches on. */
  predicate Dispatches(name: string) {
    name == ChannelListToolName
  }

  function UnknownTool(name: string): string {
    Json.SingleFieldObjectText("error", "unknown tool: " + name)
  }

  /** `execute_tool_call(ctx, name, arguments)`: arguments that do not parse
      are treated as `{}`; an unknown name is answered with an error object. */
  function ExecuteToolCall(ctx: DiscordCtx, name: string, arguments: Json.RawJson): (out: string)
    ensures Dispatches(name) ==> out == GuildChannelList.Execute(ctx, Json.ParseOrEmpty(arguments))
    ensures !Dispatches(name) ==> out == UnknownTool(name)
  {
    var args := Json.ParseOrEmpty(arguments);
    if name == ChannelListToolName then GuildChannelList.Execute(ctx, args)
    else UnknownTool(name)
  }

  /** The catalogue and the dispatcher agree: a name is advertised exactly
      when it is dispatched. */
  lemma CatalogueMatchesDispatcher(name: string)
    ensures (exists i | 0 <= i < |ToolDefinitions()| :: ToolDefinitions()[i].name == name) <==> Dispatches(name)
  {
    if Dispatches(name) {
      assert ToolDefinitions()[0].name == name;
    }
  }

  /** Malformed arguments reach the tool as `{}`, which holds no guild id:
      the call is answered "Invalid Guild ID" without a fetch. */
  lemma MalformedArgumentsInvalid(ctx: DiscordCtx)
    ensures ExecuteToolCall(ctx, ChannelListToolName, Json.Malformed) == GuildChannelList.InvalidGuildId
  {
  }

  /** The unknown-tool answer is a JSON object whose one `error` field reads
      back, after unescaping, as "unknown tool: " followed by the name. */
  lemma UnknownToolReadsBack(name: string)
    ensures UnknownTool(name) ==
      "{" + Json.Quote("error") + ":\"" + Json.Escape("unknown tool: " + name) + "\"}"
    ensures Json.Unescape(Json.Escape("unknown tool: " + name)) == Some("unknown tool: " + name)
  {
    Json.UnescapeEscape("unknown tool: " + name);
  }
}
