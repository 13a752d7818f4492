/** The channel tools of src/agent/tools/discord_tools/channel.rs: five
    handlers, their JSON schemas and the name dispatcher. */
module ChannelTools {
  import opened Wrappers
  import opened Text
  import OpenAi
  import opened ToolKit

  datatype Tool = CreateChannelTool | DeleteChannelTool | ModifyChannel | ChannelInfo | ChannelList

  /** The tools in the order `definitions` pushes them. */
  const Tools: seq<Tool> := [CreateChannelTool, DeleteChannelTool, ModifyChannel, ChannelInfo, ChannelList]

  function Name(t: Tool): string {
    match t
    case CreateChannelTool => "create_channel"
    case DeleteChannelTool => "delete_channel"
    case ModifyChannel => "modify_channel"
    case ChannelInfo => "get_channel_info"
    case ChannelList => "get_channel_list"
  }

  /** The `match name` of `execute`. */
  function Route(name: string): (r: Option<Tool>)
    ensures r.Some? ==> Name(r.value) == name
  {
    if name == "create_channel" then Some(CreateChannelTool)
    else if name == "delete_channel" then Some(DeleteChannelTool)
    else if name == "modify_channel" then Some(ModifyChannel)
    else if name == "get_channel_info" then Some(ChannelInfo)
    else if name == "get_channel_list" then Some(ChannelList)
    else None
  }

  lemma RouteName(t: Tool)
    ensures Route(Name(t)) == Some(t)
  {
  }

  /** The position of `t` in `Tools`. */
  function Index(t: Tool): (i: nat)
    ensures i < |Tools| && Tools[i] == t
  {
    match t
    case CreateChannelTool => 0
    case DeleteChannelTool => 1
    case ModifyChannel => 2
    case ChannelInfo => 3
    case ChannelList => 4
  }

  const GuildId := Prop("guild_id", "integer", "Guild id.")
  const ChannelId := Prop("channel_id", "integer", "Channel id.")
  const Kind := Prop("kind", "string", "Channel type (text, voice, category, news, stage, forum).")
  const SharedFields := [
    Prop("nsfw", "boolean", "Whether the channel is NSFW."),
    Prop("parent_id", "integer", "Parent category channel id."),
    Prop("position", "integer", "Position in channel list."),
    Prop("bitrate", "integer", "Bitrate for voice channels."),
    Prop("user_limit", "integer", "User limit for voice channels."),
    Prop("rate_limit_per_user", "integer", "Slowmode in seconds.")]

  /** The `description` of each schema. */
  function Description(t: Tool): string {
    match t
    case CreateChannelTool => "Create a channel in a guild."
    case DeleteChannelTool => "Delete a channel."
    case ModifyChannel => "Modify channel settings."
    case ChannelInfo => "Get channel information."
    case ChannelList => "Get channel list."
  }

  /** The `properties` of each schema, in order. */
  function Properties(t: Tool): seq<OpenAi.Property> {
    match t
    case CreateChannelTool => [
      GuildId,
      Prop("name", "string", "Channel name."),
      Kind,
      Prop("topic", "string", "Channel topic.")] + SharedFields
    case DeleteChannelTool => [ChannelId]
    case ModifyChannel => [
      ChannelId,
      Prop("name", "string", "New channel name."),
      Kind,
      Prop("topic", "string", "New topic.")] + SharedFields
    case ChannelInfo => [ChannelId]
    case ChannelList => [GuildId]
  }

  /** The `required` list of each schema. */
  function Required(t: Tool): seq<string> {
    match t
    case CreateChannelTool => ["guild_id", "name"]
    case DeleteChannelTool => ["channel_id"]
    case ModifyChannel => ["channel_id"]
    case ChannelInfo => ["channel_id"]
    case ChannelList => ["guild_id"]
  }

  function Definition(t: Tool): (d: OpenAi.ToolDefinition)
    ensures d.name == Name(t) && RequiredOf(d) == Required(t)
  {
    BuildTool(Name(t), Description(t), Properties(t), Required(t))
  }


  lemma ToolsDistinct()
    ensures forall i, j | 0 <= i < j < |Tools| :: Tools[i] != Tools[j]
  {
    forall i, j | 0 <= i < j < |Tools|
      ensures Tools[i] != Tools[j]
    {
      assert Index(Tools[i]) == i && Index(Tools[j]) == j;
    }
  }

  lemma DefinitionsRoute()
    ensures forall t :: Route(Definition(t).name) == Some(t)
  {
    forall t ensures Route(Definition(t).name) == Some(t) {
      RouteName(t);
    }
  }

  /** `definitions()`: one schema per tool, each named so that `execute`
      routes it to that tool, no name twice. */
  function Definitions(): (defs: seq<OpenAi.ToolDefinition>)
    ensures |defs| == |Tools|
    ensures forall i | 0 <= i < |defs| :: defs[i] == Definition(Tools[i]) && Route(defs[i].name) == Some(Tools[i])
    ensures forall i, j | 0 <= i < j < |defs| :: defs[i].name != defs[j].name
  {
    DefinitionsRoute();
    ToolsDistinct();
    seq(|Tools|, i requires 0 <= i < |Tools| => Definition(Tools[i]))
  }

  /** Every name `execute` accepts is advertised by `definitions`. */
  lemma DefinitionsCoverRoutes(name: string)
    ensures Route(name).Some? <==> exists i | 0 <= i < |Definitions()| :: Definitions()[i].name == name
  {
    if Route(name).Some? {
      var i := Index(Route(name).value);
      assert Definitions()[i].name == name;
    }
  }

  // The handlers.

  /** The optional settings `create_channel` and `modify_channel` both read. */
  function ChannelSettingsOf(a: Args): ChannelSettings {
    ChannelSettings(
      kind := Lookup(a.channelKinds, "kind"),
      topic := Str(a, "topic"),
      nsfw := BoolOf(a, "nsfw"),
      category := ChannelOf(a, "parent_id"),
      position := U16Of(a, "position"),
      bitrate := U32Of(a, "bitrate"),
      userLimit := U32Of(a, "user_limit"),
      rateLimitPerUser := U16Of(a, "rate_limit_per_user"))
  }

  /** Both `guild_id` and `name` resolve. */
  predicate HasNewChannel(a: Args) {
    a.guildId.Some? && "name" in a.strings
  }

  /** What `create_channel` does, stated on values: the name is mandatory,
      every other setting optional. */
  function CreateChannelRun(a: Args, http: Http): (r: ToolRun)
    ensures r.calls != [] <==> HasNewChannel(a)
    ensures HasNewChannel(a) ==>
      SingleCall(r, CreateChannel(a.guildId.value, a.strings["name"], ChannelSettingsOf(a)), http)
    ensures a.guildId.None? ==> r == Missing("guild_id")
    ensures a.guildId.Some? && "name" !in a.strings ==> r == Missing("name")
  {
    if a.guildId.None? then Missing("guild_id")
    else if "name" !in a.strings then Missing("name")
    else Fetch(CreateChannel(a.guildId.value, a.strings["name"], ChannelSettingsOf(a)), http, "create channel")
  }

  /** The setters both builders apply, one by one. */
  method CollectChannelSettings(a: Args) returns (builder: ChannelSettings)
    ensures builder == ChannelSettingsOf(a)
  {
    builder := NoChannelSettings;
    if "kind" in a.channelKinds {
      builder := builder.(kind := Some(a.channelKinds["kind"]));
    }
    assert builder == ChannelSettingsOf(a).(topic := None, nsfw := None, category := None, position := None, bitrate := None, userLimit := None, rateLimitPerUser := None);
    if "topic" in a.strings {
      builder := builder.(topic := Some(a.strings["topic"]));
    }
    assert builder == ChannelSettingsOf(a).(nsfw := None, category := None, position := None, bitrate := None, userLimit := None, rateLimitPerUser := None);
    if "nsfw" in a.bools {
      builder := builder.(nsfw := Some(a.bools["nsfw"]));
    }
    assert builder == ChannelSettingsOf(a).(category := None, position := None, bitrate := None, userLimit := None, rateLimitPerUser := None);
    if "parent_id" in a.channelIds {
      builder := builder.(category := Some(a.channelIds["parent_id"]));
    }
    assert builder == ChannelSettingsOf(a).(position := None, bitrate := None, userLimit := None, rateLimitPerUser := None);
    if "position" in a.u16s {
      builder := builder.(position := Some(a.u16s["position"]));
    }
    assert builder == ChannelSettingsOf(a).(bitrate := None, userLimit := None, rateLimitPerUser := None);
    if "bitrate" in a.u32s {
      builder := builder.(bitrate := Some(a.u32s["bitrate"]));
    }
    assert builder == ChannelSettingsOf(a).(userLimit := None, rateLimitPerUser := None);
    if "user_limit" in a.u32s {
      builder := builder.(userLimit := Some(a.u32s["user_limit"]));
    }
    assert builder == ChannelSettingsOf(a).(rateLimitPerUser := None);
    if "rate_limit_per_user" in a.u16s {
      builder := builder.(rateLimitPerUser := Some(a.u16s["rate_limit_per_user"]));
    }
  }

  /** `create_channel` as written. */
  method CreateChannelMethod(a: Args, http: Http) returns (r: ToolRun)
    ensures r == CreateChannelRun(a, http)
  {
    if a.guildId.None? {
      return Missing("guild_id");
    }
    var guild := a.guildId.value;
    if "name" !in a.strings {
      return Missing("name");
    }
    var name := a.strings["name"];
    var builder := CollectChannelSettings(a);
    r := Fetch(CreateChannel(guild, name, builder), http, "create channel");
  }

  function DeleteChannelRun(a: Args, http: Http): (r: ToolRun)
    ensures r.calls != [] <==> "channel_id" in a.channelIds
    ensures "channel_id" in a.channelIds ==> SingleCall(r, DeleteChannel(a.channelIds["channel_id"]), http)
    ensures "channel_id" !in a.channelIds ==> r == Missing("channel_id")
  {
    if "channel_id" !in a.channelIds then Missing("channel_id")
    else Fetch(DeleteChannel(a.channelIds["channel_id"]), http, "delete channel")
  }

  const NoChannelFields := "No channel fields provided to modify"

  /** What `modify_channel` does, stated on values. */
  function ModifyChannelRun(a: Args, http: Http): (r: ToolRun)
    ensures r.calls != [] <==> "channel_id" in a.channelIds && ("name" in a.strings || ChannelSettingsOf(a) != NoChannelSettings)
    ensures r.calls != [] ==>
      SingleCall(r, EditChannel(a.channelIds["channel_id"], Str(a, "name"), ChannelSettingsOf(a)), http)
    ensures r.calls == [] ==> r.reply.Failure?
    ensures "channel_id" !in a.channelIds ==> r == Missing("channel_id")
  {
    if "channel_id" !in a.channelIds then Missing("channel_id")
    else if "name" !in a.strings && ChannelSettingsOf(a) == NoChannelSettings then ToolRun(Failure(NoChannelFields), [])
    else Fetch(EditChannel(a.channelIds["channel_id"], Str(a, "name"), ChannelSettingsOf(a)), http, "modify channel")
  }

  /** `modify_channel` as written: the name setter, then the shared setters,
      with a flag recording whether any was applied. */
  method ModifyChannelMethod(a: Args, http: Http) returns (r: ToolRun)
    ensures r == ModifyChannelRun(a, http)
  {
    if "channel_id" !in a.channelIds {
      return Missing("channel_id");
    }
    var channel := a.channelIds["channel_id"];
    var name: Option<string> := None;
    var changed := false;
    if "name" in a.strings {
      name := Some(a.strings["name"]);
      changed := true;
    }
    var builder := CollectChannelSettings(a);
    changed := changed || builder != NoChannelSettings;
    if !changed {
      return ToolRun(Failure(NoChannelFields), []);
    }
    r := Fetch(EditChannel(channel, name, builder), http, "modify channel");
  }

  /** `modify_channel` refuses with "No channel fields provided to modify"
      exactly when the channel is named and none of its fields is given. */
  lemma NoChannelFieldsExactly(a: Args, http: Http)
    ensures ModifyChannelRun(a, http).reply == Failure(NoChannelFields) <==>
      "channel_id" in a.channelIds && "name" !in a.strings && "kind" !in a.channelKinds && "topic" !in a.strings
      && "nsfw" !in a.bools && "parent_id" !in a.channelIds && "position" !in a.u16s && "bitrate" !in a.u32s
      && "user_limit" !in a.u32s && "rate_limit_per_user" !in a.u16s
  {
    var r := ModifyChannelRun(a, http);
    if r.calls != [] && r.reply.Failure? {
      FailedToPrefix("modify channel", http(r.calls[0]).error);
      assert r.reply.message[0] == 'F';
      assert NoChannelFields[0] == 'N';
    }
    if "channel_id" !in a.channelIds {
      assert Missing("channel_id").reply.message[0] == 'c';
    }
  }

  /** Creating a channel and then modifying it with the same arguments asks
      for the same name and settings. */
  lemma CreateAndModifyAgree(a: Args, http: Http)
    requires HasNewChannel(a) && "channel_id" in a.channelIds
    ensures CreateChannelRun(a, http).calls[0].channelName == ModifyChannelRun(a, http).calls[0].newName.value
    ensures CreateChannelRun(a, http).calls[0].settings == ModifyChannelRun(a, http).calls[0].settings
  {
  }

  function ChannelInfoRun(a: Args, http: Http): (r: ToolRun)
    ensures r.calls != [] <==> "channel_id" in a.channelIds
    ensures "channel_id" in a.channelIds ==> SingleCall(r, GetChannel(a.channelIds["channel_id"]), http)
    ensures "channel_id" !in a.channelIds ==> r == Missing("channel_id")
  {
    if "channel_id" !in a.channelIds then Missing("channel_id")
    else Fetch(GetChannel(a.channelIds["channel_id"]), http, "fetch channel info")
  }

  function ChannelListRun(a: Args, http: Http): (r: ToolRun)
    ensures r.calls != [] <==> a.guildId.Some?
    ensures a.guildId.Some? ==> SingleCall(r, ListChannels(a.guildId.value), http)
    ensures a.guildId.None? ==> r == Missing("guild_id")
  {
    if a.guildId.None? then Missing("guild_id")
    else Fetch(ListChannels(a.guildId.value), http, "fetch channel list")
  }

  function Invoke(t: Tool, a: Args, http: Http): ToolRun {
    match t
    case CreateChannelTool => CreateChannelRun(a, http)
    case DeleteChannelTool => DeleteChannelRun(a, http)
    case ModifyChannel => ModifyChannelRun(a, http)
    case ChannelInfo => ChannelInfoRun(a, http)
    case ChannelList => ChannelListRun(a, http)
  }

  /** `execute(ctx, name, args)`: `None` for a name this module does not own. */
  function Execute(name: string, a: Args, http: Http): (r: Option<ToolRun>)
    ensures r.Some? <==> Route(name).Some?
    ensures r.Some? ==> r.value == Invoke(Route(name).value, a, http)
  {
    match Route(name)
    case None => None
    case Some(t) => Some(Invoke(t, a, http))
  }

  /** Every handler makes at most one call, only once every field its schema
      marks required has been supplied, and reports that call's outcome;
      without a call it answers with an error. */
  lemma HandlersHonourSchemas(t: Tool, a: Args, http: Http)
    ensures |Invoke(t, a, http).calls| <= 1
    ensures Invoke(t, a, http).calls != [] ==>
      SuppliesAll(a, Required(t)) && ReportsLastCall(Invoke(t, a, http), http)
    ensures Invoke(t, a, http).calls == [] ==> Invoke(t, a, http).reply.Failure?
    ensures !SuppliesAll(a, Required(t)) ==> Invoke(t, a, http).calls == []
  {
    match t
    case CreateChannelTool =>
    case DeleteChannelTool =>
    case ModifyChannel =>
    case ChannelInfo =>
    case ChannelList =>
  }
  /** Every handler checks the fields its schema marks required in the
      schema's order, with the getter that field is read by, and answers
      "<field> is required" for the first one missing, before any call. */
  lemma RequiredCheckedInOrder(t: Tool, a: Args, http: Http)
    requires FirstMissing(a, Required(t)).Some?
    ensures Invoke(t, a, http) == Missing(FirstMissing(a, Required(t)).value)
  {
    match t
    case CreateChannelTool =>
    case DeleteChannelTool =>
    case ModifyChannel =>
    case ChannelInfo =>
    case ChannelList =>
  }

}
