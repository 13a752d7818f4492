/** The guild tools of src/agent/tools/discord_tools/guild.rs: four
    handlers, their JSON schemas and the name dispatcher. `modify_guild`
    reads an icon file; the file system is the `read` parameter. */
module GuildTools {
  import opened Wrappers
  import opened Text
  import OpenAi
  import opened ToolKit

  type FileReader = string -> Result<seq<U8>>

  datatype Tool = GuildInfo | GuildList | ModifyGuild | AuditLog

  /** The tools in the order `definitions` pushes them. */
  const Tools: seq<Tool> := [GuildInfo, GuildList, ModifyGuild, AuditLog]

  function Name(t: Tool): string {
    match t
    case GuildInfo => "get_guild_info"
    case GuildList => "get_guild_list"
    case ModifyGuild => "modify_guild"
    case AuditLog => "get_audit_log"
  }

  /** The `match name` of `execute`. */
  function Route(name: string): (r: Option<Tool>)
    ensures r.Some? ==> Name(r.value) == name
  {
    if name == "get_guild_info" then Some(GuildInfo)
    else if name == "get_guild_list" then Some(GuildList)
    else if name == "modify_guild" then Some(ModifyGuild)
    else if name == "get_audit_log" then Some(AuditLog)
    else None
  }

  lemma RouteName(t: Tool)
    ensures Route(Name(t)) == Some(t)
  {
  }

  /** The position of `t` in `Tools`. */
  function Index(t: Tool): (i: nat)
    ensures i < |Tools| && Tools[i] == t
  {
    match t
    case GuildInfo => 0
    case GuildList => 1
    case ModifyGuild => 2
    case AuditLog => 3
  }

  const GuildId := Prop("guild_id", "integer", "Guild id.")

  /** The `description` of each schema. */
  function Description(t: Tool): string {
    match t
    case GuildInfo => "Get guild information."
    case GuildList => "List guilds bot is in."
    case ModifyGuild => "Modify guild settings such as name or icon."
    case AuditLog => "Fetch guild audit log entries."
  }

  /** The `properties` of each schema, in order. */
  function Properties(t: Tool): seq<OpenAi.Property> {
    match t
    case GuildInfo => [GuildId]
    case GuildList => [
      Prop("limit", "integer", "Max guilds to return (1-200)."),
      Prop("after", "integer", "Return guilds after this guild id.")]
    case ModifyGuild => [
      GuildId,
      Prop("name", "string", "New guild name."),
      Prop("description", "string", "New guild description."),
      Prop("icon_path", "string", "Local path to PNG icon file."),
      Prop("clear_icon", "boolean", "Clear current icon.")]
    case AuditLog => [
      GuildId,
      Prop("action_type", "integer", "Audit log action type number."),
      Prop("user_id", "integer", "Filter by user id."),
      Prop("before", "integer", "Fetch entries before this audit log entry id."),
      Prop("limit", "integer", "Number of entries to return.")]
  }

  /** The `required` list of each schema; `get_guild_list` has none. */
  function Required(t: Tool): seq<string> {
    match t
    case GuildInfo => ["guild_id"]
    case GuildList => []
    case ModifyGuild => ["guild_id"]
    case AuditLog => ["guild_id"]
  }

  function Definition(t: Tool): (d: OpenAi.ToolDefinition)
    ensures d.name == Name(t) && RequiredOf(d) == Required(t)
    ensures d.required.None? <==> t == GuildList
  {
    if t == GuildList then BuildOpenTool(Name(t), Description(t), Properties(t))
    else BuildTool(Name(t), Description(t), Properties(t), Required(t))
  }

  lemma ToolsDistinct()
    ensures forall i, j | 0 <= i < j < |Tools| :: Tools[i] != Tools[j]
  {
    forall i, j | 0 <= i < j < |Tools|
      ensures Tools[i] != Tools[j]
    {
      assert Index(Tools[i]) == i && Index(Tools[j]) == j;
    }
  }

  lemma DefinitionsRoute()
    ensures forall t :: Route(Definition(t).name) == Some(t)
  {
    forall t ensures Route(Definition(t).name) == Some(t) {
      RouteName(t);
    }
  }

  /** `definitions()`: one schema per tool, each named so that `execute`
      routes it to that tool, no name twice. */
  function Definitions(): (defs: seq<OpenAi.ToolDefinition>)
    ensures |defs| == |Tools|
    ensures forall i | 0 <= i < |defs| :: defs[i] == Definition(Tools[i]) && Route(defs[i].name) == Some(Tools[i])
    ensures forall i, j | 0 <= i < j < |defs| :: defs[i].name != defs[j].name
  {
    DefinitionsRoute();
    ToolsDistinct();
    seq(|Tools|, i requires 0 <= i < |Tools| => Definition(Tools[i]))
  }

  /** Every name `execute` accepts is advertised by `definitions`. */
  lemma DefinitionsCoverRoutes(name: string)
    ensures Route(name).Some? <==> exists i | 0 <= i < |Definitions()| :: Definitions()[i].name == name
  {
    if Route(name).Some? {
      var i := Index(Route(name).value);
      assert Definitions()[i].name == name;
    }
  }

  // The handlers.

  function GuildInfoRun(a: Args, http: Http): (r: ToolRun)
    ensures r.calls != [] <==> a.guildId.Some?
    ensures a.guildId.Some? ==> SingleCall(r, GetGuild(a.guildId.value), http)
    ensures a.guildId.None? ==> r == Missing("guild_id")
  {
    if a.guildId.None? then Missing("guild_id")
    else Fetch(GetGuild(a.guildId.value), http, "fetch guild info")
  }

  /** `get_guild_list` needs no argument: it always makes its one call,
      paginating after `after` when given. */
  function GuildListRun(a: Args, http: Http): (r: ToolRun)
    ensures SingleCall(r, ListGuilds(if "after" in a.u64s then Some(After(a.u64s["after"])) else None, U64Of(a, "limit")), http)
  {
    var pagination := match U64Of(a, "after") case Some(g) => Some(After(g)) case None => None;
    Fetch(ListGuilds(pagination, U64Of(a, "limit")), http, "fetch guild list")
  }

  const ReadIconFailure := "Failed to read icon file: "
  const NoGuildFields := "No guild fields provided to modify"

  /** The icon change `modify_guild` asks for: clearing wins over a file,
      and the file is read only when it is not cleared. */
  function IconOf(a: Args, read: FileReader): (r: Result<IconEdit>)
    ensures IsSet(a, "clear_icon") ==> r == Ok(ClearIcon)
    ensures !IsSet(a, "clear_icon") && "icon_path" in a.strings ==>
      var contents := read(a.strings["icon_path"]);
      (contents.Ok? ==> r == Ok(SetIcon(contents.value))) && (contents.Err? ==> r == Err(contents.error))
    ensures !IsSet(a, "clear_icon") && "icon_path" !in a.strings ==> r == Ok(KeepIcon)
  {
    if IsSet(a, "clear_icon") then Ok(ClearIcon)
    else if "icon_path" in a.strings then
      match read(a.strings["icon_path"])
      case Ok(data) => Ok(SetIcon(data))
      case Err(e) => Err(e)
    else Ok(KeepIcon)
  }

  /** What `modify_guild` does, stated on values. */
  function ModifyGuildRun(a: Args, http: Http, read: FileReader): (r: ToolRun)
    ensures r.calls != [] <==> (a.guildId.Some? && IconOf(a, read).Ok?
      && GuildEdit(Str(a, "name"), Str(a, "description"), IconOf(a, read).value) != NoGuildEdit)
    ensures r.calls != [] ==>
      SingleCall(r, EditGuild(a.guildId.value, GuildEdit(Str(a, "name"), Str(a, "description"), IconOf(a, read).value)), http)
    ensures a.guildId.Some? && IconOf(a, read).Err? ==> r.reply == Failure(ReadIconFailure + IconOf(a, read).error)
    ensures r.calls == [] ==> r.reply.Failure?
    ensures a.guildId.None? ==> r == Missing("guild_id")
  {
    if a.guildId.None? then Missing("guild_id")
    else
      match IconOf(a, read)
      case Err(e) => ToolRun(Failure(ReadIconFailure + e), [])
      case Ok(icon) =>
        var edit := GuildEdit(Str(a, "name"), Str(a, "description"), icon);
        if edit == NoGuildEdit then ToolRun(Failure(NoGuildFields), [])
        else Fetch(EditGuild(a.guildId.value, edit), http, "modify guild")
  }

  /** `modify_guild` as written: setters applied one by one, a flag
      recording whether any was applied, and an early return when the icon
      file cannot be read. */
  method ModifyGuildMethod(a: Args, http: Http, read: FileReader) returns (r: ToolRun)
    ensures r == ModifyGuildRun(a, http, read)
  {
    if a.guildId.None? {
      return Missing("guild_id");
    }
    var guild := a.guildId.value;
    var builder := NoGuildEdit;
    var changed := false;
    if "name" in a.strings {
      builder := builder.(name := Some(a.strings["name"]));
      changed := true;
    }
    if "description" in a.strings {
      builder := builder.(description := Some(a.strings["description"]));
      changed := true;
    }
    if IsSet(a, "clear_icon") {
      builder := builder.(icon := ClearIcon);
      changed := true;
    } else if "icon_path" in a.strings {
      var contents := read(a.strings["icon_path"]);
      match contents {
        case Ok(data) =>
          builder := builder.(icon := SetIcon(data));
          changed := true;
        case Err(e) =>
          return ToolRun(Failure(ReadIconFailure + e), []);
      }
    }
    assert changed <==> builder != NoGuildEdit;
    if !changed {
      return ToolRun(Failure(NoGuildFields), []);
    }
    r := Fetch(EditGuild(guild, builder), http, "modify guild");
  }

  /** The file system is consulted only for `icon_path` without
      `clear_icon: true`: otherwise the reader does not matter. */
  lemma IconFileReadOnlyWhenNeeded(a: Args, http: Http, read1: FileReader, read2: FileReader)
    requires IsSet(a, "clear_icon") || "icon_path" !in a.strings
    ensures ModifyGuildRun(a, http, read1) == ModifyGuildRun(a, http, read2)
  {
  }

  /** `clear_icon: true` on a named guild always sends an edit that clears
      the icon, whatever `icon_path` says and whatever the file holds. */
  lemma ClearIconWins(a: Args, http: Http, read: FileReader)
    requires a.guildId.Some? && IsSet(a, "clear_icon")
    ensures ModifyGuildRun(a, http, read).calls ==
      [EditGuild(a.guildId.value, GuildEdit(Str(a, "name"), Str(a, "description"), ClearIcon))]
  {
  }

  /** Without `clear_icon: true`, a readable `icon_path` sets the icon to the
      file's bytes. */
  lemma IconPathSetsIcon(a: Args, http: Http, read: FileReader)
    requires a.guildId.Some? && !IsSet(a, "clear_icon") && "icon_path" in a.strings
    requires read(a.strings["icon_path"]).Ok?
    ensures ModifyGuildRun(a, http, read).calls ==
      [EditGuild(a.guildId.value, GuildEdit(Str(a, "name"), Str(a, "description"),
                                            SetIcon(read(a.strings["icon_path"]).value)))]
  {
  }

  /** An unreadable icon file stops `modify_guild` before the edit, even
      when a name or description was given. */
  lemma UnreadableIconSendsNothing(a: Args, http: Http, read: FileReader)
    requires a.guildId.Some? && !IsSet(a, "clear_icon") && "icon_path" in a.strings
    requires read(a.strings["icon_path"]).Err?
    ensures ModifyGuildRun(a, http, read) == ToolRun(Failure(ReadIconFailure + read(a.strings["icon_path"]).error), [])
  {
  }

  /** `modify_guild` refuses with "No guild fields provided to modify"
      exactly when the guild is named and none of name, description,
      `clear_icon: true` or `icon_path` is given. */
  lemma NoGuildFieldsExactly(a: Args, http: Http, read: FileReader)
    ensures ModifyGuildRun(a, http, read).reply == Failure(NoGuildFields) <==>
      a.guildId.Some? && "name" !in a.strings && "description" !in a.strings
      && !IsSet(a, "clear_icon") && "icon_path" !in a.strings
  {
    var r := ModifyGuildRun(a, http, read);
    if r.calls != [] && r.reply.Failure? {
      FailedToPrefix("modify guild", http(r.calls[0]).error);
      assert r.reply.message[0] == 'F';
      assert NoGuildFields[0] == 'N';
    }
    if a.guildId.None? {
      assert Missing("guild_id").reply.message[0] == 'g';
    } else if IconOf(a, read).Err? {
      assert (ReadIconFailure + IconOf(a, read).error)[0] == 'F';
      assert NoGuildFields[0] == 'N';
    }
  }

  /** `action_type` is read as a 32-bit number and cast to `u8`, which keeps
      its low eight bits. */
  function ActionOf(a: Args): (action: Option<U8>)
    ensures action.Some? <==> "action_type" in a.u32s
    ensures action.Some? ==> action.value == a.u32s["action_type"] % 256
    ensures action.Some? && a.u32s["action_type"] < 256 ==> action.value == a.u32s["action_type"]
  {
    match U32Of(a, "action_type")
    case Some(v) => Some(v % 256)
    case None => None
  }

  /** Two action types 256 apart select the same audit log filter. */
  lemma ActionTypeWraps(a: Args, b: Args)
    requires "action_type" in a.u32s && "action_type" in b.u32s
    requires b.u32s["action_type"] as int == a.u32s["action_type"] as int + 256
    ensures ActionOf(a) == ActionOf(b)
  {
  }

  function AuditLogRun(a: Args, http: Http): (r: ToolRun)
    ensures r.calls != [] <==> a.guildId.Some?
    ensures a.guildId.Some? ==>
      SingleCall(r, AuditLogs(a.guildId.value, ActionOf(a), UserOf(a, "user_id"), U64Of(a, "before"), U8Of(a, "limit")), http)
    ensures a.guildId.None? ==> r == Missing("guild_id")
  {
    if a.guildId.None? then Missing("guild_id")
    else Fetch(AuditLogs(a.guildId.value, ActionOf(a), UserOf(a, "user_id"), U64Of(a, "before"), U8Of(a, "limit")),
               http, "fetch audit log")
  }

  function Invoke(t: Tool, a: Args, http: Http, read: FileReader): ToolRun {
    match t
    case GuildInfo => GuildInfoRun(a, http)
    case GuildList => GuildListRun(a, http)
    case ModifyGuild => ModifyGuildRun(a, http, read)
    case AuditLog => AuditLogRun(a, http)
  }

  /** `execute(ctx, name, args)`: `None` for a name this module does not own. */
  function Execute(name: string, a: Args, http: Http, read: FileReader): (r: Option<ToolRun>)
    ensures r.Some? <==> Route(name).Some?
    ensures r.Some? ==> r.value == Invoke(Route(name).value, a, http, read)
  {
    match Route(name)
    case None => None
    case Some(t) => Some(Invoke(t, a, http, read))
  }

  /** Every handler makes at most one call, only once every field its schema
      marks required has been supplied, and reports that call's outcome;
      without a call it answers with an error. */
  lemma HandlersHonourSchemas(t: Tool, a: Args, http: Http, read: FileReader)
    ensures |Invoke(t, a, http, read).calls| <= 1
    ensures Invoke(t, a, http, read).calls != [] ==>
      SuppliesAll(a, Required(t)) && ReportsLastCall(Invoke(t, a, http, read), http)
    ensures Invoke(t, a, http, read).calls == [] ==> Invoke(t, a, http, read).reply.Failure?
    ensures !SuppliesAll(a, Required(t)) ==> Invoke(t, a, http, read).calls == []
  {
    match t
    case GuildInfo =>
    case GuildList =>
    case ModifyGuild =>
    case AuditLog =>
  }
  /** Every handler checks the fields its schema marks required in the
      schema's order, with the getter that field is read by, and answers
      "<field> is required" for the first one missing, before any call. */
  lemma RequiredCheckedInOrder(t: Tool, a: Args, http: Http, read: FileReader)
    requires FirstMissing(a, Required(t)).Some?
    ensures Invoke(t, a, http, read) == Missing(FirstMissing(a, Required(t)).value)
  {
    match t
    case GuildInfo =>
    case GuildList =>
    case ModifyGuild =>
    case AuditLog =>
  }

}
