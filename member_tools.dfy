/** The member tools of src/agent/tools/discord_tools/member.rs: eight
    handlers, their JSON schemas and the name dispatcher. */
module MemberTools {
  import opened Wrappers
  import opened Text
  import OpenAi
  import opened ToolKit

  datatype Tool =
    | MemberList | MemberInfo | KickMember | BanMember
    | UnbanMember | BulkBanMembers | ModifyMember | TimeoutMember

  /** The tools in the order `definitions` pushes them. */
  const Tools: seq<Tool> :=
    [MemberList, MemberInfo, KickMember, BanMember, UnbanMember, BulkBanMembers, ModifyMember, TimeoutMember]

  function Name(t: Tool): string {
    match t
    case MemberList => "get_member_list"
    case MemberInfo => "get_member_info"
    case KickMember => "kick_member"
    case BanMember => "ban_member"
    case UnbanMember => "unban_member"
    case BulkBanMembers => "bulk_ban_members"
    case ModifyMember => "modify_member"
    case TimeoutMember => "timeout_member"
  }

  /** The `match name` of `execute`. */
  function Route(name: string): (r: Option<Tool>)
    ensures r.Some? ==> Name(r.value) == name
  {
    if name == "get_member_list" then Some(MemberList)
    else if name == "get_member_info" then Some(MemberInfo)
    else if name == "kick_member" then Some(KickMember)
    else if name == "ban_member" then Some(BanMember)
    else if name == "unban_member" then Some(UnbanMember)
    else if name == "bulk_ban_members" then Some(BulkBanMembers)
    else if name == "modify_member" then Some(ModifyMember)
    else if name == "timeout_member" then Some(TimeoutMember)
    else None
  }

  lemma RouteName(t: Tool)
    ensures Route(Name(t)) == Some(t)
  {
  }

  const GuildId := Prop("guild_id", "integer", "Guild id.")
  const UserId := Prop("user_id", "integer", "User id.")
  const Reason := Prop("reason", "string", "Audit log reason.")

  /** The `description` of each schema. */
  function Description(t: Tool): string {
    match t
    case MemberList => "List guild members."
    case MemberInfo => "Get guild member information."
    case KickMember => "Kick a member from the guild."
    case BanMember => "Ban a member from the guild."
    case UnbanMember => "Unban a user from the guild."
    case BulkBanMembers => "Bulk ban members from the guild."
    case ModifyMember => "Modify guild member settings."
    case TimeoutMember => "Timeout or clear timeout for a member."
  }

  /** The `properties` of each schema, in order. */
  function Properties(t: Tool): seq<OpenAi.Property> {
    match t
    case MemberList => [
      GuildId,
      Prop("limit", "integer", "Max members to return."),
      Prop("after", "integer", "Return members after this user id.")]
    case MemberInfo => [GuildId, UserId]
    case KickMember => [GuildId, UserId, Reason]
    case BanMember => [
      GuildId,
      UserId,
      Prop("delete_message_days", "integer", "Delete message history in days (0-7)."),
      Reason]
    case UnbanMember => [GuildId, UserId]
    case BulkBanMembers => [
      GuildId,
      ListProp("user_ids", "integer", "User ids to ban."),
      Prop("delete_message_seconds", "integer", "Delete messages younger than this many seconds."),
      Reason]
    case ModifyMember => [
      GuildId,
      UserId,
      Prop("nick", "string", "Nickname."),
      ListProp("roles", "integer", "Role ids to set."),
      Prop("mute", "boolean", "Server mute flag."),
      Prop("deafen", "boolean", "Server deafen flag."),
      Prop("channel_id", "integer", "Voice channel id to move into."),
      Prop("disconnect", "boolean", "Disconnect from voice channel."),
      Prop("communication_disabled_until", "string", "Timeout until RFC3339 timestamp."),
      Prop("clear_timeout", "boolean", "Clear timeout.")]
    case TimeoutMember => [
      GuildId,
      UserId,
      Prop("until", "string", "RFC3339 timestamp to timeout until."),
      Prop("clear", "boolean", "Clear timeout.")]
  }

  /** The `required` list of each schema. */
  function Required(t: Tool): seq<string> {
    match t
    case MemberList => ["guild_id"]
    case MemberInfo => ["guild_id", "user_id"]
    case KickMember => ["guild_id", "user_id"]
    case BanMember => ["guild_id", "user_id"]
    case UnbanMember => ["guild_id", "user_id"]
    case BulkBanMembers => ["guild_id", "user_ids"]
    case ModifyMember => ["guild_id", "user_id"]
    case TimeoutMember => ["guild_id", "user_id"]
  }

  function Definition(t: Tool): (d: OpenAi.ToolDefinition)
    ensures d.name == Name(t) && RequiredOf(d) == Required(t)
  {
    BuildTool(Name(t), Description(t), Properties(t), Required(t))
  }


  /** The position of `t` in `Tools`. */
  function Index(t: Tool): (i: nat)
    ensures i < |Tools| && Tools[i] == t
  {
    match t
    case MemberList => 0
    case MemberInfo => 1
    case KickMember => 2
    case BanMember => 3
    case UnbanMember => 4
    case BulkBanMembers => 5
    case ModifyMember => 6
    case TimeoutMember => 7
  }

  lemma ToolsDistinct()
    ensures forall i, j | 0 <= i < j < |Tools| :: Tools[i] != Tools[j]
  {
    forall i, j | 0 <= i < j < |Tools|
      ensures Tools[i] != Tools[j]
    {
      assert Index(Tools[i]) == i && Index(Tools[j]) == j;
    }
  }

  lemma DefinitionsRoute()
    ensures forall t :: Route(Definition(t).name) == Some(t)
  {
    forall t ensures Route(Definition(t).name) == Some(t) {
      RouteName(t);
    }
  }

  /** `definitions()`: one schema per tool, each named so that `execute`
      routes it to that tool, no name twice. */
  function Definitions(): (defs: seq<OpenAi.ToolDefinition>)
    ensures |defs| == |Tools|
    ensures forall i | 0 <= i < |defs| :: defs[i] == Definition(Tools[i]) && Route(defs[i].name) == Some(Tools[i])
    ensures forall i, j | 0 <= i < j < |defs| :: defs[i].name != defs[j].name
  {
    DefinitionsRoute();
    ToolsDistinct();
    seq(|Tools|, i requires 0 <= i < |Tools| => Definition(Tools[i]))
  }

  /** Every name `execute` accepts is advertised by `definitions`. */
  lemma DefinitionsCoverRoutes(name: string)
    ensures Route(name).Some? <==> exists i | 0 <= i < |Definitions()| :: Definitions()[i].name == name
  {
    if Route(name).Some? {
      var i := Index(Route(name).value);
      assert Definitions()[i].name == name;
    }
  }

  // The handlers.

  function MemberListRun(a: Args, http: Http): (r: ToolRun)
    ensures r.calls != [] <==> a.guildId.Some?
    ensures a.guildId.Some? ==>
      SingleCall(r, ListMembers(a.guildId.value, U64Of(a, "limit"), UserOf(a, "after")), http)
    ensures a.guildId.None? ==> r == Missing("guild_id")
  {
    if a.guildId.None? then Missing("guild_id")
    else Fetch(ListMembers(a.guildId.value, U64Of(a, "limit"), UserOf(a, "after")), http, "fetch member list")
  }

  /** Both `guild_id` and `user_id` resolve. */
  predicate HasMember(a: Args) {
    a.guildId.Some? && "user_id" in a.userIds
  }

  function MemberInfoRun(a: Args, http: Http): (r: ToolRun)
    ensures r.calls != [] <==> HasMember(a)
    ensures HasMember(a) ==> SingleCall(r, GetMember(a.guildId.value, a.userIds["user_id"]), http)
    ensures a.guildId.None? ==> r == Missing("guild_id")
    ensures a.guildId.Some? && "user_id" !in a.userIds ==> r == Missing("user_id")
  {
    if a.guildId.None? then Missing("guild_id")
    else if "user_id" !in a.userIds then Missing("user_id")
    else Fetch(GetMember(a.guildId.value, a.userIds["user_id"]), http, "fetch member info")
  }

  function KickRun(a: Args, http: Http): (r: ToolRun)
    ensures r.calls != [] <==> HasMember(a)
    ensures HasMember(a) ==>
      SingleCall(r, Kick(a.guildId.value, a.userIds["user_id"], Str(a, "reason").GetOr("")), http)
    ensures HasMember(a) && http(r.calls[0]).Done? ==> r.reply == Success(Flag("kicked"))
    ensures a.guildId.None? ==> r == Missing("guild_id")
    ensures a.guildId.Some? && "user_id" !in a.userIds ==> r == Missing("user_id")
  {
    if a.guildId.None? then Missing("guild_id")
    else if "user_id" !in a.userIds then Missing("user_id")
    else Ack(Kick(a.guildId.value, a.userIds["user_id"], Str(a, "reason").GetOr("")), http, "kick member", "kicked")
  }

  /** An absent `delete_message_days` deletes no history. */
  function BanRun(a: Args, http: Http): (r: ToolRun)
    ensures r.calls != [] <==> HasMember(a)
    ensures HasMember(a) ==>
      SingleCall(r, Ban(a.guildId.value, a.userIds["user_id"], U8Of(a, "delete_message_days").GetOr(0),
                        Str(a, "reason").GetOr("")), http)
    ensures HasMember(a) && "delete_message_days" !in a.u8s ==> r.calls[0].deleteMessageDays == 0
    ensures HasMember(a) && http(r.calls[0]).Done? ==> r.reply == Success(Flag("banned"))
    ensures a.guildId.None? ==> r == Missing("guild_id")
    ensures a.guildId.Some? && "user_id" !in a.userIds ==> r == Missing("user_id")
  {
    if a.guildId.None? then Missing("guild_id")
    else if "user_id" !in a.userIds then Missing("user_id")
    else
      Ack(Ban(a.guildId.value, a.userIds["user_id"], U8Of(a, "delete_message_days").GetOr(0), Str(a, "reason").GetOr("")),
          http, "ban member", "banned")
  }

  function UnbanRun(a: Args, http: Http): (r: ToolRun)
    ensures r.calls != [] <==> HasMember(a)
    ensures HasMember(a) ==> SingleCall(r, Unban(a.guildId.value, a.userIds["user_id"]), http)
    ensures HasMember(a) && http(r.calls[0]).Done? ==> r.reply == Success(Flag("unbanned"))
    ensures a.guildId.None? ==> r == Missing("guild_id")
    ensures a.guildId.Some? && "user_id" !in a.userIds ==> r == Missing("user_id")
  {
    if a.guildId.None? then Missing("guild_id")
    else if "user_id" !in a.userIds then Missing("user_id")
    else Ack(Unban(a.guildId.value, a.userIds["user_id"]), http, "unban member", "unbanned")
  }

  /** The user ids are banned together, in the order given; the reason is
      passed on as optional. */
  function BulkBanRun(a: Args, http: Http): (r: ToolRun)
    ensures r.calls != [] <==> a.guildId.Some? && "user_ids" in a.u64Lists
    ensures a.guildId.Some? && "user_ids" in a.u64Lists ==>
      SingleCall(r, BulkBan(a.guildId.value, a.u64Lists["user_ids"], U32Of(a, "delete_message_seconds").GetOr(0),
                            Str(a, "reason")), http)
    ensures a.guildId.None? ==> r == Missing("guild_id")
    ensures a.guildId.Some? && "user_ids" !in a.u64Lists ==> r == Missing("user_ids")
  {
    if a.guildId.None? then Missing("guild_id")
    else if "user_ids" !in a.u64Lists then Missing("user_ids")
    else
      Fetch(BulkBan(a.guildId.value, a.u64Lists["user_ids"], U32Of(a, "delete_message_seconds").GetOr(0), Str(a, "reason")),
            http, "bulk ban members")
  }

  /** The timeout that `clear_timeout` or `communication_disabled_until`
      asks for; clearing wins over a timestamp. */
  function TimeoutRequested(a: Args, clearKey: string, untilKey: string): Option<TimeoutUntil> {
    if IsSet(a, clearKey) then Some(TimeoutNow)
    else if untilKey in a.timestamps then Some(TimeoutAt(a.timestamps[untilKey]))
    else None
  }

  /** The builder `modify_member` assembles. */
  function MemberEditOf(a: Args): MemberEdit {
    MemberEdit(
      nickname := Str(a, "nick"),
      roles := U64ListOf(a, "roles"),
      mute := BoolOf(a, "mute"),
      deafen := BoolOf(a, "deafen"),
      voiceChannel := ChannelOf(a, "channel_id"),
      disconnect := IsSet(a, "disconnect"),
      timeout := TimeoutRequested(a, "clear_timeout", "communication_disabled_until"))
  }

  const NoMemberFields := "No member fields provided to modify"

  /** What `modify_member` does, stated on values. */
  function ModifyMemberRun(a: Args, http: Http): (r: ToolRun)
    ensures r.calls != [] <==> HasMember(a) && MemberEditOf(a) != NoMemberEdit
    ensures r.calls != [] ==> SingleCall(r, EditMember(a.guildId.value, a.userIds["user_id"], MemberEditOf(a)), http)
    ensures r.calls == [] ==> r.reply.Failure?
    ensures a.guildId.None? ==> r == Missing("guild_id")
    ensures a.guildId.Some? && "user_id" !in a.userIds ==> r == Missing("user_id")
  {
    if a.guildId.None? then Missing("guild_id")
    else if "user_id" !in a.userIds then Missing("user_id")
    else if MemberEditOf(a) == NoMemberEdit then ToolRun(Failure(NoMemberFields), [])
    else Fetch(EditMember(a.guildId.value, a.userIds["user_id"], MemberEditOf(a)), http, "modify member")
  }

  /** The builder phase of `modify_member`: setters applied one by one,
      with a flag recording whether any was applied. */
  method CollectMemberEdit(a: Args) returns (builder: MemberEdit, changed: bool)
    ensures builder == MemberEditOf(a)
    ensures changed <==> builder != NoMemberEdit
  {
    builder := NoMemberEdit;
    changed := false;
    if "nick" in a.strings {
      builder := builder.(nickname := Some(a.strings["nick"]));
      changed := true;
    }
    assert builder == MemberEditOf(a).(roles := None, mute := None, deafen := None, voiceChannel := None, disconnect := false, timeout := None) && (changed <==> builder != NoMemberEdit);
    if "roles" in a.u64Lists {
      builder := builder.(roles := Some(a.u64Lists["roles"]));
      changed := true;
    }
    assert builder == MemberEditOf(a).(mute := None, deafen := None, voiceChannel := None, disconnect := false, timeout := None) && (changed <==> builder != NoMemberEdit);
    if "mute" in a.bools {
      builder := builder.(mute := Some(a.bools["mute"]));
      changed := true;
    }
    assert builder == MemberEditOf(a).(deafen := None, voiceChannel := None, disconnect := false, timeout := None) && (changed <==> builder != NoMemberEdit);
    if "deafen" in a.bools {
      builder := builder.(deafen := Some(a.bools["deafen"]));
      changed := true;
    }
    assert builder == MemberEditOf(a).(voiceChannel := None, disconnect := false, timeout := None) && (changed <==> builder != NoMemberEdit);
    if "channel_id" in a.channelIds {
      builder := builder.(voiceChannel := Some(a.channelIds["channel_id"]));
      changed := true;
    }
    assert builder == MemberEditOf(a).(disconnect := false, timeout := None) && (changed <==> builder != NoMemberEdit);
    if IsSet(a, "disconnect") {
      builder := builder.(disconnect := true);
      changed := true;
    }
    assert builder == MemberEditOf(a).(timeout := None) && (changed <==> builder != NoMemberEdit);
    if IsSet(a, "clear_timeout") {
      builder := builder.(timeout := Some(TimeoutNow));
      changed := true;
    } else if "communication_disabled_until" in a.timestamps {
      builder := builder.(timeout := Some(TimeoutAt(a.timestamps["communication_disabled_until"])));
      changed := true;
    }
  }

  /** `modify_member` as written: the member is resolved, the builder
      collected, and the edit sent only when some setter was applied. */
  method ModifyMemberMethod(a: Args, http: Http) returns (r: ToolRun)
    ensures r == ModifyMemberRun(a, http)
  {
    if a.guildId.None? {
      return Missing("guild_id");
    }
    var guild := a.guildId.value;
    if "user_id" !in a.userIds {
      return Missing("user_id");
    }
    var user := a.userIds["user_id"];
    var builder, changed := CollectMemberEdit(a);
    if !changed {
      return ToolRun(Failure(NoMemberFields), []);
    }
    r := Fetch(EditMember(guild, user, builder), http, "modify member");
  }

  /** `modify_member` refuses with "No member fields provided to modify"
      exactly when the member is named and none of its fields is given
      (`disconnect` and `clear_timeout` count only when true). */
  lemma NoMemberFieldsExactly(a: Args, http: Http)
    ensures ModifyMemberRun(a, http).reply == Failure(NoMemberFields) <==>
      HasMember(a) && "nick" !in a.strings && "roles" !in a.u64Lists && "mute" !in a.bools
      && "deafen" !in a.bools && "channel_id" !in a.channelIds && !IsSet(a, "disconnect")
      && !IsSet(a, "clear_timeout") && "communication_disabled_until" !in a.timestamps
  {
    var r := ModifyMemberRun(a, http);
    if r.calls != [] && r.reply.Failure? {
      FailedToPrefix("modify member", http(r.calls[0]).error);
      assert r.reply.message[0] == 'F';
      assert NoMemberFields[0] == 'N';
    }
    if a.guildId.None? {
      assert Missing("guild_id").reply.message[0] == 'g';
    } else if "user_id" !in a.userIds {
      assert Missing("user_id").reply.message[0] == 'u';
    }
  }

  /** `clear_timeout: true` lifts the timeout whatever
      `communication_disabled_until` says; otherwise a parsed timestamp sets it. */
  lemma ClearTimeoutWins(a: Args)
    ensures IsSet(a, "clear_timeout") ==> MemberEditOf(a).timeout == Some(TimeoutNow)
    ensures MemberEditOf(a).timeout.Some? && MemberEditOf(a).timeout.value.TimeoutAt? <==>
      !IsSet(a, "clear_timeout") && "communication_disabled_until" in a.timestamps
  {
  }

  const EitherUntilOrClear := "Either 'until' or 'clear' is required"

  /** `timeout_member`: a member edit that only sets or lifts the timeout. */
  function TimeoutRun(a: Args, http: Http): (r: ToolRun)
    ensures r.calls != [] <==> HasMember(a) && TimeoutRequested(a, "clear", "until").Some?
    ensures r.calls != [] ==>
      SingleCall(r, EditMember(a.guildId.value, a.userIds["user_id"],
                               NoMemberEdit.(timeout := TimeoutRequested(a, "clear", "until"))), http)
    ensures HasMember(a) && TimeoutRequested(a, "clear", "until").None? ==> r.reply == Failure(EitherUntilOrClear)
    ensures a.guildId.None? ==> r == Missing("guild_id")
    ensures a.guildId.Some? && "user_id" !in a.userIds ==> r == Missing("user_id")
  {
    if a.guildId.None? then Missing("guild_id")
    else if "user_id" !in a.userIds then Missing("user_id")
    else
      match TimeoutRequested(a, "clear", "until")
      case None => ToolRun(Failure(EitherUntilOrClear), [])
      case Some(until) =>
        Fetch(EditMember(a.guildId.value, a.userIds["user_id"], NoMemberEdit.(timeout := Some(until))), http, "timeout member")
  }

  /** `timeout_member` sends the same edit as `modify_member` given only the
      timeout fields under their `modify_member` names. */
  lemma TimeoutIsModifyOfTimeoutOnly(a: Args, b: Args, http: Http)
    requires HasMember(a) && b.guildId == a.guildId && b.userIds == a.userIds
    requires b.strings == map[] && b.u64Lists == map[] && b.channelIds == map[]
    requires b.bools == (if "clear" in a.bools then map["clear_timeout" := a.bools["clear"]] else map[])
    requires b.timestamps == (if "until" in a.timestamps then map["communication_disabled_until" := a.timestamps["until"]] else map[])
    requires TimeoutRequested(a, "clear", "until").Some?
    ensures TimeoutRun(a, http).calls == ModifyMemberRun(b, http).calls
  {
    assert TimeoutRequested(b, "clear_timeout", "communication_disabled_until") == TimeoutRequested(a, "clear", "until");
  }

  function Invoke(t: Tool, a: Args, http: Http): ToolRun {
    match t
    case MemberList => MemberListRun(a, http)
    case MemberInfo => MemberInfoRun(a, http)
    case KickMember => KickRun(a, http)
    case BanMember => BanRun(a, http)
    case UnbanMember => UnbanRun(a, http)
    case BulkBanMembers => BulkBanRun(a, http)
    case ModifyMember => ModifyMemberRun(a, http)
    case TimeoutMember => TimeoutRun(a, http)
  }

  /** `execute(ctx, name, args)`: `None` for a name this module does not own. */
  function Execute(name: string, a: Args, http: Http): (r: Option<ToolRun>)
    ensures r.Some? <==> Route(name).Some?
    ensures r.Some? ==> r.value == Invoke(Route(name).value, a, http)
  {
    match Route(name)
    case None => None
    case Some(t) => Some(Invoke(t, a, http))
  }

  /** Every handler makes at most one call, only once every field its schema
      marks required has been supplied, and reports that call's outcome;
      without a call it answers with an error. */
  lemma HandlersHonourSchemas(t: Tool, a: Args, http: Http)
    ensures |Invoke(t, a, http).calls| <= 1
    ensures Invoke(t, a, http).calls != [] ==>
      SuppliesAll(a, Required(t)) && ReportsLastCall(Invoke(t, a, http), http)
    ensures Invoke(t, a, http).calls == [] ==> Invoke(t, a, http).reply.Failure?
    ensures !SuppliesAll(a, Required(t)) ==> Invoke(t, a, http).calls == []
  {
    match t
    case MemberList =>
    case MemberInfo =>
    case KickMember =>
    case BanMember =>
    case UnbanMember =>
    case BulkBanMembers =>
    case ModifyMember =>
    case TimeoutMember =>
  }
  /** Every handler checks the fields its schema marks required in the
      schema's order, with the getter that field is read by, and answers
      "<field> is required" for the first one missing, before any call. */
  lemma RequiredCheckedInOrder(t: Tool, a: Args, http: Http)
    requires FirstMissing(a, Required(t)).Some?
    ensures Invoke(t, a, http) == Missing(FirstMissing(a, Required(t)).value)
  {
    match t
    case MemberList =>
    case MemberInfo =>
    case KickMember =>
    case BanMember =>
    case UnbanMember =>
    case BulkBanMembers =>
    case ModifyMember =>
    case TimeoutMember =>
  }

}
