/** The role tools of src/agent/tools/discord_tools/role.rs: six handlers,
    their JSON schemas and the name dispatcher. */
module RoleTools {
  import opened Wrappers
  import opened Text
  import OpenAi
  import opened ToolKit

  datatype Tool = RoleList | CreateRoleTool | DeleteRoleTool | ModifyRole | AddRoleToMember | RemoveRoleFromMember

  /** The tools in the order `definitions` pushes them. */
  const Tools: seq<Tool> := [RoleList, CreateRoleTool, DeleteRoleTool, ModifyRole, AddRoleToMember, RemoveRoleFromMember]

  function Name(t: Tool): string {
    match t
    case RoleList => "get_role_list"
    case CreateRoleTool => "create_role"
    case DeleteRoleTool => "delete_role"
    case ModifyRole => "modify_role"
    case AddRoleToMember => "add_role_to_member"
    case RemoveRoleFromMember => "remove_role_from_member"
  }

  /** The `match name` of `execute`. */
  function Route(name: string): (r: Option<Tool>)
    ensures r.Some? ==> Name(r.value) == name
  {
    if name == "get_role_list" then Some(RoleList)
    else if name == "create_role" then Some(CreateRoleTool)
    else if name == "delete_role" then Some(DeleteRoleTool)
    else if name == "modify_role" then Some(ModifyRole)
    else if name == "add_role_to_member" then Some(AddRoleToMember)
    else if name == "remove_role_from_member" then Some(RemoveRoleFromMember)
    else None
  }

  lemma RouteName(t: Tool)
    ensures Route(Name(t)) == Some(t)
  {
  }

  /** The position of `t` in `Tools`. */
  function Index(t: Tool): (i: nat)
    ensures i < |Tools| && Tools[i] == t
  {
    match t
    case RoleList => 0
    case CreateRoleTool => 1
    case DeleteRoleTool => 2
    case ModifyRole => 3
    case AddRoleToMember => 4
    case RemoveRoleFromMember => 5
  }

  const GuildId := Prop("guild_id", "integer", "Guild id.")
  const RoleId := Prop("role_id", "integer", "Role id.")
  const UserId := Prop("user_id", "integer", "User id.")
  const RoleFields := [
    Prop("name", "string", "Role name."),
    Prop("permissions", "integer", "Permissions bitset."),
    Prop("color", "string", "Role color hex (e.g. #ff0000)."),
    Prop("hoist", "boolean", "Display role separately."),
    Prop("mentionable", "boolean", "Allow role mentions.")]

  /** The `description` of each schema. */
  function Description(t: Tool): string {
    match t
    case RoleList => "List guild roles."
    case CreateRoleTool => "Create a role in the guild."
    case DeleteRoleTool => "Delete a role from the guild."
    case ModifyRole => "Modify a role in the guild."
    case AddRoleToMember => "Add a role to a member."
    case RemoveRoleFromMember => "Remove a role from a member."
  }

  /** The `properties` of each schema, in order. */
  function Properties(t: Tool): seq<OpenAi.Property> {
    match t
    case RoleList => [GuildId]
    case CreateRoleTool => [GuildId] + RoleFields
    case DeleteRoleTool => [GuildId, RoleId]
    case ModifyRole => [GuildId, RoleId] + RoleFields
    case AddRoleToMember => [GuildId, UserId, RoleId]
    case RemoveRoleFromMember => [GuildId, UserId, RoleId]
  }

  /** The `required` list of each schema. */
  function Required(t: Tool): seq<string> {
    match t
    case RoleList => ["guild_id"]
    case CreateRoleTool => ["guild_id"]
    case DeleteRoleTool => ["guild_id", "role_id"]
    case ModifyRole => ["guild_id", "role_id"]
    case AddRoleToMember => ["guild_id", "user_id", "role_id"]
    case RemoveRoleFromMember => ["guild_id", "user_id", "role_id"]
  }

  function Definition(t: Tool): (d: OpenAi.ToolDefinition)
    ensures d.name == Name(t) && RequiredOf(d) == Required(t)
  {
    BuildTool(Name(t), Description(t), Properties(t), Required(t))
  }


  lemma ToolsDistinct()
    ensures forall i, j | 0 <= i < j < |Tools| :: Tools[i] != Tools[j]
  {
    forall i, j | 0 <= i < j < |Tools|
      ensures Tools[i] != Tools[j]
    {
      assert Index(Tools[i]) == i && Index(Tools[j]) == j;
    }
  }

  lemma DefinitionsRoute()
    ensures forall t :: Route(Definition(t).name) == Some(t)
  {
    forall t ensures Route(Definition(t).name) == Some(t) {
      RouteName(t);
    }
  }

  /** `definitions()`: one schema per tool, each named so that `execute`
      routes it to that tool, no name twice. */
  function Definitions(): (defs: seq<OpenAi.ToolDefinition>)
    ensures |defs| == |Tools|
    ensures forall i | 0 <= i < |defs| :: defs[i] == Definition(Tools[i]) && Route(defs[i].name) == Some(Tools[i])
    ensures forall i, j | 0 <= i < j < |defs| :: defs[i].name != defs[j].name
  {
    DefinitionsRoute();
    ToolsDistinct();
    seq(|Tools|, i requires 0 <= i < |Tools| => Definition(Tools[i]))
  }

  /** Every name `execute` accepts is advertised by `definitions`. */
  lemma DefinitionsCoverRoutes(name: string)
    ensures Route(name).Some? <==> exists i | 0 <= i < |Definitions()| :: Definitions()[i].name == name
  {
    if Route(name).Some? {
      var i := Index(Route(name).value);
      assert Definitions()[i].name == name;
    }
  }

  // The handlers.

  function RoleListRun(a: Args, http: Http): (r: ToolRun)
    ensures r.calls != [] <==> a.guildId.Some?
    ensures a.guildId.Some? ==> SingleCall(r, ListRoles(a.guildId.value), http)
    ensures a.guildId.None? ==> r == Missing("guild_id")
  {
    if a.guildId.None? then Missing("guild_id")
    else Fetch(ListRoles(a.guildId.value), http, "fetch role list")
  }

  /** The builder `create_role` sends: name "New Role", no permissions,
      not hoisted and not mentionable unless given; a colour only if one parses. */
  function NewRoleOf(a: Args): (e: RoleEdit)
    ensures e.name.Some? && e.permissions.Some? && e.hoist.Some? && e.mentionable.Some?
    ensures e.colour == Lookup(a.colours, "color")
    ensures "name" !in a.strings ==> e.name == Some("New Role")
    ensures "permissions" !in a.u64s ==> e.permissions == Some(0)
    ensures "hoist" !in a.bools ==> e.hoist == Some(false)
    ensures "mentionable" !in a.bools ==> e.mentionable == Some(false)
  {
    RoleEdit(
      name := Some(Str(a, "name").GetOr("New Role")),
      permissions := Some(U64Of(a, "permissions").GetOr(0)),
      colour := Lookup(a.colours, "color"),
      hoist := Some(BoolOf(a, "hoist").GetOr(false)),
      mentionable := Some(BoolOf(a, "mentionable").GetOr(false)))
  }

  /** `create_role` needs only the guild: every role field has a default. */
  function CreateRoleRun(a: Args, http: Http): (r: ToolRun)
    ensures r.calls != [] <==> a.guildId.Some?
    ensures a.guildId.Some? ==> SingleCall(r, CreateRole(a.guildId.value, NewRoleOf(a)), http)
    ensures a.guildId.None? ==> r == Missing("guild_id")
  {
    if a.guildId.None? then Missing("guild_id")
    else Fetch(CreateRole(a.guildId.value, NewRoleOf(a)), http, "create role")
  }

  /** Both `guild_id` and `role_id` resolve. */
  predicate HasRole(a: Args) {
    a.guildId.Some? && "role_id" in a.u64s
  }

  function DeleteRoleRun(a: Args, http: Http): (r: ToolRun)
    ensures r.calls != [] <==> HasRole(a)
    ensures HasRole(a) ==> SingleCall(r, DeleteRole(a.guildId.value, a.u64s["role_id"]), http)
    ensures HasRole(a) && http(r.calls[0]).Done? ==> r.reply == Success(Flag("deleted"))
    ensures a.guildId.None? ==> r == Missing("guild_id")
    ensures a.guildId.Some? && "role_id" !in a.u64s ==> r == Missing("role_id")
  {
    if a.guildId.None? then Missing("guild_id")
    else if "role_id" !in a.u64s then Missing("role_id")
    else Ack(DeleteRole(a.guildId.value, a.u64s["role_id"]), http, "delete role", "deleted")
  }

  /** The builder `modify_role` assembles: only the fields given. */
  function RoleEditOf(a: Args): RoleEdit {
    RoleEdit(
      name := Str(a, "name"),
      permissions := U64Of(a, "permissions"),
      colour := Lookup(a.colours, "color"),
      hoist := BoolOf(a, "hoist"),
      mentionable := BoolOf(a, "mentionable"))
  }

  const NoRoleFields := "No role fields provided to modify"

  /** What `modify_role` does, stated on values. */
  function ModifyRoleRun(a: Args, http: Http): (r: ToolRun)
    ensures r.calls != [] <==> HasRole(a) && RoleEditOf(a) != NoRoleEdit
    ensures r.calls != [] ==> SingleCall(r, EditRole(a.guildId.value, a.u64s["role_id"], RoleEditOf(a)), http)
    ensures r.calls == [] ==> r.reply.Failure?
    ensures a.guildId.None? ==> r == Missing("guild_id")
    ensures a.guildId.Some? && "role_id" !in a.u64s ==> r == Missing("role_id")
  {
    if a.guildId.None? then Missing("guild_id")
    else if "role_id" !in a.u64s then Missing("role_id")
    else if RoleEditOf(a) == NoRoleEdit then ToolRun(Failure(NoRoleFields), [])
    else Fetch(EditRole(a.guildId.value, a.u64s["role_id"], RoleEditOf(a)), http, "modify role")
  }

  /** The builder phase of `modify_role`: setters applied one by one, with a
      flag recording whether any was applied. */
  method CollectRoleEdit(a: Args) returns (builder: RoleEdit, changed: bool)
    ensures builder == RoleEditOf(a)
    ensures changed <==> builder != NoRoleEdit
  {
    builder := NoRoleEdit;
    changed := false;
    if "name" in a.strings {
      builder := builder.(name := Some(a.strings["name"]));
      changed := true;
    }
    if "permissions" in a.u64s {
      builder := builder.(permissions := Some(a.u64s["permissions"]));
      changed := true;
    }
    if "color" in a.colours {
      builder := builder.(colour := Some(a.colours["color"]));
      changed := true;
    }
    if "hoist" in a.bools {
      builder := builder.(hoist := Some(a.bools["hoist"]));
      changed := true;
    }
    if "mentionable" in a.bools {
      builder := builder.(mentionable := Some(a.bools["mentionable"]));
      changed := true;
    }
  }

  /** `modify_role` as written: the role is resolved, the builder collected,
      and the edit sent only when some setter was applied. */
  method ModifyRoleMethod(a: Args, http: Http) returns (r: ToolRun)
    ensures r == ModifyRoleRun(a, http)
  {
    if a.guildId.None? {
      return Missing("guild_id");
    }
    var guild := a.guildId.value;
    if "role_id" !in a.u64s {
      return Missing("role_id");
    }
    var role := a.u64s["role_id"];
    var builder, changed := CollectRoleEdit(a);
    if !changed {
      return ToolRun(Failure(NoRoleFields), []);
    }
    r := Fetch(EditRole(guild, role, builder), http, "modify role");
  }

  /** `modify_role` refuses with "No role fields provided to modify" exactly
      when the role is named and none of its fields is given. */
  lemma NoRoleFieldsExactly(a: Args, http: Http)
    ensures ModifyRoleRun(a, http).reply == Failure(NoRoleFields) <==>
      HasRole(a) && "name" !in a.strings && "permissions" !in a.u64s && "color" !in a.colours
      && "hoist" !in a.bools && "mentionable" !in a.bools
  {
    var r := ModifyRoleRun(a, http);
    if r.calls != [] && r.reply.Failure? {
      FailedToPrefix("modify role", http(r.calls[0]).error);
      assert r.reply.message[0] == 'F';
      assert NoRoleFields[0] == 'N';
    }
    if a.guildId.None? {
      assert Missing("guild_id").reply.message[0] == 'g';
    } else if "role_id" !in a.u64s {
      assert Missing("role_id").reply.message[0] == 'r';
    }
  }

  /** `create_role` and `modify_role` send the same fields when every role
      field is given. */
  lemma CreateMatchesModifyWhenComplete(a: Args)
    requires "name" in a.strings && "permissions" in a.u64s && "hoist" in a.bools && "mentionable" in a.bools
    ensures NewRoleOf(a) == RoleEditOf(a)
  {
  }

  /** All of `guild_id`, `user_id` and `role_id` resolve. */
  predicate HasMemberRole(a: Args) {
    a.guildId.Some? && "user_id" in a.userIds && "role_id" in a.u64s
  }

  function RoleChange(guild: Id, user: Id, role: Id, adding: bool): Request {
    if adding then AddMemberRole(guild, user, role) else RemoveMemberRole(guild, user, role)
  }

  /** `add_role_to_member` (`adding`) and `remove_role_from_member`: the
      member is fetched first, and the role is changed only when that
      succeeded. */
  function MemberRoleRun(a: Args, http: Http, adding: bool): (r: ToolRun)
    ensures r.calls != [] <==> HasMemberRole(a)
    ensures HasMemberRole(a) ==> r.calls[0] == GetMember(a.guildId.value, a.userIds["user_id"])
    ensures HasMemberRole(a) ==> (|r.calls| == 2 <==> http(r.calls[0]).Done?)
    ensures |r.calls| == 2 ==>
      r.calls[1] == RoleChange(a.guildId.value, a.userIds["user_id"], a.u64s["role_id"], adding)
    ensures r.calls != [] ==> ReportsLastCall(r, http) && |r.calls| <= 2
    ensures |r.calls| == 2 && http(r.calls[1]).Done? ==> r.reply == Success(Flag(if adding then "added" else "removed"))
    ensures a.guildId.None? ==> r == Missing("guild_id")
    ensures a.guildId.Some? && "user_id" !in a.userIds ==> r == Missing("user_id")
    ensures a.guildId.Some? && "user_id" in a.userIds && "role_id" !in a.u64s ==> r == Missing("role_id")
  {
    if a.guildId.None? then Missing("guild_id")
    else if "user_id" !in a.userIds then Missing("user_id")
    else if "role_id" !in a.u64s then Missing("role_id")
    else
      var guild, user, role := a.guildId.value, a.userIds["user_id"], a.u64s["role_id"];
      var fetch := GetMember(guild, user);
      match http(fetch)
      case Failed(e) =>
        FailedToPrefix("fetch member", e);
        ToolRun(Failure(FailedTo("fetch member", e)), [fetch])
      case Done(_) =>
        var change := RoleChange(guild, user, role, adding);
        var second := Ack(change, http, if adding then "add role to member" else "remove role from member",
                          if adding then "added" else "removed");
        ToolRun(second.reply, [fetch, change])
  }

  function Invoke(t: Tool, a: Args, http: Http): ToolRun {
    match t
    case RoleList => RoleListRun(a, http)
    case CreateRoleTool => CreateRoleRun(a, http)
    case DeleteRoleTool => DeleteRoleRun(a, http)
    case ModifyRole => ModifyRoleRun(a, http)
    case AddRoleToMember => MemberRoleRun(a, http, true)
    case RemoveRoleFromMember => MemberRoleRun(a, http, false)
  }

  /** `execute(ctx, name, args)`: `None` for a name this module does not own. */
  function Execute(name: string, a: Args, http: Http): (r: Option<ToolRun>)
    ensures r.Some? <==> Route(name).Some?
    ensures r.Some? ==> r.value == Invoke(Route(name).value, a, http)
  {
    match Route(name)
    case None => None
    case Some(t) => Some(Invoke(t, a, http))
  }

  /** Every handler calls Discord only once every field its schema marks
      required has been supplied, and reports its last call's outcome;
      without a call it answers with an error. */
  lemma HandlersHonourSchemas(t: Tool, a: Args, http: Http)
    ensures |Invoke(t, a, http).calls| <= 2
    ensures Invoke(t, a, http).calls != [] ==>
      SuppliesAll(a, Required(t)) && ReportsLastCall(Invoke(t, a, http), http)
    ensures Invoke(t, a, http).calls == [] ==> Invoke(t, a, http).reply.Failure?
    ensures !SuppliesAll(a, Required(t)) ==> Invoke(t, a, http).calls == []
  {
    match t
    case RoleList =>
    case CreateRoleTool =>
    case DeleteRoleTool =>
    case ModifyRole =>
    case AddRoleToMember =>
    case RemoveRoleFromMember =>
  }
  /** Every handler checks the fields its schema marks required in the
      schema's order, with the getter that field is read by, and answers
      "<field> is required" for the first one missing, before any call. */
  lemma RequiredCheckedInOrder(t: Tool, a: Args, http: Http)
    requires FirstMissing(a, Required(t)).Some?
    ensures Invoke(t, a, http) == Missing(FirstMissing(a, Required(t)).value)
  {
    match t
    case RoleList =>
    case CreateRoleTool =>
    case DeleteRoleTool =>
    case ModifyRole =>
    case AddRoleToMember =>
    case RemoveRoleFromMember =>
  }

}
