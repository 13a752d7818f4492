/** The shared vocabulary of the Discord tool handlers in
    src/agent/tools/discord_tools/. Their helpers (`get_*`, `parse_*`,
    `ok`, `err`, `to_value`, `build_tool`) live in files that are not part
    of this model, so they are kept abstract:
    - `Args` records, per getter, the keys that getter extracts a value for
      and that value (what each getter accepts is left open);
    - every Discord HTTP call is a `Request` value, and its outcome is
      whatever the `Http` function parameter says;
    - `Reply` is the value passed to `ok` or the text passed to `err`,
      their rendering to a string being left open. */
module ToolKit {
  import opened Wrappers
  import opened Text
  import Json
  import OpenAi

  type Id = U64

  datatype Args = Args(
    guildId: Option<Id>,                  // get_guild_id_default(args)
    strings: map<string, string>,         // get_string
    bools: map<string, bool>,             // get_bool
    u8s: map<string, U8>,                 // get_u8
    u16s: map<string, U16>,               // get_u16
    u32s: map<string, U32>,               // get_u32
    u64s: map<string, U64>,               // get_u64
    u64Lists: map<string, seq<U64>>,      // get_u64_list
    userIds: map<string, Id>,             // get_user_id
    channelIds: map<string, Id>,          // get_channel_id
    timestamps: map<string, string>,      // args.get(key).and_then(parse_timestamp), rendered
    colours: map<string, U32>,            // args.get(key).and_then(parse_colour)
    channelKinds: map<string, U8>)        // args.get(key).and_then(parse_channel_type)

  /** The getter the handlers use for a required field yields a value:
      `get_guild_id_default` for `guild_id`, `get_user_id` for `user_id`,
      `get_u64_list` for `user_ids`, `get_u64` for `role_id` and
      `emoji_id`, `get_channel_id` for `channel_id`, `get_string` for
      `name` and `image`. No other field is ever required. */
  predicate Supplies(a: Args, key: string) {
    if key == "guild_id" then a.guildId.Some?
    else if key == "user_id" then key in a.userIds
    else if key == "user_ids" then key in a.u64Lists
    else if key == "role_id" || key == "emoji_id" then key in a.u64s
    else if key == "channel_id" then key in a.channelIds
    else if key == "name" || key == "image" then key in a.strings
    else false
  }

  datatype TimeoutUntil = TimeoutNow | TimeoutAt(timestamp: string)

  /** The setters applied to an `EditMember` builder. */
  datatype MemberEdit = MemberEdit(
    nickname: Option<string>, roles: Option<seq<Id>>, mute: Option<bool>, deafen: Option<bool>,
    voiceChannel: Option<Id>, disconnect: bool, timeout: Option<TimeoutUntil>)

  const NoMemberEdit := MemberEdit(None, None, None, None, None, false, None)

  /** The setters applied to an `EditRole` builder; `permissions` is the
      bit set before `Permissions::from_bits_truncate`. */
  datatype RoleEdit = RoleEdit(
    name: Option<string>, permissions: Option<U64>, colour: Option<U32>,
    hoist: Option<bool>, mentionable: Option<bool>)

  const NoRoleEdit := RoleEdit(None, None, None, None, None)

  /** The optional setters shared by `CreateChannel` and `EditChannel`. */
  datatype ChannelSettings = ChannelSettings(
    kind: Option<U8>, topic: Option<string>, nsfw: Option<bool>, category: Option<Id>,
    position: Option<U16>, bitrate: Option<U32>, userLimit: Option<U32>, rateLimitPerUser: Option<U16>)

  const NoChannelSettings := ChannelSettings(None, None, None, None, None, None, None, None)

  datatype IconEdit = KeepIcon | ClearIcon | SetIcon(data: seq<U8>)

  /** The setters applied to an `EditGuild` builder. */
  datatype GuildEdit = GuildEdit(name: Option<string>, description: Option<string>, icon: IconEdit)

  const NoGuildEdit := GuildEdit(None, None, KeepIcon)

  datatype GuildPagination = After(guild: Id)

  /** One Discord HTTP call. */
  datatype Request =
    // member.rs
    | ListMembers(guild: Id, limit: Option<U64>, after: Option<Id>)
    | GetMember(guild: Id, user: Id)
    | Kick(guild: Id, user: Id, reason: string)
    | Ban(guild: Id, user: Id, deleteMessageDays: U8, reason: string)
    | Unban(guild: Id, user: Id)
    | BulkBan(guild: Id, users: seq<Id>, deleteMessageSeconds: U32, auditReason: Option<string>)
    | EditMember(guild: Id, user: Id, memberEdit: MemberEdit)
    // role.rs
    | ListRoles(guild: Id)
    | CreateRole(guild: Id, roleEdit: RoleEdit)
    | DeleteRole(guild: Id, role: Id)
    | EditRole(guild: Id, role: Id, roleEdit: RoleEdit)
    | AddMemberRole(guild: Id, user: Id, role: Id)
    | RemoveMemberRole(guild: Id, user: Id, role: Id)
    // channel.rs
    | CreateChannel(guild: Id, channelName: string, settings: ChannelSettings)
    | DeleteChannel(channel: Id)
    | EditChannel(channel: Id, newName: Option<string>, settings: ChannelSettings)
    | GetChannel(channel: Id)
    | ListChannels(guild: Id)
    // guild.rs
    | GetGuild(guild: Id)
    | ListGuilds(pagination: Option<GuildPagination>, limit: Option<U64>)
    | EditGuild(guild: Id, guildEdit: GuildEdit)
    | AuditLogs(guild: Id, action: Option<U8>, actor: Option<Id>, before: Option<Id>, entryLimit: Option<U8>)
    // emoji.rs
    | ListEmojis(guild: Id)
    | CreateEmoji(guild: Id, name: string, image: string)
    | DeleteEmoji(guild: Id, emoji: Id)
    | ListStickers(guild: Id)

  /** The outcome of one call: the serialized object (`to_value`) or the
      error's display text. */
  datatype Outcome = Done(body: Json.Value) | Failed(error: string)

  type Http = Request -> Outcome

  /** `ok(value)` or `err(message)`. */
  datatype Reply = Success(value: Json.Value) | Failure(message: string)

  /** What a handler answers and which calls it made, in order. */
  datatype ToolRun = ToolRun(reply: Reply, calls: seq<Request>)

  /** `err("<field> is required")`, before any call. */
  function Missing(field: string): (r: ToolRun)
    ensures r.calls == [] && r.reply == Failure(field + " is required")
  {
    ToolRun(Failure(field + " is required"), [])
  }

  function FailedTo(what: string, error: string): string {
    "Failed to " + what + ": " + error
  }

  /** One call whose successful result is answered as it is. */
  function Fetch(req: Request, http: Http, what: string): (r: ToolRun)
    ensures r.calls == [req]
    ensures http(req).Done? ==> r.reply == Success(http(req).body)
    ensures http(req).Failed? ==> r.reply == Failure(FailedTo(what, http(req).error))
    ensures SingleCall(r, req, http)
  {
    match http(req)
    case Done(body) => ToolRun(Success(body), [req])
    case Failed(e) => FailedToPrefix(what, e); ToolRun(Failure(FailedTo(what, e)), [req])
  }

  /** `json!({ flag: true })` */
  function Flag(flag: string): Json.Value {
    Json.Object(map[flag := Json.Bool(true)])
  }

  /** One call whose success is acknowledged with `{ flag: true }`. */
  function Ack(req: Request, http: Http, what: string, flag: string): (r: ToolRun)
    ensures r.calls == [req]
    ensures http(req).Done? ==> r.reply == Success(Flag(flag))
    ensures http(req).Failed? ==> r.reply == Failure(FailedTo(what, http(req).error))
    ensures SingleCall(r, req, http)
  {
    match http(req)
    case Done(_) => ToolRun(Success(Flag(flag)), [req])
    case Failed(e) => FailedToPrefix(what, e); ToolRun(Failure(FailedTo(what, e)), [req])
  }

  /** The last call went out and the reply reports its outcome: success
      when it succeeded, a "Failed to ..." text when it failed. */
  predicate ReportsLastCall(r: ToolRun, http: Http) {
    |r.calls| > 0 &&
    (http(r.calls[|r.calls| - 1]).Done? ==> r.reply.Success?) &&
    (http(r.calls[|r.calls| - 1]).Failed? ==> r.reply.Failure? && StartsWith(r.reply.message, "Failed to "))
  }

  /** Exactly the one call `req` went out and its outcome is reported. */
  predicate SingleCall(r: ToolRun, req: Request, http: Http) {
    r.calls == [req] && ReportsLastCall(r, http)
  }

  lemma FailedToPrefix(what: string, error: string)
    ensures StartsWith(FailedTo(what, error), "Failed to ")
  {
    assert FailedTo(what, error)[..|"Failed to "|] == "Failed to ";
  }

  // The getters, one per map of `Args`.

  function Str(a: Args, key: string): Option<string> { Lookup(a.strings, key) }
  function BoolOf(a: Args, key: string): Option<bool> { Lookup(a.bools, key) }
  function U8Of(a: Args, key: string): Option<U8> { Lookup(a.u8s, key) }
  function U16Of(a: Args, key: string): Option<U16> { Lookup(a.u16s, key) }
  function U32Of(a: Args, key: string): Option<U32> { Lookup(a.u32s, key) }
  function U64Of(a: Args, key: string): Option<U64> { Lookup(a.u64s, key) }
  function U64ListOf(a: Args, key: string): Option<seq<U64>> { Lookup(a.u64Lists, key) }
  function UserOf(a: Args, key: string): Option<Id> { Lookup(a.userIds, key) }
  function ChannelOf(a: Args, key: string): Option<Id> { Lookup(a.channelIds, key) }
  function TimestampOf(a: Args, key: string): Option<string> { Lookup(a.timestamps, key) }

  /** `if let Some(true) = get_bool(args, key)` */
  predicate IsSet(a: Args, key: string) { Lookup(a.bools, key) == Some(true) }

  // Schema building (`build_tool` and the `json!` schema literals).

  function Prop(name: string, kind: string, description: string): OpenAi.Property {
    OpenAi.Property(name, kind, description, None)
  }

  function ListProp(name: string, itemKind: string, description: string): OpenAi.Property {
    OpenAi.Property(name, "array", description, Some(itemKind))
  }

  function BuildTool(name: string, description: string, properties: seq<OpenAi.Property>, required: seq<string>)
    : OpenAi.ToolDefinition
  {
    OpenAi.ToolDefinition(name, description, properties, Some(required))
  }

  /** `build_tool` on a schema without a `required` list. */
  function BuildOpenTool(name: string, description: string, properties: seq<OpenAi.Property>): OpenAi.ToolDefinition {
    OpenAi.ToolDefinition(name, description, properties, None)
  }

  function RequiredOf(d: OpenAi.ToolDefinition): seq<string> {
    d.required.GetOr([])
  }

  /** The first key of `keys` that is not supplied, if any. */
  function FirstMissing(a: Args, keys: seq<string>): (r: Option<string>)
    ensures r.None? <==> SuppliesAll(a, keys)
    ensures r.Some? ==> r.value in keys && !Supplies(a, r.value)
    ensures r.Some? ==> exists k | 0 <= k < |keys| :: keys[k] == r.value && SuppliesAll(a, keys[..k])
  {
    if |keys| == 0 then None
    else if !Supplies(a, keys[0]) then
      assert keys[..0] == [];
      Some(keys[0])
    else
      assert forall i | 1 <= i < |keys| :: keys[i] == keys[1..][i - 1];
      var r := FirstMissing(a, keys[1..]);
      assert r.Some? ==> exists k | 0 <= k < |keys| :: keys[k] == r.value && SuppliesAll(a, keys[..k]) by {
        if r.Some? {
          var j :| 0 <= j < |keys| - 1 && keys[1..][j] == r.value && SuppliesAll(a, keys[1..][..j]);
          assert keys[..j + 1] == [keys[0]] + keys[1..][..j];
        }
      }
      r
  }

  /** Every key of `keys` is supplied. */
  predicate SuppliesAll(a: Args, keys: seq<string>) {
    forall i | 0 <= i < |keys| :: Supplies(a, keys[i])
  }
}
