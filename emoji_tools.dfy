/** The emoji and sticker tools of src/agent/tools/discord_tools/emoji.rs:
    four handlers, their JSON schemas and the name dispatcher. */
module EmojiTools {
  import opened Wrappers
  import opened Text
  import OpenAi
  import opened ToolKit

  datatype Tool = EmojiList | CreateEmojiTool | DeleteEmojiTool | StickerList

  /** The tools in the order `definitions` pushes them. */
  const Tools: seq<Tool> := [EmojiList, CreateEmojiTool, DeleteEmojiTool, StickerList]

  function Name(t: Tool): string {
    match t
    case EmojiList => "get_emoji_list"
    case CreateEmojiTool => "create_emoji"
    case DeleteEmojiTool => "delete_emoji"
    case StickerList => "get_sticker_list"
  }

  /** The `match name` of `execute`. */
  function Route(name: string): (r: Option<Tool>)
    ensures r.Some? ==> Name(r.value) == name
  {
    if name == "get_emoji_list" then Some(EmojiList)
    else if name == "create_emoji" then Some(CreateEmojiTool)
    else if name == "delete_emoji" then Some(DeleteEmojiTool)
    else if name == "get_sticker_list" then Some(StickerList)
    else None
  }

  lemma RouteName(t: Tool)
    ensures Route(Name(t)) == Some(t)
  {
  }

  /** The position of `t` in `Tools`. */
  function Index(t: Tool): (i: nat)
    ensures i < |Tools| && Tools[i] == t
  {
    match t
    case EmojiList => 0
    case CreateEmojiTool => 1
    case DeleteEmojiTool => 2
    case StickerList => 3
  }

  const GuildId := Prop("guild_id", "integer", "Guild id.")

  /** The `description` of each schema. */
  function Description(t: Tool): string {
    match t
    case EmojiList => "List custom emojis in a guild."
    case CreateEmojiTool => "Create a custom emoji in a guild."
    case DeleteEmojiTool => "Delete a custom emoji from a guild."
    case StickerList => "List guild stickers."
  }

  /** The `properties` of each schema, in order. */
  function Properties(t: Tool): seq<OpenAi.Property> {
    match t
    case EmojiList => [GuildId]
    case CreateEmojiTool => [
      GuildId,
      Prop("name", "string", "Emoji name."),
      Prop("image", "string", "Base64 data URI for emoji image.")]
    case DeleteEmojiTool => [GuildId, Prop("emoji_id", "integer", "Emoji id.")]
    case StickerList => [GuildId]
  }

  /** The `required` list of each schema. */
  function Required(t: Tool): seq<string> {
    match t
    case EmojiList => ["guild_id"]
    case CreateEmojiTool => ["guild_id", "name", "image"]
    case DeleteEmojiTool => ["guild_id", "emoji_id"]
    case StickerList => ["guild_id"]
  }

  function Definition(t: Tool): (d: OpenAi.ToolDefinition)
    ensures d.name == Name(t) && RequiredOf(d) == Required(t)
  {
    BuildTool(Name(t), Description(t), Properties(t), Required(t))
  }

  lemma ToolsDistinct()
    ensures forall i, j | 0 <= i < j < |Tools| :: Tools[i] != Tools[j]
  {
    forall i, j | 0 <= i < j < |Tools|
      ensures Tools[i] != Tools[j]
    {
      assert Index(Tools[i]) == i && Index(Tools[j]) == j;
    }
  }

  lemma DefinitionsRoute()
    ensures forall t :: Route(Definition(t).name) == Some(t)
  {
    forall t ensures Route(Definition(t).name) == Some(t) {
      RouteName(t);
    }
  }

  /** `definitions()`: one schema per tool, each named so that `execute`
      routes it to that tool, no name twice. */
  function Definitions(): (defs: seq<OpenAi.ToolDefinition>)
    ensures |defs| == |Tools|
    ensures forall i | 0 <= i < |defs| :: defs[i] == Definition(Tools[i]) && Route(defs[i].name) == Some(Tools[i])
    ensures forall i, j | 0 <= i < j < |defs| :: defs[i].name != defs[j].name
  {
    DefinitionsRoute();
    ToolsDistinct();
    seq(|Tools|, i requires 0 <= i < |Tools| => Definition(Tools[i]))
  }

  /** Every name `execute` accepts is advertised by `definitions`. */
  lemma DefinitionsCoverRoutes(name: string)
    ensures Route(name).Some? <==> exists i | 0 <= i < |Definitions()| :: Definitions()[i].name == name
  {
    if Route(name).Some? {
      var i := Index(Route(name).value);
      assert Definitions()[i].name == name;
    }
  }

  // The handlers.

  function EmojiListRun(a: Args, http: Http): (r: ToolRun)
    ensures r.calls != [] <==> a.guildId.Some?
    ensures a.guildId.Some? ==> SingleCall(r, ListEmojis(a.guildId.value), http)
    ensures a.guildId.None? ==> r == Missing("guild_id")
  {
    if a.guildId.None? then Missing("guild_id")
    else Fetch(ListEmojis(a.guildId.value), http, "fetch emojis")
  }

  /** `guild_id`, `name` and `image` all resolve. */
  predicate HasNewEmoji(a: Args) {
    a.guildId.Some? && "name" in a.strings && "image" in a.strings
  }

  /** The image is passed on as the data URI text it was given. */
  function CreateEmojiRun(a: Args, http: Http): (r: ToolRun)
    ensures r.calls != [] <==> HasNewEmoji(a)
    ensures HasNewEmoji(a) ==>
      SingleCall(r, CreateEmoji(a.guildId.value, a.strings["name"], a.strings["image"]), http)
    ensures a.guildId.None? ==> r == Missing("guild_id")
    ensures a.guildId.Some? && "name" !in a.strings ==> r == Missing("name")
    ensures a.guildId.Some? && "name" in a.strings && "image" !in a.strings ==> r == Missing("image")
  {
    if a.guildId.None? then Missing("guild_id")
    else if "name" !in a.strings then Missing("name")
    else if "image" !in a.strings then Missing("image")
    else Fetch(CreateEmoji(a.guildId.value, a.strings["name"], a.strings["image"]), http, "create emoji")
  }

  function DeleteEmojiRun(a: Args, http: Http): (r: ToolRun)
    ensures r.calls != [] <==> a.guildId.Some? && "emoji_id" in a.u64s
    ensures a.guildId.Some? && "emoji_id" in a.u64s ==>
      SingleCall(r, DeleteEmoji(a.guildId.value, a.u64s["emoji_id"]), http)
    ensures r.calls != [] && http(r.calls[0]).Done? ==> r.reply == Success(Flag("deleted"))
    ensures a.guildId.None? ==> r == Missing("guild_id")
    ensures a.guildId.Some? && "emoji_id" !in a.u64s ==> r == Missing("emoji_id")
  {
    if a.guildId.None? then Missing("guild_id")
    else if "emoji_id" !in a.u64s then Missing("emoji_id")
    else Ack(DeleteEmoji(a.guildId.value, a.u64s["emoji_id"]), http, "delete emoji", "deleted")
  }

  function StickerListRun(a: Args, http: Http): (r: ToolRun)
    ensures r.calls != [] <==> a.guildId.Some?
    ensures a.guildId.Some? ==> SingleCall(r, ListStickers(a.guildId.value), http)
    ensures a.guildId.None? ==> r == Missing("guild_id")
  {
    if a.guildId.None? then Missing("guild_id")
    else Fetch(ListStickers(a.guildId.value), http, "fetch stickers")
  }

  function Invoke(t: Tool, a: Args, http: Http): ToolRun {
    match t
    case EmojiList => EmojiListRun(a, http)
    case CreateEmojiTool => CreateEmojiRun(a, http)
    case DeleteEmojiTool => DeleteEmojiRun(a, http)
    case StickerList => StickerListRun(a, http)
  }

  /** `execute(ctx, name, args)`: `None` for a name this module does not own. */
  function Execute(name: string, a: Args, http: Http): (r: Option<ToolRun>)
    ensures r.Some? <==> Route(name).Some?
    ensures r.Some? ==> r.value == Invoke(Route(name).value, a, http)
  {
    match Route(name)
    case None => None
    case Some(t) => Some(Invoke(t, a, http))
  }

  /** Every handler makes at most one call, only once every field its schema
      marks required has been supplied, and reports that call's outcome;
      without a call it answers with an error. */
  lemma HandlersHonourSchemas(t: Tool, a: Args, http: Http)
    ensures |Invoke(t, a, http).calls| <= 1
    ensures Invoke(t, a, http).calls != [] ==>
      SuppliesAll(a, Required(t)) && ReportsLastCall(Invoke(t, a, http), http)
    ensures Invoke(t, a, http).calls == [] ==> Invoke(t, a, http).reply.Failure?
    ensures !SuppliesAll(a, Required(t)) ==> Invoke(t, a, http).calls == []
  {
    match t
    case EmojiList =>
    case CreateEmojiTool =>
    case DeleteEmojiTool =>
    case StickerList =>
  }
  /** Every handler checks the fields its schema marks required in the
      schema's order, with the getter that field is read by, and answers
      "<field> is required" for the first one missing, before any call. */
  lemma RequiredCheckedInOrder(t: Tool, a: Args, http: Http)
    requires FirstMissing(a, Required(t)).Some?
    ensures Invoke(t, a, http) == Missing(FirstMissing(a, Required(t)).value)
  {
    match t
    case EmojiList =>
    case CreateEmojiTool =>
    case DeleteEmojiTool =>
    case StickerList =>
  }

}
