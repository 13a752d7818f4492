/** The metadata block that src/bot/handler.rs and
    src/bot/commands/admin/exec.rs put in front of a user's input. Both
    files hold the same `construct_metadata`, so it is defined once here:
    the guild, category and channel names from the cache, with defaults for
    whatever is missing. */
module Metadata {
  import opened Wrappers
  import opened Text
  import opened DiscordModel

  /** The seven values the template shows. */
  datatype MetadataFields = MetadataFields(
    guildName: string, guildIdText: string, categoryName: string, channelName: string,
    channelIdText: string, userName: string, userIdText: string)

  const DmName := "DM"
  const NoCategory := "None"
  const NoGuildId := "0"

  /** The reference reading of the cache: which names a message's place
      resolves to. */
  function MetadataView(cache: Cache, msg: DiscordMessage): MetadataFields {
    var guild := if msg.guildId.Some? && msg.guildId.value in cache then Some(cache[msg.guildId.value]) else None;
    var channel := if guild.Some? && msg.channelId in guild.value.channels then Some(guild.value.channels[msg.channelId]) else None;
    var category :=
      if channel.Some? && channel.value.parentId.Some? && channel.value.parentId.value in guild.value.channels
      then guild.value.channels[channel.value.parentId.value].name
      else NoCategory;
    MetadataFields(
      if guild.Some? then guild.value.name else DmName,
      if msg.guildId.Some? then Decimal(msg.guildId.value) else NoGuildId,
      category,
      if channel.Some? then channel.value.name else Decimal(msg.channelId),
      Decimal(msg.channelId), msg.author.name, Decimal(msg.author.id))
  }

  /** The `format!` template. */
  function MetadataText(f: MetadataFields): string {
    "<metadata>\nGuild: " + f.guildName + " (" + f.guildIdText + ")\nChannel: " + f.categoryName + " > "
    + f.channelName + " (" + f.channelIdText + ")\nUser: " + f.userName + " (" + f.userIdText + ")\n</metadata>"
  }

  /** `construct_metadata`: defaults first, each overwritten as the cache
      lookups succeed. */
  method ConstructMetadata(cache: Cache, msg: DiscordMessage) returns (text: string)
    ensures text == MetadataText(MetadataView(cache, msg))
  {
    var guildName := DmName;
    var channelName := Decimal(msg.channelId);
    var categoryName := NoCategory;
    if msg.guildId.Some? {
      if msg.guildId.value in cache {
        var guild := cache[msg.guildId.value];
        guildName := guild.name;
        if msg.channelId in guild.channels {
          var channel := guild.channels[msg.channelId];
          channelName := channel.name;
          if channel.parentId.Some? {
            categoryName := if channel.parentId.value in guild.channels
              then guild.channels[channel.parentId.value].name else NoCategory;
          }
        }
      }
    }
    var guildIdText := if msg.guildId.Some? then Decimal(msg.guildId.value) else NoGuildId;
    var fields := MetadataFields(guildName, guildIdText, categoryName, channelName, Decimal(msg.channelId),
                                 msg.author.name, Decimal(msg.author.id));
    assert fields == MetadataView(cache, msg);
    text := MetadataText(fields);
  }

  /** Outside a guild the block shows the "DM" defaults: guild id "0",
      category "None", and the channel by its id. */
  lemma DmDefaults(cache: Cache, msg: DiscordMessage)
    requires msg.guildId.None?
    ensures MetadataView(cache, msg)
         == MetadataFields(DmName, NoGuildId, NoCategory, Decimal(msg.channelId), Decimal(msg.channelId),
                           msg.author.name, Decimal(msg.author.id))
  {
  }

  /** A guild missing from the cache keeps the "DM" name but shows its real
      id; no channel or category name is looked up. */
  lemma UncachedGuildDefaults(cache: Cache, msg: DiscordMessage)
    requires msg.guildId.Some? && msg.guildId.value !in cache
    ensures MetadataView(cache, msg).guildName == DmName
    ensures MetadataView(cache, msg).guildIdText == Decimal(msg.guildId.value)
    ensures MetadataView(cache, msg).categoryName == NoCategory
    ensures MetadataView(cache, msg).channelName == Decimal(msg.channelId)
  {
  }

  /** For a cached channel the category is the name of its parent when the
      parent is one of the guild's channels, and "None" otherwise. */
  lemma CategoryIsParentName(cache: Cache, msg: DiscordMessage)
    requires msg.guildId.Some? && msg.guildId.value in cache
    requires msg.channelId in cache[msg.guildId.value].channels
    ensures var guild := cache[msg.guildId.value];
      var channel := guild.channels[msg.channelId];
      MetadataView(cache, msg).guildName == guild.name
      && MetadataView(cache, msg).channelName == channel.name
      && MetadataView(cache, msg).categoryName
         == (if channel.parentId.Some? && channel.parentId.value in guild.channels
             then guild.channels[channel.parentId.value].name else NoCategory)
  {
  }

  const InputOpen := "\n\n<user_input>"
  const InputClose := "</user_input>"

  /** The input handed to the agent: the metadata block, a blank line and
      the user's text inside `<user_input>` tags. */
  function WrapPrompt(metadata: string, content: string): (p: string)
    ensures |p| == |metadata| + |InputOpen| + |content| + |InputClose|
    ensures p[..|metadata|] == metadata
    ensures p[|metadata|..|metadata| + |InputOpen|] == InputOpen
    ensures p[|p| - |InputClose|..] == InputClose
  {
    var p := metadata + InputOpen + content + InputClose;
    assert p[..|metadata|] == metadata;
    assert p[|metadata|..|metadata| + |InputOpen|] == InputOpen;
    assert p[|p| - |InputClose|..] == InputClose;
    p
  }

  /** The wrapping hides nothing: knowing the metadata, the user's text is
      recovered from between the tags, and different texts give different
      prompts. */
  lemma UnwrapPrompt(metadata: string, content: string, other: string)
    ensures var p := WrapPrompt(metadata, content);
      p[|metadata| + |InputOpen|..|p| - |InputClose|] == content
    ensures other != content ==> WrapPrompt(metadata, other) != WrapPrompt(metadata, content)
  {
    var p := WrapPrompt(metadata, content);
    assert p == metadata + InputOpen + content + InputClose;
    assert p[|metadata| + |InputOpen|..|p| - |InputClose|] == content;
    var q := WrapPrompt(metadata, other);
    assert q == metadata + InputOpen + other + InputClose;
    if q == p {
      assert q[|metadata| + |InputOpen|..|q| - |InputClose|] == other;
    }
  }
}
