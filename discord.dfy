/** The Discord-side values the core reads: users, inbound messages, guild
    channels and the guild cache. These come from serenity; only the fields
    the core looks at are kept. */
module DiscordModel {
  import opened Wrappers
  import opened Text

  datatype DiscordUser = DiscordUser(id: U64, name: string, bot: bool, avatarUrl: Option<string>)

  datatype ReferencedMessage = ReferencedMessage(id: U64, authorName: string, content: string)

  datatype DiscordMessage = DiscordMessage(
    author: DiscordUser, content: string, channelId: U64, guildId: Option<U64>,
    referenced: Option<ReferencedMessage>)

  /** `kindDebug` is the `{:?}` rendering of the channel type. */
  datatype GuildChannel = GuildChannel(id: U64, name: string, kindDebug: string, parentId: Option<U64>)

  datatype CachedGuild = CachedGuild(name: string, memberCount: U64, channels: map<U64, GuildChannel>)

  /** The guild cache: guild id to cached guild. */
  type Cache = map<U64, CachedGuild>

  /** What the tool dispatcher of src/agent/tools/tools.rs needs from the
      serenity context: fetching a guild's channels over HTTP, which yields
      the channel map's values in its iteration order, or an error. */
  datatype DiscordCtx = DiscordCtx(fetchChannels: U64 -> Result<seq<GuildChannel>>)
}
