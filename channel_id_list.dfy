/** The one tool of src/agent/tools/get_channel_id_list_from_guild_id.rs:
    list a guild's channels as `<name>: <id> (<kind>)` lines. */
module GuildChannelList {
  import opened Wrappers
  import opened Text
  import Json
  import opened DiscordModel

  const InvalidGuildId := "Invalid Guild ID"
  const FetchFailure := "Failed to fetch channels: "

  /** `args.get("guild_id").or_else(|| args.get("query"))`: `query` is
      consulted only when `guild_id` is absent. */
  function GuildIdArgument(args: Json.Value): (v: Option<Json.Value>)
    ensures Json.Get(args, "guild_id").Some? ==> v == Json.Get(args, "guild_id")
    ensures Json.Get(args, "guild_id").None? ==> v == Json.Get(args, "query")
  {
    match Json.Get(args, "guild_id")
    case Some(v) => Some(v)
    case None => Json.Get(args, "query")
  }

  /** The id a single argument value denotes: a JSON integer in `u64`
      range, or a string `u64::from_str` accepts. */
  function IdFrom(v: Json.Value): (id: Option<U64>)
    ensures v.Int? ==> (id.Some? <==> 0 <= v.i <= U64_MAX)
    ensures v.Int? && id.Some? ==> id.value == v.i
    ensures v.Str? ==> id == ParseU64(v.s)
    ensures !v.Int? && !v.Str? ==> id.None?
  {
    match Json.AsU64(v)
    case Some(n) => Some(n)
    case None =>
      match Json.AsStr(v)
      case Some(s) => ParseU64(s)
      case None => None
  }

  function ExtractGuildId(args: Json.Value): (id: Option<U64>)
    ensures id.Some? ==> GuildIdArgument(args).Some?
    ensures GuildIdArgument(args).Some? ==> id == IdFrom(GuildIdArgument(args).value)
  {
    match GuildIdArgument(args)
    case Some(v) => IdFrom(v)
    case None => None
  }

  /** A `guild_id` that is present but unusable is not rescued by `query`. */
  lemma PresentGuildIdShadowsQuery()
    ensures ExtractGuildId(Json.Object(map["guild_id" := Json.Str("abc"), "query" := Json.Int(5)])) == None
    ensures ExtractGuildId(Json.Object(map["query" := Json.Str("42")])) == Some(42)
  {
    var a := Json.Object(map["guild_id" := Json.Str("abc"), "query" := Json.Int(5)]);
    assert Json.Get(a, "guild_id") == Some(Json.Str("abc"));
    assert "abc"[0] == 'a';
    var b := Json.Object(map["query" := Json.Str("42")]);
    assert Json.Get(b, "guild_id") == None;
    ParseDecimal(42);
    assert Decimal(42) == "42" by {
      assert Decimal(4) == "4";
    }
  }

  /** `format!("{}: {} ({:?})", c.name, c.id, c.kind)` */
  function ChannelLine(c: GuildChannel): string {
    c.name + ": " + Decimal(c.id) + " (" + c.kindDebug + ")"
  }

  function Lines(channels: seq<GuildChannel>): (lines: seq<string>)
    ensures |lines| == |channels|
    ensures forall i | 0 <= i < |channels| :: lines[i] == ChannelLine(channels[i])
  {
    if |channels| == 0 then [] else [ChannelLine(channels[0])] + Lines(channels[1..])
  }

  /** The lines joined with newlines, in the order the channel map yields them. */
  function Listing(channels: seq<GuildChannel>): string {
    Join(Lines(channels), "\n")
  }

  /** `execute(ctx, args)` */
  function Execute(ctx: DiscordCtx, args: Json.Value): (out: string)
    ensures ExtractGuildId(args).None? ==> out == InvalidGuildId
    ensures ExtractGuildId(args).Some? ==>
      match ctx.fetchChannels(ExtractGuildId(args).value)
      case Ok(channels) => out == Listing(channels)
      case Err(e) => out == FetchFailure + e
  {
    match ExtractGuildId(args)
    case None => InvalidGuildId
    case Some(g) =>
      match ctx.fetchChannels(g)
      case Ok(channels) => Listing(channels)
      case Err(e) => FetchFailure + e
  }

  /** Without a usable id no fetch happens: the answer is the same whatever
      the Discord side would have said. */
  lemma InvalidIdFetchesNothing(ctx1: DiscordCtx, ctx2: DiscordCtx, args: Json.Value)
    requires ExtractGuildId(args).None?
    ensures Execute(ctx1, args) == Execute(ctx2, args) == InvalidGuildId
  {
  }

  /** A line holds a newline only if the channel's name or kind text does. */
  lemma LineHasNoNewline(c: GuildChannel)
    requires '\n' !in c.name && '\n' !in c.kindDebug
    ensures '\n' !in ChannelLine(c)
  {
    var d := Decimal(c.id);
    assert '\n' !in d;
    assert '\n' !in ": " && '\n' !in " (" && '\n' !in ")";
  }

  /** Splitting the listing at newlines recovers one line per channel, in
      order, as long as no channel name or kind text contains a newline. */
  lemma ListingSplitsIntoLines(channels: seq<GuildChannel>)
    requires |channels| >= 1
    requires forall i | 0 <= i < |channels| :: '\n' !in channels[i].name && '\n' !in channels[i].kindDebug
    ensures Split(Listing(channels), '\n') == Lines(channels)
  {
    var lines := Lines(channels);
    forall i | 0 <= i < |lines|
      ensures '\n' !in lines[i]
    {
      LineHasNoNewline(channels[i]);
    }
    SplitJoin(lines, '\n');
  }

  /** A guild without channels yields the empty text. */
  lemma NoChannelsEmptyListing()
    ensures Listing([]) == ""
  {
  }
}
