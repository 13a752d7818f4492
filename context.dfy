/** The per-message agent context of src/agent/context.rs: who wrote, where,
    and the text block describing it to the model. The clock reading is a
    parameter (already rendered as "%Y-%m-%d %H:%M:%S" text), and so is the
    channel-name lookup over HTTP. */
module AgentContexts {
  import opened Wrappers
  import opened Text
  import Utf8
  import DiscordModel
  import Users

  datatype MessageReference = MessageReference(messageId: U64, authorName: string, content: string)

  datatype ConversationContext = ConversationContext(
    channelId: U64, guildId: Option<U64>, userId: U64, userInfo: Users.UserInfo,
    timestamp: string, messageReference: Option<MessageReference>)

  datatype GuildContext = GuildContext(guildId: U64, guildName: string, memberCount: U64, channelName: Option<string>)

  /** The guild part of `AgentContext::new`: present only for a guild
      message whose guild is in the cache. `channelName` is what the
      channel-name lookup answered, None on failure. */
  function GuildContextOf(msg: DiscordModel.DiscordMessage, cache: DiscordModel.Cache, channelName: Option<string>)
    : (g: Option<GuildContext>)
    ensures g.Some? <==> msg.guildId.Some? && msg.guildId.value in cache
    ensures g.Some? ==>
      g.value == GuildContext(msg.guildId.value, cache[msg.guildId.value].name,
                              cache[msg.guildId.value].memberCount, channelName)
  {
    match msg.guildId
    case None => None
    case Some(id) =>
      if id in cache then Some(GuildContext(id, cache[id].name, cache[id].memberCount, channelName)) else None
  }

  /** The conversation part of `AgentContext::new`. */
  function ConversationOf(msg: DiscordModel.DiscordMessage, now: string): (c: ConversationContext)
    ensures c.channelId == msg.channelId && c.guildId == msg.guildId && c.userId == msg.author.id
    ensures c.userInfo == Users.FromDiscordUser(msg.author) && c.timestamp == now
    ensures c.messageReference.Some? <==> msg.referenced.Some?
    ensures msg.referenced.Some? ==>
      c.messageReference.value == MessageReference(msg.referenced.value.id, msg.referenced.value.authorName,
                                                   msg.referenced.value.content)
  {
    var reference := match msg.referenced
      case None => None
      case Some(r) => Some(MessageReference(r.id, r.authorName, r.content));
    ConversationContext(msg.channelId, msg.guildId, msg.author.id, Users.FromDiscordUser(msg.author), now, reference)
  }

  // The quoted reply text

  const QuoteLimit := 100
  const Ellipsis := "..."

  /** The quote as written: over 100 bytes, the first 100 bytes and "...".
      Slicing a Rust string panics unless byte 100 falls between two
      characters; that is this function's precondition. */
  function QuoteAsWritten(content: string): (q: string)
    requires Utf8.ByteLen(content) <= QuoteLimit || Utf8.IsCharBoundary(content, QuoteLimit)
    ensures Utf8.ByteLen(content) <= QuoteLimit ==> q == content
    ensures Utf8.ByteLen(content) > QuoteLimit ==>
      Utf8.Encode(q) == Utf8.Encode(content)[..QuoteLimit] + Utf8.Encode(Ellipsis)
  {
    if Utf8.ByteLen(content) > QuoteLimit then
      var p := Utf8.PrefixBytes(content, QuoteLimit);
      Utf8.EncodeConcat(p, Ellipsis);
      p + Ellipsis
    else content
  }

  /** Hiragana "a": three bytes in UTF-8. */
  const Hiragana := 'あ'

  lemma {:induction false} RepeatedHiraganaBoundaries(s: string, k: nat)
    requires forall i | 0 <= i < |s| :: s[i] == Hiragana
    requires Utf8.IsCharBoundary(s, k)
    ensures k % 3 == 0
    decreases |s|
  {
    if k > 0 {
      assert Utf8.Width(s[0]) == 3;
      RepeatedHiraganaBoundaries(s[1..], k - 3);
    }
  }

  lemma {:induction false} RepeatedHiraganaLength(s: string)
    requires forall i | 0 <= i < |s| :: s[i] == Hiragana
    ensures Utf8.ByteLen(s) == 3 * |s|
    decreases |s|
  {
    if |s| > 0 {
      assert Utf8.Width(s[0]) == 3;
      RepeatedHiraganaLength(s[1..]);
    }
  }

  /** A referenced message of 34 hiragana is 102 bytes long, and byte 100
      is inside the 34th character: the quote as written cannot be taken. */
  lemma QuoteAsWrittenPanics()
    ensures var s := seq(34, _ => Hiragana);
      Utf8.ByteLen(s) > QuoteLimit && !Utf8.IsCharBoundary(s, QuoteLimit)
  {
    var s := seq(34, _ => Hiragana);
    RepeatedHiraganaLength(s);
    if Utf8.IsCharBoundary(s, QuoteLimit) {
      RepeatedHiraganaBoundaries(s, QuoteLimit);
    }
  }

  /** The quote as intended: over 100 bytes, the longest whole-character
      prefix of at most 100 bytes, then "...". */
  function Quote(content: string): (q: string)
    ensures Utf8.ByteLen(content) <= QuoteLimit ==> q == content
    ensures Utf8.ByteLen(content) > QuoteLimit ==>
      q == Utf8.FloorPrefix(content, QuoteLimit) + Ellipsis
  {
    if Utf8.ByteLen(content) > QuoteLimit then Utf8.FloorPrefix(content, QuoteLimit) + Ellipsis else content
  }

  /** The intended quote keeps a prefix of the content of at most 100 bytes
      that no longer whole-character prefix fits, and it equals the quote
      as written wherever that one can be taken. */
  lemma QuoteCorrected(content: string)
    ensures Utf8.ByteLen(content) > QuoteLimit ==>
      var p := Quote(content)[..|Quote(content)| - |Ellipsis|];
      Quote(content) == p + Ellipsis && |p| < |content| && p == content[..|p|]
      && Utf8.ByteLen(p) <= QuoteLimit && Utf8.ByteLen(p) + Utf8.Width(content[|p|]) > QuoteLimit
    ensures Utf8.ByteLen(content) <= QuoteLimit || Utf8.IsCharBoundary(content, QuoteLimit) ==>
      Quote(content) == QuoteAsWritten(content)
  {
    if Utf8.ByteLen(content) > QuoteLimit {
      var p := Utf8.FloorPrefix(content, QuoteLimit);
      assert Quote(content) == p + Ellipsis;
      assert Quote(content)[..|Quote(content)| - |Ellipsis|] == p;
      assert p != content;
      assert content[..|content|] == content;
      if Utf8.IsCharBoundary(content, QuoteLimit) {
        Utf8.EncodeConcat(Utf8.PrefixBytes(content, QuoteLimit), Ellipsis);
      }
    }
  }

  // The context lines

  const DmLine := "DMでの会話"

  function TimeLine(timestamp: string): string { "現在時刻: " + timestamp }
  function ServerLine(name: string): string { "サーバー: " + name }
  function ChannelLine(name: string): string { "チャンネル: #" + name }
  function MemberCountLine(count: U64): string { "メンバー数: " + Decimal(count) + "人" }
  function UserLine(username: string, id: U64): string { "ユーザー: " + username + " (ID: " + Decimal(id) + ")" }
  function NicknameLine(nick: string): string { "ニックネーム: " + nick }
  function ReplyLine(r: MessageReference): string { "返信先メッセージ: " + r.authorName + "さん「" + Quote(r.content) + "」" }

  function OptionalLine<T>(o: Option<T>, line: T -> string): seq<string> {
    if o.Some? then [line(o.value)] else []
  }

  /** The lines about where the message was written: the guild's name,
      channel (when known) and member count, or the DM line. */
  function PlaceLines(guild: Option<GuildContext>): seq<string> {
    match guild
    case Some(g) => [ServerLine(g.guildName)] + OptionalLine(g.channelName, ChannelLine) + [MemberCountLine(g.memberCount)]
    case None => [DmLine]
  }

  /** The lines of `format_context_for_prompt`, in order. */
  function ContextLines(c: ConversationContext, guild: Option<GuildContext>): seq<string> {
    [TimeLine(c.timestamp)] + PlaceLines(guild) + [UserLine(c.userInfo.username, c.userId)]
    + OptionalLine(c.userInfo.nickname, NicknameLine)
    + OptionalLine(c.messageReference, ReplyLine)
  }

  class AgentContext {
    const conversation: ConversationContext
    const guild: Option<GuildContext>
    var metadata: map<string, string>

    /** `AgentContext::new`; `channelName` answers the channel-name lookup
        and `now` is the clock reading. */
    constructor(msg: DiscordModel.DiscordMessage, cache: DiscordModel.Cache, channelName: Option<string>, now: string)
      ensures conversation == ConversationOf(msg, now)
      ensures guild == GuildContextOf(msg, cache, channelName)
      ensures metadata == map[]
    {
      conversation := ConversationOf(msg, now);
      guild := GuildContextOf(msg, cache, channelName);
      metadata := map[];
    }

    /** `set_metadata`: one key set, the others kept. */
    method SetMetadata(key: string, value: string)
      modifies this
      ensures metadata == old(metadata)[key := value]
    {
      metadata := metadata[key := value];
    }

    /** `get_metadata` */
    function GetMetadata(key: string): (v: Option<string>)
      reads this
      ensures v.Some? <==> key in metadata
      ensures v.Some? ==> v.value == metadata[key]
    {
      Lookup(metadata, key)
    }

    /** `is_dm`: a message outside any guild. */
    function IsDm(): (dm: bool)
      ensures dm <==> conversation.guildId.None?
    {
      conversation.guildId.None?
    }

    /** `get_channel_id`: the channel the message was posted in. */
    function GetChannelId(): (id: U64)
      ensures id == conversation.channelId
    {
      conversation.channelId
    }

    /** `get_user_id`: the message's author. */
    function GetUserId(): (id: U64)
      ensures id == conversation.userId
    {
      conversation.userId
    }

    /** `format_context_for_prompt`: the lines pushed one by one, then
        joined with newlines. */
    method FormatContextForPrompt() returns (text: string)
      ensures text == Join(ContextLines(conversation, guild), "\n")
    {
      var parts := [TimeLine(conversation.timestamp)];
      if guild.Some? {
        parts := parts + [ServerLine(guild.value.guildName)];
        if guild.value.channelName.Some? {
          parts := parts + [ChannelLine(guild.value.channelName.value)];
        }
        parts := parts + [MemberCountLine(guild.value.memberCount)];
      } else {
        parts := parts + [DmLine];
      }
      assert parts == [TimeLine(conversation.timestamp)] + PlaceLines(guild);
      parts := parts + [UserLine(conversation.userInfo.username, conversation.userId)];
      if conversation.userInfo.nickname.Some? {
        parts := parts + [NicknameLine(conversation.userInfo.nickname.value)];
      }
      assert parts == [TimeLine(conversation.timestamp)] + PlaceLines(guild)
        + [UserLine(conversation.userInfo.username, conversation.userId)]
        + OptionalLine(conversation.userInfo.nickname, NicknameLine);
      if conversation.messageReference.Some? {
        parts := parts + [ReplyLine(conversation.messageReference.value)];
      }
      assert parts == ContextLines(conversation, guild);
      text := Join(parts, "\n");
    }
  }

  /** After `set_metadata(k, v)` the key reads back as `v` and every other
      key reads as before. */
  lemma SetThenGet(before: map<string, string>, key: string, value: string, other: string)
    ensures Lookup(before[key := value], key) == Some(value)
    ensures other != key ==> Lookup(before[key := value], other) == Lookup(before, other)
  {
  }

  /** The place lines: the DM line exactly outside a cached guild;
      otherwise the server line first, the member count last, and the
      channel line between them exactly when the channel name is known. */
  lemma PlaceLayout(guild: Option<GuildContext>)
    ensures PlaceLines(guild)[0] == DmLine <==> guild.None?
    ensures guild.None? ==> PlaceLines(guild) == [DmLine]
    ensures guild.Some? ==>
      PlaceLines(guild)[0] == ServerLine(guild.value.guildName)
      && PlaceLines(guild)[|PlaceLines(guild)| - 1] == MemberCountLine(guild.value.memberCount)
      && (guild.value.channelName.Some? <==> |PlaceLines(guild)| == 3)
      && (guild.value.channelName.Some? ==> PlaceLines(guild)[1] == ChannelLine(guild.value.channelName.value))
  {
    if guild.Some? {
      assert ServerLine(guild.value.guildName)[0] == 'サ' && DmLine[0] == 'D';
    }
  }

  /** The order of the context text: the time, the place lines, the user,
      then the nickname line exactly when there is a nickname, and the
      reply line, last, exactly when there is a referenced message. */
  lemma ContextLayout(c: ConversationContext, guild: Option<GuildContext>)
    ensures |ContextLines(c, guild)| == 2 + |PlaceLines(guild)|
      + |OptionalLine(c.userInfo.nickname, NicknameLine)| + |OptionalLine(c.messageReference, ReplyLine)|
    ensures ContextLines(c, guild)[0] == TimeLine(c.timestamp)
    ensures ContextLines(c, guild)[1..1 + |PlaceLines(guild)|] == PlaceLines(guild)
    ensures ContextLines(c, guild)[1 + |PlaceLines(guild)|] == UserLine(c.userInfo.username, c.userId)
    ensures c.userInfo.nickname.Some? ==>
      ContextLines(c, guild)[2 + |PlaceLines(guild)|] == NicknameLine(c.userInfo.nickname.value)
    ensures c.messageReference.Some? ==>
      ContextLines(c, guild)[|ContextLines(c, guild)| - 1] == ReplyLine(c.messageReference.value)
  {
    var lines := ContextLines(c, guild);
    var head := [TimeLine(c.timestamp)] + PlaceLines(guild) + [UserLine(c.userInfo.username, c.userId)];
    assert lines == head + OptionalLine(c.userInfo.nickname, NicknameLine) + OptionalLine(c.messageReference, ReplyLine);
    assert lines[..|head|] == head;
  }

  /** No field shown in the context holds a line break. */
  predicate SingleLineFields(c: ConversationContext, guild: Option<GuildContext>) {
    '\n' !in c.timestamp && '\n' !in c.userInfo.username
    && (c.userInfo.nickname.Some? ==> '\n' !in c.userInfo.nickname.value)
    && (c.messageReference.Some? ==>
          '\n' !in c.messageReference.value.authorName && '\n' !in c.messageReference.value.content)
    && (guild.Some? ==>
          '\n' !in guild.value.guildName && (guild.value.channelName.Some? ==> '\n' !in guild.value.channelName.value))
  }

  /** When no field holds a line break, splitting the context text at line
      breaks gives back its lines. */
  lemma ContextSplitsIntoLines(c: ConversationContext, guild: Option<GuildContext>)
    requires SingleLineFields(c, guild)
    ensures Split(Join(ContextLines(c, guild), "\n"), '\n') == ContextLines(c, guild)
  {
    var nick := OptionalLine(c.userInfo.nickname, NicknameLine);
    var reply := OptionalLine(c.messageReference, ReplyLine);
    var time := [TimeLine(c.timestamp)];
    var user := [UserLine(c.userInfo.username, c.userId)];
    assert ContextLines(c, guild) == time + PlaceLines(guild) + user + nick + reply;
    PlaceLinesSingle(guild);
    UserLineSingle(c.userInfo.username, c.userId);
    NicknameLineSingle(c.userInfo.nickname);
    ReplyLineSingle(c.messageReference);
    assert AllSingleLine(time) && AllSingleLine(user);
    AllSingleLineConcat(time, PlaceLines(guild));
    AllSingleLineConcat(time + PlaceLines(guild), user);
    AllSingleLineConcat(time + PlaceLines(guild) + user, nick);
    AllSingleLineConcat(time + PlaceLines(guild) + user + nick, reply);
    SplitJoin(ContextLines(c, guild), '\n');
  }

  predicate AllSingleLine(lines: seq<string>) {
    forall i | 0 <= i < |lines| :: '\n' !in lines[i]
  }

  lemma AllSingleLineConcat(a: seq<string>, b: seq<string>)
    requires AllSingleLine(a) && AllSingleLine(b)
    ensures AllSingleLine(a + b)
  {
    assert forall i | |a| <= i < |a + b| :: (a + b)[i] == b[i - |a|];
  }

  lemma NicknameLineSingle(nick: Option<string>)
    requires nick.Some? ==> '\n' !in nick.value
    ensures AllSingleLine(OptionalLine(nick, NicknameLine))
  {
    if nick.Some? {
      assert '\n' !in NicknameLine(nick.value);
    }
  }

  lemma ReplyLineSingle(r: Option<MessageReference>)
    requires r.Some? ==> '\n' !in r.value.authorName && '\n' !in r.value.content
    ensures AllSingleLine(OptionalLine(r, ReplyLine))
  {
    if r.Some? {
      QuoteSingleLine(r.value.content);
      assert '\n' !in ReplyLine(r.value);
    }
  }

  lemma UserLineSingle(username: string, id: U64)
    requires '\n' !in username
    ensures '\n' !in UserLine(username, id)
  {
    assert '\n' !in Decimal(id);
  }

  lemma PlaceLinesSingle(guild: Option<GuildContext>)
    requires guild.Some? ==>
      '\n' !in guild.value.guildName && (guild.value.channelName.Some? ==> '\n' !in guild.value.channelName.value)
    ensures AllSingleLine(PlaceLines(guild))
  {
    if guild.Some? {
      assert '\n' !in Decimal(guild.value.memberCount);
      assert '\n' !in MemberCountLine(guild.value.memberCount);
    }
  }

  lemma QuoteSingleLine(content: string)
    requires '\n' !in content
    ensures '\n' !in Quote(content)
  {
    if Utf8.ByteLen(content) > QuoteLimit {
      var p := Utf8.FloorPrefix(content, QuoteLimit);
      assert forall i | 0 <= i < |p| :: p[i] == content[i];
    }
  }

  /** A message outside any guild is described as a DM conversation, and
      is the only kind so described. */
  lemma DmContext(msg: DiscordModel.DiscordMessage, cache: DiscordModel.Cache, channelName: Option<string>, now: string)
    requires msg.guildId.None?
    ensures GuildContextOf(msg, cache, channelName).None?
    ensures ContextLines(ConversationOf(msg, now), GuildContextOf(msg, cache, channelName))[1] == DmLine
  {
  }

  // ContextBuilder

  /** `ContextBuilder`: a metadata map built by chained insertions. */
  datatype ContextBuilder = ContextBuilder(metadata: map<string, string>) {

    function WithMetadata(key: string, value: string): (b: ContextBuilder)
      ensures b.metadata == metadata[key := value]
    {
      ContextBuilder(metadata[key := value])
    }

    function Build(): map<string, string> {
      metadata
    }
  }

  function NewBuilder(): (b: ContextBuilder)
    ensures b.Build() == map[]
  {
    ContextBuilder(map[])
  }

  /** Chained `with_metadata` calls, in order. */
  function WithAll(b: ContextBuilder, pairs: seq<(string, string)>): ContextBuilder
    decreases |pairs|
  {
    if |pairs| == 0 then b else WithAll(b.WithMetadata(pairs[0].0, pairs[0].1), pairs[1..])
  }

  /** The value last paired with `key`, found from the end. */
  function LastValue(pairs: seq<(string, string)>, key: string): Option<string>
    decreases |pairs|
  {
    if |pairs| == 0 then None
    else if pairs[|pairs| - 1].0 == key then Some(pairs[|pairs| - 1].1)
    else LastValue(pairs[..|pairs| - 1], key)
  }

  lemma {:induction false} LastValueOfAppend(pairs: seq<(string, string)>, p: (string, string), key: string)
    ensures LastValue(pairs + [p], key) == if p.0 == key then Some(p.1) else LastValue(pairs, key)
  {
    assert (pairs + [p])[..|pairs|] == pairs;
  }

  /** `build` returns exactly the inserted keys, each with the value of its
      last insertion. */
  lemma {:induction false} BuildKeepsLastInsertion(pairs: seq<(string, string)>, key: string)
    ensures Lookup(WithAll(NewBuilder(), pairs).Build(), key) == LastValue(pairs, key)
  {
    WithAllExtends(map[], pairs, key);
  }

  lemma {:induction false} WithAllExtends(start: map<string, string>, pairs: seq<(string, string)>, key: string)
    ensures Lookup(WithAll(ContextBuilder(start), pairs).Build(), key)
         == (if LastValue(pairs, key).Some? then LastValue(pairs, key) else Lookup(start, key))
    decreases |pairs|
  {
    if |pairs| > 0 {
      var p := pairs[0];
      WithAllExtends(start[p.0 := p.1], pairs[1..], key);
      LastValuePrepend(p, pairs[1..], key);
      assert [p] + pairs[1..] == pairs;
    }
  }

  lemma {:induction false} LastValuePrepend(p: (string, string), rest: seq<(string, string)>, key: string)
    ensures LastValue([p] + rest, key)
         == (if LastValue(rest, key).Some? then LastValue(rest, key) else if p.0 == key then Some(p.1) else None)
    decreases |rest|
  {
    if |rest| == 0 {
      assert [p] + rest == [p];
      assert [p][..0] == [];
    } else {
      var init := rest[..|rest| - 1];
      var last := rest[|rest| - 1];
      assert rest == init + [last];
      assert [p] + rest == ([p] + init) + [last];
      LastValueOfAppend([p] + init, last, key);
      LastValueOfAppend(init, last, key);
      LastValuePrepend(p, init, key);
    }
  }
}
