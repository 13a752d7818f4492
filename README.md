# NekoAI Discord agent: a Dafny model

This project models the agent core of the NekoAI Discord bot. The core is an agent that keeps a bounded conversation memory for each user. It answers through an OpenAI-style completion backend. It can also let the backend call Discord moderation tools: members, roles, channels, guilds, emojis, and the guild channel list.

The model covers these parts:

- **Memory** (`memory.dfy`): capacity-bounded message histories.
- **OpenAI client** (`openai.dfy`): the request builders and how the backend's reply is read.
- **Chat service** (`chat.dfy`): one turn with history and at most one tool round.
- **Agent** (`agent.dfy`): a class that owns one memory per user id.
- **Tool catalogue and dispatchers**:
  - `tools.dfy` and `channel_id_list.dfy`, with shared pieces in `toolkit.dfy` and `json.dfy`.
  - Five tool families, each with its `definitions` list, its name dispatcher `execute`, and the validation, defaults and builder logic of every handler: `member_tools.dfy`, `role_tools.dfy`, `channel_tools.dfy`, `guild_tools.dfy`, `emoji_tools.dfy`.
- **Per-message context** (`context.dfy`) and the user record (`users.dfy`).
- **System-prompt loading** (`prompts.dfy`).
- **Bot side**: the metadata block shared by the message handler and the admin `exec` command (`metadata.dfy`), and the message handler itself (`handler.dfy`).
- **Shared value types**: `wrappers.dfy`, `text.dfy`, `utf8.dfy` and `discord.dfy` hold the Option/Result types, decimal and whitespace text functions, the UTF-8 view of Rust strings, and the Discord values the core reads.

Effects become parameters:

- **Discord HTTP and cache.** Every Discord call is a value of type `Request`, sent through an arbitrary `Http` function. A handler returns the requests it made with its reply, so the model can state that a handler made no call.
- **OpenAI backend.** The backend is a `Transport` function from request to completion or error.
- **Agent's chat call.** It is a `ChatStep` function.
- **File reads.** The reads of the icon file and the prompt file are parameters too.
- **Clock.** The clock reading is a parameter, already rendered as text.

Two behaviours that an agent of this kind is often described as having are not in the code, and this model follows the code:

- **Tool rounds.** There is no loop of tool rounds under a round cap, and no `ToolLoopExceeded` failure. `chat_with_history` has exactly one tool round: the follow-up completion is sent without tools, and whatever it answers is final (src/agent/chat.rs:85-116). `Chat.AtMostOneToolRound` states this.
- **Fallback.** The fallback is not inside `process_message`, and memory does not store the fallback's answer. In the code:
  - The fallback is the handler's own call to `process_message_simple`, with the same wrapped prompt (src/bot/handler.rs:80-88).
  - Memory keeps the user's prompt even when the primary call fails, and gets no reply then (src/agent/agent.rs:49-61).

## Model

| member | source | states |
|---|---|---|
| `Memory.AddAllKeepsMostRecent` | src/agent/agent.rs:49-61 | after any run of insertions, the memory holds exactly the last `maxHistory` messages in insertion order, and stays bounded |
| `Memory.AddMessageBounded` | src/agent/agent.rs:66-71 | one insertion keeps the capacity and ends the history with the new message; with room left it just appends |
| `Memory.CapacityTwoScenario` | src/agent/agent.rs:49-61 | with capacity 2, inserting User("a"), Assistant("b"), User("c") leaves [Assistant("b"), User("c")] |
| `Agents.Agent.constructor` | src/agent/agent.rs:18-26 | no conversations, capacity 20, a fresh chat service holding the given prompt |
| `Agents.Agent.WithMaxHistory` | src/agent/agent.rs:28-31 | sets the capacity for conversations created later and leaves the stored ones as they are |
| `Agents.Agent.ProcessMessageSimple` | src/agent/agent.rs:33-36 | the one-shot answer is the chat service's `single_chat` for the same text |
| `Agents.Agent.ProcessMessage` | src/agent/agent.rs:38-64 | the chat step sees the history as it was before the message; the user message is stored first, and the reply only on success; every memory stays bounded |
| `Agents.Agent.AddMessageToHistory` | src/agent/agent.rs:66-71 | only an existing conversation gets the message; absent users are not created |
| `Agents.Agent.ClearHistory` | src/agent/agent.rs:73-80 | empties that user's conversation and keeps its entry; other users and absent users are untouched |
| `Agents.Agent.ClearAllHistories` | src/agent/agent.rs:82-87 | no conversation remains |
| `Agents.Agent.GetHistory` | src/agent/agent.rs:89-94 | Some exactly for known users, holding their stored messages |
| `Agents.Agent.ActiveConversationsCount` | src/agent/agent.rs:96-99 | the number of user entries, cleared ones included |
| `Agents.Agent.UpdateSystemPrompt` | src/agent/agent.rs:101-103 | the shared chat service gets the new plain prompt; its tool prompt is kept |
| `Agents.AfterExchange` | src/agent/agent.rs:38-64 | the speaker gets an entry and no other entry changes; the speaker's history is the last `maxHistory` of the old history, the question, and the answer when there is one |
| `Agents.ExchangeIsLocal` | src/agent/agent.rs:38-64 | an exchange adds at most the speaker's entry, changes no other user's memory, and keeps every memory bounded |
| `Agents.ExchangeEndsWithTurn` | src/agent/agent.rs:49-61 | with room for two, a successful exchange ends with the question then the answer; a failed one ends with the question |
| `Agents.FirstExchange` | src/agent/agent.rs:41-61 | a newcomer's first successful exchange leaves exactly the question and the answer, with the agent's capacity |
| `OpenAi.ReadContent` | src/services/openai.rs:31-51 | transport error passed on; no choice gives "No response from OpenAI"; missing content gives "No response content from OpenAI"; otherwise the first choice's content |
| `OpenAi.ReadContentOrCalls` | src/services/openai.rs:80-91 | with tool calls, the calls and the content or ""; without them, the content or the no-content error |
| `OpenAi.ReadingsAgree` | src/services/openai.rs:31-92 | the two readings agree on replies without tool calls; on replies with tool calls the tool-aware one never fails |
| `OpenAi.OpenAiService.CreateChatCompletion` | src/services/openai.rs:31-51 | one request with model and messages only, read by `ReadContent` |
| `OpenAi.OpenAiService.BuildToolsRequest` | src/services/openai.rs:53-78 | tools are attached exactly when the list is non-empty; the tool choice only then, and only when given |
| `OpenAi.OpenAiService.CreateChatCompletionWithTools` | src/services/openai.rs:53-92 | the request sent has those tools and that choice, and the result is the tool-aware reading of the reply |
| `OpenAi.MessageConstructors` | src/services/openai.rs:94-125 | each constructor keeps its content under its role; the tool message keeps its call id |
| `Chat.ToChatMessage` | src/agent/chat.rs:61-73 | each stored message becomes the request message of the same role and content |
| `Chat.HistoryMessages` | src/agent/chat.rs:61-73 | the history is converted element by element, in order |
| `Chat.ToolReply` | src/agent/chat.rs:93-111 | a function call is answered with the dispatcher's output under its call id; a custom call with "custom tool not supported: <name>" |
| `Chat.ToolReplies` | src/agent/chat.rs:93-111 | one tool message per call, in the order of the calls |
| `Chat.ChatService.constructor` | src/agent/chat.rs:19-26 | the given prompt, and the tool prompt "You are helpful discord assistant" |
| `Chat.ChatService.PromptFor` | src/agent/chat.rs:51-55 | the tool prompt when tools are in use, else the plain prompt |
| `Chat.ChatService.SingleChat` | src/agent/chat.rs:28-40 | exactly one tool-less request of the system prompt and the user message; the answer is its content reading |
| `Chat.ChatService.ChatWithHistory` | src/agent/chat.rs:42-126 | the messages are pushed by two loops, and the result equals the specification `ChatTurn` on the stored history |
| `Chat.ChatService.UpdateSystemPrompt` | src/agent/chat.rs:134-136 | replaces the plain prompt only |
| `Chat.ChatService.UpdateToolSystemPrompt` | src/agent/chat.rs:138-140 | replaces the tool prompt only |
| `Chat.ChatService.SystemPrompt` | src/agent/chat.rs:142-144 | the plain prompt |
| `Chat.FirstRequestShape` | src/agent/chat.rs:57-83 | the first request is the chosen prompt, the converted history and the user message; it carries the tool catalogue exactly when tools are in use |
| `Chat.AtMostOneToolRound` | src/agent/chat.rs:85-116 | a turn sends at most two requests, and the second one never carries tools |
| `Chat.ChatTurn` | src/agent/chat.rs:42-126 | at most two requests, the first being the system prompt, history and new message; without tools one plain request whose content is the answer; tools without a context fail before sending; a second request never carries tools and its content is the answer |
| `Chat.EveryToolCallAnsweredInOrder` | src/agent/chat.rs:85-115 | after a tool-call reply, the follow-up request extends the first with the assistant turn (content left out when empty, the calls kept) and then exactly `ToolReplies`: call k answered under its id with the dispatcher's output, or with "custom tool not supported: <name>" |
| `Chat.NoToolCallsAnswersDirectly` | src/agent/chat.rs:118-119 | a tool-enabled reply without tool calls is the answer, after one request |
| `Chat.ToolsWithoutContextSendNothing` | src/agent/chat.rs:77-78 | tools without a Discord context fail with "Tools require Discord context" before any request |
| `Tools.ToolDefinitions` | src/agent/tools/tools.rs:8-27 | a single definition, the channel-list tool, requiring `guild_id` |
| `Tools.ExecuteToolCall` | src/agent/tools/tools.rs:29-39 | the channel-list name runs the channel-list tool on the parsed arguments, or on `{}` for malformed ones; any other name gives the unknown-tool text |
| `Tools.CatalogueMatchesDispatcher` | src/agent/tools/tools.rs:8-38 | a name is in the catalogue exactly when the dispatcher routes it |
| `Tools.MalformedArgumentsInvalid` | src/agent/tools/tools.rs:30 | malformed arguments end in "Invalid Guild ID" |
| `Tools.UnknownToolReadsBack` | src/agent/tools/tools.rs:37 | the unknown-tool result is the one-field JSON object `error`, whose escaped text decodes back to "unknown tool: <name>" |
| `GuildChannelList.GuildIdArgument` | src/agent/tools/get_channel_id_list_from_guild_id.rs:5-7 | `guild_id` when present, only otherwise `query` |
| `GuildChannelList.IdFrom` | src/agent/tools/get_channel_id_list_from_guild_id.rs:8-15 | an integer in u64 range, or a string that parses as u64; nothing else |
| `GuildChannelList.PresentGuildIdShadowsQuery` | src/agent/tools/get_channel_id_list_from_guild_id.rs:5-15 | an unparsable `guild_id` is not rescued by a valid `query`; a lone `query` of "42" gives 42 |
| `GuildChannelList.Execute` | src/agent/tools/get_channel_id_list_from_guild_id.rs:4-31 | no id gives "Invalid Guild ID"; otherwise the fetch error text, or the channel lines joined by newlines |
| `GuildChannelList.InvalidIdFetchesNothing` | src/agent/tools/get_channel_id_list_from_guild_id.rs:17-19 | with no id, the result does not depend on Discord at all |
| `GuildChannelList.ListingSplitsIntoLines` | src/agent/tools/get_channel_id_list_from_guild_id.rs:21-29 | splitting the listing at newlines gives one "name: id (kind)" line per channel, in order |
| `GuildChannelList.NoChannelsEmptyListing` | src/agent/tools/get_channel_id_list_from_guild_id.rs:28 | no channels give the empty text |
| `ToolKit.Missing` | src/agent/tools/discord_tools/member.rs:137-140 | the "<field> is required" failure, before any call |
| `ToolKit.FirstMissing` | src/agent/tools/discord_tools/member.rs:150-156 | nothing exactly when every listed field is supplied; otherwise the first listed field that is not, every field before it being supplied |
| `ToolKit.Fetch` | src/agent/tools/discord_tools/member.rs:144-147 | exactly one call; its body on success, "Failed to <what>: <e>" on failure |
| `ToolKit.Ack` | src/agent/tools/discord_tools/member.rs:173-176 | exactly one call; a one-flag object on success, "Failed to <what>: <e>" on failure |
| `MemberTools.Definitions` | src/agent/tools/discord_tools/member.rs:11-135 | eight definitions in source order, each routed back to its own handler, with pairwise distinct names |
| `MemberTools.DefinitionsCoverRoutes` | src/agent/tools/discord_tools/member.rs:309-321 | `execute` routes a name exactly when some definition carries it |
| `MemberTools.MemberListRun` | src/agent/tools/discord_tools/member.rs:137-148 | calls exactly when a guild id is given, once, listing with the optional limit and `after` |
| `MemberTools.MemberInfoRun` | src/agent/tools/discord_tools/member.rs:150-162 | calls exactly when guild and user are given, once, fetching that member |
| `MemberTools.KickRun` | src/agent/tools/discord_tools/member.rs:164-177 | calls exactly when guild and user are given; the reason defaults to ""; success reports `kicked` |
| `MemberTools.BanRun` | src/agent/tools/discord_tools/member.rs:179-196 | calls exactly when guild and user are given; delete days default to 0; success reports `banned` |
| `MemberTools.UnbanRun` | src/agent/tools/discord_tools/member.rs:198-210 | calls exactly when guild and user are given; success reports `unbanned` |
| `MemberTools.BulkBanRun` | src/agent/tools/discord_tools/member.rs:212-231 | calls exactly when guild and user list are given; delete seconds default to 0; the reason is passed only when given |
| `MemberTools.ModifyMemberRun` | src/agent/tools/discord_tools/member.rs:233-285 | calls exactly when guild and user are given and some field is set, with the edit those fields describe; otherwise a failure and no call |
| `MemberTools.CollectMemberEdit` | src/agent/tools/discord_tools/member.rs:241-275 | the builder chain yields `MemberEditOf(a)`, and `changed` holds exactly when that edit is not empty |
| `MemberTools.ModifyMemberMethod` | src/agent/tools/discord_tools/member.rs:233-285 | the imperative handler equals `ModifyMemberRun` |
| `MemberTools.NoMemberFieldsExactly` | src/agent/tools/discord_tools/member.rs:277-279 | "No member fields provided to modify" exactly when guild and user are given and no field is |
| `MemberTools.ClearTimeoutWins` | src/agent/tools/discord_tools/member.rs:262-273 | `clear_timeout` set to true beats a timestamp; the timestamp is used only without it |
| `MemberTools.TimeoutRun` | src/agent/tools/discord_tools/member.rs:287-307 | calls exactly when guild, user and either `until` or `clear` are given; otherwise the either-or failure |
| `MemberTools.TimeoutIsModifyOfTimeoutOnly` | src/agent/tools/discord_tools/member.rs:287-307 | a timeout sends the same request as a member edit that sets only the timeout |
| `MemberTools.Execute` | src/agent/tools/discord_tools/member.rs:309-321 | Some exactly for the eight names, running that handler |
| `MemberTools.HandlersHonourSchemas` | src/agent/tools/discord_tools/member.rs:11-321 | no handler calls Discord unless every required field of its schema is given; at most one call; no call means a failure |
| `MemberTools.RequiredCheckedInOrder` | src/agent/tools/discord_tools/member.rs:11-321 | the required fields are checked in the order of the schema's `required` list, each with its own getter, and the first one missing is answered with "<field> is required" and no call |
| `RoleTools.Definitions` | src/agent/tools/discord_tools/role.rs:11-103 | six definitions in source order, each routed back to its handler, names distinct |
| `RoleTools.DefinitionsCoverRoutes` | src/agent/tools/discord_tools/role.rs:248-258 | `execute` routes a name exactly when some definition carries it |
| `RoleTools.RoleListRun` | src/agent/tools/discord_tools/role.rs:105-117 | calls exactly when a guild id is given, listing its roles |
| `RoleTools.NewRoleOf` | src/agent/tools/discord_tools/role.rs:124-140 | a new role always has a name, permissions, hoist and mentionable: "New Role", 0, false and false by default; colour only when given |
| `RoleTools.CreateRoleRun` | src/agent/tools/discord_tools/role.rs:119-146 | calls exactly when a guild id is given, creating `NewRoleOf(a)` |
| `RoleTools.DeleteRoleRun` | src/agent/tools/discord_tools/role.rs:148-160 | calls exactly when guild and role are given; success reports `deleted` |
| `RoleTools.ModifyRoleRun` | src/agent/tools/discord_tools/role.rs:162-202 | calls exactly when guild and role are given and some field is set; otherwise a failure and no call |
| `RoleTools.CollectRoleEdit` | src/agent/tools/discord_tools/role.rs:170-196 | the builder chain yields `RoleEditOf(a)`, and `changed` holds exactly when it is not empty |
| `RoleTools.ModifyRoleMethod` | src/agent/tools/discord_tools/role.rs:162-202 | the imperative handler equals `ModifyRoleRun` |
| `RoleTools.NoRoleFieldsExactly` | src/agent/tools/discord_tools/role.rs:192-194 | "No role fields provided to modify" exactly when guild and role are given and no field is |
| `RoleTools.CreateMatchesModifyWhenComplete` | src/agent/tools/discord_tools/role.rs:119-202 | when every field is given, creating and modifying describe the same role |
| `RoleTools.MemberRoleRun` | src/agent/tools/discord_tools/role.rs:204-246 | the member is fetched first; the role change is sent only when that fetch succeeds; success reports `added` or `removed` |
| `RoleTools.Execute` | src/agent/tools/discord_tools/role.rs:248-258 | Some exactly for the six names, running that handler |
| `RoleTools.HandlersHonourSchemas` | src/agent/tools/discord_tools/role.rs:11-258 | no call without every required field; at most two calls; no call means a failure |
| `RoleTools.RequiredCheckedInOrder` | src/agent/tools/discord_tools/role.rs:11-258 | the required fields are checked in the order of the schema's `required` list, each with its own getter, and the first one missing is answered with "<field> is required" and no call |
| `ChannelTools.Definitions` | src/agent/tools/discord_tools/channel.rs:11-93 | five definitions in source order, each routed back to its handler, names distinct |
| `ChannelTools.DefinitionsCoverRoutes` | src/agent/tools/discord_tools/channel.rs:224-233 | `execute` routes a name exactly when some definition carries it |
| `ChannelTools.CreateChannelRun` | src/agent/tools/discord_tools/channel.rs:95-134 | calls exactly when guild and name are given, with the settings the optional fields describe |
| `ChannelTools.CollectChannelSettings` | src/agent/tools/discord_tools/channel.rs:103-128 | the builder chain yields `ChannelSettingsOf(a)` |
| `ChannelTools.CreateChannelMethod` | src/agent/tools/discord_tools/channel.rs:95-134 | the imperative handler equals `CreateChannelRun` |
| `ChannelTools.DeleteChannelRun` | src/agent/tools/discord_tools/channel.rs:136-145 | calls exactly when a channel id is given, deleting it |
| `ChannelTools.ModifyChannelRun` | src/agent/tools/discord_tools/channel.rs:147-200 | calls exactly when a channel id and some field are given; otherwise a failure and no call |
| `ChannelTools.ModifyChannelMethod` | src/agent/tools/discord_tools/channel.rs:147-200 | the imperative handler equals `ModifyChannelRun` |
| `ChannelTools.NoChannelFieldsExactly` | src/agent/tools/discord_tools/channel.rs:192-194 | "No channel fields provided to modify" exactly when a channel id is given and no field is |
| `ChannelTools.CreateAndModifyAgree` | src/agent/tools/discord_tools/channel.rs:95-200 | the same arguments give create and modify the same name and settings |
| `ChannelTools.ChannelInfoRun` | src/agent/tools/discord_tools/channel.rs:202-211 | calls exactly when a channel id is given, fetching it |
| `ChannelTools.ChannelListRun` | src/agent/tools/discord_tools/channel.rs:213-222 | calls exactly when a guild id is given, listing its channels |
| `ChannelTools.Execute` | src/agent/tools/discord_tools/channel.rs:224-233 | Some exactly for the five names, running that handler |
| `ChannelTools.HandlersHonourSchemas` | src/agent/tools/discord_tools/channel.rs:11-233 | no call without every required field; at most one call; no call means a failure |
| `ChannelTools.RequiredCheckedInOrder` | src/agent/tools/discord_tools/channel.rs:11-233 | the required fields are checked in the order of the schema's `required` list, each with its own getter, and the first one missing is answered with "<field> is required" and no call |
| `GuildTools.Definition` | src/agent/tools/discord_tools/guild.rs:11-71 | each definition carries its own name and required list; only `get_guild_list` has no required list |
| `GuildTools.Definitions` | src/agent/tools/discord_tools/guild.rs:11-71 | four definitions in source order, each routed back to its handler, names distinct |
| `GuildTools.DefinitionsCoverRoutes` | src/agent/tools/discord_tools/guild.rs:157-165 | `execute` routes a name exactly when some definition carries it |
| `GuildTools.GuildInfoRun` | src/agent/tools/discord_tools/guild.rs:73-82 | calls exactly when a guild id is given, fetching it |
| `GuildTools.GuildListRun` | src/agent/tools/discord_tools/guild.rs:84-97 | always one call, paginating after `after` when given, with the optional limit |
| `GuildTools.IconOf` | src/agent/tools/discord_tools/guild.rs:115-127 | `clear_icon` set to true clears the icon whatever `icon_path` says; otherwise a path sets the icon to the file's bytes, or gives the read error; with neither the icon is kept |
| `GuildTools.ClearIconWins` | src/agent/tools/discord_tools/guild.rs:115-118 | on a named guild, `clear_icon` set to true sends exactly one edit, with the given name and description and the icon cleared |
| `GuildTools.IconPathSetsIcon` | src/agent/tools/discord_tools/guild.rs:119-124 | without `clear_icon`, a readable `icon_path` sends exactly one edit whose icon is the file's bytes |
| `GuildTools.ModifyGuildRun` | src/agent/tools/discord_tools/guild.rs:99-137 | calls exactly when a guild id is given, the icon file (if any) was read, and some field is set; an unreadable icon fails with its error |
| `GuildTools.ModifyGuildMethod` | src/agent/tools/discord_tools/guild.rs:99-137 | the imperative handler equals `ModifyGuildRun` |
| `GuildTools.IconFileReadOnlyWhenNeeded` | src/agent/tools/discord_tools/guild.rs:115-127 | without a path, or with `clear_icon`, no file reader can change the result |
| `GuildTools.UnreadableIconSendsNothing` | src/agent/tools/discord_tools/guild.rs:120-126 | an unreadable icon file gives "Failed to read icon file: <e>" and no call |
| `GuildTools.NoGuildFieldsExactly` | src/agent/tools/discord_tools/guild.rs:129-131 | "No guild fields provided to modify" exactly when a guild id is given and no field is |
| `GuildTools.ActionOf` | src/agent/tools/discord_tools/guild.rs:145-146 | `action_type` is cast to u8: kept below 256, taken modulo 256 above |
| `GuildTools.ActionTypeWraps` | src/agent/tools/discord_tools/guild.rs:145-146 | action types 256 apart select the same audit-log action |
| `GuildTools.AuditLogRun` | src/agent/tools/discord_tools/guild.rs:139-155 | calls exactly when a guild id is given, with the converted action, user, before and limit |
| `GuildTools.Execute` | src/agent/tools/discord_tools/guild.rs:157-165 | Some exactly for the four names, running that handler |
| `GuildTools.HandlersHonourSchemas` | src/agent/tools/discord_tools/guild.rs:11-165 | no call without every required field; at most one call; no call means a failure |
| `GuildTools.RequiredCheckedInOrder` | src/agent/tools/discord_tools/guild.rs:11-165 | the required fields are checked in the order of the schema's `required` list, each with its own getter, and the first one missing is answered with "<field> is required" and no call |
| `EmojiTools.Definitions` | src/agent/tools/discord_tools/emoji.rs:11-66 | four definitions in source order, each routed back to its handler, names distinct |
| `EmojiTools.DefinitionsCoverRoutes` | src/agent/tools/discord_tools/emoji.rs:121-129 | `execute` routes a name exactly when some definition carries it |
| `EmojiTools.EmojiListRun` | src/agent/tools/discord_tools/emoji.rs:68-77 | calls exactly when a guild id is given, listing its emojis |
| `EmojiTools.CreateEmojiRun` | src/agent/tools/discord_tools/emoji.rs:79-94 | calls exactly when guild, name and image are given, creating that emoji |
| `EmojiTools.DeleteEmojiRun` | src/agent/tools/discord_tools/emoji.rs:96-108 | calls exactly when guild and emoji are given; success reports `deleted` |
| `EmojiTools.StickerListRun` | src/agent/tools/discord_tools/emoji.rs:110-119 | calls exactly when a guild id is given, listing its stickers |
| `EmojiTools.Execute` | src/agent/tools/discord_tools/emoji.rs:121-129 | Some exactly for the four names, running that handler |
| `EmojiTools.HandlersHonourSchemas` | src/agent/tools/discord_tools/emoji.rs:11-129 | no call without every required field; at most one call; no call means a failure |
| `EmojiTools.RequiredCheckedInOrder` | src/agent/tools/discord_tools/emoji.rs:11-129 | the required fields are checked in the order of the schema's `required` list, each with its own getter, and the first one missing is answered with "<field> is required" and no call |
| `Users.FromDiscordUser` | src/models/user.rs:13-21 | copies id, name, avatar and bot flag, with no nickname |
| `Users.WithNickname` | src/models/user.rs:23-26 | sets the nickname and keeps every other field |
| `Users.LastNicknameWins` | src/models/user.rs:23-26 | a second nickname replaces the first |
| `Users.NicknamedDiscordUser` | src/models/user.rs:13-26 | a converted and nicknamed user is the Discord user's facts plus that nickname |
| `AgentContexts.GuildContextOf` | src/agent/context.rs:47-66 | a guild context exists exactly for a guild message whose guild is cached, with the cached name and member count |
| `AgentContexts.ConversationOf` | src/agent/context.rs:68-83 | channel, guild, author, converted user and clock reading, with the referenced message exactly when there is one |
| `AgentContexts.QuoteAsWritten` | src/agent/context.rs:151-155 | over 100 bytes, the first 100 bytes then "...", defined only when byte 100 is a character boundary; otherwise the content |
| `AgentContexts.QuoteAsWrittenPanics` | src/agent/context.rs:151-152 | 34 hiragana are 102 bytes long, and byte 100 is not a character boundary |
| `AgentContexts.Quote` | src/agent/context.rs:151-155 | over 100 bytes, the longest whole-character prefix within 100 bytes then "..."; otherwise the content |
| `AgentContexts.QuoteCorrected` | src/agent/context.rs:151-155 | the kept prefix is at most 100 bytes and as long as possible, and the quote equals the as-written one wherever that can be taken |
| `AgentContexts.AgentContext.constructor` | src/agent/context.rs:41-91 | the conversation and guild contexts as specified, and empty metadata |
| `AgentContexts.AgentContext.SetMetadata` | src/agent/context.rs:105-108 | writes one key and keeps the others |
| `AgentContexts.AgentContext.GetMetadata` | src/agent/context.rs:110-113 | Some exactly for a stored key, with its value |
| `AgentContexts.AgentContext.GetChannelId` | src/agent/context.rs:162-164 | the channel the message was posted in |
| `AgentContexts.AgentContext.GetUserId` | src/agent/context.rs:166-168 | the message's author |
| `AgentContexts.AgentContext.IsDm` | src/agent/context.rs:115-117 | true exactly when the message has no guild id |
| `AgentContexts.AgentContext.FormatContextForPrompt` | src/agent/context.rs:119-160 | the pushed lines equal `ContextLines`, joined by newlines |
| `AgentContexts.SetThenGet` | src/agent/context.rs:105-113 | after a write the key reads back as written and every other key reads as before |
| `AgentContexts.PlaceLayout` | src/agent/context.rs:127-135 | the DM line exactly outside a cached guild; otherwise server first, member count last, channel between exactly when its name is known |
| `AgentContexts.ContextLayout` | src/agent/context.rs:119-157 | time line first, then the place lines, the user line, the nickname line exactly with a nickname, and the reply line last exactly with a reference |
| `AgentContexts.ContextSplitsIntoLines` | src/agent/context.rs:159 | when no field holds a line break, splitting the text at line breaks gives back the lines |
| `AgentContexts.DmContext` | src/agent/context.rs:47-66 | a message without a guild gets no guild context and the DM line |
| `AgentContexts.ContextBuilder.WithMetadata` | src/agent/context.rs:183-186 | inserts one key into the builder's map |
| `AgentContexts.NewBuilder` | src/agent/context.rs:177-181 | builds the empty map |
| `AgentContexts.BuildKeepsLastInsertion` | src/agent/context.rs:177-190 | `build` after a chain of insertions maps exactly the inserted keys, each to its last value |
| `Prompts.LoadSystemPrompt` | src/agent/prompts.rs:4-27 | the default for a read error or a blank file; otherwise the trimmed text followed by the metadata format |
| `Prompts.PromptNeverBlank` | src/agent/prompts.rs:9-26 | the prompt is never empty and never starts with whitespace |
| `Prompts.SurroundingSpaceIgnored` | src/agent/prompts.rs:11-15 | whitespace around the file's text makes no difference |
| `Metadata.ConstructMetadata` | src/bot/handler.rs:20-49 | the block built by overwriting defaults equals the template applied to `MetadataView` |
| `Metadata.DmDefaults` | src/bot/commands/admin/exec.rs:25-54 | outside a guild: "DM", guild id "0", category "None", the channel shown by its id |
| `Metadata.UncachedGuildDefaults` | src/bot/handler.rs:25-41 | an uncached guild keeps the "DM" name but shows its real id; no channel or category is looked up |
| `Metadata.CategoryIsParentName` | src/bot/commands/admin/exec.rs:34-41 | for a cached channel, the category is its parent's name when the parent is one of the guild's channels, else "None" |
| `Metadata.WrapPrompt` | src/bot/commands/admin/exec.rs:12-15 | the metadata, then "\n\n<user_input>", the text and "</user_input>" |
| `Metadata.UnwrapPrompt` | src/bot/handler.rs:77-78 | the text is recovered from between the tags, and different texts give different prompts |
| `Handlers.KeepValid` | src/bot/handler.rs:53 | keeps every valid chunk and only valid chunks, all of them when all are valid |
| `Handlers.KeepValidConcat` | src/bot/handler.rs:52-53 | the valid chunks are kept in the order they come: filtering two runs is filtering each and joining |
| `Handlers.SplitAsWrittenLosesText` | src/bot/handler.rs:52-53 | for 1899 letters and an "é", the 1900-byte cut splits the "é", and nothing is sent |
| `Handlers.Pieces` | src/bot/handler.rs:51-59 | the pieces concatenate to the answer, and each is non-empty and at most 1900 bytes |
| `Handlers.PiecesAreGreedy` | src/bot/handler.rs:52 | every piece but the last is as long as 1900 bytes allow |
| `Handlers.PiecesKeepEveryByte` | src/bot/handler.rs:52-53 | the pieces' encodings concatenate to the answer's encoding |
| `Handlers.SentAsWritten` | src/bot/handler.rs:51-59 | what the source sends: every 1900-byte chunk that is valid UTF-8 on its own and nothing else, each non-empty; an answer within 1900 bytes is sent whole |
| `Handlers.SplitsAgreeOnBoundaries` | src/bot/handler.rs:52-53 | when no 1900-byte cut falls inside a character, the source's chunks are exactly the encodings of `Pieces` |
| `Handlers.SplitMessage` | src/bot/handler.rs:51-59 | the corrected sending loop, cutting at character boundaries, yields `Pieces(content)` |
| `Handlers.Respond` | src/bot/handler.rs:90-98 | an answer is sent as its corrected `Pieces`; an error is answered with "Error processing message: <e>" |
| `Handlers.Ignored` | src/bot/handler.rs:65-73 | bots and "w!" commands are always ignored; with an allowed user, everybody else is ignored; any other message (from the allowed user, or from anyone when none is set) is answered |
| `Handlers.Handler.Message` | src/bot/handler.rs:64-99 | bots, "w!" commands and other users (when one is allowed) are ignored with no effect; otherwise the agent gets the wrapped prompt under the author id, and the one-shot fallback runs once, with the same prompt, exactly when that fails |

## Left out

- Network I/O: every Discord HTTP, cache or gateway call, and the OpenAI request send. They are the function parameters `Http`, `Transport` and `DiscordCtx`, and the cache snapshot `Cache`.
- The results Discord returns are opaque JSON values. Their serde serialisation (`to_value`) is not modelled.
- Async execution and the `RwLock`s around the conversations, the chat service and the context metadata. The model is sequential.
- Logging and tracing calls. So are the typing indicator and the result of sending a chunk, which is only logged.
- Helpers that are not shown in the source: `err`, `ok`, the `get_*` argument getters, `parse_timestamp`, `parse_colour` and `parse_channel_type`. Arguments are the `Args` record of already-extracted values, and replies are the `Reply` datatype.
- `ConversationMemory` and `Message`: src/agent/memory.rs and src/models/message.rs are not part of this model. The eviction rule (drop the oldest) is an assumption.
- `build_tool` failure: a definition is assumed to build. The `?` errors of the OpenAI message and request builders are not modelled either; the model treats them as never failing.
- Any id of 0 passed to a serenity `...Id::new`: serenity panics on it before any call, and the model instead makes the call with id 0. The sites are `GuildId::new` at src/agent/tools/get_channel_id_list_from_guild_id.rs:15 and src/agent/tools/discord_tools/guild.rs:89, `RoleId::new` at src/agent/tools/discord_tools/role.rs:152, 166, 211 and 233 and src/agent/tools/discord_tools/member.rs:249, `UserId::new` at src/agent/tools/discord_tools/member.rs:222, `EmojiId::new` at src/agent/tools/discord_tools/emoji.rs:100, `AuditLogEntryId::new` at src/agent/tools/discord_tools/guild.rs:149, and the guild, user and channel ids read by the argument helpers, which are not part of this model.
- Iteration order of Rust hash maps: the channel list is `channels.values()` of the map Discord returns, and that order is an unspecified input sequence. The context lines do not depend on map order.
- `Permissions::from_bits_truncate`: permissions pass through as the given u64.
- Timestamps: `Timestamp::now()`, the parsing of `communication_disabled_until`, and the chrono formatting of the context's clock line are opaque text.
- `streaming_chat`: it is `todo!()`.
- Agents.Agent.ProcessMessage: the chat call is the `step` parameter. The source calls `chat_with_history` with two arguments, which does not match that function's five-parameter signature in src/agent/chat.rs. The step gets the message and the memory before the message.
- The `exec` command's agent call: `process_message_with_tools` is not defined in src/agent/agent.rs. Only the input wrapping and the metadata block of src/bot/commands/admin/exec.rs are modelled.
- Routing of the discord_tools families: src/agent/tools/tools.rs routes only the channel-list tool. Each family's `execute` is modelled on its own.
- The icon file's bytes are not base64-encoded in the model. `CreateAttachment` is library code, so the icon is the raw bytes read.
- AgentContexts.AgentContext.FormatContextForPrompt: quotes the referenced message with the corrected `Quote`. The source panics when byte 100 of a referenced message over 100 bytes falls inside a character, and the model returns text there instead. `QuoteCorrected` proves the two agree wherever the source does not panic.
- Handlers.SplitMessage: yields the corrected character-boundary split. The source cuts at every 1900th byte and skips chunks that are not valid UTF-8, as `SentAsWritten` states. `SplitsAgreeOnBoundaries` proves the two send the same bytes whenever no cut falls inside a character.
- Handlers.Respond: sends the corrected `Pieces`, not the source's `SentAsWritten`. They differ only on answers where a 1900-byte cut falls inside a character (see `SplitsAgreeOnBoundaries`).
- Handlers.Handler.Message: the sent pieces are `Respond`'s corrected split, so on answers where a 1900-byte cut falls inside a character it sends text the source would drop.

## Findings

| source | as written | input that shows it | evidently intended | confidence | as-written member | corrected member |
|---|---|---|---|---|---|---|
| src/agent/context.rs:151-152 | a referenced message over 100 bytes is cut with `&content[..100]`, which panics when byte 100 falls inside a character | 34 × "あ" (102 bytes; byte 100 is inside the 34th character) | cut at the last character boundary within 100 bytes, then "..." | high, not executed | `AgentContexts.QuoteAsWritten`, `AgentContexts.QuoteAsWrittenPanics` | `AgentContexts.Quote`, `AgentContexts.QuoteCorrected` |
| src/bot/handler.rs:52-53 | the answer is cut into 1900-byte chunks and a chunk that is not valid UTF-8 by itself is skipped, so text around every cut inside a character is lost | 1899 × "a" followed by "é" (1901 bytes): both chunks are invalid and nothing is sent | cut at character boundaries, so that every byte is sent | high, not executed | `Handlers.SentAsWritten`, `Handlers.SplitAsWrittenLosesText` | `Handlers.Pieces`, `Handlers.PiecesKeepEveryByte`, `Handlers.SplitMessage` |

The rest of the model uses the corrected members. The context text quotes with `Quote`, and the handler sends `Pieces`. `Handlers.SplitsAgreeOnBoundaries` shows that the handler's corrected split sends the same bytes as the source whenever no 1900-byte cut falls inside a character.
