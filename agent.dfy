/** The agent of src/agent/agent.rs: one conversation memory per user id,
    and the chat service shared by all of them. The locks around both are
    left out (see README); the chat call of `process_message` is the
    `step` parameter. */
module Agents {
  import opened Wrappers
  import Memory
  import opened OpenAi
  import opened Chat

  const DefaultMaxHistory := 20

  /** What one chat step answers, given the new message and the history
      before it. */
  type ChatStep = (string, Memory.ConversationMemory) -> Result<string>

  /** The memory a user's turn starts from: the stored one, or a fresh one
      of the agent's capacity. */
  function MemoryFor(conversations: map<string, Memory.ConversationMemory>, maxHistory: nat, userId: string)
    : (m: Memory.ConversationMemory)
    ensures userId in conversations ==> m == conversations[userId]
    ensures userId !in conversations ==> m == Memory.New(maxHistory)
  {
    if userId in conversations then conversations[userId] else Memory.New(maxHistory)
  }

  /** The conversations after `process_message`: the user message is
      stored before the chat step runs, the reply only when it succeeded. */
  function AfterExchange(
    conversations: map<string, Memory.ConversationMemory>, maxHistory: nat, userId: string, content: string,
    reply: Result<string>): (r: map<string, Memory.ConversationMemory>)
    ensures r.Keys == conversations.Keys + {userId}
    ensures forall u | u in conversations && u != userId :: r[u] == conversations[u]
    ensures r[userId].maxHistory == MemoryFor(conversations, maxHistory, userId).maxHistory
    ensures var before := MemoryFor(conversations, maxHistory, userId);
      Memory.GetMessages(r[userId]) == Memory.LastN(
        before.messages + [Memory.Message(Memory.User, content)]
        + (if reply.Ok? then [Memory.Message(Memory.Assistant, reply.value)] else []),
        before.maxHistory)
  {
    var before := MemoryFor(conversations, maxHistory, userId);
    var turn := before.messages + [Memory.Message(Memory.User, content)];
    Memory.LastNConcat(turn, if reply.Ok? then [Memory.Message(Memory.Assistant, reply.value)] else [], before.maxHistory);
    assert turn + [] == turn;
    var withUser := Memory.AddMessage(MemoryFor(conversations, maxHistory, userId), Memory.Message(Memory.User, content));
    conversations[userId :=
      if reply.Ok? then Memory.AddMessage(withUser, Memory.Message(Memory.Assistant, reply.value)) else withUser]
  }

  /** Every stored memory respects its capacity. */
  predicate AllBounded(conversations: map<string, Memory.ConversationMemory>) {
    forall u | u in conversations :: Memory.Bounded(conversations[u])
  }

  class Agent {
    const chat: ChatService
    var conversations: map<string, Memory.ConversationMemory>
    var maxHistory: nat

    predicate Valid()
      reads this
    {
      AllBounded(conversations)
    }

    /** `Agent::new`: no conversations, capacity 20. */
    constructor(openai: OpenAiService, systemPrompt: string)
      ensures Valid() && fresh(chat)
      ensures chat.openai == openai && chat.systemPrompt == systemPrompt && chat.toolSystemPrompt == ToolSystemPrompt
      ensures conversations == map[] && maxHistory == DefaultMaxHistory
    {
      chat := new ChatService(openai, systemPrompt);
      conversations := map[];
      maxHistory := DefaultMaxHistory;
    }

    /** `with_max_history`: only conversations started afterwards use it. */
    method WithMaxHistory(max: nat)
      requires Valid()
      modifies this
      ensures Valid() && maxHistory == max && conversations == old(conversations)
    {
      maxHistory := max;
    }

    /** `process_message_simple` */
    function ProcessMessageSimple(content: string, send: Transport): (r: ChatTrace)
      reads this, chat
      ensures r == chat.SingleChat(content, send)
    {
      chat.SingleChat(content, send)
    }

    /** `process_message`: the chat step sees the history as it was before
        this message; the user message is stored first, and the reply only
        when the step succeeded. */
    method ProcessMessage(userId: string, content: string, step: ChatStep) returns (r: Result<string>)
      requires Valid()
      modifies this
      ensures Valid() && maxHistory == old(maxHistory)
      ensures r == step(content, MemoryFor(old(conversations), maxHistory, userId))
      ensures conversations == AfterExchange(old(conversations), maxHistory, userId, content, r)
    {
      if userId !in conversations {
        conversations := conversations[userId := Memory.New(maxHistory)];
      }
      var memory := conversations[userId];
      AddMessageToHistory(userId, Memory.Message(Memory.User, content));
      r := step(content, memory);
      if r.Ok? {
        AddMessageToHistory(userId, Memory.Message(Memory.Assistant, r.value));
      }
    }

    /** `add_message_to_history`: only an existing conversation is extended. */
    method AddMessageToHistory(userId: string, message: Memory.Message)
      requires Valid()
      modifies this
      ensures Valid() && maxHistory == old(maxHistory)
      ensures userId in old(conversations) ==>
        conversations == old(conversations)[userId := Memory.AddMessage(old(conversations)[userId], message)]
      ensures userId !in old(conversations) ==> conversations == old(conversations)
    {
      if userId in conversations {
        Memory.AddMessageBounded(conversations[userId], message);
        conversations := conversations[userId := Memory.AddMessage(conversations[userId], message)];
      }
    }

    /** `clear_history`: empties one conversation but keeps its entry. */
    method ClearHistory(userId: string)
      requires Valid()
      modifies this
      ensures Valid() && maxHistory == old(maxHistory)
      ensures userId in old(conversations) ==>
        conversations == old(conversations)[userId := Memory.Clear(old(conversations)[userId])]
      ensures userId !in old(conversations) ==> conversations == old(conversations)
    {
      if userId in conversations {
        conversations := conversations[userId := Memory.Clear(conversations[userId])];
      }
    }

    /** `clear_all_histories` */
    method ClearAllHistories()
      requires Valid()
      modifies this
      ensures Valid() && conversations == map[] && maxHistory == old(maxHistory)
    {
      conversations := map[];
    }

    /** `get_history` */
    function GetHistory(userId: string): (h: Option<seq<Memory.Message>>)
      reads this
      ensures h.Some? <==> userId in conversations
      ensures h.Some? ==> h.value == Memory.GetMessages(conversations[userId])
    {
      if userId in conversations then Some(Memory.GetMessages(conversations[userId])) else None
    }

    /** `active_conversations_count`: cleared conversations still count. */
    function ActiveConversationsCount(): (n: nat)
      reads this
      ensures n == |conversations|
    {
      |conversations|
    }

    /** `update_system_prompt`, through the shared chat service. */
    method UpdateSystemPrompt(newPrompt: string)
      modifies chat
      ensures chat.systemPrompt == newPrompt && chat.toolSystemPrompt == old(chat.toolSystemPrompt)
    {
      chat.UpdateSystemPrompt(newPrompt);
    }
  }

  // Properties of an exchange.

  /** An exchange touches only the speaking user's conversation and keeps
      every capacity. */
  lemma ExchangeIsLocal(
    conversations: map<string, Memory.ConversationMemory>, maxHistory: nat, userId: string, content: string,
    reply: Result<string>)
    requires AllBounded(conversations)
    ensures var after := AfterExchange(conversations, maxHistory, userId, content, reply);
      AllBounded(after)
      && after.Keys == conversations.Keys + {userId}
      && forall u | u in conversations && u != userId :: after[u] == conversations[u]
  {
    var before := MemoryFor(conversations, maxHistory, userId);
    var withUser := Memory.AddMessage(before, Memory.Message(Memory.User, content));
    Memory.AddMessageBounded(before, Memory.Message(Memory.User, content));
    if reply.Ok? {
      Memory.AddMessageBounded(withUser, Memory.Message(Memory.Assistant, reply.value));
    }
  }

  /** With room for two messages, a successful exchange ends the user's
      history with the question and then the answer; a failed one ends it
      with the question alone. */
  lemma ExchangeEndsWithTurn(
    conversations: map<string, Memory.ConversationMemory>, maxHistory: nat, userId: string, content: string,
    reply: Result<string>)
    requires MemoryFor(conversations, maxHistory, userId).maxHistory >= 2
    ensures var h := AfterExchange(conversations, maxHistory, userId, content, reply)[userId].messages;
      if reply.Ok? then
        |h| >= 2 && h[|h| - 2] == Memory.Message(Memory.User, content)
        && h[|h| - 1] == Memory.Message(Memory.Assistant, reply.value)
      else
        |h| >= 1 && h[|h| - 1] == Memory.Message(Memory.User, content)
  {
    var before := MemoryFor(conversations, maxHistory, userId);
    var u := Memory.Message(Memory.User, content);
    if reply.Ok? {
      var a := Memory.Message(Memory.Assistant, reply.value);
      Memory.AddTwoEndsWithBoth(before, u, a);
    } else {
      Memory.AddMessageBounded(before, u);
    }
  }

  /** A newcomer's first successful exchange leaves exactly that question
      and answer, under the agent's capacity (at least two). */
  lemma FirstExchange(
    conversations: map<string, Memory.ConversationMemory>, maxHistory: nat, userId: string, content: string,
    answer: string)
    requires userId !in conversations && maxHistory >= 2
    ensures AfterExchange(conversations, maxHistory, userId, content, Ok(answer))[userId]
         == Memory.ConversationMemory(maxHistory, [Memory.Message(Memory.User, content), Memory.Message(Memory.Assistant, answer)])
  {
  }
}
