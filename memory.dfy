/** Messages and per-user conversation memory. The source of
    `ConversationMemory` (src/agent/memory.rs) and of `Message`
    (src/models/message.rs) is not part of this model: the memory is an
    ordered message sequence with a fixed capacity, and the eviction rule
    (drop the oldest) is an assumption, not a fact read from code. */
module Memory {

  datatype Role = System | User | Assistant

  datatype Message = Message(role: Role, content: string)

  datatype ConversationMemory = ConversationMemory(maxHistory: nat, messages: seq<Message>)

  /** The capacity invariant. */
  predicate Bounded(m: ConversationMemory) {
    |m.messages| <= m.maxHistory
  }

  /** The last `n` elements of `s` (all of it when it is shorter). */
  function LastN<T>(s: seq<T>, n: nat): (r: seq<T>)
    ensures |r| <= n && |r| <= |s|
    ensures |s| <= n ==> r == s
  {
    if |s| <= n then s else s[|s| - n..]
  }

  /** `ConversationMemory::new(max)` */
  function New(maxHistory: nat): (m: ConversationMemory)
    ensures Bounded(m) && m.messages == [] && m.maxHistory == maxHistory
  {
    ConversationMemory(maxHistory, [])
  }

  /** `add_message`: append, then evict from the front down to capacity. */
  function AddMessage(m: ConversationMemory, msg: Message): ConversationMemory {
    ConversationMemory(m.maxHistory, LastN(m.messages + [msg], m.maxHistory))
  }

  /** `clear`: no messages, same capacity. */
  function Clear(m: ConversationMemory): (r: ConversationMemory)
    ensures Bounded(r) && r.messages == [] && r.maxHistory == m.maxHistory
  {
    ConversationMemory(m.maxHistory, [])
  }

  /** `get_messages` */
  function GetMessages(m: ConversationMemory): seq<Message> {
    m.messages
  }

  /** `add_message` applied to each message in turn. */
  function AddAll(m: ConversationMemory, msgs: seq<Message>): ConversationMemory
    decreases |msgs|
  {
    if |msgs| == 0 then m else AddAll(AddMessage(m, msgs[0]), msgs[1..])
  }

  /** One insertion keeps the capacity and, when there is room for one
      message at all, ends with the inserted message. */
  lemma AddMessageBounded(m: ConversationMemory, msg: Message)
    ensures Bounded(AddMessage(m, msg))
    ensures AddMessage(m, msg).maxHistory == m.maxHistory
    ensures m.maxHistory > 0 ==> GetMessages(AddMessage(m, msg))[|GetMessages(AddMessage(m, msg))| - 1] == msg
    ensures Bounded(m) && |m.messages| < m.maxHistory ==> GetMessages(AddMessage(m, msg)) == m.messages + [msg]
  {
  }

  /** Two insertions into a memory with room for two end with those two, in order. */
  lemma AddTwoEndsWithBoth(m: ConversationMemory, first: Message, second: Message)
    requires m.maxHistory >= 2
    ensures var h := GetMessages(AddMessage(AddMessage(m, first), second));
      |h| >= 2 && h[|h| - 2] == first && h[|h| - 1] == second
  {
    var t := m.messages + [first] + [second];
    LastNTwice(m.messages + [first], second, m.maxHistory);
    var h := LastN(t, m.maxHistory);
    if |t| > m.maxHistory {
      assert h == t[|t| - m.maxHistory..];
    }
    assert h[|h| - 1] == t[|t| - 1] && h[|h| - 2] == t[|t| - 2];
  }

  lemma LastNTwice<T>(s: seq<T>, x: T, n: nat)
    ensures LastN(LastN(s, n) + [x], n) == LastN(s + [x], n)
  {
    if |s| > n {
      var t := s[|s| - n..];
      if n > 0 {
        assert (t + [x])[|t + [x]| - n..] == (s + [x])[|s + [x]| - n..];
      } else {
        assert LastN(t + [x], n) == [];
      }
    }
  }

  /** The eviction law: after any run of insertions the memory holds exactly
      the most recent `maxHistory` messages, in insertion order. */
  lemma {:induction false} AddAllKeepsMostRecent(m: ConversationMemory, msgs: seq<Message>)
    requires Bounded(m)
    ensures AddAll(m, msgs).maxHistory == m.maxHistory
    ensures Bounded(AddAll(m, msgs))
    ensures GetMessages(AddAll(m, msgs)) == LastN(m.messages + msgs, m.maxHistory)
    decreases |msgs|
  {
    if |msgs| == 0 {
      assert m.messages + msgs == m.messages;
    } else {
      var m1 := AddMessage(m, msgs[0]);
      AddAllKeepsMostRecent(m1, msgs[1..]);
      var n := m.maxHistory;
      var s := m.messages + [msgs[0]];
      assert m.messages + msgs == s + msgs[1..];
      LastNConcat(s, msgs[1..], n);
    }
  }

  lemma {:induction false} LastNConcat<T>(s: seq<T>, t: seq<T>, n: nat)
    ensures LastN(LastN(s, n) + t, n) == LastN(s + t, n)
    decreases |t|
  {
    if |t| > 0 {
      LastNTwice(s, t[0], n);
      assert LastN(s, n) + t == (LastN(s, n) + [t[0]]) + t[1..];
      assert s + t == (s + [t[0]]) + t[1..];
      LastNConcat(LastN(s, n) + [t[0]], t[1..], n);
      LastNConcat(s + [t[0]], t[1..], n);
      LastNIdem(s + [t[0]], n);
      // both sides reduce to LastN(LastN(s + [t0], n) + t[1..], n)
    } else {
      assert LastN(s, n) + t == LastN(s, n);
      assert s + t == s;
    }
  }

  lemma LastNIdem<T>(s: seq<T>, n: nat)
    ensures LastN(LastN(s, n), n) == LastN(s, n)
  {
  }

  /** With capacity 2, inserting User("a"), Assistant("b"), User("c") keeps
      exactly [Assistant("b"), User("c")]. */
  lemma CapacityTwoScenario()
    ensures GetMessages(AddAll(New(2), [Message(User, "a"), Message(Assistant, "b"), Message(User, "c")]))
         == [Message(Assistant, "b"), Message(User, "c")]
  {
    var msgs := [Message(User, "a"), Message(Assistant, "b"), Message(User, "c")];
    AddAllKeepsMostRecent(New(2), msgs);
    assert New(2).messages + msgs == msgs;
  }
}
