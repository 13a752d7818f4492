/** The message handler of src/bot/handler.rs: which messages it answers,
    the prompt it builds, the primary-then-fallback call to the agent, and
    how a long answer is split into Discord messages. Sending a message is
    I/O: the handler's result is what it would send. */
module Handlers {
  import opened Wrappers
  import opened Text
  import Utf8
  import opened DiscordModel
  import opened OpenAi
  import Chat
  import Agents
  import Metadata

  const CommandPrefix := "w!"
  const ChunkSize := 1900
  const ErrorPrefix := "Error processing message: "

  /** The message filter: bots, "w!" commands and, when one user is
      allowed, everybody else are ignored. */
  predicate Ignored(allowedUserId: Option<U64>, msg: DiscordMessage)
    ensures msg.author.bot ==> Ignored(allowedUserId, msg)
    ensures StartsWith(msg.content, CommandPrefix) ==> Ignored(allowedUserId, msg)
    ensures !Ignored(allowedUserId, msg) && allowedUserId.Some? ==> msg.author.id == allowedUserId.value
    ensures (!msg.author.bot && !StartsWith(msg.content, CommandPrefix) &&
             (allowedUserId.None? || msg.author.id == allowedUserId.value)) ==>
      !Ignored(allowedUserId, msg)
  {
    msg.author.bot || StartsWith(msg.content, CommandPrefix)
    || (allowedUserId.Some? && msg.author.id != allowedUserId.value)
  }

  /** The prompt for a message: its metadata block and its wrapped text. */
  function PromptOf(cache: Cache, msg: DiscordMessage): string {
    Metadata.WrapPrompt(Metadata.MetadataText(Metadata.MetadataView(cache, msg)), msg.content)
  }

  // Splitting an answer, as written: byte chunks of 1900, each sent only
  // when it is valid UTF-8 by itself.

  function KeepValid(chunks: seq<seq<Utf8.Byte>>): (kept: seq<seq<Utf8.Byte>>)
    ensures |kept| <= |chunks|
    ensures forall i | 0 <= i < |kept| :: Utf8.Valid(kept[i])
    ensures (forall i | 0 <= i < |chunks| :: Utf8.Valid(chunks[i])) ==> kept == chunks
    ensures forall i | 0 <= i < |kept| :: kept[i] in chunks
    ensures forall i | 0 <= i < |chunks| :: Utf8.Valid(chunks[i]) ==> chunks[i] in kept
  {
    if |chunks| == 0 then []
    else (if Utf8.Valid(chunks[0]) then [chunks[0]] else []) + KeepValid(chunks[1..])
  }

  /** Keeping the valid chunks of two runs of chunks is keeping those of
      each run, in order: the valid chunks go out in the order they come. */
  lemma {:induction false} KeepValidConcat(a: seq<seq<Utf8.Byte>>, b: seq<seq<Utf8.Byte>>)
    ensures KeepValid(a + b) == KeepValid(a) + KeepValid(b)
    decreases |a|
  {
    if |a| > 0 {
      assert (a + b)[0] == a[0];
      assert (a + b)[1..] == a[1..] + b;
      KeepValidConcat(a[1..], b);
    } else {
      assert a + b == b;
    }
  }

  /** The bytes of each message `send_split_messages` sends. */
  function SentAsWritten(content: string): (sent: seq<seq<Utf8.Byte>>)
    ensures forall i | 0 <= i < |sent| :: Utf8.Valid(sent[i]) && 0 < |sent[i]| <= ChunkSize
    ensures Utf8.ByteLen(content) <= ChunkSize ==> sent == (if content == "" then [] else [Utf8.Encode(content)])
    ensures var chunks := Utf8.Chunks(Utf8.Encode(content), ChunkSize);
      (forall i | 0 <= i < |chunks| :: Utf8.Valid(chunks[i]) ==> chunks[i] in sent) &&
      (forall i | 0 <= i < |sent| :: sent[i] in chunks)
  {
    Utf8.EncodeValid(content);
    KeepValid(Utf8.Chunks(Utf8.Encode(content), ChunkSize))
  }

  lemma {:induction false} AsciiThenLeadInvalid(a: seq<Utf8.Byte>)
    requires forall i | 0 <= i < |a| :: a[i] < 0x80
    ensures !Utf8.Valid(a + [0xC3])
    decreases |a|
  {
    if |a| > 0 {
      assert (a + [0xC3])[1..] == a[1..] + [0xC3];
      AsciiThenLeadInvalid(a[1..]);
    }
  }

  /** 1899 letters followed by one two-byte character: the cut at byte 1900
      falls inside that character, neither chunk is valid UTF-8 by itself,
      and nothing at all is sent. */
  lemma SplitAsWrittenLosesText()
    ensures var s := seq(1899, _ => 'a') + ['é'];
      |s| > 0 && SentAsWritten(s) == []
  {
    var letters: string := seq(1899, _ => 'a');
    var s := letters + ['é'];
    Utf8.EncodeAscii(letters);
    Utf8.EncodeConcat(letters, ['é']);
    assert Utf8.Encode(['é']) == [0xC3, 0xA9];
    var b := Utf8.Encode(s);
    assert b == Utf8.Encode(letters) + [0xC3, 0xA9];
    assert |b| == 1901;
    var first := b[..1900];
    assert first == Utf8.Encode(letters) + [0xC3];
    AsciiThenLeadInvalid(Utf8.Encode(letters));
    assert b[1900..] == [0xA9];
    Utf8.LeadingContinuationInvalid(b[1900..]);
    assert Utf8.Chunks(b[1900..], ChunkSize) == [b[1900..]];
    assert Utf8.Chunks(b, ChunkSize) == [first] + Utf8.Chunks(b[1900..], ChunkSize);
    var chunks := [first, b[1900..]];
    assert Utf8.Chunks(b, ChunkSize) == chunks;
    assert chunks[1..] == [b[1900..]];
    assert KeepValid([b[1900..]]) == [] + KeepValid([]);
    assert KeepValid(chunks) == [] + KeepValid(chunks[1..]);
  }

  // Splitting an answer, as intended: whole characters only, each piece
  // the longest that fits in 1900 bytes.

  /** The pieces of `content`, cut greedily at character boundaries. */
  function Pieces(content: string): (ps: seq<string>)
    ensures Utf8.Flatten(ps) == content
    ensures forall i | 0 <= i < |ps| :: 0 < |ps[i]| && Utf8.ByteLen(ps[i]) <= ChunkSize
    decreases |content|
  {
    if |content| == 0 then []
    else
      var piece := Utf8.FloorPrefix(content, ChunkSize);
      assert Utf8.Width(content[0]) <= 4;
      assert |piece| > 0;
      [piece] + Pieces(content[|piece|..])
  }

  /** Each piece except the last is full: the character after it would not
      have fitted. */
  lemma {:induction false} PiecesAreGreedy(content: string)
    ensures var ps := Pieces(content);
      forall i | 0 <= i < |ps| - 1 :: Utf8.ByteLen(ps[i]) + Utf8.Width(ps[i + 1][0]) > ChunkSize
    decreases |content|
  {
    if |content| > 0 {
      var piece := Utf8.FloorPrefix(content, ChunkSize);
      var rest := content[|piece|..];
      PiecesAreGreedy(rest);
      var ps := Pieces(content);
      assert ps == [piece] + Pieces(rest);
      if |ps| > 1 {
        assert |rest| > 0;
        assert Pieces(rest)[0] == Utf8.FloorPrefix(rest, ChunkSize);
        assert Pieces(rest)[0][0] == rest[0] == content[|piece|];
      }
    }
  }

  /** The pieces carry every byte of the answer, in order: their encodings
      concatenate to the answer's. */
  lemma {:induction false} PiecesKeepEveryByte(content: string)
    ensures Utf8.Flatten(Encodings(Pieces(content))) == Utf8.Encode(content)
    decreases |content|
  {
    if |content| > 0 {
      var piece := Utf8.FloorPrefix(content, ChunkSize);
      var rest := content[|piece|..];
      PiecesKeepEveryByte(rest);
      assert content == piece + rest;
      Utf8.EncodeConcat(piece, rest);
      assert Encodings(Pieces(content)) == [Utf8.Encode(piece)] + Encodings(Pieces(rest));
    }
  }

  function Encodings(ps: seq<string>): (bs: seq<seq<Utf8.Byte>>)
    ensures |bs| == |ps| && forall i | 0 <= i < |ps| :: bs[i] == Utf8.Encode(ps[i])
  {
    if |ps| == 0 then [] else [Utf8.Encode(ps[0])] + Encodings(ps[1..])
  }

  lemma PiecesStep(rest: string)
    requires |rest| > 0
    ensures var piece := Utf8.FloorPrefix(rest, ChunkSize);
      |piece| > 0 && Pieces(rest) == [piece] + Pieces(rest[|piece|..])
  {
    assert Utf8.Width(rest[0]) <= 4;
  }

  /** No 1900-byte cut of the answer falls inside a character. */
  predicate CutsOnBoundaries(content: string) {
    forall m: nat | m % ChunkSize == 0 && 0 < m < Utf8.ByteLen(content) :: Utf8.IsCharBoundary(content, m)
  }

  /** Where no 1900-byte cut falls inside a character, the chunks the
      source sends are exactly the encodings of the corrected pieces: the
      two splits differ only on answers whose cuts split a character. */
  lemma {:induction false} SplitsAgreeOnBoundaries(content: string)
    requires CutsOnBoundaries(content)
    ensures Encodings(Pieces(content)) == SentAsWritten(content)
    decreases |content|
  {
    if |content| > 0 {
      var piece := Utf8.FloorPrefix(content, ChunkSize);
      var rest := content[|piece|..];
      PiecesStep(content);
      assert content == piece + rest;
      Utf8.EncodeValid(piece);
      if Utf8.ByteLen(content) <= ChunkSize {
        Utf8.FloorPrefixWhole(content, ChunkSize);
        WholeAnswerSentAsIs(content);
        EncodingsCons(content, []);
      } else {
        assert Utf8.IsCharBoundary(content, ChunkSize);
        CutsOnBoundariesRest(piece, rest);
        Utf8.EncodeConcat(piece, rest);
        SplitsAgreeOnBoundaries(rest);
        SentAsWrittenStep(piece, rest);
        EncodingsCons(piece, Pieces(rest));
      }
    }
  }

  lemma EncodingsCons(p: string, ps: seq<string>)
    ensures Encodings([p] + ps) == [Utf8.Encode(p)] + Encodings(ps)
  {
    assert ([p] + ps)[1..] == ps;
  }

  lemma WholeAnswerSentAsIs(content: string)
    requires 0 < |content| && Utf8.ByteLen(content) <= ChunkSize
    ensures SentAsWritten(content) == [Utf8.Encode(content)]
  {
    var b := Utf8.Encode(content);
    assert b == Utf8.EncodeChar(content[0]) + Utf8.Encode(content[1..]);
    Utf8.EncodeValid(content);
    assert Utf8.Chunks(b, ChunkSize) == [b];
    assert KeepValid([b]) == [b] + KeepValid([]);
  }

  lemma CutsOnBoundariesRest(piece: string, rest: string)
    requires Utf8.ByteLen(piece) == ChunkSize && CutsOnBoundaries(piece + rest)
    ensures CutsOnBoundaries(rest)
  {
    Utf8.EncodeConcat(piece, rest);
    forall m: nat | m % ChunkSize == 0 && 0 < m < Utf8.ByteLen(rest)
      ensures Utf8.IsCharBoundary(rest, m)
    {
      assert (ChunkSize + m) % ChunkSize == 0;
      assert Utf8.IsCharBoundary(piece + rest, Utf8.ByteLen(piece) + m);
      Utf8.BoundaryShift(piece, rest, m);
    }
  }

  /** Past a first full chunk that ends on a boundary, the source sends that
      chunk and then what it would send for the rest. */
  lemma SentAsWrittenStep(piece: string, rest: string)
    requires Utf8.ByteLen(piece) == ChunkSize && 0 < Utf8.ByteLen(rest)
    ensures SentAsWritten(piece + rest) == [Utf8.Encode(piece)] + SentAsWritten(rest)
  {
    Utf8.EncodeConcat(piece, rest);
    Utf8.EncodeValid(piece);
    var b := Utf8.Encode(piece + rest);
    assert b[..ChunkSize] == Utf8.Encode(piece) && b[ChunkSize..] == Utf8.Encode(rest);
    var chunks := Utf8.Chunks(b, ChunkSize);
    assert chunks == [b[..ChunkSize]] + Utf8.Chunks(b[ChunkSize..], ChunkSize);
    assert chunks[1..] == Utf8.Chunks(b[ChunkSize..], ChunkSize);
    assert KeepValid(chunks) == [chunks[0]] + KeepValid(chunks[1..]);
  }

  /** The sending loop: one piece after another until the answer is used up. */
  method SplitMessage(content: string) returns (pieces: seq<string>)
    ensures pieces == Pieces(content)
  {
    pieces := [];
    var rest := content;
    while |rest| > 0
      invariant pieces + Pieces(rest) == Pieces(content)
      decreases |rest|
    {
      var piece := Utf8.FloorPrefix(rest, ChunkSize);
      PiecesStep(rest);
      var next := rest[|piece|..];
      AppendPiece(pieces, piece, Pieces(next));
      pieces := pieces + [piece];
      rest := next;
    }
  }

  lemma AppendPiece(pieces: seq<string>, piece: string, later: seq<string>)
    ensures pieces + ([piece] + later) == (pieces + [piece]) + later
  {
  }

  /** What the handler does with one message. */
  datatype Action =
    | Ignore
    | Send(pieces: seq<string>)
    | ReplyError(text: string)

  /** The final answer's action: its pieces, or the error reply. */
  function Respond(r: Result<string>): (a: Action)
    ensures r.Ok? ==> a == Send(Pieces(r.value))
    ensures r.Err? ==> a == ReplyError(ErrorPrefix + r.error)
  {
    match r
    case Ok(content) => Send(Pieces(content))
    case Err(e) => ReplyError(ErrorPrefix + e)
  }

  class Handler {
    const allowedUserId: Option<U64>
    const agent: Agents.Agent

    constructor(allowedUserId: Option<U64>, agent: Agents.Agent)
      ensures this.allowedUserId == allowedUserId && this.agent == agent
    {
      this.allowedUserId := allowedUserId;
      this.agent := agent;
    }

    /** `message`: ignored messages change nothing; any other goes to the
        agent's `process_message` under the author's id, and only when that
        fails is `process_message_simple` asked, once, with the same prompt.
        `fallbacks` lists the prompts of those one-shot calls. */
    method Message(msg: DiscordMessage, cache: Cache, step: Agents.ChatStep, send: Transport)
      returns (action: Action, fallbacks: seq<string>)
      requires agent.Valid()
      modifies agent
      ensures agent.Valid() && agent.maxHistory == old(agent.maxHistory)
      ensures Ignored(allowedUserId, msg) ==>
        action == Ignore && fallbacks == [] && agent.conversations == old(agent.conversations)
      ensures !Ignored(allowedUserId, msg) ==>
        var prompt := PromptOf(cache, msg);
        var user := Decimal(msg.author.id);
        var primary := step(prompt, Agents.MemoryFor(old(agent.conversations), agent.maxHistory, user));
        agent.conversations == Agents.AfterExchange(old(agent.conversations), agent.maxHistory, user, prompt, primary)
        && fallbacks == (if primary.Ok? then [] else [prompt])
        && action == Respond(if primary.Ok? then primary else agent.ProcessMessageSimple(prompt, send).reply)
    {
      fallbacks := [];
      if msg.author.bot || StartsWith(msg.content, CommandPrefix) {
        return Ignore, fallbacks;
      }
      if allowedUserId.Some? && msg.author.id != allowedUserId.value {
        return Ignore, fallbacks;
      }
      var metadata := Metadata.ConstructMetadata(cache, msg);
      var prompt := Metadata.WrapPrompt(metadata, msg.content);
      var response := agent.ProcessMessage(Decimal(msg.author.id), prompt, step);
      if response.Err? {
        fallbacks := fallbacks + [prompt];
        response := agent.ProcessMessageSimple(prompt, send).reply;
      }
      match response {
        case Ok(content) =>
          var pieces := SplitMessage(content);
          action := Send(pieces);
        case Err(e) =>
          action := ReplyError(ErrorPrefix + e);
      }
    }
  }
}
