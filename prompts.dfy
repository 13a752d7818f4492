/** `load_system_prompt` of src/agent/prompts.rs, after the file read. The
    read itself is I/O: its result is the parameter. */
module Prompts {
  import opened Wrappers
  import opened Text

  const DefaultPrompt := "You are a helpful assistant."

  /** The description of the metadata block appended to a prompt file. */
  const MetadataPrompt := "# format of metadata\n<metadata>\nGuild: <guild_name> (<guild_id>)\nChannel: <category_name> > <channel_name> (<channel_id>)\nUser: <user_name> (<user_id>)\n</metadata>\n\n"

  /** The prompt from the file's contents: the default when the file could
      not be read or holds only whitespace, otherwise the trimmed text
      followed by the metadata description. */
  function LoadSystemPrompt(read: Result<string>): (r: string)
    ensures read.Err? ==> r == DefaultPrompt
    ensures read.Ok? && (forall i | 0 <= i < |read.value| :: IsWhitespace(read.value[i])) ==> r == DefaultPrompt
    ensures read.Ok? && (exists i | 0 <= i < |read.value| :: !IsWhitespace(read.value[i])) ==>
      r == Trim(read.value) + MetadataPrompt
  {
    match read
    case Err(_) => DefaultPrompt
    case Ok(content) =>
      var trimmed := Trim(content);
      if |trimmed| == 0 then DefaultPrompt else trimmed + MetadataPrompt
  }

  /** Whatever the file holds, the prompt is non-empty and does not start
      with whitespace. */
  lemma PromptNeverBlank(read: Result<string>)
    ensures |LoadSystemPrompt(read)| > 0 && !IsWhitespace(LoadSystemPrompt(read)[0])
  {
    if read.Ok? && |Trim(read.value)| > 0 {
      assert LoadSystemPrompt(read)[0] == Trim(read.value)[0];
    } else {
      assert LoadSystemPrompt(read)[0] == 'Y';
    }
  }

  /** Surrounding whitespace in the file makes no difference. */
  lemma SurroundingSpaceIgnored(lead: string, body: string, trail: string)
    requires forall i | 0 <= i < |lead| :: IsWhitespace(lead[i])
    requires forall i | 0 <= i < |trail| :: IsWhitespace(trail[i])
    requires |body| > 0 && !IsWhitespace(body[0]) && !IsWhitespace(body[|body| - 1])
    ensures LoadSystemPrompt(Ok(lead + body + trail)) == body + MetadataPrompt
  {
    var s := lead + body + trail;
    TrimInfix(lead, body, trail);
    assert !IsWhitespace(s[|lead|]);
  }

  lemma TrimInfix(lead: string, body: string, trail: string)
    requires forall i | 0 <= i < |lead| :: IsWhitespace(lead[i])
    requires forall i | 0 <= i < |trail| :: IsWhitespace(trail[i])
    requires |body| > 0 && !IsWhitespace(body[0]) && !IsWhitespace(body[|body| - 1])
    ensures Trim(lead + body + trail) == body
  {
    var s := lead + body + trail;
    assert s[|lead|] == body[0];
    LeadingSpaceOf(lead, body + trail);
    assert s == lead + (body + trail);
    var r := Trim(s);
    var a := LeadingSpace(s);
    assert a == |lead|;
    // Trim keeps exactly the body: it ends on a non-space, and everything
    // after it is space
    assert s[a + |body| - 1] == body[|body| - 1];
    assert |r| == |body|;
    assert r == s[a..a + |body|];
    assert s[a..a + |body|] == body;
  }

  lemma {:induction false} LeadingSpaceOf(lead: string, rest: string)
    requires forall i | 0 <= i < |lead| :: IsWhitespace(lead[i])
    requires |rest| > 0 && !IsWhitespace(rest[0])
    ensures LeadingSpace(lead + rest) == |lead|
  {
    if |lead| > 0 {
      assert (lead + rest)[1..] == lead[1..] + rest;
      LeadingSpaceOf(lead[1..], rest);
    } else {
      assert lead + rest == rest;
    }
  }
}
