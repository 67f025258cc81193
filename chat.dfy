/** The backend adapter `huggingface_chat` of main.py, without its HTTP call:
    the conversation is rendered into one transcript string, handed to an
    abstract backend, and a generated text is cleaned up before it is returned. */
module Chat {
  import opened Optional
  import opened Strings

  /** The `role` key of a message dictionary; any other role string is `Other`. */
  datatype Role = System | User | Assistant | Other(name: string)

  datatype Message = Message(role: Role, content: string)

  /** What the remote model produced for one transcript: a generated text (which
      may be empty) or an error text (a missing key, a bad status, a malformed
      body or a connection failure). */
  datatype Outcome = Generated(text: string) | Failed(error: string)

  /** The remote model, as seen by the program: a transcript goes in, an outcome
      comes out. Each dialogue step gets its own backend, so outcomes are free. */
  type Backend = string -> Outcome

  const HumanTag: string := "Human:"

  /** One line of the transcript; roles other than the three known ones produce nothing. */
  function Line(m: Message): string
  {
    match m.role
    case System => "System: " + m.content + "\n"
    case User => "Human: " + m.content + "\n"
    case Assistant => "Assistant: " + m.content + "\n"
    case Other(_) => ""
  }

  /** The lines of all messages, in order. */
  function Lines(msgs: seq<Message>): string
  {
    if msgs == [] then "" else Lines(msgs[..|msgs| - 1]) + Line(msgs[|msgs| - 1])
  }

  /** The `inputs` text sent to the model: every line, then a dangling "Assistant:". */
  function Transcript(msgs: seq<Message>): string
  {
    Lines(msgs) + "Assistant:"
  }

  /** The accumulation loop that builds `conversation`. */
  method FormatTranscript(messages: seq<Message>) returns (conversation: string)
    ensures conversation == Transcript(messages)
  {
    conversation := "";
    for i := 0 to |messages|
      invariant conversation == Lines(messages[..i])
    {
      var msg := messages[i];
      if msg.role.System? {
        conversation := conversation + "System: " + msg.content + "\n";
      } else if msg.role.User? {
        conversation := conversation + "Human: " + msg.content + "\n";
      } else if msg.role.Assistant? {
        conversation := conversation + "Assistant: " + msg.content + "\n";
      }
      assert messages[..i + 1][..i] == messages[..i];
    }
    assert messages[..|messages|] == messages;
    conversation := conversation + "Assistant:";
  }

  /** The clean-up of a generated text: strip it, keep what precedes the first
      "Human:", strip again. */
  function CleanReply(raw: string): string
  {
    Strip(Before(Strip(raw), HumanTag))
  }

  /** `huggingface_chat` as a value: the reply and the error text it returns. */
  function ChatResult(messages: seq<Message>, backend: Backend): (Option<string>, string)
  {
    match backend(Transcript(messages))
    case Generated(raw) => (Some(CleanReply(raw)), "")
    case Failed(error) => (None, error)
  }

  /** `huggingface_chat`: format the transcript, ask the backend, clean the reply. */
  method HuggingfaceChat(messages: seq<Message>, backend: Backend) returns (response: Option<string>, error: string)
    ensures (response, error) == ChatResult(messages, backend)
    ensures backend(Transcript(messages)).Generated? ==>
              response == Some(CleanReply(backend(Transcript(messages)).text)) && error == ""
    ensures backend(Transcript(messages)).Failed? ==>
              response == None && error == backend(Transcript(messages)).error
  {
    var conversation := FormatTranscript(messages);
    var outcome := backend(conversation);
    match outcome
    case Generated(raw) =>
      var generated := Strip(raw);
      generated := Strip(Before(generated, HumanTag));
      response, error := Some(generated), "";
    case Failed(e) =>
      response, error := None, e;
  }

  /** The transcript of a concatenation is the concatenation of the transcripts' lines. */
  lemma {:induction false} LinesAppend(a: seq<Message>, b: seq<Message>)
    ensures Lines(a + b) == Lines(a) + Lines(b)
    decreases |b|
  {
    if b == [] {
      assert a + b == a;
    } else {
      var b', m := b[..|b| - 1], b[|b| - 1];
      assert Lines(a + b) == Lines(a + b') + Line(m) by {
        assert (a + b)[..|a + b| - 1] == a + b';
        assert (a + b)[|a + b| - 1] == m;
      }
      assert Lines(b) == Lines(b') + Line(m);
      LinesAppend(a, b');
      assert Lines(a) + Lines(b') + Line(m) == Lines(a) + (Lines(b') + Line(m));
    }
  }

  /** A message with an unknown role leaves no trace in the transcript. */
  lemma OtherRoleDropped(a: seq<Message>, name: string, content: string, b: seq<Message>)
    ensures Transcript(a + [Message(Other(name), content)] + b) == Transcript(a + b)
  {
    var m := Message(Other(name), content);
    assert Lines([m]) == "" by {
      assert [m][..0] == [];
    }
    LinesAppend(a, [m]);
    assert Lines(a + [m]) == Lines(a);
    LinesAppend(a + [m], b);
    LinesAppend(a, b);
    assert Lines(a + [m] + b) == Lines(a + b);
  }

  /** The cleaned reply holds no "Human:" turn. */
  lemma CleanReplyHasNoHumanTurn(raw: string)
    ensures !Contains(CleanReply(raw), HumanTag)
  {
    var b := Before(Strip(raw), HumanTag);
    BeforeAvoidsPattern(Strip(raw), HumanTag);
    var lo, hi := StripIsSlice(b);
    if Contains(CleanReply(raw), HumanTag) {
      ContainsInSlice(b, HumanTag, lo, hi);
    }
  }

  /** The cleaned reply has no surrounding whitespace. */
  lemma CleanReplyIsStripped(raw: string)
    ensures CleanReply(raw) == [] ||
              (!IsSpace(CleanReply(raw)[0]) && !IsSpace(CleanReply(raw)[|CleanReply(raw)| - 1]))
  {
    var lo, hi := StripIsSlice(Before(Strip(raw), HumanTag));
  }

  /** Cleaning a cleaned reply changes nothing. */
  lemma CleanReplyIdempotent(raw: string)
    ensures CleanReply(CleanReply(raw)) == CleanReply(raw)
  {
    var c := CleanReply(raw);
    CleanReplyHasNoHumanTurn(raw);
    StripIdempotent(Before(Strip(raw), HumanTag));
    assert Strip(c) == c;
    BeforeAbsent(c, HumanTag);
    assert Before(c, HumanTag) == c;
  }

  /** A generated text without a "Human:" turn is only stripped. */
  lemma CleanReplyWithoutHumanTurn(raw: string)
    requires !Contains(raw, HumanTag)
    ensures CleanReply(raw) == Strip(raw)
  {
    var lo, hi := StripIsSlice(raw);
    if Contains(Strip(raw), HumanTag) {
      ContainsInSlice(raw, HumanTag, lo, hi);
    }
    BeforeAbsent(Strip(raw), HumanTag);
    StripIdempotent(raw);
  }
}
