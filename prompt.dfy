/**
 * The chat messages of kidney_app.py and the flattening of a transcript into
 * the single prompt string sent to the hosted model, with the request that
 * carries it. The call to the service is not modelled.
 */
module Prompt {
  import Credentials
  import Sequences

  /** One chat message; the role is free text, as in the session list. */
  datatype Message = Message(role: string, content: string)

  const Preamble: string :=
    "You are a helpful assistant. You do not respond as 'User' or pretend to be 'User'. You only respond once as 'Assistant'."

  /** The speaker tag: "User" for role "user", "Assistant" for every other role. */
  function Speaker(m: Message): string
  {
    if m.role == "user" then "User: " else "Assistant: "
  }

  /** One message as it appears in the dialogue. */
  function Line(m: Message): string
  {
    Speaker(m) + m.content + "\n\n"
  }

  /** The lines of a transcript, in transcript order. */
  function Lines(ms: seq<Message>): string
  {
    if ms == [] then "" else Lines(ms[..|ms| - 1]) + Line(ms[|ms| - 1])
  }

  /** The dialogue built before the request: preamble, then every line. */
  function DialogueText(ms: seq<Message>): string
  {
    Preamble + Lines(ms)
  }

  /** The prompt sent: dialogue, a space, the prompt input, and the reply cue. */
  function PromptText(ms: seq<Message>, input: string): string
  {
    DialogueText(ms) + " " + input + " Assistant: "
  }

  /** A message's line consists of its tag, its content and a blank line; the content is recoverable. */
  lemma LineContent(m: Message)
    ensures |Speaker(m)| <= |Line(m)| - 2
    ensures Line(m)[|Speaker(m)|..|Line(m)| - 2] == m.content
    ensures Speaker(m) == "User: " <==> m.role == "user"
  {
  }

  /** Every role other than "user" is rendered as the assistant's. */
  lemma OtherRolesAreAssistant(m: Message)
    requires m.role != "user"
    ensures Line(m) == Line(Message("assistant", m.content))
  {
  }

  /** Flattening distributes over concatenating transcripts. */
  lemma {:induction false} LinesAppend(a: seq<Message>, b: seq<Message>)
    ensures Lines(a + b) == Lines(a) + Lines(b)
    decreases |b|
  {
    if b == [] {
      assert a + b == a;
    } else {
      var b', m := b[..|b| - 1], b[|b| - 1];
      Sequences.SplitLast(a, b);
      LinesSnoc(a + b', m);
      LinesAppend(a, b');
      LinesSnoc(b', m);
      Sequences.Regroup(Lines(a), Lines(b'), Line(m));
    }
  }

  /** No message is dropped or moved: message `i` sits between the lines before and after it. */
  lemma LinesAt(ms: seq<Message>, i: nat)
    requires i < |ms|
    ensures Lines(ms) == Lines(ms[..i]) + Line(ms[i]) + Lines(ms[i + 1..])
  {
    Sequences.SplitAt(ms, i);
    LinesAppend(ms[..i] + [ms[i]], ms[i + 1..]);
    LinesSnoc(ms[..i], ms[i]);
  }

  lemma LinesSingle(m: Message)
    ensures Lines([m]) == Line(m)
  {
    assert [m][..0] == [];
  }

  lemma LinesSnoc(ms: seq<Message>, m: Message)
    ensures Lines(ms + [m]) == Lines(ms) + Line(m)
  {
    assert (ms + [m])[..|ms|] == ms;
  }

  /** Appending a line piece by piece appends the line. */
  lemma AppendLine(s: string, tag: string, content: string)
    ensures s + tag + content + "\n\n" == s + (tag + content + "\n\n")
  {
  }

  /** The loop of the dialogue builder: every message's line is added with `+=`. */
  method AppendLines(start: string, ms: seq<Message>) returns (dialogue: string)
    ensures dialogue == start + Lines(ms)
  {
    dialogue := start;
    for n := 0 to |ms|
      invariant dialogue == start + Lines(ms[..n])
    {
      ghost var prev := dialogue;
      if ms[n].role == "user" {
        dialogue := dialogue + "User: " + ms[n].content + "\n\n";
      } else {
        dialogue := dialogue + "Assistant: " + ms[n].content + "\n\n";
      }
      AppendLine(prev, Speaker(ms[n]), ms[n].content);
      Sequences.Regroup(start, Lines(ms[..n]), Line(ms[n]));
      LinesSnoc(ms[..n], ms[n]);
      assert ms[..n + 1] == ms[..n] + [ms[n]];
    }
    assert ms[..|ms|] == ms;
  }

  /** The dialogue string built before the request: the preamble, then every message's line. */
  method BuildDialogue(ms: seq<Message>) returns (dialogue: string)
    ensures dialogue == DialogueText(ms)
  {
    dialogue := AppendLines(Preamble, ms);
  }

  /**
   * The prompt input was already appended to the transcript, so it is sent
   * twice: once as the last user line and once after the dialogue.
   */
  lemma SubmittedPromptSentTwice(ms: seq<Message>, p: string)
    ensures Line(Message("user", p)) == "User: " + p + "\n\n"
    ensures PromptText(ms + [Message("user", p)], p) ==
      DialogueText(ms) + Line(Message("user", p)) + " " + p + " Assistant: "
  {
    LinesSnoc(ms, Message("user", p));
  }

  /** A two-message transcript and a new prompt, flattened. */
  lemma TwoTurnExample()
    ensures PromptText([Message("user", "Hi"), Message("assistant", "Hello")], "How are you?") ==
      Preamble + "User: Hi\n\n" + "Assistant: Hello\n\n" + " How are you?" + " Assistant: "
  {
    var hi, hello := Message("user", "Hi"), Message("assistant", "Hello");
    LinesSingle(hi);
    LinesSnoc([hi], hello);
    assert [hi] + [hello] == [hi, hello];
    assert Line(hi) == "User: Hi\n\n";
    assert Line(hello) == "Assistant: Hello\n\n";
    assert " " + "How are you?" == " How are you?";
    Sequences.Regroup(Preamble, Line(hi), Line(hello));
    Sequences.Regroup(DialogueText([hi, hello]), " ", "How are you?");
  }

  /** Sampling parameters taken from the sidebar sliders, passed through unchanged. */
  datatype Sampling = Sampling(temperature: real, topP: real, maxLength: int)

  /** The request handed to the hosted model. */
  datatype Request = Request(model: string, prompt: string, temperature: real, topP: real,
                             maxLength: int, repetitionPenalty: int)

  /** The request for a transcript and a prompt input; the model is fixed, not the selected preset. */
  function BuildRequest(ms: seq<Message>, input: string, sampling: Sampling): (r: Request)
    ensures r.model == Credentials.RequestModel && r.repetitionPenalty == 1
    ensures r.temperature == sampling.temperature && r.topP == sampling.topP
    ensures r.maxLength == sampling.maxLength
    ensures |r.prompt| > |Preamble| && r.prompt[..|Preamble|] == Preamble
    ensures r.prompt == Preamble + Lines(ms) + " " + input + " Assistant: "
  {
    Request(Credentials.Model13B, PromptText(ms, input), sampling.temperature, sampling.topP,
            sampling.maxLength, 1)
  }
}
