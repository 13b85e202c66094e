/**
 * The chat transcript of kidney_app.py: the session's message list, seeded
 * once with a greeting, reset by the clear button, extended by a submitted
 * prompt and by the assistant's streamed reply. One call of Session.Rerun is
 * one top-to-bottom execution of the script's chat part.
 */
module Transcript {
  import opened Wrappers
  import opened Prompt
  import Streaming
  import Credentials

  /** The seed message placed in a session that has no transcript yet. */
  const Greeting: Message := Message("assistant", "Posez une question au chatbot concernant la santé :")

  /** The single message left by the clear button. */
  const ResetGreeting: Message := Message("assistant", "How may I assist you today?")

  /** The reply rule's condition: the last message is not the assistant's. */
  predicate AwaitingReply(ms: seq<Message>)
    requires ms != []
  {
    ms[|ms| - 1].role != "assistant"
  }

  /** A reply stream as received: its chunks, and whether it ran to completion. */
  datatype Stream = Stream(chunks: seq<string>, completed: bool)

  /** The reply rule's effect on the transcript; a stream that breaks off appends nothing. */
  function Answered(ms: seq<Message>, stream: Stream): seq<Message>
    requires ms != []
  {
    if AwaitingReply(ms) && stream.completed
    then ms + [Message("assistant", Streaming.Joined(stream.chunks))]
    else ms
  }

  /** What the reply rule did: nothing, or sent a request (and whether its stream completed). */
  datatype Reply = Skipped | Sent(request: Request, completed: bool)

  function ReplyOf(ms: seq<Message>, input: string, sampling: Sampling, stream: Stream): Reply
    requires ms != []
  {
    if AwaitingReply(ms) then Sent(BuildRequest(ms, input, sampling), stream.completed) else Skipped
  }

  /** What the chat box hands back: nothing while it is disabled. */
  function Typed(token: string, input: Option<string>): Option<string>
  {
    if Credentials.ChatEnabled(token) then input else None
  }

  /** True when the chat box's value is a prompt to submit (a non-empty string). */
  predicate Submits(typed: Option<string>)
  {
    typed.Some? && typed.value != ""
  }

  /** The prompt variable as the request's f-string renders it; Python prints None as "None". */
  function Rendered(typed: Option<string>): string
  {
    match typed
    case Some(p) => p
    case None => "None"
  }

  /** The transcript just before the reply rule in one run of the script. */
  function BeforeReply(stored: bool, ms: seq<Message>, cleared: bool, token: string, input: Option<string>): (r: seq<Message>)
    requires stored ==> ms != []
    ensures r != []
  {
    var seeded := if cleared then [ResetGreeting] else if stored then ms else [Greeting];
    var typed := Typed(token, input);
    if Submits(typed) then seeded + [Message("user", typed.value)] else seeded
  }

  /** The transcript after one run of the script. */
  function RunMessages(stored: bool, ms: seq<Message>, cleared: bool, token: string, input: Option<string>,
                       stream: Stream): seq<Message>
    requires stored ==> ms != []
  {
    Answered(BeforeReply(stored, ms, cleared, token, input), stream)
  }

  /** What the reply rule of one run of the script did. */
  function RunReply(stored: bool, ms: seq<Message>, cleared: bool, token: string, input: Option<string>,
                    sampling: Sampling, stream: Stream): Reply
    requires stored ==> ms != []
  {
    ReplyOf(BeforeReply(stored, ms, cleared, token, input), Rendered(Typed(token, input)), sampling, stream)
  }

  /** The two greetings differ. */
  lemma GreetingsDiffer()
    ensures Greeting != ResetGreeting
  {
    assert |Greeting.content| != |ResetGreeting.content|;
  }

  /** A completed reply appends exactly one assistant message and keeps the rest. */
  lemma AnsweredAppendsOne(ms: seq<Message>, stream: Stream)
    requires ms != [] && AwaitingReply(ms) && stream.completed
    ensures |Answered(ms, stream)| == |ms| + 1
    ensures Answered(ms, stream)[..|ms|] == ms
    ensures Answered(ms, stream)[|ms|] == Message("assistant", Streaming.Joined(stream.chunks))
    ensures !AwaitingReply(Answered(ms, stream))
  {
    assert (ms + [Message("assistant", Streaming.Joined(stream.chunks))])[..|ms|] == ms;
  }

  /** The reply rule changes nothing when the assistant spoke last or the stream broke off. */
  lemma AnsweredUnchanged(ms: seq<Message>, stream: Stream)
    requires ms != []
    ensures Answered(ms, stream) == ms <==> !(AwaitingReply(ms) && stream.completed)
  {
    if AwaitingReply(ms) && stream.completed {
      assert |Answered(ms, stream)| == |ms| + 1;
    }
  }

  /** After a completed reply, running the reply rule again adds nothing. */
  lemma AnsweredIdempotent(ms: seq<Message>, first: Stream, second: Stream)
    requires ms != [] && first.completed
    ensures Answered(Answered(ms, first), second) == Answered(ms, first)
  {
    if AwaitingReply(ms) {
      AnsweredAppendsOne(ms, first);
    }
  }

  /** Without the clear button, a run only appends to an existing transcript. */
  lemma RunAppendOnly(stored: bool, ms: seq<Message>, token: string, input: Option<string>, stream: Stream)
    requires stored && ms != []
    ensures ms <= RunMessages(stored, ms, false, token, input, stream)
    ensures |RunMessages(stored, ms, false, token, input, stream)| <= |ms| + 2
  {
    var before := BeforeReply(stored, ms, false, token, input);
    assert ms <= before;
    if AwaitingReply(before) && stream.completed {
      AnsweredAppendsOne(before, stream);
    }
  }

  /**
   * One turn from a settled transcript: a submitted prompt gets the user
   * message and, if the stream completes, the joined reply; the request
   * carries the prompt twice. Without a prompt nothing happens.
   */
  lemma TurnFromSettled(ms: seq<Message>, token: string, input: Option<string>, sampling: Sampling, stream: Stream)
    requires ms != [] && !AwaitingReply(ms)
    ensures var typed := Typed(token, input);
      RunMessages(true, ms, false, token, input, stream) ==
        (if !Submits(typed) then ms
         else if stream.completed
         then ms + [Message("user", typed.value), Message("assistant", Streaming.Joined(stream.chunks))]
         else ms + [Message("user", typed.value)])
    ensures var typed := Typed(token, input);
      RunReply(true, ms, false, token, input, sampling, stream) ==
        (if Submits(typed)
         then Sent(BuildRequest(ms + [Message("user", typed.value)], typed.value, sampling), stream.completed)
         else Skipped)
  {
    var typed := Typed(token, input);
    if Submits(typed) {
      assert ms + [Message("user", typed.value)] + [Message("assistant", Streaming.Joined(stream.chunks))] ==
        ms + [Message("user", typed.value), Message("assistant", Streaming.Joined(stream.chunks))];
    }
  }

  /** With an empty token the chat box is disabled and a run from a settled transcript changes nothing. */
  lemma EmptyTokenNoTurn(ms: seq<Message>, input: Option<string>, sampling: Sampling, stream: Stream)
    requires ms != [] && !AwaitingReply(ms)
    ensures RunMessages(true, ms, false, "", input, stream) == ms
    ensures RunReply(true, ms, false, "", input, sampling, stream) == Skipped
  {
  }

  /**
   * After a stream broke off, the user message stays last, so the next run
   * without a new prompt answers it, with the prompt rendered as "None".
   */
  lemma RetryAfterBrokenStream(ms: seq<Message>, token: string, sampling: Sampling, stream: Stream)
    requires ms != [] && AwaitingReply(ms)
    ensures RunReply(true, ms, false, token, None, sampling, stream) ==
      Sent(BuildRequest(ms, "None", sampling), stream.completed)
  {
  }

  /** The clear button leaves exactly the reset greeting, whatever came before, unless a prompt follows. */
  lemma ClearLeavesResetGreeting(stored: bool, ms: seq<Message>, token: string, input: Option<string>, stream: Stream)
    requires stored ==> ms != []
    ensures RunMessages(stored, ms, true, token, input, stream)[0] == ResetGreeting
    ensures !Submits(Typed(token, input)) ==> RunMessages(stored, ms, true, token, input, stream) == [ResetGreeting]
  {
  }

  /** A session's state as the script sees it: whether a transcript is stored, and the transcript. */
  class Session {
    var stored: bool
    var messages: seq<Message>

    /** A stored transcript is never empty, so the reply rule's `messages[-1]` is always defined. */
    ghost predicate Valid()
      reads this
    {
      stored ==> messages != []
    }

    /** A new session, before the script first runs. */
    constructor ()
      ensures Valid() && !stored
    {
      stored := false;
      messages := [];
    }

    /** Seeding: only a session without a transcript gets the greeting. */
    method Init()
      requires Valid()
      modifies this
      ensures Valid() && stored
      ensures messages == if old(stored) then old(messages) else [Greeting]
    {
      if !stored {
        messages := [Greeting];
        stored := true;
      }
    }

    /** The clear button's callback: the transcript becomes the reset greeting alone. */
    method Clear()
      modifies this
      ensures Valid() && stored
      ensures messages == [ResetGreeting]
    {
      messages := [ResetGreeting];
      stored := true;
    }

    /** A submitted prompt is appended as a user message; nothing before it changes. */
    method Submit(prompt: string)
      requires Valid() && stored
      modifies this
      ensures Valid() && stored
      ensures messages == old(messages) + [Message("user", prompt)]
    {
      messages := messages + [Message("user", prompt)];
    }

    /**
     * The reply rule: when the assistant did not speak last, build the request,
     * accumulate the streamed chunks, and append the full reply once the stream
     * completes.
     */
    method Respond(input: string, sampling: Sampling, stream: Stream) returns (reply: Reply)
      requires Valid() && stored
      modifies this
      ensures Valid() && stored
      ensures messages == Answered(old(messages), stream)
      ensures reply == ReplyOf(old(messages), input, sampling, stream)
    {
      if messages[|messages| - 1].role != "assistant" {
        var dialogue := BuildDialogue(messages);
        var request := Request(Credentials.RequestModel, dialogue + " " + input + " Assistant: ",
                               sampling.temperature, sampling.topP, sampling.maxLength, 1);
        var full := Streaming.Accumulate(stream.chunks);
        if stream.completed {
          messages := messages + [Message("assistant", full)];
        }
        reply := Sent(request, stream.completed);
      } else {
        reply := Skipped;
      }
    }

    /**
     * One execution of the script's chat part: the clear callback (if its
     * button was clicked), seeding, the chat box, and the reply rule.
     */
    method Rerun(cleared: bool, token: string, input: Option<string>, sampling: Sampling, stream: Stream)
      returns (reply: Reply)
      requires Valid()
      modifies this
      ensures Valid() && stored
      ensures messages == RunMessages(old(stored), old(messages), cleared, token, input, stream)
      ensures reply == RunReply(old(stored), old(messages), cleared, token, input, sampling, stream)
    {
      if cleared {
        Clear();
      }
      Init();
      var typed := Typed(token, input);
      if Submits(typed) {
        Submit(typed.value);
      }
      reply := Respond(Rendered(typed), sampling, stream);
    }
  }
}
