# Kidney App: chat transcript, prompt assembly and result labelling

A Dafny model of the sequential logic inside `kidney_app.py`, a Streamlit page that
classifies kidney radiographs into four classes and offers a sidebar health chatbot
backed by a hosted Llama 2 model. The page is a script that runs from top to bottom
on every interaction. The model covers the parts that follow fixed rules:

- **Classifier** (`classifier.dfy`): the first-maximum index of the four-score
  prediction (`np.argmax`) and its lookup in the label list
  `["Cyst", "Normal", "Stone", "Tumor"]`. Scores are `real`.
- **Credentials** (`credentials.dfy`): the `r8_`/40-character token check, the
  secret-store override, the rule that the chat box is enabled for any non-empty
  token, and the preset-name-to-model-identifier map. The map's result is never
  used: every request goes to the 13B identifier.
- **Streaming** (`streaming.dfy`): the reply text `full_response`, built by
  concatenating streamed chunks in order. `Joined` specifies it and `Accumulate`
  is the loop.
- **Prompt** (`prompt.dfy`): chat messages. The dialogue string is the preamble
  followed by one `"User: c\n\n"` or `"Assistant: c\n\n"` line per message
  (`Line`, `Lines`, `DialogueText`). `BuildDialogue` and `AppendLines` are the
  `+=` loop. The prompt sent is `dialogue + " " + prompt + " Assistant: "`
  (`PromptText`), and it travels in a `Request` with the fixed model identifier
  and a repetition penalty of 1.
- **Sequences** (`sequences.dfy`): three generic facts about sequences that the proofs use.
- **Transcript** (`transcript.dfy`): a `Session` class whose fields are the
  session state. `stored` says whether the `messages` key exists, and `messages`
  is the list itself. `Init`, `Clear`, `Submit` and `Respond` are the script's
  four transcript steps, and `Rerun` is one full execution of the chat part.
  Value-level functions (`Answered`, `ReplyOf`, `BeforeReply`, `RunMessages`,
  `RunReply`) specify these methods, and lemmas state the properties.

The remote reply stream is an input: `Stream(chunks, completed)`. When a stream
breaks off (`completed == false`), the append at line 130 is never reached,
because the exception leaves the script. The user message then stays last. If the
next run is started by something other than a new prompt (another widget, or a
disabled chat box), the chat box returns `None`, so the reply rule fires again and
the request has the text `None` where the prompt would be
(`Transcript.RetryAfterBrokenStream`). If a new prompt starts it, a second user
message is appended and the request carries that prompt.

Four behaviours of the code that are easy to misread, modelled as written:

- The code puts a space between the dialogue and the new prompt, and writes the
  prompt with no `User:` tag.
- The prompt is appended to the transcript before the request is built, so it
  appears twice in what is sent (`Prompt.SubmittedPromptSentTwice`).
- Any role other than `"user"` is rendered as `Assistant:`.
- The chat box is enabled by any non-empty token. The token check only picks the
  notice shown.

## Model

| member | source | states |
|---|---|---|
| Classifier.ArgMax | kidney_app.py:51 | the result is a valid index; its score is at least every score and strictly greater than every score before it (first maximum) |
| Classifier.ArgMaxUnique | kidney_app.py:51 | any index with the first-maximum property is the argmax, so the property determines it |
| Classifier.Predict | kidney_app.py:50-54 | the predicted label is one of the four labels, namely the one whose index is the first maximum |
| Classifier.PredictIsLabelOfFirstMax | kidney_app.py:51-54 | the prediction is label i if and only if index i is the first maximum |
| Classifier.UniformScoresPredictCyst | kidney_app.py:51-54 | with four equal scores the lowest index wins and the label is "Cyst" |
| Classifier.StonePrediction | kidney_app.py:51-54 | "Stone" is predicted iff its score beats both earlier scores and is not below the later one |
| Credentials.WellFormedTokenByCharacters | kidney_app.py:71 | the token check holds iff the token has 40 characters and starts with 'r', '8', '_' |
| Credentials.WellFormedOnlyAdvisory | kidney_app.py:113 | every well-formed token enables chat, but malformed non-empty tokens such as "r8_" enable it too |
| Credentials.ResolveCredential | kidney_app.py:66-75 | a secret-store token is used unchecked with the "already provided" notice; otherwise the typed token is used and the go-ahead notice appears iff it is well formed |
| Credentials.NoticeDoesNotGateChat | kidney_app.py:66-75 | chat is enabled iff the resolved token is non-empty, even when the warning notice is shown |
| Credentials.PresetModel | kidney_app.py:79-82 | exactly the two preset names map to an identifier: "Llama2-7B" to the 7B id and "Llama2-13B" to the 13B id |
| Credentials.PresetIgnoredByRequest | kidney_app.py:107 | the presets map to distinct ids and the request always uses the 13B one, so selecting 7B has no effect |
| Streaming.JoinedAppend | kidney_app.py:124-126 | the concatenation of two stream segments is the concatenation of their texts |
| Streaming.JoinedAt | kidney_app.py:124-126 | each chunk appears unaltered in the reply, after the text of all earlier chunks and before that of all later ones |
| Streaming.JoinedPrefix | kidney_app.py:124-127 | every intermediate response is a prefix of the final one |
| Streaming.Accumulate | kidney_app.py:124-126 | the loop's result is the in-order concatenation of the chunks, and every partial result is a prefix of it |
| Prompt.LineContent | kidney_app.py:103-106 | a message's line is its speaker tag, its unchanged content and a blank line; the tag is "User: " iff the role is "user" |
| Prompt.OtherRolesAreAssistant | kidney_app.py:105-106 | any role other than "user" is rendered exactly like "assistant" |
| Prompt.LinesAppend | kidney_app.py:102-106 | flattening two transcript segments gives the concatenation of their lines |
| Prompt.LinesAt | kidney_app.py:102-106 | message i's line sits between the lines of all earlier and all later messages: nothing is dropped or reordered |
| Prompt.AppendLines | kidney_app.py:102-106 | the `+=` loop appends the lines of all messages, in order, to its starting string |
| Prompt.BuildDialogue | kidney_app.py:101-106 | the dialogue is the preamble followed by the lines of the whole transcript |
| Prompt.SubmittedPromptSentTwice | kidney_app.py:108 | after a prompt is appended, the prompt sent contains it twice: as the last "User:" line and after the separating space |
| Prompt.TwoTurnExample | kidney_app.py:101-108 | the transcript [user "Hi", assistant "Hello"] with prompt "How are you?" yields the preamble, "User: Hi\n\nAssistant: Hello\n\n", " How are you?" and " Assistant: " |
| Prompt.BuildRequest | kidney_app.py:107-109 | the request goes to the fixed 13B model with repetition penalty 1, carries the slider values unchanged, and its prompt starts with the preamble and is dialogue, space, prompt, reply cue |
| Transcript.BeforeReply | kidney_app.py:87-114 | the transcript seen by the reply rule is never empty |
| Transcript.GreetingsDiffer | kidney_app.py:88-96 | the reset greeting differs from the initial seed greeting |
| Transcript.AnsweredAppendsOne | kidney_app.py:119-130 | a completed reply appends exactly one assistant message holding the joined chunks, keeps every earlier message, and leaves the assistant last |
| Transcript.AnsweredUnchanged | kidney_app.py:119-130 | the reply rule leaves the transcript unchanged iff the assistant spoke last or the stream broke off |
| Transcript.AnsweredIdempotent | kidney_app.py:119-130 | after a completed reply, a second pass of the reply rule adds nothing |
| Transcript.RunAppendOnly | kidney_app.py:87-130 | without the clear button, a run keeps the existing transcript as a prefix and adds at most two messages |
| Transcript.TurnFromSettled | kidney_app.py:113-130 | from a transcript ending with the assistant, a submitted prompt adds the user message and, on completion, the reply, and sends one request for the extended transcript; with no prompt, the run changes nothing and sends nothing |
| Transcript.EmptyTokenNoTurn | kidney_app.py:113 | with an empty token the chat box is disabled, and a run from a settled transcript changes nothing and sends nothing |
| Transcript.RetryAfterBrokenStream | kidney_app.py:113-122 | when the user spoke last and no new prompt arrives, a request is sent with the prompt rendered as "None" |
| Transcript.ClearLeavesResetGreeting | kidney_app.py:95-96 | after the clear button the transcript starts with the reset greeting, and is exactly that one message unless a prompt follows, whatever its prior length |
| Transcript.Session.constructor | kidney_app.py:87 | a new session has no stored transcript |
| Transcript.Session.Init | kidney_app.py:87-88 | seeding stores the greeting only when no transcript is stored, and leaves an existing one unchanged (idempotent) |
| Transcript.Session.Clear | kidney_app.py:95-96 | the transcript becomes exactly the reset greeting |
| Transcript.Session.Submit | kidney_app.py:113-114 | exactly one user message with the prompt is appended, and every earlier message is unchanged |
| Transcript.Session.Respond | kidney_app.py:119-130 | the transcript becomes the reply rule's result and the reply records the request sent, or that none was |
| Transcript.Session.Rerun | kidney_app.py:87-130 | one run of the chat part changes the transcript and sends the request as the run-level specification says, and keeps the transcript non-empty |

The functions `Joined`, `Lines`, `Line`, `Speaker`, `DialogueText`, `PromptText`,
`Answered`, `ReplyOf`, `Typed`, `Submits`, `Rendered`, `RunMessages` and `RunReply`
and the predicates `WellFormedToken`, `ChatEnabled`, `StartsWith` and `AwaitingReply`
are the specification the rows above are stated against.

## Left out

- Model loading and the forward pass (`tf.keras.models.load_model`, `model.predict`): foreign calls; the score vector is an input to `Classifier.Predict`.
- Image decoding, resizing to 224×224, the division by 255.0 and the unused `predict_image`: image-library work and floating point.
- The percentage display of each score (`{x*100:.2f}%`): float formatting.
- The call to the hosted model and its transport: a network call; its output is the `Stream` input, and a failure is `completed == false`.
- Page rendering: title, images, CSS, logo, spinner, placeholders, the display of each message, and the warning and success widgets (only which notice is chosen is modelled).
- Environment variables and the secret store: the secret is an `Option<string>` parameter of `ResolveCredential`, and the environment writes are not modelled.
- The slider widgets: their values are the opaque `Sampling` parameter, and their ranges are not checked by the request.
- Streamlit's session machinery: one `Session` object stands for one user's session state, and concurrent reruns of one session are not modelled.
- Classifier.Predict: requires exactly four scores, the model's output size; a vector of another size would fail or mislabel in the script and is not modelled.
