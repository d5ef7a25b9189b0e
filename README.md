# Conversation history of the chatbot API

A Dafny model of the conversation memory in `app.py` of the chatbot API, a
small Flask service that sends a user's question to a hosted language model
and returns the answer. The service keeps one process-wide list of
`{question, answer}` records. After each answered question it appends one
record and then keeps only the last `MAX_HISTORY_LENGTH = 10`. Before the
model is called, that list is rendered as a transcript
(`"Previous conversation:\n"`, then `"Human: <q>\nAI: <a>\n"` per record,
oldest first). When the transcript is non-empty, the prompt is the
transcript, then `"\nHuman: "`, then the question. Two more endpoints report
the list with its length and clear it.

The model has three modules:

- `History` (history.dfy): the `Turn` record, the bound, Python's
  negative-start slice, and the update `AppendTurn`. `AppendTurn` is proved
  equal to `KeepLast(h + [t], 10)` (`AppendTurnKeepsLast`), where `KeepLast`
  is an independent reference that drops the oldest element until at most n
  remain. The lemmas prove that any run of answered questions
  leaves the last ten turns of everything asked, in order.
- `Context` (context.dfy): the transcript as functions (`RenderContext`,
  `Contextualize`). `BuildContext` is the handler's `+=` loop as a method,
  proved equal to `RenderContext`. Lemmas cover the format: order,
  concatenation, growth by one turn, and that the raw question can be read
  back from the prompt.
- `ChatApp` (chat_app.dfy): the service as a class whose `history` field
  plays the part of the global list. `Ask`, `GetHistory` and `Clear` are its
  methods. `Valid()` is the invariant that the list never holds more than ten
  turns.

The model call (`chain.invoke`) is a parameter of `Ask`: a total function
from prompt text to `Option<string>`, where `None` means the call raised.
One call to any language model behaves like some such function. So `Ask`'s
contract covers every model, and it pins down the exact prompt sent. The
parsed request body is a parameter too: *unreadable* (the JSON parser
raised), JSON `null`, or an object with string fields.

## Model

| member | source | states |
|---|---|---|
| `History.SliceFrom` | app.py:94 | Python's `s[start:]`: with a negative start the result has length min(\|s\|, -start), and it is always the tail of `s` of that length |
| `History.AppendTurn` | app.py:87-94 | after one answered question the history has min(old length + 1, 10) turns (so at most 10, whatever the old length). It is the tail of old history + [new turn], its last entry is exactly the new turn, and when fewer than 10 turns were held nothing is dropped |
| `History.KeepLastIsSuffix` | app.py:92-94 | dropping the oldest entry until at most n remain leaves exactly the last min(\|s\|, n) entries, in their original order |
| `History.AppendTurnKeepsLast` | app.py:87-94 | the append-then-slice update equals the drop-oldest-first window of 10 over old history + [new turn] |
| `History.AppendAllWindow` | app.py:87-94 | starting from a history of at most 10 turns, any sequence of answered questions leaves the 10-turn window over the old history followed by all new turns |
| `History.LastTurnsRemain` | app.py:87-94 | after at least 10 answered questions on any history of at most 10 turns, exactly the last 10 questions asked remain, in order, and nothing older |
| `Context.RenderTurn` | app.py:73 | one remembered turn renders as `Human: ` and the question, then `\nAI: ` and the answer, then a newline: 13 fixed characters around the two texts, with the question readable right after `Human: ` and the answer ending the text |
| `Context.RenderTurns` | app.py:72-73 | the turns rendered one after another, oldest first, each adding at least 13 characters, so the text is empty exactly when there are no turns |
| `Context.RenderContext` | app.py:69-73 | the transcript is empty exactly when the history is empty; otherwise it is the `Previous conversation:` header followed by every turn's rendering |
| `Context.Contextualize` | app.py:75-78 | the prompt is the raw question when the history is empty, and transcript + `"\nHuman: "` + question otherwise (the source tests whether the transcript is non-empty; the contract is stated through the history) |
| `Context.RenderTurnsAppend` | app.py:72-73 | the transcript of a + b is the transcript of a followed by that of b |
| `Context.RenderTurnsFirst` | app.py:72-73 | oldest first: the transcript of [t] + h begins with t's `Human:`/`AI:` lines |
| `Context.RenderContextGrows` | app.py:69-73 | remembering one more turn without dropping any extends a non-empty transcript by exactly that turn's lines |
| `Context.ContextualizeInjective` | app.py:76-78 | against the same history, different questions give different prompts: the question can be recovered from the prompt |
| `Context.ContextualizeEndsWithQuestion` | app.py:76-78 | the prompt always ends with the raw question |
| `Context.SecondQuestionSeesFirst` | app.py:69-94 | after one answered question (q1, a1), the prompt for q2 is exactly `"Previous conversation:\nHuman: " + q1 + "\nAI: " + a1 + "\n" + "\nHuman: " + q2` |
| `Context.BuildContext` | app.py:69-73 | the handler's loop, which starts with the header and adds one rendered turn per entry, computes `RenderContext` of the history |
| `ChatApp.Status` | app.py:62-131 | the status code of a reply: 400 exactly for a missing question (app.py:62), 500 exactly for a server error (app.py:104, 106), 200 for an answer, the history report and the clear confirmation (app.py:101, 118, 131) |
| `ChatApp.QuestionOf` | app.py:61-65 | the `not data or 'question' not in data` test: only a JSON object holding a `question` field yields a question, and then exactly that field's text (`data['question']`); null, `{}` and an object without the field yield none |
| `ChatApp.ChatService.constructor` | app.py:15-16 | the service starts with an empty history, within the bound |
| `ChatApp.ChatService.Ask` | app.py:56-106 | an unparsable body gives a server error. A null body, an empty object or a missing `question` field gives a 400 with the source's message. A failed model call gives a server error. In those three cases the history is unchanged. On success the model received `Contextualize(old history, question)`, the history becomes `AppendTurn(old history, Turn(raw question, reply))`, and the reply comes back with the new history. The 10-turn bound is preserved |
| `ChatApp.ChatService.GetHistory` | app.py:115-118 | reports the current history and a count equal to its length (at most 10) with status 200, and changes nothing |
| `ChatApp.ChatService.Clear` | app.py:126-131 | the history becomes empty and the confirmation message is returned |

`ChatApp.FirstQuestionScenario`, `ChatApp.SecondQuestionScenario` and
`ChatApp.RejectAndClearScenario` are clients of the class, with no contracts
of their own. Their proved assertions follow one exchange: two questions, a
request whose JSON body is `null` (a 400), a request whose body cannot be
parsed (a 500), a clear. The model there echoes its prompt, so the
assertions can state what the second prompt contained.

## Left out

- Environment-variable validation (app.py:19-27), constructing the Azure model and the prompt template with its fixed system message (app.py:30-46), and server start-up (app.py:134-136): configuration and foreign library calls.
- The model call (app.py:81-84) is only the opaque prompt-to-reply function described above. Its response object is not modelled: the reply is the content string.
- Both `print` calls (app.py:66, app.py:84) are not modelled. Questions and answers are Unicode-scalar strings, so Python strings holding lone surrogates, and the 500 a failing `print` would cause, are outside the model.
- Exception messages built from Python type names (app.py:103-106): every server error is the single value `ServerError`.
- Flask routing and JSON serialisation: a reply is a `Response` value, and `Status` gives its HTTP code.
- Request bodies that are JSON but not objects (arrays, strings, numbers), and `question` values that are not strings: the body is modelled as a map from field names to strings.
- Which inputs make Flask's `get_json` raise rather than return `None` depends on the Flask version. The model covers both outcomes (`Unreadable`, `Null`) without deciding which one an input produces.
- Concurrency: the global list is shared across requests without locking. The model runs one request at a time.
- Sessions, login, persistence to files and personas do not appear in app.py and are not modelled.
