# Foundry Local chat streamer, modelled in Dafny

This project models the chat-turn streamer of `fl-stream-gradio.py`. That is a
Gradio front end that streams a locally served language model's reply into a chat
window. Its logic is in two handlers:

- `generate_response(user_prompt, history)` does four things in order.
  - It projects the conversation history into a role-tagged message list. Each
    `(prompt, reply)` pair becomes a `user` entry `"User: " + prompt`, plus an
    `assistant` entry `"Assistant: " + reply` when the reply is non-empty. The new
    prompt goes last. The list is built (lines 41-48) before the new turn is
    appended (line 51), so the request never contains the new, empty turn.
  - It appends `(user_prompt, "")` to the history in place and yields a first UI
    update. That update clears the input box and disables the Submit and Clear
    buttons.
  - It folds the streamed chunks into `partial_answer`. A chunk whose delta or
    content is missing or empty is skipped. The first non-empty fragment is
    left-stripped, and every later one is appended verbatim. After each non-empty
    fragment it overwrites the last history entry and yields.
  - It yields a last update with both buttons enabled again.
- `clear_fields()` returns an empty chatbot, an empty input and an empty history.

The model has two modules.

- `PyStr` (`pystr.dfy`) models Python's `str.lstrip()` without arguments. It uses
  the whitespace table of CPython's `str.isspace()`.
- `Streamer` (`streamer.dfy`) models the two handlers.
  - The mutable history list becomes the class `History`, whose `turns` field
    `GenerateResponse` updates in place. It appends one turn, then overwrites the
    last entry after each fragment.
  - The message list is built by a loop (`BuildMessages`). It is proved equal to the
    projection function `Projection` of the history, followed by the new prompt.
  - The streaming loop (`StreamTurn`) is proved against the fold `Run` over the
    chunks.
  - `Run` is in turn proved equal to an independent reference: `ExpectedReply`,
    which is `lstrip(f1) + f2 + ... + fn` over the non-empty fragments `f1..fn`.
  - Each yielded tuple is a `Snapshot` value. It holds the chatbot content, the
    input value, the two button flags and the state output. The whole sequence of
    yields is the function `Snapshots`.

The backend stream is an input `seq<Chunk>`. A `Chunk` carries an optional `Delta`,
which carries optional content, so the model can represent `delta` being absent and
`delta.content` being `None`.

## Model

| member | source | states |
|---|---|---|
| PyStr.LStrip | fl-stream-gradio.py:74 | `lstrip()` returns a suffix of its argument. Everything it cuts off is whitespace, and the result does not start with whitespace. |
| PyStr.LStripUnique | fl-stream-gradio.py:74 | Those facts determine the result: for a whitespace run `w` followed by `rest`, where `rest` does not start with whitespace, `lstrip(w + rest) == rest`. |
| PyStr.LStripIdempotent | fl-stream-gradio.py:74 | A general property of `lstrip()`, not one the streamer relies on: left-stripping an already stripped string changes nothing. |
| Streamer.ProjectionLength | fl-stream-gradio.py:41-45 | The projected history has one entry per pair plus one per non-empty reply. |
| Streamer.ProjectionUsers | fl-stream-gradio.py:42-43 | The `user` entries of the projection are the history's prompts, in order, each prefixed `"User: "`. |
| Streamer.ProjectionAssistants | fl-stream-gradio.py:44-45 | The `assistant` entries are exactly the non-empty replies, in order, each prefixed `"Assistant: "`. Empty replies contribute nothing. |
| Streamer.BuildMessages | fl-stream-gradio.py:41-48 | The loop yields the projection of the old history followed by `user "User: " + user_prompt`. Its length is the number of pairs plus the number of non-empty replies plus one, and the last entry is the new prompt. The user contents are the old prompts followed by the new one. The assistant contents are the non-empty replies. |
| Streamer.RunMatchesReference | fl-stream-gradio.py:71-76 | After any prefix of the stream, `partial_answer` is `lstrip(f1) + f2 + ... + fk` over the non-empty fragments so far. `first_chunk` is still set exactly when there were none. |
| Streamer.RunShownMatchesReference | fl-stream-gradio.py:71-85 | The replies shown in the loop are, one per non-empty fragment, the reference reply of the fragments up to that one. |
| Streamer.ShownMatchesReference | fl-stream-gradio.py:71-85 | There are as many shown replies as non-empty fragments, and the k-th is the reference reply of the first k fragments. |
| Streamer.RunRepliesGrow | fl-stream-gradio.py:71-85 | Each shown reply is a prefix of every later one and of `partial_answer`. The last one shown equals `partial_answer`, and with none shown `partial_answer` is empty. |
| Streamer.EmptyChunkIgnored | fl-stream-gradio.py:72-73 | Inserting a chunk with missing or empty content anywhere changes nothing. It adds no shown reply, leaves `partial_answer` as it was and does not clear `first_chunk`. |
| Streamer.WhitespaceFirstFragment | fl-stream-gradio.py:74-76 | If the first non-empty fragment is all whitespace, `first_chunk` is still cleared. The reply is then the later fragments verbatim, leading whitespace included. |
| Streamer.FirstShownReplyStripped | fl-stream-gradio.py:74-77 | The first reply shown is the first non-empty fragment left-stripped, and it has no leading whitespace. |
| Streamer.SnapshotCount | fl-stream-gradio.py:54-94 | A call yields exactly two more tuples than there are non-empty fragments. |
| Streamer.SnapshotFlags | fl-stream-gradio.py:54-94 | Every yield sets the input to `""` and sends the same history as chatbot content and as state. Both buttons are interactive in the last yield and in no other. |
| Streamer.SnapshotHistoryShape | fl-stream-gradio.py:51-94 | Every yielded history is the old history unchanged, followed by one turn whose prompt is `user_prompt`. Only the last entry is ever written. |
| Streamer.FirstSnapshot | fl-stream-gradio.py:51-60 | The first yield shows the new turn with an empty reply, the input cleared and both buttons disabled. |
| Streamer.FinalSnapshot | fl-stream-gradio.py:87-94 | The last yield shows the new turn holding the reference reply `lstrip(f1) + f2 + ... + fn`, with both buttons enabled. |
| Streamer.FinalRepeatsPrevious | fl-stream-gradio.py:77-94 | The last yield repeats the history of the one before it, which still has both buttons disabled. Only the buttons change at the end. |
| Streamer.SnapshotRepliesGrow | fl-stream-gradio.py:54-94 | Across the yields, the reply of the turn in flight only grows: each is a prefix of every later one. |
| Streamer.SnapshotReplyAt | fl-stream-gradio.py:71-85 | The yield for the k-th non-empty fragment shows the reference reply of the first k fragments. |
| Streamer.StreamTurn | fl-stream-gradio.py:51-94 | Appending the turn, the streaming loop and the yields leave the history one turn longer, holding the folded reply. The returned yields are exactly `Snapshots` of the old history, the prompt and the stream. |
| Streamer.GenerateResponse | fl-stream-gradio.py:30-94 | The request carries the old history's projection plus the new prompt. The history ends one turn longer, holding `(user_prompt, lstrip(f1) + f2 + ... + fn)`. The yields are `Snapshots` of the old history. |
| Streamer.ClearFields | fl-stream-gradio.py:97-99 | `clear_fields` returns an empty chatbot, an empty input and an empty history, whatever came before. |
| Streamer.SubmitAfterClear | fl-stream-gradio.py:97-99 | After a clear, the next request carries only the new prompt, and every yield of that call shows a one-turn history. |
| Streamer.HelloThereExample | fl-stream-gradio.py:71-77 | Fragments `" Hello"`, `" there"`, `"!"` give the reply `"Hello there!"`. |
| Streamer.FirstTurnExample | fl-stream-gradio.py:30-94 | A call on a fresh, empty chat state with prompt `"hi"` and a chunk without a delta sends the request `user "User: hi"`. It leaves the state as `[("hi", "")]` and yields twice, the second time with the buttons enabled. |
| Streamer.EmptyStreamExample | fl-stream-gradio.py:51-94 | A stream with no chunks yields twice: the empty new turn with the buttons disabled, then the same history with the buttons enabled. |
| Streamer.TwoTurnExample | fl-stream-gradio.py:41-48 | History `[("a", "b")]` and prompt `"c"` give the request `user "User: a"`, `assistant "Assistant: b"`, `user "User: c"`. |

## Left out

- Model and service setup (fl-stream-gradio.py:11-24): the `FoundryLocalManager`, the OpenAI client and the model-id lookup are foreign calls.
- The streaming request (fl-stream-gradio.py:63-68): the network transport, `max_tokens=4096`, the model id and inference are external. The chunks it returns are the `stream` parameter.
- `chunk.choices[0]` is assumed to exist. A chunk with an empty `choices` list would raise `IndexError` in the source, and the model has no such chunk.
- Exceptions while streaming are not modelled. If iteration raises, the source leaves the partial turn in the history and the buttons disabled. The model's stream always ends normally.
- Empty-prompt validation is not modelled, because the code has none: any prompt, including `""`, is accepted.
- Gradio layout, CSS, event wiring, `gr.State([])`, `demo.queue()` and `demo.launch()` (fl-stream-gradio.py:101-157) are UI and server plumbing.
- quickstart.py is not part of this model. It is a single blocking SDK call and a print.
- Aliasing: every yield in the source passes the same list object twice, as chatbot and as state, and Gradio reads it when it renders. The model records each yield as a value taken at yield time. It does not capture that a consumer holding an earlier yield's list sees later overwrites.
- `gr.update(...)` values are modelled only by the field they set: the input value or the `interactive` flag.
- Concurrency between overlapping submissions is not modelled. Only the disabled buttons prevent it in the UI.
- PyStr.IsSpace follows CPython's whitespace table as a fixed list of code points. Other Unicode properties are not modelled.
