# Citizen report ingestion: the `/submit` handler

This project models the decision logic of the `POST /submit` endpoint of the
citizen-report ingestion agent. A submission arrives as a multipart form. Its
text fields go into a field map. An `audio` file part is sent to a speech
recogniser, and its transcript is stored as `reportText`. When the parser
signals `finish`, the handler picks the text to use: the `description` field
if it is non-empty, otherwise `reportText`. It then either rejects the request
(400) or does four things: asks a summariser for a one-sentence summary,
assembles a structured report, posts the report to a validation agent, and
relays that agent's answer (200) or the failure (500).

The model is functional:

- `JsText` gives JavaScript `split` with a one-character separator and `join`, and proves they invert each other.
- `Transcription` flattens a recognition response into text.
- `Report` holds the pure parts of the `finish` callback: text selection, the prompt, the `photo_urls` list and the report record.
- `Submit` runs a request as a sequence of callback events (`Field`, `FilePart`, `Finish`) over the shared state (field map, `reportText`). The first `Finish` answers from the state at that moment. The outcome records the one response sent (if any) and the external calls attempted, in order.

Inputs stand in for the external services. Recognition results are carried by
the `FilePart` event, which marks when they come back. The summariser is a
function from prompt to an optional summary, where no summary means the call
rejected. The validation POST is a function from report to a `ForwardResult`.

The code does not trim text and has no barrier that waits for transcription,
even though one might expect both. The model
follows the code: a whitespace-only `description` counts as present, and a
transcript that arrives after `finish` is ignored (see Findings).

## Model

| member | source | states |
|---|---|---|
| JsText.Split | index.js:59 | `split(',')`: the piece count is the separator count plus one, no piece contains the separator, and empty pieces are kept |
| JsText.JoinSplit | index.js:59 | joining the pieces of `s.split(sep)` with `sep` gives back `s` exactly, for every string `s` (no trimming) |
| JsText.SplitJoin | index.js:59 | splitting the join of one or more separator-free pieces gives back exactly those pieces |
| JsText.SplitUnique | index.js:59 | the pieces of `s.split(sep)` are the only separator-free list of one or more pieces that joins back to `s`, so being comma-free and joining back to the field pins the parsed list down |
| Transcription.TopAlternatives | index.js:37 | one entry per recognised segment, in order, each being that segment's first (top) alternative |
| Transcription.Transcript | index.js:37 | zero segments give `''`; one segment gives its top alternative unchanged |
| Transcription.TranscriptAppendsInOrder | index.js:37 | segments are joined in result order: one more segment appends `'\n'` and its top alternative |
| Transcription.TranscriptSplitsIntoSegments | index.js:37 | if no top alternative contains a newline, splitting the transcript on `'\n'` recovers exactly the top alternatives |
| Report.Get | index.js:44 | reading `fields.<name>` gives `undefined` exactly when no field of that name was received, and otherwise its stored value |
| Report.SourceText | index.js:44 | `description \|\| reportText`: a non-empty description wins over any transcript; an absent or `''` description falls through to `reportText`; the result is empty exactly when both are empty |
| Report.Prompt | index.js:50 | the prompt is the fixed instruction prefix, then the text verbatim, then a closing quote |
| Report.PromptRoundTrip | index.js:50 | the text can be read back from the prompt, so distinct texts give distinct prompts |
| Report.PhotoUrls | index.js:59 | an absent or empty `photo_urls` gives `[]`; otherwise the pieces are comma-free, there are (commas + 1) of them, and joining them with `','` reproduces the field |
| Report.PhotoUrlsRoundTrip | index.js:59 | a list of comma-free URLs sent joined by commas parses back to the same list |
| Report.Assemble | index.js:54-61 | `citizen_id` and `location` are copied verbatim or stay absent; `original_text` is the chosen text; `summary` is the summariser's answer unchanged; `photo_urls` is `[]` for an absent or empty field and otherwise comma-free pieces, one more than the commas, joining back to the field, which is the split by `SplitUnique` |
| Submit.Step | index.js:22-40 | a field event sets only that key, replacing any earlier value, and leaves other keys alone; only an `audio` file part changes `reportText`, replacing it with that part's transcript |
| Submit.ReplayKeepsLastWrites | index.js:19-38 | after any sequence of callbacks, each field holds its last received value (or is absent), and `reportText` is the transcript of the audio part whose recognition resolved last (or `''`) |
| Submit.Reply | index.js:64-69 | a delivered POST gives 200 with the downstream body verbatim; a failed POST gives 500 with `error = "Failed to call validation agent."` and `details` equal to the failure message |
| Submit.Handle | index.js:42-69 | 400 with `{error: "No text or audio provided."}` and no external call exactly when the chosen text is empty; otherwise it asks the summariser about the prompt for that text; if that call rejects, nothing is forwarded and no response is ever sent; if it answers, a report carrying the text, the summary and the copied fields is posted and the response is mapped from the POST's result |
| Submit.SnapshotAtFinish | index.js:31-46 | the answer depends only on the state when the first `finish` runs; events after it, such as a late transcript, change neither the report nor the status |
| Submit.NoFinishNoResponse | index.js:42 | a request whose parser never emits `finish` is never answered |
| Submit.DescriptionWins | index.js:22-44 | over a whole request, if the last `description` before `finish` is non-empty, the summarised text is that description, and once the summariser answers it is also the report's original text, whatever audio was sent |
| Submit.NoInputRejected | index.js:44-47 | with no non-empty description before `finish`, the request is rejected with 400 and no calls exactly when the transcript stored last before `finish` is empty, or none was stored |
| Submit.SettledIgnoresFinishPosition | index.js:42-44 | corrected handler: once every callback has run, the answer uses the final state, wherever `finish` fell in the sequence |
| Submit.LateTranscriptIsLost | index.js:31-46 | as written, an audio-only request whose transcript returns after `finish` is rejected 400, while the corrected handler summarises the transcript |
| Submit.MissingAxiosForward | index.js:65 | as written, the forwarding call always fails with the message `axios is not defined` |
| Submit.AsWrittenNeverRelays | index.js:64-69 | as written, a request that is answered at all is answered 400 or 500, never 200 |
| Submit.DeliveredIsRelayed | index.js:64-66 | corrected: with a working client, non-empty text, an answering summariser and a delivered POST give 200 with the downstream body unchanged |

## Left out

- Multipart parsing and HTTP hosting (index.js:2, 5, 7, 18, 72). These are library I/O. Their output is the event sequence that `Submit.Run` consumes.
- Real asynchrony. Callbacks are modelled as an ordered trace, so the trace order stands in for the event loop's interleaving. Field events never follow `finish` in practice. The model accepts them but ignores them, like everything else after the first `finish`.
- External services. Speech recognition (index.js:33-36), the generative model (index.js:51) and the validation POST (index.js:65) are inputs rather than code.
- A rejected recognition call (index.js:33). It stores nothing, which is the same as having no `FilePart` event for that part. The unhandled rejection itself is not modelled.
- The parser's own contract that it emits `finish` only after every file stream has been read to its end. The handler never reads a file part other than `audio` (index.js:26-39), so in the running program a request with such a part is never answered. This behaviour belongs to the parser library and is not part of this model. Three consequences:
  - Traces with a non-audio `FilePart` before `Finish` do not occur in practice. Such requests belong with `NoFinishNoResponse`, although `Run` answers them.
  - The audio stream has been read by the time `finish` fires, but the recognition call is still pending. So a transcript arriving after `finish` is the usual order, not the exception.
  - The source reads `citizen_id`, `location` and `photo_urls` only after awaiting the summariser (index.js:55-59). Reading them from the state at `Finish` gives the same values only because no field event follows `finish`.
- Audio bytes. Chunk buffering, `Buffer.concat` and base64 encoding (index.js:29-32) are byte plumbing. The recognition configuration (index.js:35) is a constant passed to the service.
- Malformed service responses. A recognition segment with no alternatives (index.js:37) and a summariser reply without candidates or parts (index.js:52) throw unhandled errors in the source. The `Recognized` subset type excludes the first. The second ends like a rejected summariser call, with no response sent: the summariser input answers `None` for it. The same holds if the summariser's result cannot be destructured as `const [result]` at index.js:51.
- Global configuration: the project id, region, model name and validation URL (index.js:8-15).
- JSON encoding. `undefined` report properties are `None`, and the encoder drops them. A downstream body is relayed as an opaque string.
- Object-property quirks of the field map. A form field named `__proto__` is not stored by a plain JavaScript object. The model stores it like any other name. The handler reads only `description`, `citizen_id`, `location` and `photo_urls`, so the difference cannot be observed.
- The downstream status code. The source answers 200 for any successful POST, whatever 2xx status the validation agent returned, and the model does the same.

## Findings

| source | as written | input that shows it | evidently intended | confidence | as-written member | corrected member |
|---|---|---|---|---|---|---|
| index.js:31-46 | `finish` reads `reportText` at once, but the transcript is assigned only after the recognition call resolves, which is normally after `finish` | an audio-only submission whose transcript arrives after `finish` (`LateAudio`): answered 400 "No text or audio provided." | wait for the audio transcription to settle before choosing the text, as the comment at index.js:43 says ("Otherwise, use transcribed text") | high (not executed) | Submit.LateTranscriptIsLost | Submit.SettledIgnoresFinishPosition |
| index.js:65 | `axios.post` is called but `axios` is never required, so the call throws a ReferenceError that the catch turns into a 500 | a submission with a non-empty `description` whose summariser call answers | forward the report with an imported HTTP client and relay the answer with 200 | high (not executed) | Submit.AsWrittenNeverRelays | Submit.DeliveredIsRelayed |
