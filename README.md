# Mock-interview back end, modelled in Dafny

The back end of the interview-practice application (`back-end/index.js`)
holds one conversation per socket connection. The client submits a resume,
a job description and an interviewer voice. The server builds a system
prompt and asks a chat model to open the interview. The reply is spoken
through a speech service and sent back as an `audio-response`. After that,
every recorded answer goes through one *audio turn*:

1. write the clip as `audio-<uuid>.webm` and convert it to `audio-<uuid>.wav`;
2. upload the `.wav` file to the object store and delete both local files;
3. start a transcription job, poll it until it completes, and read the
   transcript out of the job's result document;
4. append the transcript to the chat history and ask the model;
5. have the reply spoken and emit it.

The first failing step ends the turn silently. When the interview ends,
the model is asked for a report, which is emitted as `end-response`.

The project models this pipeline. Every external service is an oracle: its
answer for a turn is a parameter. A `bool` or `Option` stands for success
or failure, and a finite sequence of answers stands for the job-status
polls. Every request the server sends is appended to a trace, `Host.calls`,
so which services a turn reached, and in what order, is observable state.
The socket's state is a class, `Socket`, holding the chat history and the
events emitted to the client. The server's state is a class, `Host`,
holding its local files and the request trace.

Files:

- `results.dfy`: `Option`, `Outcome` (the `{isSuccessful, ...}` records) and bytes.
- `naming.dfy`: the file, job, key and URI names, and JavaScript's
  first-occurrence `String.prototype.replace`.
- `json.dfy`: JavaScript values, bracket property access (which throws on
  `undefined`/`null`), and the transcript path.
- `polling.dfy`: the verdict of the job-status poll loop.
- `audio.dfy`: concatenation of the speech stream's chunks.
- `chat.dfy`: messages, the system prompt, one model call's effect on the
  history, and the history's invariant.
- `pipeline.dfy`: the step methods and the three handlers over `Socket`
  and `Host`. It also holds the functions that describe a whole audio turn
  (`TurnEndOf`, `HistoryAfterTurn`, `FilesAfterTurn`, `CallsAfterTurn`)
  and the lemmas about them.

`InteractionPipelineLoop` and `HandleStartInterview` both run the same three
steps near their end: ask the model, have the reply spoken, emit the audio
(index.js lines 424-442 and 470-489). The model writes these steps once, as
`ReplyAloud`, and both handlers call it. `HandleStartInterview` then also
emits `upload-status`.

Behaviour of the code that the model follows, though one might expect
otherwise:

- No guard stops a second audio turn from starting while one is running.
  The handlers are fired and not awaited.
- A failed model call leaves the user message in the history. The next
  successful call therefore sends two user messages in a row.
- The opening turn sends an empty user message.
- No step failure is reported to the client. There is no error event; the
  failure is only logged.
- The `.webm` file is deleted only by the upload step. An empty clip, or a
  failed conversion, leaves it on disk.
- The poll loop has no delay and no deadline. A `FAILED` job status is
  polled again, like any status other than `COMPLETED`.
- A speech stream that delivers no chunk counts as a success, with an empty
  buffer.
- The interviewer voice comes with every audio event, not only once per
  interview.
- When the first transcript entry has no `transcript` field, reading it
  gives `undefined`, which does not throw. The step reports success, and the
  model call turns the `undefined` message into `""`. The step fails
  only when `results`, `transcripts` or the first entry is missing or
  `null`, or when the fetch or the parse of the result document fails.

## Model

| member | source | states |
|---|---|---|
| Naming.FindFrom | back-end/index.js:143 | the result is the first index at or after `i` where the pattern occurs, and `None` exactly when it occurs nowhere from `i` on |
| Naming.TwinOfWavIsWebm | back-end/index.js:69-70 | when the uuid has no `.wav` in it, replacing the first `.wav` of `audio-<uuid>.wav` by `.webm` gives exactly the name the clip was written under |
| Naming.TwinMissesWebm | back-end/index.js:143 | when the uuid does contain `.wav`, the name the upload step deletes is not the `.webm` file of the turn |
| Naming.WavFileNameInjective | back-end/index.js:69 | distinct uuids give distinct `.wav` files, and so distinct object keys for the uploaded audio |
| Naming.WebmFileNameInjective | back-end/index.js:70 | distinct uuids give distinct `.webm` files for the received clips |
| Naming.JobNameInjective | back-end/index.js:157 | distinct uuids give distinct job names |
| Naming.ResultKeyInjective | back-end/index.js:221 | distinct uuids give distinct result-object keys |
| Naming.AudioKeyIsNeverResultKey | back-end/index.js:128 | the key an audio file is uploaded under is never the key of a job's result object |
| Naming.WavAndWebmDiffer | back-end/index.js:69-70 | the two local files of a turn have different names |
| Naming.JobNamesDistinct | back-end/index.js:157 | pairwise distinct uuids give pairwise distinct job names |
| Naming.MediaFileUriInjective | back-end/index.js:165 | within one bucket, distinct files get distinct media URIs |
| Json.Decimal | back-end/index.js:223 | an array index becomes the property name of its decimal digits: digits only, no leading zero, denoting the index |
| Json.Member | back-end/index.js:223 | reading a property throws exactly when the value is `undefined` or `null` |
| Json.WalkThrowsIffNullishStep | back-end/index.js:223 | a chain of property reads throws exactly when one of the intermediate values is `undefined` or `null` |
| Json.TranscriptOfResultDocument | back-end/index.js:223-228 | a result document of the expected shape yields its first transcript as a success |
| Json.MissingResultsFails | back-end/index.js:229-235 | a document without `results` makes the step fail |
| Json.NullEntryFails | back-end/index.js:223-235 | a `null` first transcript entry makes the step fail, although the entry is present |
| Json.NoTranscriptsFails | back-end/index.js:229-235 | an empty `transcripts` list makes the step fail |
| Json.MissingTranscriptFieldIsUndefined | back-end/index.js:223-228 | a first entry without a `transcript` field gives success with `undefined`, not a failure |
| Polling.AwaitFrom | back-end/index.js:189-208 | the loop succeeds at the first `COMPLETED` answer and fails at the first throw; every answer before that was another status; it is still polling when every answer so far was undecided |
| Polling.UndecidedPollsAgain | back-end/index.js:190-200 | any status other than `COMPLETED` leads to one more request, with the verdict of the remaining answers |
| Polling.FailedJobIsPolledAgain | back-end/index.js:195 | a `FAILED` job is polled again, not reported |
| Polling.AwaitIgnoresLaterAnswers | back-end/index.js:196-205 | once the loop has returned, answers to requests it never made do not change its verdict |
| Audio.FlattenAppend | back-end/index.js:334 | concatenating two runs of chunks concatenates their bytes |
| Audio.ChunkInPlace | back-end/index.js:326-334 | every chunk appears unchanged in the buffer, right after the bytes of the chunks before it |
| Audio.ConvertAudioStreamToBuffer | back-end/index.js:323-345 | the buffer is the in-order concatenation of all chunks received, and is a success even for zero chunks |
| Chat.PromptEmbedsSubmission | back-end/index.js:459-467 | the system prompt contains the interviewer name, the job description and the resume verbatim, at their places in the template |
| Chat.AfterChat | back-end/index.js:290-300 | a model call keeps every earlier message. It appends the user message (`""` for an undefined message), then the reply when the call succeeded: two entries on success, one on failure |
| Chat.OpeningHistoryWellFormed | back-end/index.js:457-468 | the history set up by the submit handler is well formed: one system message first |
| Chat.ChatPreservesWellFormed | back-end/index.js:290-300 | a model call, successful or not, keeps the history well formed: one system message, first, and every assistant message right after a user message |
| Chat.OpeningTurn | back-end/index.js:457-471 | after a successful opening turn the history is `[system, user(""), assistant(reply)]` |
| Chat.FailedCallLeavesUnansweredUserMessage | back-end/index.js:290-314 | a failed call followed by a successful one leaves two user messages side by side |
| Pipeline.InStepOrderMeans | back-end/index.js:395-443 | the step-order predicate means: requests ordered by step, none after step `k` |
| Pipeline.StatusRequests | back-end/index.js:190-194 | `n` polls send `n` requests, each for the status of the same job |
| Pipeline.JobRequests | back-end/index.js:247-278 | every request of the transcription step belongs to that step |
| Pipeline.ChatRequests | back-end/index.js:290-296 | the model is asked once when a history exists and not at all otherwise |
| Pipeline.TranscribeOutcome | back-end/index.js:247-278 | the transcription step yields a transcript exactly when the job started, the poll loop saw it complete and the result yielded a transcript; it is still waiting exactly while the poll loop runs |
| Pipeline.ReplyEnd | back-end/index.js:424-442 | speech is requested exactly when a history exists and the model replied; the turn responds exactly when the speech service also answered |
| Pipeline.TurnEndOf | back-end/index.js:395-443 | the first failing step ends the turn. A turn gets past a step only if that step succeeded; past the upload only with a successful put and a clean-up that found both files. One stopped at a step stopped because that step failed: an empty or unconverted clip, a failed put, no transcript, no history or no reply, no speech. It is `Pending` exactly while the poll loop runs, and `Rejected` only when the clean-up misses a file |
| Pipeline.TurnRespondsIffAllSucceed | back-end/index.js:395-443 | unless the uuid contains `.wav`, a turn emits its `audio-response` exactly when conversion, upload, job start, polling, transcript, model call and speech all succeed |
| Pipeline.TurnIsNeverRejected | back-end/index.js:140-144 | for a uuid without `.wav`, the upload step's clean-up always finds both files, so the turn never ends in a rejected promise |
| Pipeline.TurnHistory | back-end/index.js:420-430 | a turn that ends before the model step leaves the history untouched. One whose model call failed leaves the user message appended. One that got further has the user message and the reply appended |
| Pipeline.TurnKeepsHistoryWellFormed | back-end/index.js:424-430 | however a turn ends, a well-formed history stays well formed |
| Pipeline.TurnRequestsInStepOrder | back-end/index.js:395-443 | a turn's requests go out in step order, and none belongs to a step after the one that ended the turn |
| Pipeline.CallsAfterTurnAppends | back-end/index.js:395-443 | a turn only appends to the requests sent before it |
| Pipeline.EmptyClipIsDropped | back-end/index.js:73-81 | an empty clip stops the turn at conversion with no request sent and the history unchanged; only its `.webm` file is written |
| Pipeline.TurnFiles | back-end/index.js:140-144 | a converted clip's turn leaves neither of its files behind, whether the upload succeeded or not (uuid without `.wav`); a turn stopped at conversion leaves its `.webm` file |
| Pipeline.Unlink | back-end/index.js:142-143 | deleting reports whether the file existed, and removes it |
| Pipeline.CreateAudioFileFromBuffer | back-end/index.js:67-114 | an empty clip fails before any conversion request and deletes nothing. Otherwise the result names `audio-<uuid>.wav` exactly when conversion succeeded; the new files are stated in full |
| Pipeline.UploadAudioFileToS3 | back-end/index.js:123-145 | the put sends the file's own bytes under its own name. Afterwards the file and its twin are gone whether the put succeeded or not. A missing file makes the clean-up throw |
| Pipeline.CreateTranscriptionJob | back-end/index.js:156-181 | the job `PrepifyTranscriptionJob-<uuid>` is started on the uploaded object's URI, writing to the same bucket, and its name is returned on success |
| Pipeline.AwaitJobCompletion | back-end/index.js:189-208 | the loop's verdict is that of `Polling.Await`, and exactly one status request goes out per poll made |
| Pipeline.GetTranscriptionFromS3 | back-end/index.js:217-236 | the object `<jobName>.json` is fetched and the result is the transcript read out of it |
| Pipeline.TranscribeAudioFile | back-end/index.js:247-278 | the step ends as `TranscribeOutcome` says, sending the job start, then its polls, then the fetch only after a completed job |
| Pipeline.ChatWithOpenAI | back-end/index.js:287-315 | with no history the call fails at once with nothing appended and no request. Otherwise the history becomes `AfterChat` of the old one, the model receives the history with the user message appended, and the reply is the result |
| Pipeline.GetAudioBufferFromPolly | back-end/index.js:354-378 | speech is requested for the text in the given voice, and the result is the concatenated stream |
| Pipeline.ReplyAloud | back-end/index.js:424-442 | ask the model, then speech, then emit: exactly one `audio-response` when both answer, nothing emitted otherwise |
| Pipeline.InteractionPipelineLoop | back-end/index.js:395-443 | the end, the history, the files and the request trace of a turn are those of `TurnEndOf`, `HistoryAfterTurn`, `FilesAfterTurn` and `CallsAfterTurn`, and exactly one `audio-response` is emitted only when the turn responded |
| Pipeline.HandleStartInterview | back-end/index.js:455-494 | the history is replaced by the system prompt, then the opening call's effect; the result is well formed; the audio and then the start status are emitted only when model and speech both succeeded |
| Pipeline.HandleEndInterview | back-end/index.js:502-521 | the report request is appended as a user message and sent with the whole history; the report is emitted only when the model replied |

## Left out

- The services themselves: ffmpeg, the object store, the transcription
  service, the chat model and the speech service. Each is an oracle
  parameter, and its request is recorded in `Host.calls`.
- Concurrency: the socket handlers are fired and not awaited, so turns of
  one connection can interleave. The model runs one handler at a time.
- Transport and bootstrap: the web server, the socket server, the
  environment variables (the bucket is a parameter), the `start`, `stop`
  and `disconnect` events (they only log), and all logging.
- The uuid comes from a random generator. It is a parameter of the turn.
- The wording of the interviewer brief and of the report request is not
  modelled; placeholder constants stand in for it. The labels that place
  the job description and the resume in the prompt are kept.
- Audio formats: conversion options, sample rate and mp3 output are not
  modelled. A failed conversion is modelled as writing no `.wav` file,
  although ffmpeg may leave a partial one.
- Errors of the speech stream: `convertAudioStreamToBuffer` listens only
  for `data` and `end`. An `error` event with no listener is thrown by the
  stream's event emitter as an uncaught exception, which ends the process;
  the promise itself never settles. Neither is modelled: the speech answer
  is either a whole stream or a failed request.
- The model's reply is a string. A `null` message content, or an
  unexpected response shape, is treated as a failed call.
- Bracket access on arrays and strings is modelled for indices only. A
  named property of one (`length`, say) reads as `undefined`.
- JSON numbers are floating point. `Json.Num` holds an integer instead;
  a number reaches the model only as a transcript value, where its precision
  plays no part in any property stated here.
- A `Rejected` turn is a promise that rejects, and nothing awaits or catches
  it (index.js lines 540, 548 and 556); under Node's default
  handling of unhandled rejections (Node 15 on), this ends the server
  process. The model records the turn end as `Rejected` and stops there.
  Such a turn needs a uuid containing `.wav`, or a `.wav` file that
  disappeared before the upload (`Pipeline.TurnIsNeverRejected`).
- Polling.AwaitFrom: a loop that never sees `COMPLETED` never returns.
  Over a finite list of answers this shows as `StillPolling`, and as a
  `Pending` turn that has sent a request for every answer.
- Pipeline.TurnRespondsIffAllSucceed: stated only for uuids without
  `.wav`, which is every uuid the generator produces. For other uuids the
  upload step's clean-up can throw even when every service succeeds
  (`Naming.TwinMissesWebm`).
