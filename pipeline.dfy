/**
 * The per-connection interaction pipeline of the back end (index.js lines
 * 67-521): the steps of one audio turn, the interview set-up turn and the
 * report turn, each over the state they change — the connection's chat
 * history and outbound events (`Socket`) and the server's local files and
 * outbound service requests (`Host`).
 *
 * Every external service is an oracle: its answer for the turn is a
 * parameter (`None`/`false` when the call throws), and the request itself
 * is appended to `Host.calls`, so that which services a turn reached is part
 * of the observable state.
 */
module Pipeline {
  import opened Results
  import opened Naming
  import opened Json
  import opened Polling
  import opened Audio
  import opened Chat

  /** The language code every audio turn asks the transcription service for. */
  const LanguageCode: string := "en-US"

  /** One request the back end sends to an external service. */
  datatype ServiceCall =
    | Transcode(source: string, target: string)
    | PutObject(bucket: string, key: string, body: seq<byte>)
    | StartTranscriptionJob(jobName: string, languageCode: string, mediaUri: string, outputBucket: string)
    | GetTranscriptionJob(jobName: string)
    | GetObject(bucket: string, key: string)
    | ChatCompletion(messages: seq<Message>)
    | SynthesizeSpeech(text: string, voiceId: string)

  /** One event emitted to the client: `audio-response`, `upload-status` or `end-response`. */
  datatype Emission = AudioResponse(audio: seq<byte>) | UploadStatus | EndResponse(report: string)

  /** The steps of an audio turn, in the order they run. */
  datatype Step = ConvertStep | UploadStep | TranscribeStep | ChatStep | SpeechStep

  /**
   * How an audio turn ended: with the `audio-response` emitted; stopped by
   * the failure of a step (the failure is only logged); `Rejected` when the
   * upload step's clean-up threw, so the turn's promise rejects; `Pending`
   * while the job-status poll loop is still running.
   */
  datatype TurnEnd = Responded | StoppedAt(step: Step) | Rejected | Pending

  /** What the upload step returns, or `CleanupThrew` when deleting a local file threw. */
  datatype UploadResult = Uploaded | NotUploaded | CleanupThrew

  /** The answers of the services for one audio turn. */
  datatype TurnOracles = TurnOracles(
    converted: Option<seq<byte>>,        // the `.wav` bytes ffmpeg writes, or its error
    putOk: bool,                         // whether the object store accepted the upload
    jobStarted: bool,                    // whether the transcription job was started
    polls: seq<PollOutcome>,             // the answers to successive job-status requests
    resultBody: Option<JsValue>,         // the parsed result object, or a fetch/parse error
    reply: Option<string>,               // the model's reply, or its error
    speech: Option<seq<seq<byte>>>)      // the chunks of the synthesized speech stream, or its error

  /** The state the back end keeps for one connection (`socket.data`, `socket.emit`). */
  class Socket {
    /** `socket.data.chat_history`; `None` until the interview is submitted. */
    var chatHistory: Option<seq<Message>>
    /** Every event emitted to this client, oldest first. */
    var emitted: seq<Emission>

    constructor ()
      ensures chatHistory == None && emitted == []
    {
      chatHistory := None;
      emitted := [];
    }
  }

  /** The server process: its working directory and the requests it sent. */
  class Host {
    var files: map<string, seq<byte>>
    var calls: seq<ServiceCall>

    constructor (files: map<string, seq<byte>>)
      ensures this.files == files && calls == []
    {
      this.files := files;
      calls := [];
    }
  }

  // ---------------------------------------------------------------------
  // The order of the services within an audio turn

  /** The step of an audio turn a request belongs to. */
  function StageOf(c: ServiceCall): nat {
    match c
    case Transcode(_, _) => 0
    case PutObject(_, _, _) => 1
    case StartTranscriptionJob(_, _, _, _) => 2
    case GetTranscriptionJob(_) => 2
    case GetObject(_, _) => 2
    case ChatCompletion(_) => 3
    case SynthesizeSpeech(_, _) => 4
  }

  function Rank(s: Step): nat {
    match s
    case ConvertStep => 0
    case UploadStep => 1
    case TranscribeStep => 2
    case ChatStep => 3
    case SpeechStep => 4
  }

  /** The last step a turn that ended this way has reached. */
  function LastStage(e: TurnEnd): nat {
    match e
    case Responded => 4
    case StoppedAt(s) => Rank(s)
    case Rejected => 1
    case Pending => 2
  }

  /**
   * The requests `cs` are in the order of the steps they belong to, and none
   * belongs to a step after step `k`.
   */
  predicate InStepOrder(cs: seq<ServiceCall>, k: nat) {
    cs == [] || (StageOf(cs[|cs| - 1]) <= k && InStepOrder(cs[..|cs| - 1], StageOf(cs[|cs| - 1])))
  }

  /** Every request in `cs` belongs to step `m`. */
  predicate AllOfStep(cs: seq<ServiceCall>, m: nat) {
    forall c :: c in cs ==> StageOf(c) == m
  }

  /** `InStepOrder` says what its name promises: ordered by step, bounded by `k`. */
  lemma {:induction false} InStepOrderMeans(cs: seq<ServiceCall>, k: nat)
    ensures InStepOrder(cs, k) <==>
      && (forall i, j :: 0 <= i <= j < |cs| ==> StageOf(cs[i]) <= StageOf(cs[j]))
      && (forall i :: 0 <= i < |cs| ==> StageOf(cs[i]) <= k)
  {
    if cs != [] {
      var n := |cs| - 1;
      var init := cs[..n];
      InStepOrderMeans(init, StageOf(cs[n]));
      assert forall i :: 0 <= i < n ==> init[i] == cs[i];
    }
  }

  lemma {:induction false} InStepOrderAppend(cs: seq<ServiceCall>, more: seq<ServiceCall>, k: nat, m: nat)
    requires InStepOrder(cs, k) && k <= m && AllOfStep(more, m)
    ensures InStepOrder(cs + more, m)
    decreases |more|
  {
    if more == [] {
      assert cs + more == cs;
      InStepOrderWeaken(cs, k, m);
    } else {
      var n := |more| - 1;
      assert (cs + more)[..|cs + more| - 1] == cs + more[..n];
      assert more[n] in more;
      InStepOrderAppend(cs, more[..n], k, m);
    }
  }

  lemma InStepOrderWeaken(cs: seq<ServiceCall>, k: nat, m: nat)
    requires InStepOrder(cs, k) && k <= m
    ensures InStepOrder(cs, m)
  {
  }

  /** Every step of an audio turn succeeds, given the history it starts from. */
  ghost predicate TurnSucceeds(audioData: seq<byte>, o: TurnOracles, historyDefined: bool) {
    && |audioData| > 0
    && o.converted.Some?
    && o.putOk
    && o.jobStarted
    && Await(o.polls).JobCompleted?
    && ExtractTranscript(o.resultBody).Succeeded?
    && historyDefined
    && o.reply.Some?
    && o.speech.Some?
  }

  /** The number of status requests the poll loop has made when it ends this way. */
  function Requests(r: PollResult, answered: nat): nat {
    if r.StillPolling? then answered else r.polls
  }

  /** `n` job-status requests for the job `jobName`. */
  function StatusRequests(jobName: string, n: nat): (r: seq<ServiceCall>)
    ensures |r| == n && forall c :: c in r ==> c == GetTranscriptionJob(jobName)
  {
    if n == 0 then [] else StatusRequests(jobName, n - 1) + [GetTranscriptionJob(jobName)]
  }

  /** The requests of the transcription step: start the job, poll it, fetch its result. */
  function JobRequests(uuid: string, audioFileName: string, languageCode: string, bucket: string,
                                 started: bool, answers: seq<PollOutcome>): (r: seq<ServiceCall>)
    ensures AllOfStep(r, Rank(TranscribeStep))
  {
    var job := JobName(uuid);
    [StartTranscriptionJob(job, languageCode, MediaFileUri(bucket, audioFileName), bucket)]
    + (if started then StatusRequests(job, Requests(Await(answers), |answers|)) else [])
    + (if started && Await(answers).JobCompleted? then [GetObject(bucket, ResultKey(job))] else [])
  }

  /**
   * The request of the model step: the whole history with the user message
   * appended; none when there is no history to append to.
   */
  function ChatRequests(history: Option<seq<Message>>, message: JsValue): (r: seq<ServiceCall>)
    ensures AllOfStep(r, Rank(ChatStep))
    ensures |r| == if history.Some? then 1 else 0
  {
    if history.None? then [] else [ChatCompletion(history.value + [Message(User, UserContent(message))])]
  }

  /** The history after a model call; with no history yet there is none after it either. */
  function ChatHistoryAfter(history: Option<seq<Message>>, message: JsValue, reply: Option<string>): Option<seq<Message>> {
    if history.None? then None else Some(AfterChat(history.value, message, reply))
  }

  // ---------------------------------------------------------------------
  // What one audio turn does, as functions of the state before it

  /**
   * Whether the upload step's clean-up succeeds on the local `files`: both
   * the uploaded file and, once it is gone, its twin exist.
   */
  predicate CleanupSucceeds(files: map<string, seq<byte>>, audioFileName: string) {
    audioFileName in files && TwinFileName(audioFileName) in files - {audioFileName}
  }

  /** The local files once the clip has been written and converted. */
  function ConvertedFiles(uuid: string, audioData: seq<byte>, files: map<string, seq<byte>>, wav: seq<byte>)
    : map<string, seq<byte>>
  {
    files[WebmFileName(uuid) := audioData][WavFileName(uuid) := wav]
  }

  /** How `transcribeAudioFile` ends: with a transcription, with a failure, or still polling the job. */
  datatype TranscribeResult = Transcribed(transcription: JsValue) | NotTranscribed | AwaitingJob

  /**
   * The verdict of the transcription step: a transcription exactly when the
   * job started, the poll loop saw it complete and its result yielded a
   * transcript; still waiting exactly while the poll loop runs.
   */
  function TranscribeOutcome(started: bool, answers: seq<PollOutcome>, body: Option<JsValue>): (r: TranscribeResult)
    ensures r.Transcribed? <==> started && Await(answers).JobCompleted? && ExtractTranscript(body).Succeeded?
    ensures r.Transcribed? ==> Succeeded(r.transcription) == ExtractTranscript(body)
    ensures r.AwaitingJob? <==> started && Await(answers).StillPolling?
  {
    if !started then NotTranscribed
    else
      match Await(answers)
      case StillPolling => AwaitingJob
      case PollFailed(_) => NotTranscribed
      case JobCompleted(_) =>
        match ExtractTranscript(body)
        case Failed => NotTranscribed
        case Succeeded(t) => Transcribed(t)
  }

  /** How the model and speech steps end. */
  function ReplyEnd(historyDefined: bool, reply: Option<string>, speech: Option<seq<seq<byte>>>): (e: TurnEnd)
    ensures LastStage(e) >= Rank(ChatStep)
    ensures LastStage(e) >= Rank(SpeechStep) <==> historyDefined && reply.Some?
    ensures e == Responded <==> historyDefined && reply.Some? && speech.Some?
  {
    if !historyDefined || reply.None? then StoppedAt(ChatStep)
    else if speech.None? then StoppedAt(SpeechStep)
    else Responded
  }

  /**
   * How an audio turn ends, from the local files before it, whether a chat
   * history exists, and the services' answers: the first step that fails
   * ends it.
   */
  function TurnEndOf(uuid: string, audioData: seq<byte>, files: map<string, seq<byte>>,
                     historyDefined: bool, o: TurnOracles): (e: TurnEnd)
    ensures LastStage(e) >= Rank(UploadStep) ==> |audioData| > 0 && o.converted.Some?
    ensures LastStage(e) >= Rank(ChatStep) ==> o.putOk && TranscribeOutcome(o.jobStarted, o.polls, o.resultBody).Transcribed?
    ensures LastStage(e) >= Rank(SpeechStep) ==> historyDefined && o.reply.Some?
    ensures e == Responded ==> o.speech.Some?
    ensures e == StoppedAt(ConvertStep) ==> |audioData| == 0 || o.converted.None?
    ensures e == StoppedAt(UploadStep) ==> !o.putOk
    ensures e == StoppedAt(TranscribeStep) ==> TranscribeOutcome(o.jobStarted, o.polls, o.resultBody).NotTranscribed?
    ensures e == Pending ==> TranscribeOutcome(o.jobStarted, o.polls, o.resultBody).AwaitingJob?
    ensures e == StoppedAt(ChatStep) ==> !historyDefined || o.reply.None?
    ensures e == StoppedAt(SpeechStep) ==> o.speech.None?
    ensures LastStage(e) >= Rank(TranscribeStep) ==> o.putOk
    ensures LastStage(e) >= Rank(TranscribeStep) || e == StoppedAt(UploadStep) ==>
      && |audioData| > 0 && o.converted.Some?
      && CleanupSucceeds(ConvertedFiles(uuid, audioData, files, o.converted.value), WavFileName(uuid))
    ensures e == Rejected ==>
      && |audioData| > 0 && o.converted.Some?
      && !CleanupSucceeds(ConvertedFiles(uuid, audioData, files, o.converted.value), WavFileName(uuid))
  {
    if |audioData| == 0 || o.converted.None? then StoppedAt(ConvertStep)
    else if !CleanupSucceeds(ConvertedFiles(uuid, audioData, files, o.converted.value), WavFileName(uuid)) then Rejected
    else if !o.putOk then StoppedAt(UploadStep)
    else
      match TranscribeOutcome(o.jobStarted, o.polls, o.resultBody)
      case AwaitingJob => Pending
      case NotTranscribed => StoppedAt(TranscribeStep)
      case Transcribed(_) => ReplyEnd(historyDefined, o.reply, o.speech)
  }

  /** The chat history after a turn that ended with `e`. */
  function HistoryAfterTurn(history: Option<seq<Message>>, e: TurnEnd, o: TurnOracles): Option<seq<Message>> {
    var t := TranscribeOutcome(o.jobStarted, o.polls, o.resultBody);
    if LastStage(e) >= Rank(ChatStep) && t.Transcribed? then ChatHistoryAfter(history, t.transcription, o.reply)
    else history
  }

  /** The local files after an audio turn. */
  function FilesAfterTurn(uuid: string, audioData: seq<byte>, files: map<string, seq<byte>>,
                          converted: Option<seq<byte>>): map<string, seq<byte>> {
    var wav := WavFileName(uuid);
    if |audioData| == 0 || converted.None? then files[WebmFileName(uuid) := audioData]
    else ConvertedFiles(uuid, audioData, files, converted.value) - {wav, TwinFileName(wav)}
  }

  /** The request of the conversion step; an empty clip is dropped before it. */
  function ConvertRequests(uuid: string, audioData: seq<byte>): (r: seq<ServiceCall>)
    ensures AllOfStep(r, Rank(ConvertStep))
  {
    if |audioData| == 0 then [] else [Transcode(WebmFileName(uuid), WavFileName(uuid))]
  }

  /** The request of the upload step, when a turn reaching step `k` got that far. */
  function UploadRequests(uuid: string, bucket: string, o: TurnOracles, k: nat): (r: seq<ServiceCall>)
    ensures AllOfStep(r, Rank(UploadStep)) && (k < Rank(UploadStep) ==> r == [])
  {
    if k >= Rank(UploadStep) && o.converted.Some? then [PutObject(bucket, WavFileName(uuid), o.converted.value)] else []
  }

  /** The requests of the transcription step, when a turn reaching step `k` got that far. */
  function TranscribeRequests(uuid: string, bucket: string, o: TurnOracles, k: nat): (r: seq<ServiceCall>)
    ensures AllOfStep(r, Rank(TranscribeStep)) && (k < Rank(TranscribeStep) ==> r == [])
  {
    if k >= Rank(TranscribeStep)
    then JobRequests(uuid, WavFileName(uuid), LanguageCode, bucket, o.jobStarted, o.polls) else []
  }

  /** The request of the model step, when a turn reaching step `k` got that far. */
  function ModelRequests(history: Option<seq<Message>>, o: TurnOracles, k: nat): (r: seq<ServiceCall>)
    ensures AllOfStep(r, Rank(ChatStep)) && (k < Rank(ChatStep) ==> r == [])
  {
    var t := TranscribeOutcome(o.jobStarted, o.polls, o.resultBody);
    if k >= Rank(ChatStep) && t.Transcribed? then ChatRequests(history, t.transcription) else []
  }

  /** The request of the speech step, when a turn reaching step `k` got that far. */
  function SpeechRequests(voice: string, reply: Option<string>, k: nat): (r: seq<ServiceCall>)
    ensures AllOfStep(r, Rank(SpeechStep)) && (k < Rank(SpeechStep) ==> r == [])
  {
    if k >= Rank(SpeechStep) && reply.Some? then [SynthesizeSpeech(reply.value, voice)] else []
  }

  /**
   * The requests sent so far, `calls`, followed by those of a turn that ended
   * with `e`, oldest first.
   */
  function CallsAfterTurn(calls: seq<ServiceCall>, uuid: string, audioData: seq<byte>, history: Option<seq<Message>>,
                          bucket: string, voice: string, o: TurnOracles, e: TurnEnd): seq<ServiceCall> {
    var k := LastStage(e);
    calls + ConvertRequests(uuid, audioData) + UploadRequests(uuid, bucket, o, k) + TranscribeRequests(uuid, bucket, o, k)
      + ModelRequests(history, o, k) + SpeechRequests(voice, o.reply, k)
  }

  /** The requests of a turn that ended with `e`, oldest first. */
  function TurnRequests(uuid: string, audioData: seq<byte>, history: Option<seq<Message>>, bucket: string,
                        voice: string, o: TurnOracles, e: TurnEnd): seq<ServiceCall> {
    CallsAfterTurn([], uuid, audioData, history, bucket, voice, o, e)
  }

  /** A turn only appends to the requests sent before it. */
  lemma CallsAfterTurnAppends(calls: seq<ServiceCall>, uuid: string, audioData: seq<byte>,
                              history: Option<seq<Message>>, bucket: string, voice: string, o: TurnOracles, e: TurnEnd)
    ensures CallsAfterTurn(calls, uuid, audioData, history, bucket, voice, o, e)
      == calls + TurnRequests(uuid, audioData, history, bucket, voice, o, e)
  {
    var k := LastStage(e);
    Regroup(calls, ConvertRequests(uuid, audioData), UploadRequests(uuid, bucket, o, k), TranscribeRequests(uuid, bucket, o, k),
      ModelRequests(history, o, k), SpeechRequests(voice, o.reply, k));
  }

  lemma Regroup(c: seq<ServiceCall>, r0: seq<ServiceCall>, r1: seq<ServiceCall>, r2: seq<ServiceCall>,
                r3: seq<ServiceCall>, r4: seq<ServiceCall>)
    ensures c + r0 + r1 + r2 + r3 + r4 == c + ([] + r0 + r1 + r2 + r3 + r4)
  {
    assert [] + r0 == r0;
    assert c + r0 + r1 == c + (r0 + r1);
    assert c + (r0 + r1) + r2 == c + (r0 + r1 + r2);
    assert c + (r0 + r1 + r2) + r3 == c + (r0 + r1 + r2 + r3);
  }

  /**
   * Requests of steps 0 to 4, each run of them empty or belonging to its own
   * step no later than `k`, are in step order up to `k`.
   */
  lemma StagesInStepOrder(r0: seq<ServiceCall>, r1: seq<ServiceCall>, r2: seq<ServiceCall>,
                          r3: seq<ServiceCall>, r4: seq<ServiceCall>, k: nat)
    requires AllOfStep(r0, 0) && AllOfStep(r1, 1) && AllOfStep(r2, 2) && AllOfStep(r3, 3) && AllOfStep(r4, 4)
    requires (r1 == [] || k >= 1) && (r2 == [] || k >= 2) && (r3 == [] || k >= 3) && (r4 == [] || k >= 4)
    ensures InStepOrder([] + r0 + r1 + r2 + r3 + r4, k)
  {
    InStepOrderAppend([], r0, 0, 0);
    var m1 := if k >= 1 then 1 else 0;
    var m2 := if k >= 2 then 2 else m1;
    var m3 := if k >= 3 then 3 else m2;
    var m4 := if k >= 4 then 4 else m3;
    InStepOrderAppend([] + r0, r1, 0, m1);
    InStepOrderAppend([] + r0 + r1, r2, m1, m2);
    InStepOrderAppend([] + r0 + r1 + r2, r3, m2, m3);
    InStepOrderAppend([] + r0 + r1 + r2 + r3, r4, m3, m4);
    InStepOrderWeaken([] + r0 + r1 + r2 + r3 + r4, m4, k);
  }

  /**
   * Unless the uuid itself contains `.wav`, a turn responds exactly when
   * every step succeeds.
   */
  lemma TurnRespondsIffAllSucceed(uuid: string, audioData: seq<byte>, files: map<string, seq<byte>>,
                                  historyDefined: bool, o: TurnOracles)
    requires !Contains(uuid, WavExtension)
    ensures TurnEndOf(uuid, audioData, files, historyDefined, o) == Responded
      <==> TurnSucceeds(audioData, o, historyDefined)
  {
    TwinOfWavIsWebm(uuid);
    WavAndWebmDiffer(uuid);
  }

  /**
   * A converted clip's clean-up finds both of its files, so for a uuid
   * without `.wav` no turn ends with the upload step's clean-up throwing.
   */
  lemma TurnIsNeverRejected(uuid: string, audioData: seq<byte>, files: map<string, seq<byte>>,
                            historyDefined: bool, o: TurnOracles)
    requires !Contains(uuid, WavExtension)
    ensures TurnEndOf(uuid, audioData, files, historyDefined, o) != Rejected
  {
    TwinOfWavIsWebm(uuid);
    WavAndWebmDiffer(uuid);
  }

  /**
   * The history changes only once the model step is reached: a failed model
   * call leaves the user message unanswered, a later step finds the user
   * message and the reply appended.
   */
  lemma TurnHistory(uuid: string, audioData: seq<byte>, files: map<string, seq<byte>>,
                    history: Option<seq<Message>>, o: TurnOracles)
    ensures var e := TurnEndOf(uuid, audioData, files, history.Some?, o);
      && (LastStage(e) < Rank(ChatStep) ==> HistoryAfterTurn(history, e, o) == history)
      && (e == StoppedAt(ChatStep) && history.Some? ==>
            HistoryAfterTurn(history, e, o)
              == Some(history.value + [Message(User, UserContent(ExtractTranscript(o.resultBody).value))]))
      && (LastStage(e) > Rank(ChatStep) ==>
            HistoryAfterTurn(history, e, o)
              == Some(history.value + [Message(User, UserContent(ExtractTranscript(o.resultBody).value)),
                                       Message(Assistant, Str(o.reply.value))]))
  {
    var e := TurnEndOf(uuid, audioData, files, history.Some?, o);
    if LastStage(e) >= Rank(ChatStep) && history.Some? {
      var m := Message(User, UserContent(ExtractTranscript(o.resultBody).value));
      if o.reply.Some? {
        assert AfterChat(history.value, ExtractTranscript(o.resultBody).value, o.reply)
          == history.value + [m, Message(Assistant, Str(o.reply.value))];
      } else {
        assert AfterChat(history.value, ExtractTranscript(o.resultBody).value, o.reply) == history.value + [m];
      }
    }
  }

  /** Whatever way a turn ends, a well-formed history stays well formed. */
  lemma TurnKeepsHistoryWellFormed(history: Option<seq<Message>>, e: TurnEnd, o: TurnOracles)
    requires history.Some? && WellFormed(history.value)
    ensures HistoryAfterTurn(history, e, o).Some? && WellFormed(HistoryAfterTurn(history, e, o).value)
  {
    var t := TranscribeOutcome(o.jobStarted, o.polls, o.resultBody);
    if t.Transcribed? {
      ChatPreservesWellFormed(history.value, t.transcription, o.reply);
    }
  }

  /**
   * The requests of a turn go out step by step, and none belongs to a step
   * after the one that ended the turn.
   */
  lemma TurnRequestsInStepOrder(uuid: string, audioData: seq<byte>, history: Option<seq<Message>>,
                                bucket: string, voice: string, o: TurnOracles, e: TurnEnd)
    ensures InStepOrder(TurnRequests(uuid, audioData, history, bucket, voice, o, e), LastStage(e))
  {
    var k := LastStage(e);
    StagesInStepOrder(ConvertRequests(uuid, audioData), UploadRequests(uuid, bucket, o, k),
      TranscribeRequests(uuid, bucket, o, k), ModelRequests(history, o, k), SpeechRequests(voice, o.reply, k), k);
  }

  /** An empty clip is dropped before any request: only its `.webm` file is written. */
  lemma EmptyClipIsDropped(uuid: string, files: map<string, seq<byte>>, history: Option<seq<Message>>,
                           bucket: string, voice: string, o: TurnOracles)
    ensures var e := TurnEndOf(uuid, [], files, history.Some?, o);
      && e == StoppedAt(ConvertStep)
      && TurnRequests(uuid, [], history, bucket, voice, o, e) == []
      && HistoryAfterTurn(history, e, o) == history
      && FilesAfterTurn(uuid, [], files, o.converted) == files[WebmFileName(uuid) := []]
  {
  }

  /**
   * A turn whose clip was converted leaves no local file of its own behind
   * (unless the uuid contains `.wav`); one that fails before that leaves its
   * `.webm` file behind.
   */
  lemma TurnFiles(uuid: string, audioData: seq<byte>, files: map<string, seq<byte>>, converted: Option<seq<byte>>)
    ensures |audioData| > 0 && converted.Some? && !Contains(uuid, WavExtension) ==>
      FilesAfterTurn(uuid, audioData, files, converted) == files - {WavFileName(uuid), WebmFileName(uuid)}
    ensures |audioData| == 0 || converted.None? ==>
      FilesAfterTurn(uuid, audioData, files, converted)[WebmFileName(uuid)] == audioData
  {
    if !Contains(uuid, WavExtension) {
      TwinOfWavIsWebm(uuid);
    }
  }

  // ---------------------------------------------------------------------
  // The steps

  /** `fs.unlinkSync(name)`: `false` when the file does not exist (the call throws). */
  method Unlink(host: Host, name: string) returns (ok: bool)
    modifies host`files
    ensures ok == (name in old(host.files))
    ensures host.files == old(host.files) - {name}
  {
    ok := name in host.files;
    host.files := host.files - {name};
  }

  /**
   * `createAudioFileFromBuffer` (index.js lines 67-114): writes the clip to
   * `audio-<uuid>.webm`; an empty clip fails before conversion starts;
   * otherwise ffmpeg converts it to `audio-<uuid>.wav`, whose name is the
   * result. No file is deleted here, on any path.
   */
  method CreateAudioFileFromBuffer(host: Host, uuid: string, audioData: seq<byte>, converted: Option<seq<byte>>)
    returns (r: Outcome<string>)
    modifies host
    ensures r == if |audioData| > 0 && converted.Some? then Succeeded(WavFileName(uuid)) else Failed
    ensures host.calls == old(host.calls) + ConvertRequests(uuid, audioData)
    ensures host.files ==
      if |audioData| == 0 || converted.None? then old(host.files)[WebmFileName(uuid) := audioData]
      else ConvertedFiles(uuid, audioData, old(host.files), converted.value)
  {
    var wavName, webmName := WavFileName(uuid), WebmFileName(uuid);
    host.files := host.files[webmName := audioData];
    if |host.files[webmName]| == 0 {
      return Failed;
    }
    host.calls := host.calls + [Transcode(webmName, wavName)];
    match converted {
      case None =>
        r := Failed;
      case Some(wav) =>
        host.files := host.files[wavName := wav];
        r := Succeeded(wavName);
    }
  }

  /**
   * `uploadAudioFileToS3` (index.js lines 123-145): reads the file and puts
   * it into the bucket under its own name; then, whether the put succeeded
   * or not, deletes the file and its twin (the name with the first `.wav`
   * replaced by `.webm`). Reading or deleting a missing file throws; a throw
   * while deleting escapes the step.
   */
  method UploadAudioFileToS3(host: Host, audioFileName: string, bucket: string, putOk: bool)
    returns (r: UploadResult)
    modifies host
    ensures host.calls == old(host.calls) +
      (if audioFileName in old(host.files) then [PutObject(bucket, audioFileName, old(host.files)[audioFileName])] else [])
    ensures host.files ==
      if audioFileName in old(host.files) then old(host.files) - {audioFileName, TwinFileName(audioFileName)}
      else old(host.files)
    ensures r == (
      if !CleanupSucceeds(old(host.files), audioFileName) then CleanupThrew
      else if putOk then Uploaded
      else NotUploaded)
  {
    var put := false;
    if audioFileName in host.files {
      host.calls := host.calls + [PutObject(bucket, audioFileName, host.files[audioFileName])];
      put := putOk;
    }
    // finally: delete the local files
    var deleted := Unlink(host, audioFileName);
    if !deleted {
      return CleanupThrew;
    }
    deleted := Unlink(host, TwinFileName(audioFileName));
    assert host.files == old(host.files) - {audioFileName, TwinFileName(audioFileName)};
    if !deleted {
      return CleanupThrew;
    }
    r := if put then Uploaded else NotUploaded;
  }

  /**
   * `createTranscriptionJob` (index.js lines 156-181): starts the job
   * `PrepifyTranscriptionJob-<uuid>` on the uploaded object, with its result
   * written to the same bucket; the job name is the result.
   */
  method CreateTranscriptionJob(host: Host, uuid: string, audioFileName: string, languageCode: string,
                                bucket: string, started: bool)
    returns (r: Outcome<string>)
    modifies host`calls
    ensures host.calls == old(host.calls) +
      [StartTranscriptionJob(JobName(uuid), languageCode, MediaFileUri(bucket, audioFileName), bucket)]
    ensures r == if started then Succeeded(JobName(uuid)) else Failed
  {
    var jobName := JobName(uuid);
    host.calls := host.calls + [StartTranscriptionJob(jobName, languageCode, MediaFileUri(bucket, audioFileName), bucket)];
    r := if started then Succeeded(jobName) else Failed;
  }

  /**
   * `awaitJobCompletion` (index.js lines 189-208): asks for the job's status
   * until it is `COMPLETED` or a request throws, with no delay between
   * requests; `answers` are the service's answers to the requests in order.
   */
  method AwaitJobCompletion(host: Host, jobName: string, answers: seq<PollOutcome>) returns (r: PollResult)
    modifies host`calls
    ensures r == Await(answers)
    ensures host.calls == old(host.calls) + StatusRequests(jobName, Requests(r, |answers|))
  {
    var i := 0;
    while i < |answers|
      invariant 0 <= i <= |answers|
      invariant AwaitFrom(answers, i) == Await(answers)
      invariant host.calls == old(host.calls) + StatusRequests(jobName, i)
    {
      host.calls := host.calls + [GetTranscriptionJob(jobName)];
      match answers[i] {
        case Threw =>
          return PollFailed(i + 1);
        case Status(status) =>
          if status == CompletedStatus {
            return JobCompleted(i + 1);
          }
      }
      i := i + 1;
    }
    r := StillPolling;
  }

  /**
   * `getTranscriptionFromS3` (index.js lines 217-236): fetches `<jobName>.json`
   * from the bucket and reads the transcript out of it.
   */
  method GetTranscriptionFromS3(host: Host, jobName: string, bucket: string, body: Option<JsValue>)
    returns (r: Outcome<JsValue>)
    modifies host`calls
    ensures host.calls == old(host.calls) + [GetObject(bucket, ResultKey(jobName))]
    ensures r == ExtractTranscript(body)
  {
    host.calls := host.calls + [GetObject(bucket, ResultKey(jobName))];
    r := ExtractTranscript(body);
  }

  /**
   * `transcribeAudioFile` (index.js lines 247-278): start the job, wait for
   * it, fetch its transcript; the first failure ends the step.
   */
  method TranscribeAudioFile(host: Host, uuid: string, audioFileName: string, languageCode: string,
                             bucket: string, started: bool, answers: seq<PollOutcome>, body: Option<JsValue>)
    returns (r: TranscribeResult)
    modifies host`calls
    ensures r == TranscribeOutcome(started, answers, body)
    ensures host.calls == old(host.calls) + JobRequests(uuid, audioFileName, languageCode, bucket, started, answers)
  {
    var job := CreateTranscriptionJob(host, uuid, audioFileName, languageCode, bucket, started);
    if job.Failed? {
      return NotTranscribed;
    }
    var polled := AwaitJobCompletion(host, job.value, answers);
    if polled.StillPolling? {
      return AwaitingJob;
    }
    if polled.PollFailed? {
      return NotTranscribed;
    }
    var fetched := GetTranscriptionFromS3(host, job.value, bucket, body);
    r := if fetched.Succeeded? then Transcribed(fetched.value) else NotTranscribed;
  }

  /**
   * `chatWithOpenAI` (index.js lines 287-315): appends the user message to
   * the history, sends the whole history to the model and appends its reply.
   * A failed model call leaves the user message in place. With no history
   * yet (before an interview was submitted) appending throws at once: the
   * call fails, nothing is appended and the model is not asked.
   */
  method ChatWithOpenAI(socket: Socket, host: Host, message: JsValue, reply: Option<string>)
    returns (r: Outcome<string>)
    modifies socket`chatHistory, host`calls
    ensures r == if old(socket.chatHistory).Some? && reply.Some? then Succeeded(reply.value) else Failed
    ensures socket.chatHistory == ChatHistoryAfter(old(socket.chatHistory), message, reply)
    ensures host.calls == old(host.calls) + ChatRequests(old(socket.chatHistory), message)
  {
    if socket.chatHistory.None? {
      return Failed;
    }
    ghost var before := socket.chatHistory.value;
    socket.chatHistory := Some(socket.chatHistory.value + [Message(User, UserContent(message))]);
    host.calls := host.calls + [ChatCompletion(socket.chatHistory.value)];
    match reply {
      case None =>
        r := Failed;
        assert socket.chatHistory.value == AfterChat(before, message, reply);
      case Some(data) =>
        socket.chatHistory := Some(socket.chatHistory.value + [Message(Assistant, Str(data))]);
        r := Succeeded(data);
        assert socket.chatHistory.value
          == before + [Message(User, UserContent(message)), Message(Assistant, Str(data))]
          == AfterChat(before, message, reply);
    }
  }

  /**
   * `getAudioBufferFromPolly` (index.js lines 354-378): asks for speech in
   * the given voice and buffers the returned stream.
   */
  method GetAudioBufferFromPolly(host: Host, text: string, voiceId: string, speech: Option<seq<seq<byte>>>)
    returns (r: Outcome<seq<byte>>)
    modifies host`calls
    ensures host.calls == old(host.calls) + [SynthesizeSpeech(text, voiceId)]
    ensures r == if speech.Some? then Succeeded(Flatten(speech.value)) else Failed
  {
    host.calls := host.calls + [SynthesizeSpeech(text, voiceId)];
    match speech {
      case None =>
        r := Failed;
      case Some(stream) =>
        r := ConvertAudioStreamToBuffer(stream);
    }
  }

  /**
   * The tail both `interactionPipelineLoop` (index.js lines 424-442) and
   * `handleStartInterview` (lines 470-486) run: ask the model with
   * `message`, have its reply spoken in `voice`, and emit the speech as the
   * turn's one `audio-response`; the first failure ends it.
   */
  method ReplyAloud(socket: Socket, host: Host, message: JsValue, voice: string,
                    reply: Option<string>, speech: Option<seq<seq<byte>>>)
    returns (end: TurnEnd)
    modifies socket, host`calls
    ensures end == ReplyEnd(old(socket.chatHistory).Some?, reply, speech)
    ensures socket.chatHistory == ChatHistoryAfter(old(socket.chatHistory), message, reply)
    ensures host.calls == old(host.calls) + ChatRequests(old(socket.chatHistory), message)
      + SpeechRequests(voice, reply, LastStage(end))
    ensures socket.emitted == old(socket.emitted)
      + (if end == Responded then [AudioResponse(Flatten(speech.value))] else [])
  {
    var chat := ChatWithOpenAI(socket, host, message, reply);
    if chat.Failed? {
      return StoppedAt(ChatStep);
    }
    var audio := GetAudioBufferFromPolly(host, chat.value, voice, speech);
    if audio.Failed? {
      return StoppedAt(SpeechStep);
    }
    socket.emitted := socket.emitted + [AudioResponse(audio.value)];
    end := Responded;
  }

  // ---------------------------------------------------------------------
  // The three handlers

  /**
   * `interactionPipelineLoop` (index.js lines 395-443): one audio turn.
   * Conversion, upload, transcription, the model call and speech synthesis
   * run in that order; the first failure ends the turn, and only a turn in
   * which all of them succeed emits its one `audio-response`.
   */
  method InteractionPipelineLoop(socket: Socket, host: Host, uuid: string, audioData: seq<byte>,
                                 selectedInterviewer: string, bucket: string, o: TurnOracles)
    returns (end: TurnEnd)
    modifies socket, host
    ensures end == TurnEndOf(uuid, audioData, old(host.files), old(socket.chatHistory).Some?, o)
    ensures socket.chatHistory == HistoryAfterTurn(old(socket.chatHistory), end, o)
    ensures host.files == FilesAfterTurn(uuid, audioData, old(host.files), o.converted)
    ensures host.calls
      == CallsAfterTurn(old(host.calls), uuid, audioData, old(socket.chatHistory), bucket, selectedInterviewer, o, end)
    // exactly one audio-response, and only when every step succeeded
    ensures end == Responded ==>
      o.speech.Some? && socket.emitted == old(socket.emitted) + [AudioResponse(Flatten(o.speech.value))]
    ensures end != Responded ==> socket.emitted == old(socket.emitted)
  {
    var created := CreateAudioFileFromBuffer(host, uuid, audioData, o.converted);
    if created.Failed? {
      return StoppedAt(ConvertStep);
    }

    var uploaded := UploadAudioFileToS3(host, created.value, bucket, o.putOk);
    if uploaded == CleanupThrew {
      return Rejected;
    }
    if uploaded == NotUploaded {
      return StoppedAt(UploadStep);
    }

    var transcribed := TranscribeAudioFile(host, uuid, created.value, LanguageCode, bucket,
                                           o.jobStarted, o.polls, o.resultBody);
    if transcribed.AwaitingJob? {
      return Pending;
    }
    if transcribed.NotTranscribed? {
      return StoppedAt(TranscribeStep);
    }

    end := ReplyAloud(socket, host, transcribed.transcription, selectedInterviewer, o.reply, o.speech);
  }

  /**
   * `handleStartInterview` (index.js lines 455-494): replaces whatever
   * history there was by the system prompt, asks the model to open the
   * interview with an empty user message, and on success speaks the reply
   * and then reports the start. No failure is reported to the client.
   */
  method HandleStartInterview(socket: Socket, host: Host, resume: string, jobDescription: string,
                              selectedInterviewer: string, reply: Option<string>, speech: Option<seq<seq<byte>>>)
    modifies socket, host`calls
    ensures var opening := [Message(System, Str(SystemPrompt(selectedInterviewer, jobDescription, resume)))];
      && socket.chatHistory == Some(AfterChat(opening, Str(""), reply))
      && host.calls == old(host.calls) + [ChatCompletion(opening + [Message(User, Str(""))])]
           + (if reply.Some? then [SynthesizeSpeech(reply.value, selectedInterviewer)] else [])
    ensures socket.chatHistory.Some? && WellFormed(socket.chatHistory.value)
    ensures socket.emitted == old(socket.emitted) +
      (if reply.Some? && speech.Some? then [AudioResponse(Flatten(speech.value)), UploadStatus] else [])
  {
    var prompt := SystemPrompt(selectedInterviewer, jobDescription, resume);
    socket.chatHistory := Some([Message(System, Str(prompt))]);
    OpeningHistoryWellFormed(prompt);
    var end := ReplyAloud(socket, host, Str(""), selectedInterviewer, reply, speech);
    ChatPreservesWellFormed([Message(System, Str(prompt))], Str(""), reply);
    if end != Responded {
      return;
    }
    socket.emitted := socket.emitted + [UploadStatus];
  }

  /**
   * `handleEndInterview` (index.js lines 502-521): appends the report request
   * as a user message, asks the model, and on success emits the reply as the
   * report. Nothing else changes; the connection stays usable.
   */
  method HandleEndInterview(socket: Socket, host: Host, reply: Option<string>)
    modifies socket, host`calls
    ensures socket.chatHistory ==
      if old(socket.chatHistory).None? then None
      else Some(AfterChat(old(socket.chatHistory).value, Str(ReportRequest), reply))
    ensures host.calls == old(host.calls) +
      (if old(socket.chatHistory).None? then []
       else [ChatCompletion(old(socket.chatHistory).value + [Message(User, Str(ReportRequest))])])
    ensures socket.emitted == old(socket.emitted) +
      (if old(socket.chatHistory).Some? && reply.Some? then [EndResponse(reply.value)] else [])
  {
    var chat := ChatWithOpenAI(socket, host, Str(ReportRequest), reply);
    if chat.Failed? {
      return;
    }
    socket.emitted := socket.emitted + [EndResponse(chat.value)];
  }
}
