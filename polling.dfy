/**
 * The verdict of the job-status poll loop of `awaitJobCompletion`
 * (index.js lines 189-208), over the answers the transcription service gives
 * to successive status requests. The loop has no delay and no deadline: it
 * asks again after every status other than `COMPLETED`, `FAILED` included.
 */
module Polling {

  const CompletedStatus: string := "COMPLETED"

  /**
   * The answer to one status request: the job status it reports, or `Threw`
   * when the request (or reading the status out of its response) threw.
   */
  datatype PollOutcome = Status(status: string) | Threw

  /** An answer after which the loop polls again. */
  predicate Undecided(o: PollOutcome) {
    o.Status? && o.status != CompletedStatus
  }

  /**
   * `JobCompleted(n)` and `PollFailed(n)` end the loop after `n` status
   * requests; `StillPolling` means every answer given was undecided, so the
   * loop is still running (it would never end if the job never completes).
   */
  datatype PollResult = JobCompleted(polls: nat) | PollFailed(polls: nat) | StillPolling

  /** The verdict of the loop when it is about to make request number `i + 1`. */
  function AwaitFrom(answers: seq<PollOutcome>, i: nat): (r: PollResult)
    requires i <= |answers|
    decreases |answers| - i
    ensures r.JobCompleted? ==> i < r.polls <= |answers| && answers[r.polls - 1] == Status(CompletedStatus)
    ensures r.PollFailed? ==> i < r.polls <= |answers| && answers[r.polls - 1] == Threw
    ensures !r.StillPolling? ==> forall j :: i <= j < r.polls - 1 ==> Undecided(answers[j])
    ensures r.StillPolling? ==> forall j :: i <= j < |answers| ==> Undecided(answers[j])
  {
    if i == |answers| then StillPolling
    else
      match answers[i]
      case Threw => PollFailed(i + 1)
      case Status(s) => if s == CompletedStatus then JobCompleted(i + 1) else AwaitFrom(answers, i + 1)
  }

  /** The verdict of the whole loop. */
  function Await(answers: seq<PollOutcome>): PollResult {
    AwaitFrom(answers, 0)
  }

  /** The same verdict reached one status request later. */
  function Later(r: PollResult): PollResult {
    match r
    case JobCompleted(n) => JobCompleted(n + 1)
    case PollFailed(n) => PollFailed(n + 1)
    case StillPolling => StillPolling
  }

  lemma {:induction false} AwaitFromShift(o: PollOutcome, rest: seq<PollOutcome>, i: nat)
    requires i <= |rest|
    ensures AwaitFrom([o] + rest, i + 1) == Later(AwaitFrom(rest, i))
    decreases |rest| - i
  {
    var answers := [o] + rest;
    if i < |rest| {
      assert answers[i + 1] == rest[i];
      if rest[i].Status? && rest[i].status != CompletedStatus {
        AwaitFromShift(o, rest, i + 1);
      }
    }
  }

  /**
   * Any status other than `COMPLETED`, `FAILED` included, leads to another
   * request: the verdict is that of the remaining answers, one request later.
   */
  lemma {:induction false} UndecidedPollsAgain(o: PollOutcome, rest: seq<PollOutcome>)
    requires Undecided(o)
    ensures Await([o] + rest) == Later(Await(rest))
  {
    AwaitFromShift(o, rest, 0);
  }

  /** A job reported as `FAILED` is polled again. */
  lemma FailedJobIsPolledAgain(rest: seq<PollOutcome>)
    ensures Await([Status("FAILED")] + rest) == Later(Await(rest))
  {
    UndecidedPollsAgain(Status("FAILED"), rest);
  }

  /** Once the loop has ended, answers to requests it never made do not matter. */
  lemma {:induction false} AwaitIgnoresLaterAnswers(answers: seq<PollOutcome>, more: seq<PollOutcome>, i: nat)
    requires i <= |answers|
    requires !AwaitFrom(answers, i).StillPolling?
    ensures AwaitFrom(answers + more, i) == AwaitFrom(answers, i)
    decreases |answers| - i
  {
    assert (answers + more)[i] == answers[i];
    if answers[i].Status? && answers[i].status != CompletedStatus {
      AwaitIgnoresLaterAnswers(answers, more, i + 1);
    }
  }
}
