/**
 * The chat history the back end keeps per connection and sends whole to the
 * language model on every call: the effect of one `chatWithOpenAI` call on
 * it (index.js lines 287-315), the prompt that `handleStartInterview` puts
 * first (lines 457-468), and the invariant every call keeps.
 */
module Chat {
  import opened Results
  import opened Json
  import Naming

  datatype Role = System | User | Assistant

  /** `{ role, content }`; the content is whatever value the caller passed. */
  datatype Message = Message(role: Role, content: JsValue)

  /** Stand-in for the fixed interviewer instructions; their wording is not modelled. */
  const InterviewerBrief: string := ". <interviewer persona and interview plan>"
  /** Stand-in for the fixed report instructions; their wording is not modelled. */
  const ReportRequest: string := "<report instructions>"

  const NamePreamble: string := "Your name is "
  const JobDescriptionLabel: string := "\nJob Description: \n"
  /** The template continues its line after this label, keeping six spaces of indentation. */
  const ResumeLabel: string := "\nResume: \n      "

  /** The system prompt built from the submitted form (index.js lines 459-467). */
  function SystemPrompt(interviewer: string, jobDescription: string, resume: string): string {
    NamePreamble + interviewer + InterviewerBrief + JobDescriptionLabel + jobDescription + ResumeLabel + resume
  }

  /** The prompt embeds the interviewer's name, the job description and the resume verbatim. */
  lemma PromptEmbedsSubmission(interviewer: string, jobDescription: string, resume: string)
    ensures Naming.Occurs(SystemPrompt(interviewer, jobDescription, resume), interviewer, |NamePreamble|)
    ensures Naming.Occurs(SystemPrompt(interviewer, jobDescription, resume), jobDescription,
      |NamePreamble + interviewer + InterviewerBrief + JobDescriptionLabel|)
    ensures Naming.Occurs(SystemPrompt(interviewer, jobDescription, resume), resume,
      |SystemPrompt(interviewer, jobDescription, resume)| - |resume|)
  {
    var p := SystemPrompt(interviewer, jobDescription, resume);
    var a := |NamePreamble|;
    var b := |NamePreamble + interviewer + InterviewerBrief + JobDescriptionLabel|;
    assert p[a..a + |interviewer|] == interviewer;
    assert p[b..b + |jobDescription|] == jobDescription;
    assert p[|p| - |resume|..] == resume;
  }

  /**
   * The parameter default of `chatWithOpenAI(message = "")`: an `undefined`
   * argument becomes the empty string; every other value is kept as it is.
   */
  function UserContent(message: JsValue): JsValue {
    if message.Undefined? then Str("") else message
  }

  /**
   * The history after one model call on a defined history: the user message
   * is appended before the call, the reply (when the call succeeded) after it.
   */
  function AfterChat(history: seq<Message>, message: JsValue, reply: Option<string>): (r: seq<Message>)
    ensures |r| == |history| + (if reply.Some? then 2 else 1)
    ensures r[..|history|] == history
    ensures r[|history|] == Message(User, UserContent(message))
    ensures reply.Some? ==> r[|history| + 1] == Message(Assistant, Str(reply.value))
  {
    history + [Message(User, UserContent(message))]
      + (if reply.Some? then [Message(Assistant, Str(reply.value))] else [])
  }

  /**
   * What every history built by the back end looks like: one system message
   * first and nowhere else, and every assistant message directly preceded by
   * the user message it answered.
   */
  ghost predicate WellFormed(h: seq<Message>) {
    && |h| >= 1
    && h[0].role == System
    && (forall i :: 1 <= i < |h| ==> h[i].role != System)
    && (forall i :: 1 <= i < |h| && h[i].role == Assistant ==> h[i - 1].role == User)
  }

  /** The opening history of `handleStartInterview` is well formed. */
  lemma OpeningHistoryWellFormed(prompt: string)
    ensures WellFormed([Message(System, Str(prompt))])
  {
  }

  /** A model call, successful or not, keeps the history well formed. */
  lemma {:induction false} ChatPreservesWellFormed(h: seq<Message>, message: JsValue, reply: Option<string>)
    requires WellFormed(h)
    ensures WellFormed(AfterChat(h, message, reply))
  {
    var h' := AfterChat(h, message, reply);
    assert h'[..|h|] == h;
    assert h'[|h|].role == User;
    forall i | 1 <= i < |h'| && h'[i].role == Assistant
      ensures h'[i - 1].role == User
    {
      if i < |h| {
        assert h'[i] == h[i] && h'[i - 1] == h[i - 1];
      }
    }
  }

  /**
   * The opening turn: the system prompt, then an empty user message, then
   * the reply when the model answered.
   */
  lemma OpeningTurn(prompt: string, reply: string)
    ensures AfterChat([Message(System, Str(prompt))], Str(""), Some(reply))
      == [Message(System, Str(prompt)), Message(User, Str("")), Message(Assistant, Str(reply))]
  {
  }

  /**
   * Histories do not strictly alternate: a failed call leaves its user
   * message unanswered, so the next successful call puts two user messages
   * side by side.
   */
  lemma {:induction false} FailedCallLeavesUnansweredUserMessage(h: seq<Message>, m1: JsValue, m2: JsValue, reply: string)
    ensures var h' := AfterChat(AfterChat(h, m1, None), m2, Some(reply));
      |h'| == |h| + 3 && h'[|h|].role == User && h'[|h| + 1].role == User && h'[|h| + 2].role == Assistant
  {
    var h1 := AfterChat(h, m1, None);
    assert h1 == h + [Message(User, UserContent(m1))];
  }
}
