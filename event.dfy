/** The telemetry records: a normalised message, the event built once per
    parsed request, and the summary the dashboard keeps of it. */
module Event {
  import opened Common
  import opened Json

  /** Capture time of a request. The clock is outside the model, so a time is
      carried as the three renderings the program makes of it: `%H:%M:%S` for
      the dashboard, `%Y%m%d_%H%M%S%.3f` for archive file names, and its
      `Display` form for the Markdown archive. */
  datatype Timestamp = Timestamp(clock: string, fileStamp: string, display: string)

  /** A (role, content) pair extracted from a vendor payload. */
  datatype Message = Message(role: string, content: string)

  datatype RequestEvent = RequestEvent(
    timestamp: Timestamp,
    provider: string,
    model: string,
    tokens: nat,
    messages: seq<Message>,
    rawBody: Json,
    path: string)

  /** The row the dashboard shows for one request. */
  datatype RequestInfo = RequestInfo(time: string, provider: string, model: string, tokens: nat)

  /** `capitalize`: the first character upper-cased (ASCII), the rest as is. */
  function Capitalize(s: string): (r: string)
    ensures |r| == |s|
    ensures s != [] ==> r[0] == UpperChar(s[0]) && r[1..] == s[1..]
    ensures s == [] ==> r == []
  {
    if s == [] then [] else [UpperChar(s[0])] + s[1..]
  }

  /** Capitalising twice is capitalising once. */
  lemma CapitalizeIdempotent(s: string)
    ensures Capitalize(Capitalize(s)) == Capitalize(s)
  {
  }

  /** The cases of the source's unit test. */
  lemma CapitalizeExamples()
    ensures Capitalize("anthropic") == "Anthropic"
    ensures Capitalize("openai") == "Openai"
    ensures Capitalize("") == ""
  {
  }

  /** `RequestEvent::last_user_message`: the content of the last message whose
      role is "user", searching from the end. */
  function LastUserMessage(ms: seq<Message>): (r: Option<string>)
    ensures r.None? <==> forall i :: 0 <= i < |ms| ==> ms[i].role != "user"
    ensures r.Some? ==> exists i :: 0 <= i < |ms| && ms[i].role == "user" && ms[i].content == r.value
                                    && forall j :: i < j < |ms| ==> ms[j].role != "user"
  {
    if ms == [] then None
    else if ms[|ms| - 1].role == "user" then Some(ms[|ms| - 1].content)
    else LastUserMessage(ms[..|ms| - 1])
  }

  /** The source's unit test: the later of two user messages is reported. */
  lemma LastUserMessageExample()
    ensures LastUserMessage([Message("user", "First"), Message("assistant", "Response"),
                             Message("user", "Second")]) == Some("Second")
  {
  }

  /** `From<&RequestEvent> for RequestInfo`. */
  function ToInfo(e: RequestEvent): (info: RequestInfo)
    ensures info.model == e.model && info.tokens == e.tokens
    ensures info.provider == Capitalize(e.provider)
    ensures info.time == e.timestamp.clock
  {
    RequestInfo(e.timestamp.clock, Capitalize(e.provider), e.model, e.tokens)
  }
}
