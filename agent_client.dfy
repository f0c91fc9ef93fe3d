/**
 * The client side of the hosted agent protocol: exchange the API key for a bearer
 * token, open a run, poll the run until it leaves the in-flight states, then read the
 * thread's messages and pick the last assistant reply.
 *
 * Every HTTP reply is an input record holding the fields the code reads; each
 * operation also returns the requests it issued, in order.
 */
module AgentClient {
  import opened Wrappers
  import opened JsSemantics

  /** The extension grant of section 4.5 of RFC 6749 for exchanging an API key. */
  const ApiKeyGrantType := "urn:ibm:params:oauth:grant-type:apikey"
  const TokenRequestPrefix := "grant_type=" + ApiKeyGrantType + "&apikey="

  const TokenFailedMessage := "Token request failed"
  const RunFailedMessage := "Agent execution failed"
  const NoRunIdMessage := "No run_id received from Agent. Check your Agent ID and status."
  const InvalidContentMessage := "AI Agent did not return a valid message content."

  /** The form body of the token request: the key is appended as it is, unencoded. */
  function TokenRequestBody(apiKey: string): (body: string)
    ensures |body| == |TokenRequestPrefix| + |apiKey|
    ensures body[..|TokenRequestPrefix|] == TokenRequestPrefix
    ensures body[|TokenRequestPrefix|..] == apiKey
  {
    TokenRequestPrefix + apiKey
  }

  /** Different keys give different token request bodies. */
  lemma TokenRequestBodyInjective(k1: string, k2: string)
    ensures TokenRequestBody(k1) == TokenRequestBody(k2) ==> k1 == k2
  {
    if TokenRequestBody(k1) == TokenRequestBody(k2) {
      assert k1 == TokenRequestBody(k1)[|TokenRequestPrefix|..];
    }
  }

  /** The token endpoint's reply: its HTTP status class and the decoded JSON fields. */
  datatype TokenReply = TokenReply(ok: bool, accessToken: Option<string>, errorDescription: Option<string>)

  /** `message` of the run request. */
  datatype OutgoingMessage = OutgoingMessage(role: string, content: string)

  /** The JSON body of the run request; an absent thread id is left out of the JSON. */
  datatype RunRequestBody = RunRequestBody(agentId: string, threadId: Option<string>, message: OutgoingMessage)

  /** The decoded JSON of the run endpoint's reply. */
  datatype RunData = RunData(runId: Option<string>, threadId: Option<string>, status: Option<string>,
                             message: Option<string>)

  datatype RunReply = RunReply(ok: bool, data: RunData)

  /** One HTTP call; `bearer` is what follows "Bearer " in the Authorization header. */
  datatype Request =
    | TokenRequest(form: string)
    | RunRequest(runBearer: Option<string>, runBody: RunRequestBody)
    | StatusRequest(runId: string, bearer: string)
    | MessagesRequest(threadId: Option<string>, bearer: string)

  /** What `callComplianceAgent` resolves to: the run data and the token it used. */
  datatype RunStarted = RunStarted(runData: RunData, accessToken: Option<string>)

  datatype CallOutcome = CallOutcome(requests: seq<Request>, result: Result<RunStarted>)

  /**
   * `callComplianceAgent(userInput, threadId)`, where `apiKey` and `agentId` stand for the
   * configured environment values and `token` and `run` for the two replies.
   */
  function CallComplianceAgent(apiKey: string, agentId: string, userInput: string,
                               threadId: Option<string>, token: TokenReply, run: RunReply)
    : (r: CallOutcome)
    ensures |r.requests| >= 1 && r.requests[0] == TokenRequest(TokenRequestBody(apiKey))
    ensures !token.ok ==> r.requests == [TokenRequest(TokenRequestBody(apiKey))]
    ensures token.ok ==> |r.requests| == 2 && r.requests[1].RunRequest?
    ensures token.ok ==> r.requests[1].runBearer == token.accessToken
    ensures token.ok ==>
              r.requests[1].runBody == RunRequestBody(agentId, threadId, OutgoingMessage("user", userInput))
    ensures r.result.Ok? <==> token.ok && run.ok && Truthy(run.data.runId)
    ensures r.result.Ok? ==> r.result.value == RunStarted(run.data, token.accessToken)
    ensures !token.ok ==> r.result == Err(OrElse(token.errorDescription, TokenFailedMessage))
    ensures token.ok && !run.ok ==> r.result == Err(OrElse(run.data.message, RunFailedMessage))
    ensures token.ok && run.ok && !Truthy(run.data.runId) ==> r.result == Err(NoRunIdMessage)
  {
    var tokenRequest := TokenRequest(TokenRequestBody(apiKey));
    if !token.ok then
      CallOutcome([tokenRequest], Err(OrElse(token.errorDescription, TokenFailedMessage)))
    else
      var body := RunRequestBody(agentId, threadId, OutgoingMessage("user", userInput));
      var requests := [tokenRequest, RunRequest(token.accessToken, body)];
      if !run.ok then CallOutcome(requests, Err(OrElse(run.data.message, RunFailedMessage)))
      else if !Truthy(run.data.runId) then CallOutcome(requests, Err(NoRunIdMessage))
      else CallOutcome(requests, Ok(RunStarted(run.data, token.accessToken)))
  }

  /** Every failure of the call carries a non-empty message. */
  lemma CallFailuresHaveMessages(apiKey: string, agentId: string, userInput: string,
                                 threadId: Option<string>, token: TokenReply, run: RunReply)
    ensures var r := CallComplianceAgent(apiKey, agentId, userInput, threadId, token, run);
            r.result.Err? ==> r.result.message != ""
  {
  }

  /** The decoded JSON of one run-status reply. */
  datatype RunStatus = RunStatus(status: Option<string>, threadId: Option<string>)

  /** The states in which the poll loop keeps going. */
  predicate InFlight(status: Option<string>) {
    status == Some("pending") || status == Some("running")
  }

  /** The position of the first reply that is not in flight, if any. */
  function FirstSettled(replies: seq<RunStatus>): (k: Option<nat>)
    ensures k.Some? ==> k.value < |replies| && !InFlight(replies[k.value].status)
    ensures k.Some? ==> forall j :: 0 <= j < k.value ==> InFlight(replies[j].status)
    ensures k.None? <==> forall j :: 0 <= j < |replies| ==> InFlight(replies[j].status)
  {
    if replies == [] then None
    else if !InFlight(replies[0].status) then Some(0)
    else match FirstSettled(replies[1..])
      case None => None
      case Some(k) => Some(k + 1)
  }

  /** One content entry of a thread message; an absent entry is None. */
  datatype ContentPart = ContentPart(text: Option<string>)

  /** A thread message; a message without a content array has the empty list. */
  datatype ThreadMessage = ThreadMessage(role: string, content: seq<Option<ContentPart>>)

  predicate IsAssistant(m: ThreadMessage) {
    m.role == "assistant"
  }

  /** `messages.filter(m => m.role === 'assistant')`. */
  function AssistantMessages(messages: seq<ThreadMessage>): (r: seq<ThreadMessage>)
    ensures |r| <= |messages|
    ensures forall i :: 0 <= i < |r| ==> IsAssistant(r[i])
    ensures |r| == 0 <==> forall i :: 0 <= i < |messages| ==> !IsAssistant(messages[i])
  {
    if messages == [] then []
    else
      var rest := AssistantMessages(messages[1..]);
      if IsAssistant(messages[0]) then [messages[0]] + rest
      else
        assert forall i :: 1 <= i < |messages| ==> messages[i] == messages[1..][i - 1];
        rest
  }

  /** The filter keeps order: filtering a concatenation concatenates the filtered parts. */
  lemma {:induction false} AssistantMessagesAppend(s: seq<ThreadMessage>, t: seq<ThreadMessage>)
    ensures AssistantMessages(s + t) == AssistantMessages(s) + AssistantMessages(t)
  {
    if s == [] {
      assert s + t == t;
    } else {
      assert (s + t)[1..] == s[1..] + t;
      AssistantMessagesAppend(s[1..], t);
    }
  }

  /** The filter keeps exactly the thread's assistant messages. */
  lemma {:induction false} AssistantMessagesMembers(messages: seq<ThreadMessage>)
    ensures forall m :: m in AssistantMessages(messages) <==> m in messages && IsAssistant(m)
  {
    if messages != [] {
      AssistantMessagesMembers(messages[1..]);
      assert messages == [messages[0]] + messages[1..];
    }
  }

  /** Filtering one message keeps it iff it is an assistant message. */
  lemma AssistantMessagesSingle(m: ThreadMessage)
    ensures AssistantMessages([m]) == if IsAssistant(m) then [m] else []
  {
    assert [m][1..] == [];
  }

  /** The position of the last assistant message, if there is one. */
  function LastAssistant(messages: seq<ThreadMessage>): (k: Option<nat>)
    ensures k.Some? ==> k.value < |messages| && IsAssistant(messages[k.value])
    ensures k.Some? ==> forall j :: k.value < j < |messages| ==> !IsAssistant(messages[j])
    ensures k.None? <==> forall j :: 0 <= j < |messages| ==> !IsAssistant(messages[j])
    decreases |messages|
  {
    if messages == [] then None
    else if IsAssistant(messages[|messages| - 1]) then Some(|messages| - 1)
    else LastAssistant(messages[..|messages| - 1])
  }

  /** The last element of the filtered list is the last assistant message of the thread. */
  lemma {:induction false} LastOfFilterIsLastAssistant(messages: seq<ThreadMessage>)
    ensures |AssistantMessages(messages)| > 0 <==> LastAssistant(messages).Some?
    ensures LastAssistant(messages).Some? ==>
              var a := AssistantMessages(messages);
              a[|a| - 1] == messages[LastAssistant(messages).value]
  {
    if messages != [] {
      var tail := messages[1..];
      LastOfFilterIsLastAssistant(tail);
      if LastAssistant(tail).Some? {
        var k := LastAssistant(tail).value;
        assert LastAssistant(messages) == Some(k + 1) by {
          assert messages[k + 1] == tail[k];
          assert forall j :: k + 1 < j < |messages| ==> messages[j] == tail[j - 1];
          LastAssistantUnique(messages, k + 1);
        }
      } else if IsAssistant(messages[0]) {
        assert forall j :: 0 < j < |messages| ==> messages[j] == tail[j - 1];
        LastAssistantUnique(messages, 0);
      }
    }
  }

  /** A position that satisfies the last-assistant characterisation is LastAssistant's. */
  lemma LastAssistantUnique(messages: seq<ThreadMessage>, k: nat)
    requires k < |messages| && IsAssistant(messages[k])
    requires forall j :: k < j < |messages| ==> !IsAssistant(messages[j])
    ensures LastAssistant(messages) == Some(k)
  {
  }

  /** The content check applied to the selected message. */
  predicate HasFirstContent(m: ThreadMessage) {
    |m.content| > 0 && m.content[0].Some?
  }

  /**
   * The selection at the end of `waitForAgentResult`: the last assistant message, provided
   * its content has a first entry.
   */
  function SelectFinalMessage(messages: seq<ThreadMessage>): (r: Result<ThreadMessage>)
    ensures LastAssistant(messages).None? ==> r == Err(InvalidContentMessage)
    ensures LastAssistant(messages).Some? ==>
              var m := messages[LastAssistant(messages).value];
              r == if HasFirstContent(m) then Ok(m) else Err(InvalidContentMessage)
  {
    var assistant := AssistantMessages(messages);
    LastOfFilterIsLastAssistant(messages);
    if |assistant| == 0 then Err(InvalidContentMessage)
    else
      var finalMessage := assistant[|assistant| - 1];
      if !HasFirstContent(finalMessage) then Err(InvalidContentMessage) else Ok(finalMessage)
  }

  /** A successful selection is an assistant message with no assistant message after it. */
  lemma SelectedIsLastAssistant(messages: seq<ThreadMessage>)
    ensures SelectFinalMessage(messages).Ok? ==>
              exists i :: 0 <= i < |messages| && messages[i] == SelectFinalMessage(messages).value &&
                          IsAssistant(messages[i]) && HasFirstContent(messages[i]) &&
                          forall j :: i < j < |messages| ==> !IsAssistant(messages[j])
  {
    if SelectFinalMessage(messages).Ok? {
      var i := LastAssistant(messages).value;
      assert messages[i] == SelectFinalMessage(messages).value;
    }
  }

  /** `n` status fetches of the run. */
  function StatusPolls(runId: string, accessToken: string, n: nat): (r: seq<Request>)
    ensures |r| == n && forall i :: 0 <= i < n ==> r[i] == StatusRequest(runId, accessToken)
  {
    seq(n, _ => StatusRequest(runId, accessToken))
  }

  /**
   * StillPolling: every reply given was in flight, so the source would still be polling.
   * Returned: the loop stopped at `finalStatus` and the thread's messages were read.
   */
  datatype WaitOutcome =
    | StillPolling(requests: seq<Request>)
    | Returned(requests: seq<Request>, finalStatus: RunStatus, result: Result<ThreadMessage>)

  /**
   * What one wait amounts to: the status fetches up to and including the first settled
   * reply, then one messages fetch on that reply's thread; or, when no reply given has
   * settled, one status fetch per reply and no result yet.
   */
  function PollOutcome(runId: string, accessToken: string,
                       replies: seq<RunStatus>, messages: seq<ThreadMessage>): (r: WaitOutcome)
    ensures r.StillPolling? <==> FirstSettled(replies).None?
    ensures r.StillPolling? ==> r.requests == StatusPolls(runId, accessToken, |replies|)
    ensures r.Returned? ==> r.finalStatus == replies[FirstSettled(replies).value]
    ensures r.Returned? ==> !InFlight(r.finalStatus.status)
    ensures r.Returned? ==>
              r.requests == StatusPolls(runId, accessToken, FirstSettled(replies).value + 1)
                            + [MessagesRequest(r.finalStatus.threadId, accessToken)]
    ensures r.Returned? ==> r.result == SelectFinalMessage(messages)
  {
    match FirstSettled(replies)
    case None => StillPolling(StatusPolls(runId, accessToken, |replies|))
    case Some(k) =>
      Returned(StatusPolls(runId, accessToken, k + 1) + [MessagesRequest(replies[k].threadId, accessToken)],
               replies[k], SelectFinalMessage(messages))
  }

  /**
   * `waitForAgentResult(runId, accessToken)`. The server's answers to the successive status
   * fetches are `replies`, and its answer to the messages fetch is `messages`. The source
   * loop has no bound; the model runs it over the replies given and reports StillPolling
   * when they are all in flight.
   */
  method WaitForAgentResult(runId: string, accessToken: string,
                            replies: seq<RunStatus>, messages: seq<ThreadMessage>) returns (outcome: WaitOutcome)
    ensures outcome == PollOutcome(runId, accessToken, replies, messages)
  {
    var status: Option<string> := Some("pending");
    var runStatusData: Option<RunStatus> := None;
    var requests: seq<Request> := [];
    var i := 0;
    while InFlight(status) && i < |replies|
      invariant 0 <= i <= |replies|
      invariant requests == StatusPolls(runId, accessToken, i)
      invariant i == 0 ==> status == Some("pending") && runStatusData.None?
      invariant i > 0 ==> runStatusData == Some(replies[i - 1]) && status == replies[i - 1].status
      invariant forall j :: 0 <= j < i - 1 ==> InFlight(replies[j].status)
    {
      requests := requests + [StatusRequest(runId, accessToken)];
      runStatusData := Some(replies[i]);
      status := replies[i].status;
      i := i + 1;
    }
    if InFlight(status) {
      outcome := StillPolling(requests);
    } else {
      var data := runStatusData.value;
      assert FirstSettled(replies) == Some(i - 1);
      requests := requests + [MessagesRequest(data.threadId, accessToken)];
      outcome := Returned(requests, data, SelectFinalMessage(messages));
    }
  }
}
