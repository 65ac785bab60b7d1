/** The `/send_message` handler: rejects a missing or empty message before the
    pipeline runs, otherwise answers with the user's message followed by the
    system's reply. */
module Endpoint {
  import opened Wrappers
  import opened Pipeline

  datatype Sender = UserSender | SystemSender

  /** One `{"sender": ..., "text": ...}` entry of a reply. */
  datatype ChatMessage = ChatMessage(sender: Sender, text: string)

  /** What the handler sends back. */
  datatype Reply =
    // status 400, `{"status": "error", "message": ...}`
    | Rejected(message: string)
    // status 200, `{"status": "success", "messages": ...}`
    | Answered(messages: seq<ChatMessage>)
    // status 500: an exception escaped `invoke_llm`
    | ServerError

  const NO_MESSAGE := "No message provided"

  function StatusCode(reply: Reply): nat {
    match reply
    case Rejected(_) => 400
    case Answered(_) => 200
    case ServerError => 500
  }

  /** `not user_message` for a message field that is absent or a string. */
  predicate IsMissing(message: Option<string>) {
    message == None || message == Some("")
  }

  /** `send_message()` for the `message` field of the request's JSON body. */
  ghost function SendMessageRun(env: Env, message: Option<string>): Run<Reply> {
    if IsMissing(message) then Run(Rejected(NO_MESSAGE), [])
    else
      var run := InvokeRun(env, message.value);
      match run.value
      case Failure(_) => Run(ServerError, run.trace)
      case Success(answer) =>
        Run(Answered([ChatMessage(UserSender, message.value), ChatMessage(SystemSender, answer)]), run.trace)
  }

  method SendMessage(world: World, message: Option<string>) returns (reply: Reply)
    modifies world
    ensures reply == SendMessageRun(world.env, message).value
    ensures world.log == old(world.log) + SendMessageRun(world.env, message).trace
  {
    if IsMissing(message) {
      return Rejected(NO_MESSAGE);
    }
    var userMessage := message.value;
    var response := world.InvokeLlm(userMessage);
    if response.Failure? {
      return ServerError;
    }
    reply := Answered([ChatMessage(UserSender, userMessage), ChatMessage(SystemSender, response.value)]);
  }

  /** A missing or empty message is answered with status 400 and the pipeline
      never runs; any other message reaches it. */
  lemma MissingMessageRejected(env: Env, message: Option<string>)
    ensures StatusCode(SendMessageRun(env, message).value) == 400 <==> IsMissing(message)
    ensures IsMissing(message) <==> SendMessageRun(env, message).trace == []
  {
  }

  /** A successful reply lists the user's message first and the pipeline's
      answer second; a browser timeout becomes status 500. */
  lemma ReplyEchoesMessage(env: Env, message: string)
    requires message != ""
    ensures match InvokeRun(env, message).value
      case Success(answer) =>
        && StatusCode(SendMessageRun(env, Some(message)).value) == 200
        && SendMessageRun(env, Some(message)).value.messages
           == [ChatMessage(UserSender, message), ChatMessage(SystemSender, answer)]
      case Failure(_) => StatusCode(SendMessageRun(env, Some(message)).value) == 500
  {
  }
}
