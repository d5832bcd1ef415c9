/** The HTTP request handler: method check, body defaults, prompt composition, a call to
    the primary model with a single fallback to a secondary model, and the mapping of the
    outcome to a status code and a JSON body. The provider is not called: the outcome of
    each call it would receive is a parameter, and the calls made are returned as a trace. */
module Handler {
  import opened Wrappers
  import opened Prompt
  import opened Strings

  /** The model tried first, the model tried after it fails, and the sampling temperature
      used for both. */
  const PrimaryModel: string := "gpt-4o"
  const FallbackModel: string := "gpt-3.5-turbo"
  const Temperature: real := 0.7

  const MethodNotAllowed: string := "Method not allowed"
  const Apology: string := "Aurora had a small issue — try again!"

  /** The parsed JSON body; each field may be absent. */
  datatype RequestBody = RequestBody(mode: Option<string>, messages: Option<seq<Entry>>)

  /** An HTTP request: its method (`verb`) and its body, `None` when the body is missing or falsy. */
  datatype Request = Request(verb: string, body: Option<RequestBody>)

  /** A completion as the provider returns it; every level of the optional chain
      `choices?.[0]?.message?.content` may be missing. */
  datatype ChoiceMessage = ChoiceMessage(content: Option<string>)
  datatype Choice = Choice(message: Option<ChoiceMessage>)
  datatype Completion = Completion(choices: Option<seq<Choice>>)

  /** Whatever the provider throws: a network failure, a provider error, a timeout. */
  datatype ProviderError = ProviderError(detail: string)

  /** What one call to the provider would yield. */
  type ProviderOutcome = Result<Completion, ProviderError>

  /** One request made to the provider. */
  datatype ModelCall = ModelCall(model: string, temperature: real, messages: seq<Message>)

  /** The JSON bodies the handler sends. */
  datatype JsonBody = ErrorBody(error: string) | TextBody(text: string)

  /** A status code and the JSON body sent with it. */
  datatype Reply = Reply(status: int, body: JsonBody)

  /** The reply together with the provider calls made, in order. */
  datatype Outcome = Outcome(reply: Reply, calls: seq<ModelCall>)

  /** `completion.choices?.[0]?.message?.content || ""`: the first choice's content when it
      is there and non-empty, the empty string otherwise; a missing choice is no error. */
  function ReplyText(c: Completion): (r: string)
    ensures r != "" <==>
      c.choices.Some? && |c.choices.value| > 0 && c.choices.value[0].message.Some?
      && c.choices.value[0].message.value.content.Some?
      && c.choices.value[0].message.value.content.value != ""
    ensures r != "" ==> r == c.choices.value[0].message.value.content.value
  {
    match c.choices
    case None => ""
    case Some(choices) =>
      if |choices| == 0 then ""
      else match choices[0].message
        case None => ""
        case Some(m) =>
          match m.content
          case None => ""
          case Some(text) => text
  }

  /** `callModel(model, messages)`: the request it makes, and either the extracted reply
      text or the provider's error, passed on unchanged. */
  function CallModel(model: string, messages: seq<Message>, outcome: ProviderOutcome)
    : (r: (ModelCall, Result<string, ProviderError>))
    ensures r.0 == ModelCall(model, Temperature, messages)
    ensures r.1.Ok? <==> outcome.Ok?
    ensures outcome.Ok? ==> r.1.value == ReplyText(outcome.value)
    ensures outcome.Err? ==> r.1.error == outcome.error
  {
    (ModelCall(model, Temperature, messages),
     match outcome
     case Ok(c) => Ok(ReplyText(c))
     case Err(e) => Err(e))
  }

  /** `mode` from the body, "chat" when it or the body is missing. */
  function ModeOf(body: Option<RequestBody>): (mode: string)
    ensures body.Some? && body.value.mode.Some? ==> mode == body.value.mode.value
    ensures body.None? || body.value.mode.None? ==> mode == "chat"
  {
    if body.Some? && body.value.mode.Some? then body.value.mode.value else "chat"
  }

  /** `messages` from the body, the empty history when it or the body is missing. */
  function HistoryOf(body: Option<RequestBody>): (history: seq<Entry>)
    ensures body.Some? && body.value.messages.Some? ==> history == body.value.messages.value
    ensures body.None? || body.value.messages.None? ==> history == []
  {
    if body.Some? && body.value.messages.Some? then body.value.messages.value else []
  }

  /** The list both models receive for a request: the system message for the request's
      mode, naming that mode upper-cased, then the role and content of each history entry. */
  function ChatMessages(req: Request): (r: seq<Message>)
    ensures |r| == |HistoryOf(req.body)| + 1
    ensures r[0].role == "system" && r[0].content == SystemPrompt(ModeOf(req.body))
    ensures Contains(r[0].content, ModeLabel + ToUpper(ModeOf(req.body)))
    ensures forall i :: 0 <= i < |HistoryOf(req.body)| ==>
      r[i + 1].role == HistoryOf(req.body)[i].role
      && r[i + 1].content == HistoryOf(req.body)[i].content
  {
    Compose(ModeOf(req.body), HistoryOf(req.body))
  }

  /** The two-tier generation: the primary model, then, only if it failed, the fallback
      model on the same messages. The result is the first text obtained, or the fallback's
      error; the trace lists the calls made. */
  function Generate(messages: seq<Message>, primary: ProviderOutcome, fallback: ProviderOutcome)
    : (r: (Result<string, ProviderError>, seq<ModelCall>))
    ensures 1 <= |r.1| <= 2
    ensures r.1[0] == ModelCall(PrimaryModel, Temperature, messages)
    ensures |r.1| == 2 <==> primary.Err?
    ensures |r.1| == 2 ==> r.1[1] == ModelCall(FallbackModel, Temperature, messages)
    ensures r.0.Ok? <==> primary.Ok? || fallback.Ok?
    ensures primary.Ok? ==> r.0 == Ok(ReplyText(primary.value))
    ensures primary.Err? && fallback.Ok? ==> r.0 == Ok(ReplyText(fallback.value))
    ensures primary.Err? && fallback.Err? ==> r.0 == Err(fallback.error)
  {
    var (first, result1) := CallModel(PrimaryModel, messages, primary);
    if result1.Ok? then (result1, [first])
    else
      var (second, result2) := CallModel(FallbackModel, messages, fallback);
      (result2, [first, second])
  }

  /** The whole handler as a function of the request and the two provider outcomes. */
  function Respond(req: Request, primary: ProviderOutcome, fallback: ProviderOutcome): (o: Outcome)
    ensures req.verb != "POST" ==> o == Outcome(Reply(405, ErrorBody(MethodNotAllowed)), [])
    ensures req.verb == "POST" ==>
      o.calls == Generate(ChatMessages(req), primary, fallback).1
    ensures o.reply.status == 200 <==> req.verb == "POST" && (primary.Ok? || fallback.Ok?)
    ensures o.reply.status == 500 <==> req.verb == "POST" && primary.Err? && fallback.Err?
    ensures o.reply.status == 200 ==> o.reply.body.TextBody?
    ensures req.verb == "POST" && Generate(ChatMessages(req), primary, fallback).0.Ok? ==>
      o.reply == Reply(200, TextBody(Generate(ChatMessages(req), primary, fallback).0.value))
    ensures o.reply.status == 500 ==> o.reply.body == ErrorBody(Apology)
  {
    if req.verb != "POST" then Outcome(Reply(405, ErrorBody(MethodNotAllowed)), [])
    else
      var (result, calls) := Generate(ChatMessages(req), primary, fallback);
      match result
      case Ok(text) => Outcome(Reply(200, TextBody(text)), calls)
      case Err(_) => Outcome(Reply(500, ErrorBody(Apology)), calls)
  }

  /** A missing body, or one without `mode` and `messages`, is handled as mode "chat" with
      an empty history: the models see the chat system message alone. */
  lemma DefaultsApplied(req: Request)
    requires req.body.None? || (req.body.value.mode.None? && req.body.value.messages.None?)
    ensures ChatMessages(req) == [Message("system", SystemPrompt("chat"))]
  {
  }

  /** A body without `mode` gets chat's system message in front of its history. */
  lemma DefaultMode(req: Request)
    requires req.body.None? || req.body.value.mode.None?
    ensures ChatMessages(req)[0] == Message("system", SystemPrompt("chat"))
    ensures ChatMessages(req)[1..] == CopyHistory(HistoryOf(req.body))
  {
  }

  /** With a missing or empty history, whatever the mode, the models see exactly one
      message: the system message for that mode. */
  lemma EmptyHistoryPrompt(req: Request)
    requires req.body.None? || req.body.value.messages.None? || req.body.value.messages == Some([])
    ensures ChatMessages(req) == [Message("system", SystemPrompt(ModeOf(req.body)))]
  {
  }

  /** When the primary call succeeds: one call, to the primary model, and a 200 reply with
      its text; the fallback outcome plays no part. */
  lemma PrimarySuccess(req: Request, primary: ProviderOutcome, fallback: ProviderOutcome)
    requires req.verb == "POST" && primary.Ok?
    ensures Respond(req, primary, fallback) ==
      Outcome(Reply(200, TextBody(ReplyText(primary.value))),
              [ModelCall(PrimaryModel, Temperature, ChatMessages(req))])
  {
  }

  /** When the primary call fails and the fallback succeeds: the primary, then the
      fallback, on the same messages, and a 200 reply with the fallback's text. */
  lemma FallbackSuccess(req: Request, primary: ProviderOutcome, fallback: ProviderOutcome)
    requires req.verb == "POST" && primary.Err? && fallback.Ok?
    ensures Respond(req, primary, fallback) ==
      Outcome(Reply(200, TextBody(ReplyText(fallback.value))),
              [ModelCall(PrimaryModel, Temperature, ChatMessages(req)),
               ModelCall(FallbackModel, Temperature, ChatMessages(req))])
  {
  }

  /** When both calls fail the reply is the same 500 apology whatever the errors were:
      no error detail reaches the client. */
  lemma NoErrorDetail(req: Request, p1: ProviderOutcome, f1: ProviderOutcome,
                      p2: ProviderOutcome, f2: ProviderOutcome)
    requires req.verb == "POST"
    requires p1.Err? && f1.Err? && p2.Err? && f2.Err?
    ensures Respond(req, p1, f1).reply == Respond(req, p2, f2).reply == Reply(500, ErrorBody(Apology))
    ensures Respond(req, p1, f1).calls == Respond(req, p2, f2).calls
  {
  }

  /** Each model is called at most once, the primary first, and the fallback only after
      the primary failed. */
  lemma CallOrder(req: Request, primary: ProviderOutcome, fallback: ProviderOutcome)
    ensures var calls := Respond(req, primary, fallback).calls;
      |calls| <= 2
      && (forall i :: 0 <= i < |calls| ==> calls[i].model == (if i == 0 then PrimaryModel else FallbackModel))
      && (|calls| == 2 ==> primary.Err?)
  {
  }

  /** The response object of the HTTP framework: `res.status(code)` sets the status code
      and `res.json(body)` sends the body. */
  class Response {
    var statusCode: int
    var sent: Option<JsonBody>

    /** A fresh response: status 200 by default, nothing sent yet. */
    constructor ()
      ensures statusCode == 200 && sent == None
    {
      statusCode := 200;
      sent := None;
    }

    /** `res.status(code)`. */
    method Status(code: int)
      modifies this
      ensures statusCode == code && sent == old(sent)
    {
      statusCode := code;
    }

    /** `res.json(body)`: a response is sent once. */
    method Json(body: JsonBody)
      requires sent.None?
      modifies this
      ensures sent == Some(body) && statusCode == old(statusCode)
    {
      sent := Some(body);
    }
  }

  /** `handler(req, res)`: writes the reply into `res` and returns the provider calls it
      made, exactly as `Respond` prescribes. */
  method Handle(req: Request, res: Response, primary: ProviderOutcome, fallback: ProviderOutcome)
    returns (calls: seq<ModelCall>)
    requires res.sent.None?
    modifies res
    ensures res.statusCode == Respond(req, primary, fallback).reply.status
    ensures res.sent == Some(Respond(req, primary, fallback).reply.body)
    ensures calls == Respond(req, primary, fallback).calls
  {
    calls := [];
    if req.verb != "POST" {
      res.Status(405);
      res.Json(ErrorBody(MethodNotAllowed));
      return;
    }

    var mode := ModeOf(req.body);
    var messages := HistoryOf(req.body);
    var chatMessages := Compose(mode, messages);

    var result: string;
    var failed := false;
    var (call, attempt) := CallModel(PrimaryModel, chatMessages, primary);
    calls := calls + [call];
    if attempt.Ok? {
      result := attempt.value;
    } else {
      var (call2, attempt2) := CallModel(FallbackModel, chatMessages, fallback);
      calls := calls + [call2];
      if attempt2.Ok? {
        result := attempt2.value;
      } else {
        failed := true;
      }
    }

    if !failed {
      res.Status(200);
      res.Json(TextBody(result));
    } else {
      res.Status(500);
      res.Json(ErrorBody(Apology));
    }
  }
}
