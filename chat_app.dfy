/**
 The three request handlers of the chat service over its one process-wide
 history: ask a question, report the history, clear it.
 */
module ChatApp {
  import opened History
  import opened Context

  datatype Option<+T> = None | Some(value: T)

  /** What parsing the body of an ask request yields. */
  datatype Body =
    | Unreadable                          // parsing raised (not JSON, or malformed)
    | Null                                // the body is JSON null
    | Object(fields: map<string, string>) // a JSON object

  /** The reply of a handler, before it is serialised. */
  datatype Response =
    | Answered(answer: string, history: seq<Turn>)
    | BadRequest(error: string)
    | ServerError
    | HistoryReport(history: seq<Turn>, count: nat)
    | Cleared(message: string)

  const MissingQuestion: string := "Missing 'question' in request body"
  const ClearedMessage: string := "Chat history cleared successfully"

  /** The HTTP status each reply is sent with: 400 exactly for a rejected
      request, 500 exactly for a server error, 200 for every other reply. */
  function Status(r: Response): (code: nat)
    ensures code == 400 <==> r.BadRequest?
    ensures code == 500 <==> r.ServerError?
    ensures code == 200 <==> !(r.BadRequest? || r.ServerError?)
  {
    match r
    case BadRequest(_) => 400
    case ServerError => 500
    case _ => 200
  }

  /** The question field of a parsed body, if there is one. An empty object
      is rejected like one without the field, so only a JSON object that has
      the field yields a question, and then exactly that field's text. */
  function QuestionOf(body: Body): (q: Option<string>)
    ensures q.Some? <==> body.Object? && "question" in body.fields
    ensures q.Some? ==> q.value == body.fields["question"]
  {
    match body
    case Object(fields) =>
      if |fields| == 0 || "question" !in fields then None else Some(fields["question"])
    case _ => None
  }

  /** The service's state: the conversation history shared by all requests. */
  class ChatService {
    var history: seq<Turn>

    /** The history never holds more than MaxHistoryLength turns. */
    ghost predicate Valid()
      reads this
    {
      |history| <= MaxHistoryLength
    }

    constructor ()
      ensures Valid() && history == []
    {
      history := [];
    }

    /** Answers one question. A body that cannot be parsed and a failed model
        call are server errors, a body without a question is a bad request;
        in all three cases the history is left as it was. Otherwise the model
        is given the question prefixed with the transcript of the history,
        and the raw question with the model's reply is remembered. The model
        is any function from prompt to reply, None when the call fails. */
    method Ask(body: Body, model: string -> Option<string>) returns (resp: Response)
      requires Valid()
      modifies this
      ensures Valid()
      ensures body.Unreadable? ==> resp == ServerError && history == old(history)
      ensures body.Null? ==> resp == BadRequest(MissingQuestion) && history == old(history)
      ensures body.Object? && QuestionOf(body).None? ==>
                resp == BadRequest(MissingQuestion) && history == old(history)
      ensures QuestionOf(body).Some? ==>
                var q := QuestionOf(body).value;
                var reply := model(Contextualize(old(history), q));
                if reply.None? then
                  resp == ServerError && history == old(history)
                else
                  && history == AppendTurn(old(history), Turn(q, reply.value))
                  && resp == Answered(reply.value, history)
    {
      if body.Unreadable? {
        return ServerError;
      }
      var data := QuestionOf(body);
      if data.None? {
        return BadRequest(MissingQuestion);
      }
      var question := data.value;

      var context := BuildContext(history);
      var prompt := question;
      if context != "" {
        prompt := context + QuestionPrefix + question;
      }

      var reply := model(prompt);
      if reply.None? {
        return ServerError;
      }

      history := history + [Turn(question, reply.value)];
      if |history| > MaxHistoryLength {
        history := SliceFrom(history, -(MaxHistoryLength as int));
      }
      resp := Answered(reply.value, history);
    }

    /** Reports the history and its length without changing it. */
    method GetHistory() returns (resp: Response)
      requires Valid()
      ensures resp.HistoryReport? && resp.history == history
      ensures resp.count == |history| <= MaxHistoryLength
      ensures Status(resp) == 200
    {
      resp := HistoryReport(history, |history|);
    }

    /** Forgets every turn. */
    method Clear() returns (resp: Response)
      modifies this
      ensures Valid() && history == []
      ensures resp == Cleared(ClearedMessage)
    {
      history := [];
      resp := Cleared(ClearedMessage);
    }
  }

  /** A client of the service asking its first question. The model here
      echoes its prompt, so the first answer is the raw question. */
  method FirstQuestionScenario(q1: string, q2: string)
  {
    var service := new ChatService();
    var b1 := Object(map["question" := q1]);
    assert QuestionOf(b1) == Some(q1);

    var r1 := service.Ask(b1, (p: string) => Some(p));
    assert service.history == AppendTurn([], Turn(q1, q1)) == [Turn(q1, q1)];
    SecondQuestionScenario(service, q1, q2);
  }

  /** The second question of that client: its prompt, visible in the echoed
      answer, carries the first question and answer as context. */
  method SecondQuestionScenario(service: ChatService, q1: string, q2: string)
    requires service.Valid() && service.history == [Turn(q1, q1)]
    modifies service
  {
    var b2 := Object(map["question" := q2]);
    assert QuestionOf(b2) == Some(q2);

    ghost var prompt := Contextualize(service.history, q2);
    var r2 := service.Ask(b2, (p: string) => Some(p));
    assert r2.answer == prompt && r2.history == [Turn(q1, q1), Turn(q2, prompt)];
    assert prompt
        == "Previous conversation:\n" + ("Human: " + q1 + "\nAI: " + q1 + "\n") + "\nHuman: " + q2
    by {
      assert [Turn(q1, q1)] == AppendTurn([], Turn(q1, q1));
      SecondQuestionSeesFirst(q1, q1, q2);
    }
  }

  /** A client of the service sending a request whose JSON body is `null`,
      then one whose body cannot be parsed, then clearing the history and
      reading it back. */
  method RejectAndClearScenario(service: ChatService, model: string -> Option<string>)
    requires service.Valid()
    modifies service
  {
    var before := service.history;
    var r1 := service.Ask(Null, model);
    assert Status(r1) == 400 && service.history == before;
    var r0 := service.Ask(Unreadable, model);
    assert Status(r0) == 500 && service.history == before;

    var r2 := service.Clear();
    assert r2 == Cleared(ClearedMessage) && Status(r2) == 200;
    var r3 := service.GetHistory();
    assert r3.count == 0;
  }
}
