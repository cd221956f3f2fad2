/** The `/query` route of src/app.py: the request's JSON body is checked, the
    question is run through the graph in "values" streaming mode, and the last
    AI message without tool calls seen in the stream is the answer. Python's
    `in` and `[]` on the parsed JSON value are modelled with the errors they
    raise; every raised error becomes the route's 500 response. */
module App {
  import opened Wrappers
  import opened Text
  import opened Graph

  /** A parsed JSON document (numbers are integers here). */
  datatype Json =
    | JNull
    | JBool(b: bool)
    | JNum(n: int)
    | JStr(s: string)
    | JArr(items: seq<Json>)
    | JObj(fields: map<string, Json>)

  /** What `request.json` yields: a parsed document, or the error it raises
      (a body that is not JSON, or a wrong content type). */
  datatype Request = Parsed(json: Json) | Unparsable(error: string)

  /** A Python expression's value, or the message of the exception it raises. */
  datatype Eval<T> = Value(v: T) | Raised(message: string)

  datatype Response = Ok(answer: string) | Error(status: nat, message: string)

  const NoJsonData := "No JSON data received"
  const NoQuestionField := "No 'question' field in JSON data"
  const NoFinalAnswer := "The graph did not produce a final answer."
  const ProcessingError := "Query processing error: "
  /** Stand-in text for the message-validation error a non-string question causes. */
  const InvalidContent := "message content must be a string"

  /** Python truthiness of a parsed JSON value: the falsy values are exactly
      null, false, 0, "", [] and {}. */
  predicate Truthy(j: Json)
    ensures !Truthy(j) <==> j in {JNull, JBool(false), JNum(0), JStr(""), JArr([]), JObj(map[])}
  {
    match j
    case JNull => false
    case JBool(b) => b
    case JNum(n) => n != 0
    case JStr(s) => s != ""
    case JArr(items) => items != []
    case JObj(fields) => fields != map[]
  }

  /** `"question" in j`: a key test on objects, an element test on lists, a
      substring test on strings, and a TypeError on everything else. */
  function HasQuestion(j: Json): (r: Eval<bool>)
    ensures r.Raised? <==> j.JNull? || j.JBool? || j.JNum?
    ensures j.JObj? ==> r == Value("question" in j.fields)
    ensures j.JArr? ==> r == Value(exists i :: 0 <= i < |j.items| && j.items[i] == JStr("question"))
    ensures j.JStr? ==> r == Value(exists i :: OccursAt(j.s, "question", i))
  {
    match j
    case JObj(fields) => Value("question" in fields)
    case JArr(items) => Value(JStr("question") in items)
    case JStr(s) =>
      ContainsCorrect(s, "question");
      Value(Contains(s, "question"))
    case JNum(_) => Raised("argument of type 'int' is not iterable")
    case JBool(_) => Raised("argument of type 'bool' is not iterable")
    case JNull => Raised("argument of type 'NoneType' is not iterable")
  }

  /** `j["question"]`: only an object holding the key yields a value. */
  function QuestionValue(j: Json): (r: Eval<Json>)
    ensures r.Value? <==> j.JObj? && "question" in j.fields
    ensures r.Value? ==> r.v == j.fields["question"]
  {
    match j
    case JObj(fields) => if "question" in fields then Value(fields["question"]) else Raised("'question'")
    case JArr(_) => Raised("list indices must be integers or slices, not str")
    case JStr(_) => Raised("string indices must be integers, not 'str'")
    case JNum(_) => Raised("'int' object is not subscriptable")
    case JBool(_) => Raised("'bool' object is not subscriptable")
    case JNull => Raised("'NoneType' object is not subscriptable")
  }

  /** A streamed state whose last message is an AI message without tool calls. */
  predicate IsAnswerStep(step: seq<Message>)
    requires step != []
  {
    Last(step).AI? && Last(step).toolCalls == []
  }

  predicate AllNonEmpty(steps: seq<seq<Message>>)
  {
    forall i :: 0 <= i < |steps| ==> steps[i] != []
  }

  /** The content of the last answer step of the stream, if any. */
  function LastAnswer(steps: seq<seq<Message>>): (r: Option<string>)
    requires AllNonEmpty(steps)
    ensures r.Some? ==> exists i :: 0 <= i < |steps| && IsAnswerStep(steps[i]) && r.value == Last(steps[i]).content
  {
    if steps == [] then None
    else if IsAnswerStep(steps[|steps| - 1]) then Some(Last(steps[|steps| - 1]).content)
    else LastAnswer(steps[..|steps| - 1])
  }

  /** The answer is taken from an answer step with no answer step after it, and
      there is none exactly when no step is an answer step. */
  lemma {:induction false} LastAnswerSpec(steps: seq<seq<Message>>)
    requires AllNonEmpty(steps)
    ensures LastAnswer(steps).None? <==> forall i :: 0 <= i < |steps| ==> !IsAnswerStep(steps[i])
    ensures LastAnswer(steps).Some? ==>
      exists i :: 0 <= i < |steps| && IsAnswerStep(steps[i])
        && LastAnswer(steps).value == Last(steps[i]).content
        && forall j :: i < j < |steps| ==> !IsAnswerStep(steps[j])
  {
    if steps != [] {
      var n := |steps| - 1;
      var init := steps[..n];
      LastAnswerSpec(init);
      assert forall i :: 0 <= i < n ==> init[i] == steps[i];
      if IsAnswerStep(steps[n]) {
        assert LastAnswer(steps) == Some(Last(steps[n]).content);
      } else if LastAnswer(init).Some? {
        var i :| 0 <= i < n && IsAnswerStep(init[i]) && LastAnswer(init).value == Last(init[i]).content
          && forall j :: i < j < n ==> !IsAnswerStep(init[j]);
        assert IsAnswerStep(steps[i]) && forall j :: i < j < |steps| ==> !IsAnswerStep(steps[j]);
      }
    }
  }

  /** The loop over the stream: each answer step overwrites `final_answer`. */
  method FinalAnswer(steps: seq<seq<Message>>) returns (final: Option<string>)
    requires AllNonEmpty(steps)
    ensures final == LastAnswer(steps)
  {
    final := None;
    for i := 0 to |steps|
      invariant final == LastAnswer(steps[..i])
    {
      assert steps[..i + 1][..i] == steps[..i];
      var lastMessage := Last(steps[i]);
      if lastMessage.AI? && lastMessage.toolCalls == [] {
        final := Some(lastMessage.content);
      }
    }
    assert steps[..|steps|] == steps;
  }

  /** The last message of a run's final state. */
  function FinalMessage(t: Trace): Message
    requires t.states != [] && t.states[|t.states| - 1] != []
  {
    Last(t.states[|t.states| - 1])
  }

  /** When no step but the last is an answer step, the stream's answer is the
      last step's, if it is one. */
  lemma OnlyLastCanAnswer(steps: seq<seq<Message>>)
    requires AllNonEmpty(steps) && steps != []
    requires forall i :: 0 <= i < |steps| - 1 ==> !IsAnswerStep(steps[i])
    ensures LastAnswer(steps) ==
      (if IsAnswerStep(steps[|steps| - 1]) then Some(Last(steps[|steps| - 1]).content) else None)
  {
    var n := |steps| - 1;
    assert forall i :: 0 <= i < n ==> steps[..n][i] == steps[i];
    LastAnswerSpec(steps[..n]);
  }

  /** For a run started from one human message, the stream's answer is the
      final message's content when that message has no tool calls, and there is
      none otherwise; that message is the tool-bound model's direct reply when
      it called no tools, and `generate`'s reply otherwise. */
  lemma RunAnswer(q: string, decide: seq<Message> -> Reply, runTool: ToolCall -> string,
                  answer: seq<Message> -> Reply)
    ensures var t := Execute([Human(q)], decide, runTool, answer);
      && AllNonEmpty(t.states)
      && LastAnswer(t.states) == (if FinalMessage(t).toolCalls == [] then Some(FinalMessage(t).content) else None)
      && (decide([Human(q)]).toolCalls == [] ==> FinalMessage(t) == AIMessage(decide([Human(q)])))
      && (decide([Human(q)]).toolCalls != [] ==>
            var s1 := [Human(q)] + [QueryOrRespond([Human(q)], decide)];
            var s2 := s1 + ToolNode(s1, runTool);
            FinalMessage(t) == AIMessage(answer(Prompt(s2))))
  {
    var initial := [Human(q)];
    var t := Execute(initial, decide, runTool, answer);
    var s1 := initial + [QueryOrRespond(initial, decide)];
    if decide(initial).toolCalls == [] {
      assert t.states == [initial, s1];
    } else {
      var s2 := s1 + ToolNode(s1, runTool);
      assert t.states == [initial, s1, s2, s2 + [AIMessage(answer(Prompt(s2)))]];
      assert Last(s2).Tool?;
    }
    OnlyLastCanAnswer(t.states);
  }

  /** A request whose body is a JSON object with a string under "question". */
  predicate Answerable(request: Request)
  {
    request.Parsed? && request.json.JObj? && "question" in request.json.fields
    && request.json.fields["question"].JStr?
  }

  function QuestionOf(request: Request): string
    requires Answerable(request)
  {
    request.json.fields["question"].s
  }

  /** Whether the run for `q` ends with an AI message without tool calls and
      with non-empty content. */
  predicate RunAnswers(q: string, decide: seq<Message> -> Reply, runTool: ToolCall -> string,
                       answer: seq<Message> -> Reply)
  {
    var t := Execute([Human(q)], decide, runTool, answer);
    t.states[|t.states| - 1] != []
    && FinalMessage(t).toolCalls == [] && FinalMessage(t).content != ""
  }

  /** `query`: the POST /query handler. `fault` is the exception the graph run
      raises, if any (a model or tool failure). */
  method Query(request: Request, fault: Option<string>, decide: seq<Message> -> Reply,
               runTool: ToolCall -> string, answer: seq<Message> -> Reply) returns (resp: Response)
    ensures resp.Error? ==> resp.status == 400 || resp.status == 500
    ensures resp == Error(400, NoJsonData) <==> request.Parsed? && !Truthy(request.json)
    ensures resp == Error(400, NoQuestionField) <==>
      request.Parsed? && Truthy(request.json) && HasQuestion(request.json) == Value(false)
    ensures request.Unparsable? ==> resp == Error(500, ProcessingError + request.error)
    ensures request.Parsed? && Truthy(request.json) && HasQuestion(request.json).Raised?
      ==> resp == Error(500, ProcessingError + HasQuestion(request.json).message)
    ensures request.Parsed? && HasQuestion(request.json) == Value(true) && QuestionValue(request.json).Raised?
      ==> resp == Error(500, ProcessingError + QuestionValue(request.json).message)
    ensures request.Parsed? && HasQuestion(request.json) == Value(true)
      && QuestionValue(request.json).Value? && !QuestionValue(request.json).v.JStr?
      ==> resp == Error(500, ProcessingError + InvalidContent)
    ensures Answerable(request) && fault.Some? ==> resp == Error(500, ProcessingError + fault.value)
    ensures resp.Ok? <==> Answerable(request) && fault.None? && RunAnswers(QuestionOf(request), decide, runTool, answer)
    ensures resp.Ok? ==> resp.answer == FinalMessage(Execute([Human(QuestionOf(request))], decide, runTool, answer)).content
    ensures Answerable(request) && fault.None? && !RunAnswers(QuestionOf(request), decide, runTool, answer)
      ==> resp == Error(500, NoFinalAnswer)
  {
    if request.Unparsable? {
      return Error(500, ProcessingError + request.error);
    }
    var json := request.json;
    if !Truthy(json) {
      return Error(400, NoJsonData);
    }
    var has := HasQuestion(json);
    if has.Raised? {
      return Error(500, ProcessingError + has.message);
    }
    if !has.v {
      return Error(400, NoQuestionField);
    }
    var question := QuestionValue(json);
    if question.Raised? {
      return Error(500, ProcessingError + question.message);
    }
    if !question.v.JStr? {
      return Error(500, ProcessingError + InvalidContent);
    }
    if fault.Some? {
      return Error(500, ProcessingError + fault.value);
    }
    var userInput := question.v.s;
    RunAnswer(userInput, decide, runTool, answer);
    var path, states := Run([Human(userInput)], decide, runTool, answer);
    var finalAnswer := FinalAnswer(states);
    if finalAnswer.Some? && finalAnswer.value != "" {
      resp := Ok(finalAnswer.value);
    } else {
      resp := Error(500, NoFinalAnswer);
    }
  }
}
