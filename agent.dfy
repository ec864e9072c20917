/** The agent: one generate-create-activate-invoke attempt (`step`) and the bounded retry loop
    around it (`pipeline`). The language models, the retrieval step and the n8n platform are
    oracles whose answers are fixed in advance: `Replies` for one step, `rounds(idx)` for
    iteration idx of the loop. */
module AgentCore {
  import opened Wrappers
  import opened JsonValues
  import opened Strings
  import opened WorkflowSchema
  import opened Calls
  import opened N8nService

  // ---------------------------------------------------------------------------
  // WorkflowExecutionError and get_error_msg

  datatype WorkflowExecutionError = WorkflowExecutionError(
    message: string,
    stage: string,
    workflow: Json := JNull,
    originalError: Option<Exn> := None)

  /** What a step raises: a WorkflowExecutionError tagged with its stage, or any other
      exception, which no caller here catches. */
  datatype Thrown = Stage(err: WorkflowExecutionError) | Other(exn: Exn)

  /** The indentation of the template's lines in the source text. */
  const MARGIN := "        "

  // The four long lines of the template, each written as two literals.
  const ERRORS_LINE := "There are some errors" + " in the previous workflow."
  const PROCESS_LINE := "The workflow generation" + " process is as follows:"
  const STEP_LINE := "And the error" + " is in the step: "
  const MESSAGE_LINE := "With the following" + " error message:"

  /** The lines of the f-string get_error_msg fills, without their margin. */
  function TemplateBody(stage: string, message: string): seq<string>
  {
    [ERRORS_LINE,
     PROCESS_LINE,
     "1. generate_workflow",
     "2. create_workflow",
     "3. get_webhook_input",
     "4. activate_workflow",
     "5. call_webhook",
     "",
     STEP_LINE + stage,
     MESSAGE_LINE,
     message,
     ""]
  }

  /** The f-string as written: every line indented by the margin except the empty line
      after the list of steps. */
  function TemplateLines(stage: string, message: string): seq<string>
  {
    var body := TemplateBody(stage, message);
    seq(|body|, i requires 0 <= i < |body| => if i == 7 then "" else MARGIN + body[i])
  }

  /** get_error_msg(stage, message) */
  function GetErrorMsg(stage: string, message: string): string
  {
    Dedent(Join("\n", TemplateLines(stage, message)))
  }

  /** For a one-line stage and message, dedent removes exactly the margin: the text is the
      template's lines without it, a message of blanks only leaves an empty line, and the
      text ends with a newline. */
  lemma GetErrorMsgSingleLine(stage: string, message: string)
    requires '\n' !in stage && '\n' !in message
    ensures GetErrorMsg(stage, message) == Join("\n", TemplateBody(stage, if AllBlank(message) then "" else message))
  {
    var body := TemplateBody(stage, message);
    var ls := TemplateLines(stage, message);
    TemplateBodyLines(stage, message);
    forall i | 0 <= i < |ls|
      ensures '\n' !in ls[i]
    {
      if i != 7 {
        NoNewlineAppend(MARGIN, body[i]);
      }
    }
    forall i | 0 <= i < |ls| && !AllBlank(ls[i])
      ensures MARGIN <= ls[i]
    {
    }
    IndentOfMargin(MARGIN, body[0]);
    MarginLine(body[0]);
    DedentCommonIndent(ls, MARGIN, 0);
    var got := seq(|ls|, i requires 0 <= i < |ls| => if AllBlank(ls[i]) then [] else ls[i][|MARGIN|..]);
    var want := TemplateBody(stage, if AllBlank(message) then "" else message);
    forall i | 0 <= i < |ls|
      ensures got[i] == want[i]
    {
      if i != 7 {
        MarginLine(body[i]);
      }
    }
    assert got == want;
  }

  lemma NoNewlineAppend(s: string, t: string)
    requires '\n' !in s && '\n' !in t
    ensures '\n' !in s + t
  {
  }

  /** A line behind the margin is blank exactly when the line is, and dropping the margin
      gives the line back. */
  lemma MarginLine(l: string)
    ensures AllBlank(MARGIN + l) <==> AllBlank(l)
    ensures (MARGIN + l)[|MARGIN|..] == l
  {
    if !AllBlank(l) {
      var j :| 0 <= j < |l| && !IsBlank(l[j]);
      assert (MARGIN + l)[|MARGIN| + j] == l[j];
    }
  }

  /** The template's lines hold no newline, and all but the empty ones and the message
      start with a character that is not blank. */
  lemma TemplateBodyLines(stage: string, message: string)
    requires '\n' !in stage && '\n' !in message
    ensures var body := TemplateBody(stage, message);
            |body| == 12 && body[7] == [] && body[11] == [] &&
            (forall i :: 0 <= i < 12 ==> '\n' !in body[i]) &&
            (forall i :: 0 <= i < 12 && i != 7 && i != 10 && i != 11 ==> body[i] != [] && !IsBlank(body[i][0]))
  {
    ErrorsLineHasNoNewline();
    ProcessLineHasNoNewline();
    StepLineHasNoNewline(stage);
    ListHasNoNewline();
    NoNewlineAppend("With the following", " error message:");
    var body := TemplateBody(stage, message);
    assert body[8][0] == 'A';
  }

  lemma ErrorsLineHasNoNewline()
    ensures '\n' !in ERRORS_LINE
  {
    NoNewlineAppend("There are some errors", " in the previous workflow.");
  }

  lemma ProcessLineHasNoNewline()
    ensures '\n' !in PROCESS_LINE
  {
    NoNewlineAppend("The workflow generation", " process is as follows:");
  }

  lemma StepLineHasNoNewline(stage: string)
    requires '\n' !in stage
    ensures '\n' !in STEP_LINE + stage
  {
    NoNewlineAppend("And the error", " is in the step: ");
    NoNewlineAppend(STEP_LINE, stage);
  }

  lemma ListHasNoNewline()
    ensures '\n' !in "1. generate_workflow" && '\n' !in "2. create_workflow" && '\n' !in "3. get_webhook_input"
    ensures '\n' !in "4. activate_workflow" && '\n' !in "5. call_webhook"
  {
  }

  // ---------------------------------------------------------------------------
  // The collaborators

  /** The agent's own collaborators and its retry bound: `dumps` is json.dumps(…, indent=2)
      and `show` is str() of a list or a dict. */
  datatype Agent = Agent(dumps: Json -> string, show: Json -> string, maxRetries: int := 5)

  /** What the collaborators answer to the calls of one step, each call being made at most
      once: the retrieval agent's answer; the platform's replies to the create, activate and
      deactivate requests (the decoded body of a 2xx response, or the error raised); what
      get_webhooks returns or raises; the input agent's answer; and what the three-argument
      call_webhook returns or raises. A step that stops early leaves the later answers
      unread. */
  datatype Replies = Replies(
    generation: Result<Completion, Exn>,
    creation: Result<Json, Exn>,
    webhooks: Result<seq<WebhookNodeParameters>, Exn>,
    input: Result<Completion, Exn>,
    activation: Result<Json, Exn>,
    invocation: Result<Json, Exn>,
    deactivation: Result<Json, Exn>)

  /** The arguments of one step. */
  datatype StepArgs = StepArgs(stepName: string, prompt: string, archive: string, errors: Option<string>, guidelines: Json)

  function RetrieveOf(args: StepArgs): Event
  {
    Retrieve(args.prompt, args.archive, args.errors, args.guidelines)
  }

  // ---------------------------------------------------------------------------
  // The stages of step

  /** Stage 1: the retrieval agent's workflow, parsed, with its name prefixed by the step
      name. */
  function Generated(reply: Result<Completion, Exn>, stepName: string, show: Json -> string): (r: Result<map<string, Json>, Exn>)
    ensures r.Success? <==> reply.Success? && reply.value.parsed.Success? && reply.value.parsed.value.JObj? &&
                            "name" in reply.value.parsed.value.fields
    ensures r.Success? ==>
              var g := reply.value.parsed.value.fields;
              r.value.Keys == g.Keys &&
              r.value["name"] == JStr(stepName + "-" + PyStr(g["name"], show)) &&
              forall k :: k in g && k != "name" ==> r.value[k] == g[k]
  {
    match reply
    case Failure(e) => Failure(e)
    case Success(c) =>
      match c.parsed
      case Failure(e) => Failure(e)
      case Success(j) =>
        match Get(j, "name")
        case Failure(e) => Failure(e)
        case Success(name) => Success(j.fields["name" := JStr(stepName + "-" + PyStr(name, show))])
  }

  /** Stage 2: what create_workflow(workflow, is_webhook=True) returned, and the read of the
      created workflow's name inside the same try. */
  function Created(result: Result<Json, Exn>): (r: Result<Json, Exn>)
    ensures r.Success? <==> result.Success? && result.value.JObj? && "name" in result.value.fields
    ensures r.Success? ==> r == result
    ensures result.Failure? ==> r == result
  {
    match result
    case Failure(e) => Failure(e)
    case Success(c) =>
      match Get(c, "name")
      case Failure(e) => Failure(e)
      case Success(_) => Success(c)
  }

  /** Stage 2 as the step runs it: the client's create_workflow on the generated definition,
      given the platform's reply to the request. */
  function Creation(reply: Result<Json, Exn>, w: map<string, Json>): Result<Json, Exn>
  {
    Created(CreateResponse(reply, w, true))
  }

  /** s contains t. */
  predicate HasSubstring(s: string, t: string)
    decreases |s|
  {
    t <= s || (s != [] && HasSubstring(s[1..], t))
  }

  /** `"body" in j` */
  function ContainsBody(j: Json): Result<bool, Exn>
  {
    match j
    case JObj(m) => Success("body" in m)
    case JArr(xs) => Success(JStr("body") in xs)
    case JStr(s) => Success(HasSubstring(s, "body"))
    case _ => Failure(TypeError("argument of type '" + TypeName(j) + "' is not iterable"))
  }

  /** Agent.get_webhook_input, from the input agent's answer: the answer parsed as JSON, and
      an object with a "body" key replaced by that key's value. An object, list or string
      without "body" is kept; a list holding the string "body" cannot be indexed by it, and a
      scalar cannot be searched for it. */
  function GetWebhookInput(reply: Result<Completion, Exn>): (r: Result<Json, Exn>)
    ensures reply.Failure? ==> r == Failure(reply.error)
    ensures reply.Success? && reply.value.parsed.Failure? ==> r == Failure(reply.value.parsed.error)
    ensures r.Success? ==>
              reply.Success? && reply.value.parsed.Success? &&
              var j := reply.value.parsed.value;
              r.value == j || (j.JObj? && "body" in j.fields && r.value == j.fields["body"])
    ensures reply.Success? && reply.value.parsed.Success? ==>
              var j := reply.value.parsed.value;
              (j.JObj? ==> r == Success(if "body" in j.fields then j.fields["body"] else j)) &&
              (j.JArr? ==> (r.Success? <==> JStr("body") !in j.items)) &&
              (j.JArr? && JStr("body") in j.items ==> r == Failure(TypeError("list indices must be integers or slices, not str"))) &&
              (j.JStr? ==> (r.Success? <==> !HasSubstring(j.s, "body"))) &&
              (j.JNull? || j.JBool? || j.JNum? ==> r == Failure(TypeError("argument of type '" + TypeName(j) + "' is not iterable")))
  {
    match reply
    case Failure(e) => Failure(e)
    case Success(c) =>
      match c.parsed
      case Failure(e) => Failure(e)
      case Success(webhookInput) =>
        match ContainsBody(webhookInput)
        case Failure(e) => Failure(e)
        case Success(has) => if has then Get(webhookInput, "body") else Success(webhookInput)
  }

  function StageError(message: string, stage: string, w: map<string, Json>, e: Option<Exn>): Result<Json, Thrown>
  {
    Failure(Stage(WorkflowExecutionError(message, stage, JObj(w), e)))
  }

  /** The number of calls a step has made when it raises a tagged error of the stage: two
      for create_workflow and get_webhook_input, three or four for activate_workflow (before
      and after the activation request), and six for call_webhook, the last of them the
      deactivate. */
  predicate StageFits(stage: string, m: int)
  {
    (stage == "create_workflow" && m == 2) ||
    (stage == "get_webhook_input" && m == 2) ||
    (stage == "activate_workflow" && (m == 3 || m == 4)) ||
    (stage == "call_webhook" && m == 6)
  }

  predicate IsStageError(r: Result<Json, Thrown>, stage: string)
  {
    r.Failure? && r.error.Stage? && r.error.err.stage == stage
  }

  /** Agent.step as a function of its collaborators' answers: its outcome and the calls it
      makes, in order. */
  function StepRun(a: Agent, args: StepArgs, q: Replies): (Result<Json, Thrown>, seq<Event>)
  {
    var g := RetrieveOf(args);
    match Generated(q.generation, args.stepName, a.show)
    case Failure(e) => (Failure(Other(e)), [g])
    case Success(w) =>
      var c := CreateRequest(w);
      match Creation(q.creation, w)
      case Failure(e) => (StageError("Error creating workflow: " + ExnText(e), "create_workflow", w, Some(e)), [g, c])
      case Success(created) =>
        match q.webhooks
        case Failure(e) => (StageError("Error getting webhook input: " + ExnText(e), "get_webhook_input", w, Some(e)), [g, c])
        case Success(hooks) =>
          if hooks == [] then (StageError("No webhook found in the workflow", "get_webhook_input", w, None), [g, c])
          else
            var s := SynthesizeInput(created);
            match GetWebhookInput(q.input)
            case Failure(e) => (Failure(Other(e)), [g, c, s])
            case Success(input) =>
              var (r, tail) := DeployRun(w, created, hooks[0], input, q);
              (r, [g, c, s] + tail)
  }

  /** The end of Agent.step once the webhook input is known: the activation of the created
      workflow, the call of its first webhook, and the deactivate after a failed call. */
  function DeployRun(w: map<string, Json>, created: Json, hook: WebhookNodeParameters, input: Json, q: Replies)
    : (Result<Json, Thrown>, seq<Event>)
  {
    match Get(created, "id")
    case Failure(e) => (StageError("Error activating workflow: " + ExnText(e), "activate_workflow", w, Some(e)), [])
    case Success(id) =>
      var act := ActivateWorkflow(id);
      match ActiveOf(q.activation)
      case Failure(e) => (StageError("Error activating workflow: " + ExnText(e), "activate_workflow", w, Some(e)), [act])
      case Success(_) =>
        var call := CallWebhook(hook.path, hook.httpMethod, input);
        match q.invocation
        case Success(v) => (Success(v), [act, call])
        case Failure(e) =>
          var d := DeactivateWorkflow(id);
          match ActiveOf(q.deactivation)
          case Failure(x) => (Failure(Other(x)), [act, call, d])
          case Success(_) => (StageError("Error calling webhook: " + ExnText(e), "call_webhook", w, Some(e)), [act, call, d])
  }

  /** The shape of a step: what it calls first, how a success and a tagged error end it. */
  lemma StepRunShape(a: Agent, args: StepArgs, q: Replies)
    // the retrieval comes first, a success is the answer to the webhook call, the fifth call
    // and the last
    ensures var (r, calls) := StepRun(a, args, q);
            1 <= |calls| <= 6 && calls[0] == RetrieveOf(args)
    ensures var (r, calls) := StepRun(a, args, q);
            r.Success? <==> |calls| == 5
    ensures var (r, calls) := StepRun(a, args, q);
            r.Success? ==> q.invocation.Success? && r.value == q.invocation.value
    // every tagged error carries the generated workflow, with its prefixed name
    ensures var (r, calls) := StepRun(a, args, q);
            r.Failure? && r.error.Stage? ==>
              var gen := Generated(q.generation, args.stepName, a.show);
              gen.Success? && r.error.err.workflow == JObj(gen.value) && StageFits(r.error.err.stage, |calls|)
  {
    var g := RetrieveOf(args);
    var gen := Generated(q.generation, args.stepName, a.show);
    if gen.Failure? {
      assert StepRun(a, args, q) == (Failure(Other(gen.error)), [g]);
    } else {
      var w := gen.value;
      var c := CreateRequest(w);
      var created := Creation(q.creation, w);
      if created.Failure? {
        var e := created.error;
        assert StepRun(a, args, q) ==
               (StageError("Error creating workflow: " + ExnText(e), "create_workflow", w, Some(e)), [g, c]);
      } else if q.webhooks.Failure? {
        var e := q.webhooks.error;
        assert StepRun(a, args, q) ==
               (StageError("Error getting webhook input: " + ExnText(e), "get_webhook_input", w, Some(e)), [g, c]);
      } else if q.webhooks.value == [] {
        assert StepRun(a, args, q) ==
               (StageError("No webhook found in the workflow", "get_webhook_input", w, None), [g, c]);
      } else if GetWebhookInput(q.input).Failure? {
        assert StepRun(a, args, q) ==
               (Failure(Other(GetWebhookInput(q.input).error)), [g, c, SynthesizeInput(created.value)]);
      } else {
        var tail := DeployRun(w, created.value, q.webhooks.value[0], GetWebhookInput(q.input).value, q);
        assert StepRun(a, args, q) == (tail.0, [g, c, SynthesizeInput(created.value)] + tail.1);
      }
    }
  }

  /** The first three stages of a step: generate_workflow, create_workflow and get_webhook_input. */
  lemma StepRunCreates(a: Agent, args: StepArgs, q: Replies)
    // 1. generate_workflow: its failure is not caught, and ends the step after the retrieval
    ensures var (r, calls) := StepRun(a, args, q);
            var gen := Generated(q.generation, args.stepName, a.show);
            (gen.Failure? <==> |calls| == 1) &&
            (gen.Failure? ==> r == Failure(Other(gen.error))) &&
            (gen.Success? ==> calls[1] == CreateRequest(gen.value))
    // 2. create_workflow fails exactly when the client's create does, with its error, and
    // nothing is called after the create request
    ensures var (r, calls) := StepRun(a, args, q);
            var gen := Generated(q.generation, args.stepName, a.show);
            IsStageError(r, "create_workflow") <==> gen.Success? && Creation(q.creation, gen.value).Failure?
    ensures var (r, calls) := StepRun(a, args, q);
            var gen := Generated(q.generation, args.stepName, a.show);
            gen.Success? && Creation(q.creation, gen.value).Failure? ==>
              var e := Creation(q.creation, gen.value).error;
              r == StageError("Error creating workflow: " + ExnText(e), "create_workflow", gen.value, Some(e))
    // 3. get_webhook_input: a failed listing and an empty one fail the step after the create
    // request; otherwise the input agent is asked about the created workflow
    ensures var (r, calls) := StepRun(a, args, q);
            var gen := Generated(q.generation, args.stepName, a.show);
            gen.Success? && Creation(q.creation, gen.value).Success? ==>
              (q.webhooks.Failure? ==>
                 r == StageError("Error getting webhook input: " + ExnText(q.webhooks.error), "get_webhook_input",
                                 gen.value, Some(q.webhooks.error))) &&
              (q.webhooks == Success([]) ==>
                 r == StageError("No webhook found in the workflow", "get_webhook_input", gen.value, None)) &&
              (q.webhooks.Success? && q.webhooks.value != [] <==> |calls| > 2)
    ensures var (r, calls) := StepRun(a, args, q);
            |calls| > 2 ==>
              var created := Creation(q.creation, Generated(q.generation, args.stepName, a.show).value);
              created.Success? && calls[2] == SynthesizeInput(created.value)
  {
    var gen := Generated(q.generation, args.stepName, a.show);
    if gen.Success? {
      var created := Creation(q.creation, gen.value);
      if created.Success? && q.webhooks.Success? && q.webhooks.value != [] && GetWebhookInput(q.input).Success? {
        var tail := DeployRun(gen.value, created.value, q.webhooks.value[0], GetWebhookInput(q.input).value, q);
        assert StepRun(a, args, q) ==
               (tail.0, [RetrieveOf(args), CreateRequest(gen.value), SynthesizeInput(created.value)] + tail.1);
      }
    }
  }

  /** The last two stages of a step: activate_workflow and call_webhook, after the input agent. */
  lemma StepRunDeploys(a: Agent, args: StepArgs, q: Replies)
    // the input agent's failure is not caught and ends the step before activation; a
    // created workflow without an id fails the activation stage before any request
    ensures var (r, calls) := StepRun(a, args, q);
            |calls| > 2 && GetWebhookInput(q.input).Failure? ==>
              |calls| == 3 && r == Failure(Other(GetWebhookInput(q.input).error))
    ensures var (r, calls) := StepRun(a, args, q);
            |calls| > 2 && GetWebhookInput(q.input).Success? ==>
              var id := Get(calls[2].workflow, "id");
              (id.Success? <==> |calls| > 3) &&
              (id.Failure? ==>
                 r == StageError("Error activating workflow: " + ExnText(id.error), "activate_workflow",
                                 Generated(q.generation, args.stepName, a.show).value, Some(id.error)))
    // 4. activate_workflow: the activation of the created workflow's id; its failure fails the
    // step with neither the webhook call nor a deactivate
    ensures var (r, calls) := StepRun(a, args, q);
            |calls| > 3 ==>
              Get(calls[2].workflow, "id").Success? && calls[3] == ActivateWorkflow(Get(calls[2].workflow, "id").value) &&
              (ActiveOf(q.activation).Failure? <==> |calls| == 4)
    ensures var (r, calls) := StepRun(a, args, q);
            |calls| == 4 ==>
              var e := ActiveOf(q.activation).error;
              r == StageError("Error activating workflow: " + ExnText(e), "activate_workflow",
                              Generated(q.generation, args.stepName, a.show).value, Some(e))
    // 5. call_webhook: only the first webhook is called, at its path and with its method, with
    // what the input agent's answer parses to, its "body" unwrapped
    ensures var (r, calls) := StepRun(a, args, q);
            |calls| > 4 ==>
              q.webhooks.Success? && q.webhooks.value != [] &&
              calls[4] == CallWebhook(q.webhooks.value[0].path, q.webhooks.value[0].httpMethod,
                                      GetWebhookInput(q.input).value)
    // when the call fails, one deactivate of the activated workflow follows, outside any try,
    // so that its own failure replaces the tagged error
    ensures var (r, calls) := StepRun(a, args, q);
            |calls| > 4 ==> (q.invocation.Failure? <==> |calls| == 6)
    ensures var (r, calls) := StepRun(a, args, q);
            |calls| > 4 && q.invocation.Failure? ==>
              var e := q.invocation.error;
              calls[5] == DeactivateWorkflow(calls[3].id) &&
              (ActiveOf(q.deactivation).Failure? ==> r == Failure(Other(ActiveOf(q.deactivation).error))) &&
              (ActiveOf(q.deactivation).Success? ==>
                 r == StageError("Error calling webhook: " + ExnText(e), "call_webhook",
                                 Generated(q.generation, args.stepName, a.show).value, Some(e)))
  {
    var gen := Generated(q.generation, args.stepName, a.show);
    if gen.Success? {
      var created := Creation(q.creation, gen.value);
      if created.Success? && q.webhooks.Success? && q.webhooks.value != [] && GetWebhookInput(q.input).Success? {
        var tail := DeployRun(gen.value, created.value, q.webhooks.value[0], GetWebhookInput(q.input).value, q);
        assert StepRun(a, args, q) ==
               (tail.0, [RetrieveOf(args), CreateRequest(gen.value), SynthesizeInput(created.value)] + tail.1);
      }
    }
  }

  /** Agent.step, given what its collaborators answer: its outcome and the calls it makes, in
      order, as StepRun states them; StepRunShape, StepRunCreates, StepRunDeploys and
      StepSucceedsIff say what those are. */
  method Step(a: Agent, args: StepArgs, q: Replies) returns (r: Result<Json, Thrown>, calls: seq<Event>)
    ensures (r, calls) == StepRun(a, args, q)
  {
    // 1. generate_workflow
    var g := RetrieveOf(args);
    var generated := Generated(q.generation, args.stepName, a.show);
    if generated.Failure? {
      return Failure(Other(generated.error)), [g];
    }
    var w := generated.value;
    // 2. create_workflow
    var c := CreateRequest(w);
    var created := Creation(q.creation, w);
    if created.Failure? {
      var e := created.error;
      return StageError("Error creating workflow: " + ExnText(e), "create_workflow", w, Some(e)), [g, c];
    }
    // 3. get_webhook_input
    if q.webhooks.Failure? {
      var e := q.webhooks.error;
      return StageError("Error getting webhook input: " + ExnText(e), "get_webhook_input", w, Some(e)), [g, c];
    }
    if q.webhooks.value == [] {
      return StageError("No webhook found in the workflow", "get_webhook_input", w, None), [g, c];
    }
    var hook := q.webhooks.value[0];
    var s := SynthesizeInput(created.value);
    var input := GetWebhookInput(q.input);
    if input.Failure? {
      return Failure(Other(input.error)), [g, c, s];
    }
    // 4. and 5.
    var tail;
    r, tail := Deploy(w, created.value, hook, input.value, q);
    calls := [g, c, s] + tail;
  }

  /** The end of Agent.step once the webhook input is known: the activation of the created
      workflow, the call of its first webhook, and the deactivate after a failed call. It
      returns the outcome of the step and the calls it makes. */
  method Deploy(w: map<string, Json>, created: Json, hook: WebhookNodeParameters, input: Json, q: Replies)
    returns (r: Result<Json, Thrown>, calls: seq<Event>)
    ensures (r, calls) == DeployRun(w, created, hook, input, q)
    ensures |calls| <= 3
    ensures r.Success? <==> |calls| == 2
    ensures r.Success? ==> q.invocation.Success? && r.value == q.invocation.value
    ensures r.Failure? && r.error.Stage? ==> r.error.err.workflow == JObj(w) && StageFits(r.error.err.stage, |calls| + 3)
    // a created workflow without an id is not activated
    ensures calls == [] <==> Get(created, "id").Failure?
    ensures calls == [] ==>
              r == StageError("Error activating workflow: " + ExnText(Get(created, "id").error), "activate_workflow",
                              w, Some(Get(created, "id").error))
    ensures calls != [] ==>
              Get(created, "id").Success? && calls[0] == ActivateWorkflow(Get(created, "id").value) &&
              (ActiveOf(q.activation).Failure? <==> |calls| == 1)
    ensures |calls| == 1 ==>
              r == StageError("Error activating workflow: " + ExnText(ActiveOf(q.activation).error), "activate_workflow",
                              w, Some(ActiveOf(q.activation).error))
    ensures |calls| > 1 ==>
              calls[1] == CallWebhook(hook.path, hook.httpMethod, input) && (q.invocation.Failure? <==> |calls| == 3)
    ensures |calls| > 1 && q.invocation.Failure? ==>
              calls[2] == DeactivateWorkflow(calls[0].id) &&
              (ActiveOf(q.deactivation).Failure? ==> r == Failure(Other(ActiveOf(q.deactivation).error))) &&
              (ActiveOf(q.deactivation).Success? ==>
                 r == StageError("Error calling webhook: " + ExnText(q.invocation.error), "call_webhook", w,
                                 Some(q.invocation.error)))
  {
    // 4. activate_workflow
    var id := Get(created, "id");
    if id.Failure? {
      var e := id.error;
      return StageError("Error activating workflow: " + ExnText(e), "activate_workflow", w, Some(e)), [];
    }
    var act := ActivateWorkflow(id.value);
    var activated := ActiveOf(q.activation);
    if activated.Failure? {
      var e := activated.error;
      return StageError("Error activating workflow: " + ExnText(e), "activate_workflow", w, Some(e)), [act];
    }
    // 5. call_webhook
    var call := CallWebhook(hook.path, hook.httpMethod, input);
    if q.invocation.Failure? {
      var d := DeactivateWorkflow(id.value);
      var deactivated := ActiveOf(q.deactivation);
      if deactivated.Failure? {
        return Failure(Other(deactivated.error)), [act, call, d];
      }
      var e := q.invocation.error;
      return StageError("Error calling webhook: " + ExnText(e), "call_webhook", w, Some(e)), [act, call, d];
    }
    return Success(q.invocation.value), [act, call];
  }

  /** The step reaches the webhook's answer exactly when every stage succeeds: generation,
      the client's create, a non-empty webhook list, the input agent, an id on the created
      workflow, activation and the webhook call; the answer is then the call's. */
  lemma StepSucceedsIff(a: Agent, args: StepArgs, q: Replies)
    ensures var (r, calls) := StepRun(a, args, q);
            var gen := Generated(q.generation, args.stepName, a.show);
            (r.Success? <==>
               gen.Success? && Creation(q.creation, gen.value).Success? &&
               q.webhooks.Success? && q.webhooks.value != [] && GetWebhookInput(q.input).Success? &&
               Get(Creation(q.creation, gen.value).value, "id").Success? &&
               ActiveOf(q.activation).Success? && q.invocation.Success?) &&
            (r.Success? ==> r.value == q.invocation.value && |calls| == 5)
  {
    var gen := Generated(q.generation, args.stepName, a.show);
    if gen.Success? {
      var created := Creation(q.creation, gen.value);
      if created.Success? && q.webhooks.Success? && q.webhooks.value != [] && GetWebhookInput(q.input).Success? {
        var d := DeployRun(gen.value, created.value, q.webhooks.value[0], GetWebhookInput(q.input).value, q);
        assert StepRun(a, args, q).0 == d.0;
      }
    }
  }

  /** A generated definition without "nodes" is sent with an empty node list, and the step
      then fails at stage create_workflow with KeyError 'nodes' even when the platform
      accepts the request. */
  lemma StepWithoutNodes(a: Agent, args: StepArgs, q: Replies)
    requires Generated(q.generation, args.stepName, a.show).Success?
    requires "nodes" !in Generated(q.generation, args.stepName, a.show).value
    requires q.creation.Success?
    ensures var w := Generated(q.generation, args.stepName, a.show).value;
            StepRun(a, args, q) ==
              (StageError("Error creating workflow: 'nodes'", "create_workflow", w, Some(KeyError("nodes"))),
               [RetrieveOf(args), CreateWorkflow(Convert(w))]) &&
            Convert(w)["nodes"] == JArr([])
  {
    var w := Generated(q.generation, args.stepName, a.show).value;
    CreateWithoutNodes(q.creation, w);
    assert Creation(q.creation, w) == Failure(KeyError("nodes"));
    assert "Error creating workflow: " + ExnText(KeyError("nodes")) == "Error creating workflow: 'nodes'";
  }

  // ---------------------------------------------------------------------------
  // pipeline

  /** What the collaborators answer in one iteration of the loop: the meta agent's answer to
      the transcript, and the answers to the calls of the step. */
  datatype Round = Round(plan: Result<Completion, Exn>, step: Replies)

  /** f"{timestamp}-{idx + 1:02d}" */
  function StepName(timestamp: string, idx: nat): string
  {
    timestamp + "-" + ZeroPad2(idx + 1)
  }

  /** Different iterations of one run give their workflows different step names. */
  lemma StepNamesDistinct(timestamp: string, i: nat, j: nat)
    requires StepName(timestamp, i) == StepName(timestamp, j)
    ensures i == j
  {
    var k := |timestamp| + 1;
    assert StepName(timestamp, i)[k..] == ZeroPad2(i + 1);
    assert StepName(timestamp, j)[k..] == ZeroPad2(j + 1);
    ZeroPad2Injective(i + 1, j + 1);
  }

  /** json.loads(response_meta)["guidelines"] */
  function GuidelinesOf(meta: Completion): Result<Json, Exn>
  {
    match meta.parsed
    case Failure(e) => Failure(e)
    case Success(j) => Get(j, "guidelines")
  }

  /** The number of iterations range(max_retries) allows. */
  function Bound(maxRetries: int): nat
  {
    if maxRetries < 0 then 0 else maxRetries
  }

  /** An error the loop caught, with the message get_error_msg made of it. */
  datatype Retry = Retry(err: WorkflowExecutionError, errorMsg: string)

  /** The archive after the caught errors fs: the dump of each one's workflow. */
  function Archive(a: Agent, fs: seq<Retry>): (r: seq<string>)
    ensures |r| == |fs|
    decreases |fs|
  {
    if fs == [] then [] else Archive(a, fs[..|fs| - 1]) + [a.dumps(fs[|fs| - 1].err.workflow)]
  }

  /** error_msg after the caught errors fs: none before the first, then the last one's. */
  function LastError(fs: seq<Retry>): Option<string>
  {
    if fs == [] then None else Some(fs[|fs| - 1].errorMsg)
  }

  /** The meta agent's transcript after the caught errors fs: the system and user messages,
      then for each error the plan the meta agent gave in that iteration and the reflection on
      that error. */
  predicate Transcript(ms: seq<Message>, a: Agent, prompt: string, rounds: nat -> Round, fs: seq<Retry>)
    decreases |fs|
  {
    if fs == [] then ms == [SystemDirective, Human(prompt)]
    else
      var last := fs[|fs| - 1];
      |ms| >= 2 && Transcript(ms[..|ms| - 2], a, prompt, rounds, fs[..|fs| - 1]) &&
      rounds(|fs| - 1).plan.Success? &&
      ms[|ms| - 2..] == [AI(rounds(|fs| - 1).plan.value.text), Reflection(a.dumps(last.err.workflow), last.errorMsg)]
  }

  /** The transcripts of the plan calls in a log, in order. */
  function Transcripts(log: seq<Event>): seq<seq<Message>>
  {
    if log == [] then [] else (if log[0].Plan? then [log[0].messages] else []) + Transcripts(log[1..])
  }

  /** The retrieval calls in a log, in order. */
  function Retrievals(log: seq<Event>): seq<Event>
  {
    if log == [] then [] else (if log[0].Retrieve? then [log[0]] else []) + Retrievals(log[1..])
  }

  /** The workflow definitions handed to create_workflow in a log, in order. */
  function Creations(log: seq<Event>): seq<map<string, Json>>
  {
    if log == [] then [] else (if log[0].CreateWorkflow? then [log[0].body] else []) + Creations(log[1..])
  }

  lemma {:induction false} TranscriptsAppend(x: seq<Event>, y: seq<Event>)
    ensures Transcripts(x + y) == Transcripts(x) + Transcripts(y)
  {
    if x == [] {
      assert x + y == y;
    } else {
      var h := if x[0].Plan? then [x[0].messages] else [];
      assert (x + y)[0] == x[0] && (x + y)[1..] == x[1..] + y;
      assert Transcripts(x + y) == h + Transcripts(x[1..] + y);
      TranscriptsAppend(x[1..], y);
      assert h + (Transcripts(x[1..]) + Transcripts(y)) == (h + Transcripts(x[1..])) + Transcripts(y);
    }
  }

  lemma {:induction false} RetrievalsAppend(x: seq<Event>, y: seq<Event>)
    ensures Retrievals(x + y) == Retrievals(x) + Retrievals(y)
  {
    if x == [] {
      assert x + y == y;
    } else {
      var h := if x[0].Retrieve? then [x[0]] else [];
      assert (x + y)[0] == x[0] && (x + y)[1..] == x[1..] + y;
      assert Retrievals(x + y) == h + Retrievals(x[1..] + y);
      RetrievalsAppend(x[1..], y);
      assert h + (Retrievals(x[1..]) + Retrievals(y)) == (h + Retrievals(x[1..])) + Retrievals(y);
    }
  }

  lemma {:induction false} CreationsAppend(x: seq<Event>, y: seq<Event>)
    ensures Creations(x + y) == Creations(x) + Creations(y)
  {
    if x == [] {
      assert x + y == y;
    } else {
      var h := if x[0].CreateWorkflow? then [x[0].body] else [];
      assert (x + y)[0] == x[0] && (x + y)[1..] == x[1..] + y;
      assert Creations(x + y) == h + Creations(x[1..] + y);
      CreationsAppend(x[1..], y);
      assert h + (Creations(x[1..]) + Creations(y)) == (h + Creations(x[1..])) + Creations(y);
    }
  }

  /** Each filter of a log distributes over concatenation. */
  lemma FiltersAppend(x: seq<Event>, y: seq<Event>)
    ensures Transcripts(x + y) == Transcripts(x) + Transcripts(y)
    ensures Retrievals(x + y) == Retrievals(x) + Retrievals(y)
    ensures Creations(x + y) == Creations(x) + Creations(y)
  {
    TranscriptsAppend(x, y);
    RetrievalsAppend(x, y);
    CreationsAppend(x, y);
  }

  lemma {:induction false} NoPlanNoRetrieval(d: seq<Event>)
    requires forall i :: 0 <= i < |d| ==> !d[i].Plan? && !d[i].Retrieve? && !d[i].CreateWorkflow?
    ensures Transcripts(d) == [] && Retrievals(d) == [] && Creations(d) == []
  {
    if d != [] {
      NoPlanNoRetrieval(d[1..]);
    }
  }

  /** A step's log holds no plan, exactly one retrieval, its first call, and at most one
      creation, its second. */
  lemma StepLogFilters(d: seq<Event>)
    requires 1 <= |d| <= 6 && d[0].Retrieve?
    requires |d| > 1 ==> d[1].CreateWorkflow?
    requires |d| > 2 ==> d[2].SynthesizeInput?
    requires |d| > 3 ==> d[3].ActivateWorkflow?
    requires |d| > 4 ==> d[4].CallWebhook?
    requires |d| > 5 ==> d[5].DeactivateWorkflow?
    ensures Transcripts(d) == [] && Retrievals(d) == [d[0]]
    ensures Creations(d) == if |d| > 1 then [d[1].body] else []
  {
    if |d| > 1 {
      assert d[1..][1..] == d[2..];
      assert forall i :: 0 <= i < |d[2..]| ==> d[2..][i] == d[i + 2];
      NoPlanNoRetrieval(d[2..]);
    }
  }

  /** The retrieval of an iteration after the caught errors fs: the user's prompt, the
      archive joined by newlines, the last error message, and the meta agent's guidelines. */
  predicate RetrievalFits(e: Event, a: Agent, prompt: string, round: Round, fs: seq<Retry>)
  {
    e.Retrieve? && e.prompt == prompt && e.archive == Join("\n", Archive(a, fs)) && e.errors == LastError(fs) &&
    round.plan.Success? && GuidelinesOf(round.plan.value) == Success(e.guidelines)
  }

  /** A caught error carries the generated definition, whose name starts with the
      iteration's step name. */
  predicate FailureFits(err: WorkflowExecutionError, timestamp: string, idx: nat)
  {
    err.workflow.JObj? &&
    "name" in err.workflow.fields && err.workflow.fields["name"].JStr? &&
    StepName(timestamp, idx) <= err.workflow.fields["name"].s
  }

  /** Each caught error is kept with the message get_error_msg makes of its stage and
      message. */
  predicate Reflected(fs: seq<Retry>)
    decreases |fs|
  {
    fs == [] ||
    var n := |fs| - 1;
    Reflected(fs[..n]) && fs[n].errorMsg == GetErrorMsg(fs[n].err.stage, fs[n].err.message)
  }

  lemma {:induction false} ReflectedAt(fs: seq<Retry>, j: nat)
    requires Reflected(fs) && j < |fs|
    ensures fs[j].errorMsg == GetErrorMsg(fs[j].err.stage, fs[j].err.message)
    decreases |fs|
  {
    var n := |fs| - 1;
    if j < n {
      ReflectedAt(fs[..n], j);
      assert fs[..n][j] == fs[j];
    }
  }

  lemma ReflectedGrow(fs: seq<Retry>, err: WorkflowExecutionError)
    requires Reflected(fs)
    ensures Reflected(fs + [Retry(err, GetErrorMsg(err.stage, err.message))])
  {
    assert (fs + [Retry(err, GetErrorMsg(err.stage, err.message))])[..|fs|] == fs;
  }

  /** How an iteration of the loop ends: the run ends with a result, or the step raised a
      WorkflowExecutionError and the loop goes on. */
  datatype Outcome = Finished(r: Result<Json, Exn>) | Caught(err: WorkflowExecutionError)

  /** The try block around a step: its result ends the run, a WorkflowExecutionError is
      caught, and any other exception ends the run too. */
  function Catch(r: Result<Json, Thrown>): Outcome
  {
    match r
    case Success(v) => Finished(Success(v))
    case Failure(Other(x)) => Finished(Failure(x))
    case Failure(Stage(e)) => Caught(e)
  }

  /** Iteration idx of Agent.pipeline's loop, with the archive and the last error message
      the loop holds: how it ends, and the calls it makes after asking the meta agent. A
      failed plan or a plan without guidelines ends the run; otherwise the step runs under
      the iteration's step name, with the prompt, the archive joined by newlines, the last
      error message and the guidelines. */
  function IterationRun(a: Agent, prompt: string, timestamp: string, idx: nat, round: Round,
                        archives: seq<string>, errorMsg: Option<string>): (Outcome, seq<Event>)
  {
    match round.plan
    case Failure(e) => (Finished(Failure(e)), [])
    case Success(meta) =>
      match GuidelinesOf(meta)
      case Failure(e) => (Finished(Failure(e)), [])
      case Success(guidelines) =>
        var args := StepArgs(StepName(timestamp, idx), prompt, Join("\n", archives), errorMsg, guidelines);
        var (r, log) := StepRun(a, args, round.step);
        (Catch(r), log)
  }

  /** Iteration idx, after the caught errors fs, caught err. */
  predicate CaughtIn(a: Agent, prompt: string, timestamp: string, idx: nat, round: Round, fs: seq<Retry>,
                     err: WorkflowExecutionError)
  {
    IterationRun(a, prompt, timestamp, idx, round, Archive(a, fs), LastError(fs)).0 == Caught(err)
  }

  /** Each error of fs is the one its iteration's step raised, after the errors before it. */
  predicate AllCaught(a: Agent, prompt: string, timestamp: string, rounds: nat -> Round, fs: seq<Retry>)
  {
    forall j {:trigger CaughtIn(a, prompt, timestamp, j, rounds(j), fs[..j], fs[j].err)} ::
      0 <= j < |fs| ==> CaughtIn(a, prompt, timestamp, j, rounds(j), fs[..j], fs[j].err)
  }

  lemma AllCaughtGrows(a: Agent, prompt: string, timestamp: string, rounds: nat -> Round, fs: seq<Retry>, f: Retry)
    requires AllCaught(a, prompt, timestamp, rounds, fs)
    requires CaughtIn(a, prompt, timestamp, |fs|, rounds(|fs|), fs, f.err)
    ensures AllCaught(a, prompt, timestamp, rounds, fs + [f])
  {
    var fs' := fs + [f];
    forall j | 0 <= j < |fs'|
      ensures CaughtIn(a, prompt, timestamp, j, rounds(j), fs'[..j], fs'[j].err)
    {
      if j < |fs| {
        assert fs'[..j] == fs[..j] && fs'[j] == fs[j];
      } else {
        assert fs'[..j] == fs;
      }
    }
  }

  /** Each caught error's workflow is a definition whose conversion is what its iteration
      sent to the platform, cs[j] in iteration j. */
  predicate Sent(cs: seq<map<string, Json>>, fs: seq<Retry>)
    decreases |fs|
  {
    |cs| == |fs| &&
    (fs == [] ||
     var n := |fs| - 1;
     Sent(cs[..n], fs[..n]) && fs[n].err.workflow.JObj? && cs[n] == Convert(fs[n].err.workflow.fields))
  }

  lemma {:induction false} SentAt(cs: seq<map<string, Json>>, fs: seq<Retry>, j: nat)
    requires Sent(cs, fs) && j < |fs|
    ensures fs[j].err.workflow.JObj? && cs[j] == Convert(fs[j].err.workflow.fields)
    decreases |fs|
  {
    var n := |fs| - 1;
    if j < n {
      SentAt(cs[..n], fs[..n], j);
      assert cs[..n][j] == cs[j] && fs[..n][j] == fs[j];
    }
  }

  /** The iterations of a run that caught the errors fs, all of them: iteration j's meta
      agent saw the transcript of the first j errors, its retrieval had their archive and the
      last one's message, and error j carries the workflow iteration j created. */
  predicate Fits(ts: seq<seq<Message>>, rs: seq<Event>, cs: seq<map<string, Json>>, fs: seq<Retry>,
                 a: Agent, prompt: string, timestamp: string, rounds: nat -> Round)
    requires |ts| == |rs| == |cs| == |fs|
    decreases |fs|
  {
    fs == [] ||
    var n := |fs| - 1;
    Fits(ts[..n], rs[..n], cs[..n], fs[..n], a, prompt, timestamp, rounds) &&
    Transcript(ts[n], a, prompt, rounds, fs[..n]) &&
    RetrievalFits(rs[n], a, prompt, rounds(n), fs[..n]) &&
    FailureFits(fs[n].err, timestamp, n)
  }

  /** What Fits says of each iteration j. */
  lemma {:induction false} FitsAt(ts: seq<seq<Message>>, rs: seq<Event>, cs: seq<map<string, Json>>, fs: seq<Retry>,
                                  a: Agent, prompt: string, timestamp: string, rounds: nat -> Round, j: nat)
    requires |ts| == |rs| == |cs| == |fs| && Fits(ts, rs, cs, fs, a, prompt, timestamp, rounds) && j < |fs|
    ensures Transcript(ts[j], a, prompt, rounds, fs[..j])
    ensures RetrievalFits(rs[j], a, prompt, rounds(j), fs[..j])
    ensures FailureFits(fs[j].err, timestamp, j)
  {
    var n := |fs| - 1;
    if j < n {
      FitsAt(ts[..n], rs[..n], cs[..n], fs[..n], a, prompt, timestamp, rounds, j);
      assert fs[..n][..j] == fs[..j];
    }
  }

  /** What an iteration over the transcript msgs, after the caught errors fs, asked and
      how it ended: it planned from msgs; if it retrieved, it did so with the prompt, the
      archive and the last error message of fs, and the meta agent's guidelines; a caught
      error carries the definition the iteration created under its step name; a success is
      the webhook's answer to the last call; a failed plan ends the run with its error; and the
      outcome is the one the iteration's step leads to. */
  predicate IterationFits(o: Outcome, log: seq<Event>, a: Agent, prompt: string, timestamp: string, idx: nat,
                          round: Round, msgs: seq<Message>, fs: seq<Retry>)
  {
    Transcripts(log) == [msgs] && |Creations(log)| <= |Retrievals(log)| <= 1 &&
    (|Retrievals(log)| == 1 ==> RetrievalFits(Retrievals(log)[0], a, prompt, round, fs)) &&
    (o.Caught? ==>
       |Creations(log)| == 1 && FailureFits(o.err, timestamp, idx) &&
       Creations(log)[0] == Convert(o.err.workflow.fields)) &&
    (o.Finished? && o.r.Success? ==>
       |Retrievals(log)| == 1 && round.step.invocation == Success(o.r.value) && log[|log| - 1].CallWebhook?) &&
    (round.plan.Failure? ==> o == Finished(Failure(round.plan.error))) &&
    o == IterationRun(a, prompt, timestamp, idx, round, Archive(a, fs), LastError(fs)).0
  }

  /** One iteration of Agent.pipeline's loop, iteration idx after the caught errors fs, over
      the transcript msgs, the archive and the last error message: ask the meta agent, read
      its guidelines, and run the step. */
  method Iteration(a: Agent, prompt: string, timestamp: string, idx: nat, round: Round,
                   msgs: seq<Message>, archives: seq<string>, errorMsg: Option<string>, ghost fs: seq<Retry>)
    returns (o: Outcome, log: seq<Event>)
    requires archives == Archive(a, fs) && errorMsg == LastError(fs)
    ensures o == IterationRun(a, prompt, timestamp, idx, round, archives, errorMsg).0
    ensures log == [Plan(msgs)] + IterationRun(a, prompt, timestamp, idx, round, archives, errorMsg).1
    ensures IterationFits(o, log, a, prompt, timestamp, idx, round, msgs, fs)
  {
    log := [Plan(msgs)];
    if round.plan.Failure? {
      return Finished(Failure(round.plan.error)), log;
    }
    var meta := round.plan.value;
    var guidelines := GuidelinesOf(meta);
    if guidelines.Failure? {
      return Finished(Failure(guidelines.error)), log;
    }
    var args := StepArgs(StepName(timestamp, idx), prompt, Join("\n", archives), errorMsg, guidelines.value);
    var stepLog;
    o, stepLog := Attempt(a, args, round.step);
    StepLog(a, args, round.step);
    FiltersAppend(log, stepLog);
    log := log + stepLog;
  }

  /** The try block around a step: its result ends the run, a WorkflowExecutionError is
      caught, and any other exception ends the run too. */
  method Attempt(a: Agent, args: StepArgs, q: Replies) returns (o: Outcome, log: seq<Event>)
    ensures o == Catch(StepRun(a, args, q).0) && log == StepRun(a, args, q).1
  {
    var response;
    response, log := Step(a, args, q);
    if response.Success? {
      o := Finished(Success(response.value));
    } else if response.error.Other? {
      o := Finished(Failure(response.error.exn));
    } else {
      o := Caught(response.error.err);
    }
  }

  /** The log of a step holds one retrieval and no plan; a tagged error carries the
      generated definition, named after the step, whose conversion is the one definition the
      step sent to the platform; and a success is the answer to the webhook call that ends
      the log. */
  lemma StepLog(a: Agent, args: StepArgs, q: Replies)
    ensures var (r, calls) := StepRun(a, args, q);
            Transcripts(calls) == [] && Retrievals(calls) == [RetrieveOf(args)] && |Creations(calls)| <= 1
    ensures var (r, calls) := StepRun(a, args, q);
            r.Failure? && r.error.Stage? ==>
              var w := r.error.err.workflow;
              |Creations(calls)| == 1 && w.JObj? && Creations(calls)[0] == Convert(w.fields) &&
              "name" in w.fields && w.fields["name"].JStr? && args.stepName <= w.fields["name"].s
    ensures var (r, calls) := StepRun(a, args, q);
            r.Success? ==> q.invocation == Success(r.value) && calls[|calls| - 1].CallWebhook?
  {
    var (r, calls) := StepRun(a, args, q);
    StepRunShape(a, args, q);
    StepRunCreates(a, args, q);
    StepRunDeploys(a, args, q);
    StepLogFilters(calls);
    var gen := Generated(q.generation, args.stepName, a.show);
    if gen.Success? {
      var name := args.stepName + "-" + PyStr(q.generation.value.parsed.value.fields["name"], a.show);
      assert gen.value["name"] == JStr(name);
      assert args.stepName <= name;
    }
  }

  /** An iteration that caught an error extends the iterations that fit by one. */
  lemma FitsGrow(ts: seq<seq<Message>>, rs: seq<Event>, cs: seq<map<string, Json>>, fs: seq<Retry>,
                 a: Agent, prompt: string, timestamp: string, rounds: nat -> Round,
                 t: seq<Message>, e: Event, c: map<string, Json>, f: Retry)
    requires |ts| == |rs| == |cs| == |fs| && Fits(ts, rs, cs, fs, a, prompt, timestamp, rounds)
    requires Transcript(t, a, prompt, rounds, fs) && RetrievalFits(e, a, prompt, rounds(|fs|), fs)
    requires FailureFits(f.err, timestamp, |fs|)
    ensures Fits(ts + [t], rs + [e], cs + [c], fs + [f], a, prompt, timestamp, rounds)
  {
    var n := |fs|;
    assert (ts + [t])[..n] == ts && (rs + [e])[..n] == rs && (cs + [c])[..n] == cs && (fs + [f])[..n] == fs;
  }

  /** The state of the loop before iteration idx, after the caught errors fs: the
      transcript, the archive and the last error message are those of fs, the log holds one
      plan, one retrieval and one creation per caught error, and all of those fit. */
  predicate Looping(idx: nat, msgs: seq<Message>, archives: seq<string>, errorMsg: Option<string>,
                    calls: seq<Event>, fs: seq<Retry>, a: Agent, prompt: string, timestamp: string,
                    rounds: nat -> Round)
  {
    idx == |fs| <= Bound(a.maxRetries) &&
    Transcript(msgs, a, prompt, rounds, fs) && archives == Archive(a, fs) && errorMsg == LastError(fs) &&
    |Transcripts(calls)| == idx && |Retrievals(calls)| == idx && |Creations(calls)| == idx &&
    Fits(Transcripts(calls), Retrievals(calls), Creations(calls), fs, a, prompt, timestamp, rounds) &&
    AllCaught(a, prompt, timestamp, rounds, fs) && Sent(Creations(calls), fs) && Reflected(fs)
  }

  /** What Agent.pipeline promises of its result r, its log and the errors fs it caught:
      - at most max_retries iterations, and "Failed to generate workflow" when all of them
        caught an error; otherwise the iteration after the last caught error ended the run,
        with r;
      - a success is the answer of the webhook call that ends the log, in an iteration
        that retrieved;
      - the iterations that caught an error fit, each error is kept with get_error_msg's
        message, and the last iteration planned from the transcript of all the errors and,
        if it retrieved, did so after all of them. */
  predicate RunFits(r: Result<Json, Exn>, calls: seq<Event>, fs: seq<Retry>, a: Agent, prompt: string,
                    timestamp: string, rounds: nat -> Round)
  {
    var ts, rs, cs, n := Transcripts(calls), Retrievals(calls), Creations(calls), |fs|;
    n <= Bound(a.maxRetries) &&
    (n == Bound(a.maxRetries) ==> r == Failure(Exception("Failed to generate workflow"))) &&
    |ts| == (if n < Bound(a.maxRetries) then n + 1 else n) &&
    n <= |cs| <= |rs| <= |ts| &&
    (r.Success? ==>
       |rs| == n + 1 && rounds(n).step.invocation == Success(r.value) && calls[|calls| - 1].CallWebhook?) &&
    Fits(ts[..n], rs[..n], cs[..n], fs, a, prompt, timestamp, rounds) &&
    Reflected(fs) &&
    (n < |ts| ==> Transcript(ts[n], a, prompt, rounds, fs)) &&
    (n < |rs| ==> RetrievalFits(rs[n], a, prompt, rounds(n), fs))
  }

  /** How Agent.pipeline's loop retries: every error in fs is the one its iteration's step
      raised, given the errors before it, and unless all max_retries iterations caught one,
      the iteration after the last caught error ended the run with r. */
  predicate RunRetries(r: Result<Json, Exn>, fs: seq<Retry>, a: Agent, prompt: string, timestamp: string,
                       rounds: nat -> Round)
  {
    AllCaught(a, prompt, timestamp, rounds, fs) &&
    (|fs| < Bound(a.maxRetries) ==>
       IterationRun(a, prompt, timestamp, |fs|, rounds(|fs|), Archive(a, fs), LastError(fs)).0 == Finished(r))
  }

  /** The meta agent's transcript after the caught errors fs, as a value: the system and
      user messages, then for each error its iteration's plan and the reflection on it. A
      failed plan ends the run, so it is never followed by a reflection. */
  function TranscriptOf(a: Agent, prompt: string, rounds: nat -> Round, fs: seq<Retry>): seq<Message>
    decreases |fs|
  {
    if fs == [] then [SystemDirective, Human(prompt)]
    else
      var n := |fs| - 1;
      var plan := match rounds(n).plan case Success(meta) => [AI(meta.text)] case Failure(_) => [];
      TranscriptOf(a, prompt, rounds, fs[..n]) + plan + [Reflection(a.dumps(fs[n].err.workflow), fs[n].errorMsg)]
  }

  /** The transcript the loop keeps is the one TranscriptOf builds. */
  lemma {:induction false} TranscriptIsOf(ms: seq<Message>, a: Agent, prompt: string, rounds: nat -> Round,
                                          fs: seq<Retry>)
    requires Transcript(ms, a, prompt, rounds, fs)
    ensures ms == TranscriptOf(a, prompt, rounds, fs)
    decreases |fs|
  {
    if fs != [] {
      var n := |fs| - 1;
      TranscriptIsOf(ms[..|ms| - 2], a, prompt, rounds, fs[..n]);
      assert ms == ms[..|ms| - 2] + ms[|ms| - 2..];
    }
  }

  /** The log of iteration idx after the caught errors fs: the plan over their transcript,
      then the calls of the iteration's step. */
  function IterationLog(a: Agent, prompt: string, timestamp: string, idx: nat, rounds: nat -> Round,
                        fs: seq<Retry>): seq<Event>
  {
    [Plan(TranscriptOf(a, prompt, rounds, fs))] +
    IterationRun(a, prompt, timestamp, idx, rounds(idx), Archive(a, fs), LastError(fs)).1
  }

  /** The log of the iterations of a run that caught the errors fs, one after the other:
      iteration j's log after the errors before j. */
  function RunLog(a: Agent, prompt: string, timestamp: string, rounds: nat -> Round, fs: seq<Retry>): seq<Event>
    decreases |fs|
  {
    if fs == [] then []
    else
      var n := |fs| - 1;
      RunLog(a, prompt, timestamp, rounds, fs[..n]) + IterationLog(a, prompt, timestamp, n, rounds, fs[..n])
  }

  lemma RunLogGrows(a: Agent, prompt: string, timestamp: string, rounds: nat -> Round, fs: seq<Retry>, f: Retry)
    ensures RunLog(a, prompt, timestamp, rounds, fs + [f]) ==
            RunLog(a, prompt, timestamp, rounds, fs) + IterationLog(a, prompt, timestamp, |fs|, rounds, fs)
  {
    assert (fs + [f])[..|fs|] == fs;
  }

  /** A caught error extends the transcript by the iteration's plan and the reflection on
      the error, the archive by the error's workflow, and sets the last error message. */
  lemma StateGrows(msgs: seq<Message>, fs: seq<Retry>, a: Agent, prompt: string, rounds: nat -> Round,
                   err: WorkflowExecutionError)
    requires Transcript(msgs, a, prompt, rounds, fs) && Reflected(fs) && rounds(|fs|).plan.Success?
    ensures var archive, message := a.dumps(err.workflow), GetErrorMsg(err.stage, err.message);
            var fs' := fs + [Retry(err, message)];
            Transcript(msgs + [AI(rounds(|fs|).plan.value.text), Reflection(archive, message)], a, prompt, rounds, fs') &&
            Archive(a, fs') == Archive(a, fs) + [archive] && LastError(fs') == Some(message) && Reflected(fs')
  {
    var archive, message := a.dumps(err.workflow), GetErrorMsg(err.stage, err.message);
    var fs' := fs + [Retry(err, message)];
    var msgs' := msgs + [AI(rounds(|fs|).plan.value.text), Reflection(archive, message)];
    assert fs'[..|fs|] == fs;
    assert msgs'[..|msgs|] == msgs;
    ReflectedGrow(fs, err);
  }

  /** A caught error adds one plan, one retrieval and one creation to the log, and one more
      iteration that fits. */
  lemma LogGrows(idx: nat, msgs: seq<Message>, calls: seq<Event>, fs: seq<Retry>, a: Agent, prompt: string,
                 timestamp: string, rounds: nat -> Round, o: Outcome, log: seq<Event>, message: string)
    requires idx == |fs| && |Transcripts(calls)| == idx && |Retrievals(calls)| == idx && |Creations(calls)| == idx
    requires Fits(Transcripts(calls), Retrievals(calls), Creations(calls), fs, a, prompt, timestamp, rounds)
    requires Transcript(msgs, a, prompt, rounds, fs) && Sent(Creations(calls), fs)
    requires IterationFits(o, log, a, prompt, timestamp, idx, rounds(idx), msgs, fs) && o.Caught?
    ensures var calls', fs' := calls + log, fs + [Retry(o.err, message)];
            |Transcripts(calls')| == idx + 1 && |Retrievals(calls')| == idx + 1 && |Creations(calls')| == idx + 1 &&
            Fits(Transcripts(calls'), Retrievals(calls'), Creations(calls'), fs', a, prompt, timestamp, rounds) &&
            Sent(Creations(calls'), fs')
  {
    var e, c := Retrievals(log)[0], Creations(log)[0];
    assert Retrievals(log) == [e] && Creations(log) == [c];
    FiltersAppend(calls, log);
    var f := Retry(o.err, message);
    FitsGrow(Transcripts(calls), Retrievals(calls), Creations(calls), fs, a, prompt, timestamp, rounds,
             msgs, e, c, f);
    var cs', fs' := Creations(calls) + [c], fs + [f];
    assert cs'[..idx] == Creations(calls) && fs'[..idx] == fs;
  }

  lemma LoopingGrows(idx: nat, msgs: seq<Message>, archives: seq<string>, errorMsg: Option<string>,
                     calls: seq<Event>, fs: seq<Retry>, a: Agent, prompt: string, timestamp: string,
                     rounds: nat -> Round, o: Outcome, log: seq<Event>)
    requires idx < a.maxRetries && Looping(idx, msgs, archives, errorMsg, calls, fs, a, prompt, timestamp, rounds)
    requires IterationFits(o, log, a, prompt, timestamp, idx, rounds(idx), msgs, fs) && o.Caught?
    ensures rounds(idx).plan.Success?
    ensures var archive, message := a.dumps(o.err.workflow), GetErrorMsg(o.err.stage, o.err.message);
            Looping(idx + 1, msgs + [AI(rounds(idx).plan.value.text), Reflection(archive, message)],
                    archives + [archive], Some(message), calls + log, fs + [Retry(o.err, message)],
                    a, prompt, timestamp, rounds)
  {
    StateGrows(msgs, fs, a, prompt, rounds, o.err);
    AllCaughtGrows(a, prompt, timestamp, rounds, fs, Retry(o.err, GetErrorMsg(o.err.stage, o.err.message)));
    LogGrows(idx, msgs, calls, fs, a, prompt, timestamp, rounds, o, log, GetErrorMsg(o.err.stage, o.err.message));
  }

  lemma RunEnds(idx: nat, msgs: seq<Message>, archives: seq<string>, errorMsg: Option<string>,
                calls: seq<Event>, fs: seq<Retry>, a: Agent, prompt: string, timestamp: string,
                rounds: nat -> Round, o: Outcome, log: seq<Event>)
    requires idx < a.maxRetries && Looping(idx, msgs, archives, errorMsg, calls, fs, a, prompt, timestamp, rounds)
    requires IterationFits(o, log, a, prompt, timestamp, idx, rounds(idx), msgs, fs) && o.Finished?
    ensures RunFits(o.r, calls + log, fs, a, prompt, timestamp, rounds)
    ensures Sent(Creations(calls + log)[..|fs|], fs)
    ensures RunRetries(o.r, fs, a, prompt, timestamp, rounds)
  {
    FiltersAppend(calls, log);
    var ts, rs, cs := Transcripts(calls), Retrievals(calls), Creations(calls);
    assert Transcripts(calls + log)[..idx] == ts && Retrievals(calls + log)[..idx] == rs;
    assert Creations(calls + log)[..idx] == cs;
  }

  lemma RunExhausted(idx: nat, msgs: seq<Message>, archives: seq<string>, errorMsg: Option<string>,
                     calls: seq<Event>, fs: seq<Retry>, a: Agent, prompt: string, timestamp: string,
                     rounds: nat -> Round)
    requires idx >= a.maxRetries && Looping(idx, msgs, archives, errorMsg, calls, fs, a, prompt, timestamp, rounds)
    ensures RunFits(Failure(Exception("Failed to generate workflow")), calls, fs, a, prompt, timestamp, rounds)
    ensures Sent(Creations(calls)[..|fs|], fs)
  {
    assert |fs| == Bound(a.maxRetries);
    assert Transcripts(calls)[..idx] == Transcripts(calls) && Retrievals(calls)[..idx] == Retrievals(calls);
    assert Creations(calls)[..idx] == Creations(calls);
  }

  /** Agent.pipeline, with the run's timestamp given and `rounds(idx)` the collaborators'
      answers in iteration idx. `failures` lists the errors the loop caught, in order, each
      with its get_error_msg text; the loop itself keeps only their dumps, in `archives`. */
  method Pipeline(a: Agent, prompt: string, timestamp: string, rounds: nat -> Round)
    returns (r: Result<Json, Exn>, calls: seq<Event>, failures: seq<Retry>)
    ensures RunFits(r, calls, failures, a, prompt, timestamp, rounds)
    ensures Sent(Creations(calls)[..|failures|], failures)
    ensures RunRetries(r, failures, a, prompt, timestamp, rounds)
    // the log is the logs of the iterations that caught an error, then that of the one
    // that ended the run, if any
    ensures calls == RunLog(a, prompt, timestamp, rounds, failures) +
                     (if |failures| < Bound(a.maxRetries) then IterationLog(a, prompt, timestamp, |failures|, rounds, failures)
                      else [])
  {
    var msgs := [SystemDirective, Human(prompt)];
    var errorMsg: Option<string> := None;
    var archives: seq<string> := [];
    failures := [];
    calls := [];
    var idx := 0;
    while idx < a.maxRetries
      invariant Looping(idx, msgs, archives, errorMsg, calls, failures, a, prompt, timestamp, rounds)
      invariant calls == RunLog(a, prompt, timestamp, rounds, failures)
      decreases a.maxRetries - idx
    {
      var o, log := Iteration(a, prompt, timestamp, idx, rounds(idx), msgs, archives, errorMsg, failures);
      TranscriptIsOf(msgs, a, prompt, rounds, failures);
      assert log == IterationLog(a, prompt, timestamp, idx, rounds, failures);
      if o.Finished? {
        RunEnds(idx, msgs, archives, errorMsg, calls, failures, a, prompt, timestamp, rounds, o, log);
        return o.r, calls + log, failures;
      }
      LoopingGrows(idx, msgs, archives, errorMsg, calls, failures, a, prompt, timestamp, rounds, o, log);
      var err := o.err;
      var archive := a.dumps(err.workflow);
      var message := GetErrorMsg(err.stage, err.message);
      msgs := msgs + [AI(rounds(idx).plan.value.text), Reflection(archive, message)];
      archives := archives + [archive];
      errorMsg := Some(message);
      RunLogGrows(a, prompt, timestamp, rounds, failures, Retry(err, message));
      calls := calls + log;
      failures := failures + [Retry(err, message)];
      idx := idx + 1;
    }
    RunExhausted(idx, msgs, archives, errorMsg, calls, failures, a, prompt, timestamp, rounds);
    return Failure(Exception("Failed to generate workflow")), calls, failures;
  }

  // ---------------------------------------------------------------------------
  // What a finished run says about its iterations

  /** After k caught errors the transcript holds the two opening messages and two more per
      error. */
  lemma {:induction false} TranscriptLength(ms: seq<Message>, a: Agent, prompt: string, rounds: nat -> Round, fs: seq<Retry>)
    requires Transcript(ms, a, prompt, rounds, fs)
    ensures |ms| == 2 + 2 * |fs|
    decreases |fs|
  {
    if fs != [] {
      TranscriptLength(ms[..|ms| - 2], a, prompt, rounds, fs[..|fs| - 1]);
    }
  }

  /** Entry j of the archive is the dump of the workflow of the j-th caught error. */
  lemma {:induction false} ArchiveAt(a: Agent, fs: seq<Retry>, j: nat)
    requires j < |fs|
    ensures Archive(a, fs)[j] == a.dumps(fs[j].err.workflow)
    decreases |fs|
  {
    var n := |fs| - 1;
    if j < n {
      ArchiveAt(a, fs[..n], j);
      assert fs[..n][j] == fs[j];
    }
  }

  /** The archive of a run holds one entry per caught error: entry j is the dump of the
      generated definition iteration j's error carries, whose name starts with that
      iteration's step name and whose conversion is what that iteration sent to the
      platform. */
  lemma PipelineArchive(r: Result<Json, Exn>, calls: seq<Event>, fs: seq<Retry>, a: Agent, prompt: string,
                        timestamp: string, rounds: nat -> Round, j: nat)
    requires RunFits(r, calls, fs, a, prompt, timestamp, rounds) && Sent(Creations(calls)[..|fs|], fs) && j < |fs|
    ensures |Archive(a, fs)| == |fs| <= |Creations(calls)|
    ensures var w := fs[j].err.workflow;
            Archive(a, fs)[j] == a.dumps(w) && w.JObj? &&
            Creations(calls)[j] == Convert(w.fields) &&
            "name" in w.fields && w.fields["name"].JStr? && StepName(timestamp, j) <= w.fields["name"].s
  {
    var n := |fs|;
    var ts, rs, cs := Transcripts(calls), Retrievals(calls), Creations(calls);
    FitsAt(ts[..n], rs[..n], cs[..n], fs, a, prompt, timestamp, rounds, j);
    SentAt(cs[..n], fs, j);
    assert cs[..n][j] == cs[j];
    ArchiveAt(a, fs, j);
  }

  /** The transcript each iteration's meta agent planned from holds 2 + 2j messages in
      iteration j. */
  lemma PipelineTranscripts(r: Result<Json, Exn>, calls: seq<Event>, fs: seq<Retry>, a: Agent, prompt: string,
                            timestamp: string, rounds: nat -> Round, j: nat)
    requires RunFits(r, calls, fs, a, prompt, timestamp, rounds) && j < |Transcripts(calls)|
    ensures |Transcripts(calls)[j]| == 2 + 2 * j
    ensures j == 0 ==> Transcripts(calls)[0] == [SystemDirective, Human(prompt)]
  {
    var n := |fs|;
    var ts, rs, cs := Transcripts(calls), Retrievals(calls), Creations(calls);
    if j < n {
      FitsAt(ts[..n], rs[..n], cs[..n], fs, a, prompt, timestamp, rounds, j);
      assert ts[..n][j] == ts[j];
    } else {
      assert fs[..j] == fs;
    }
    TranscriptLength(ts[j], a, prompt, rounds, fs[..j]);
  }

  /** Each retrieval of a run asks with the user's prompt, the archive of the errors caught
      before it joined by newlines, and no error message in the first iteration; in a later
      one, get_error_msg of the previous error's stage and message. */
  lemma PipelineFeedback(r: Result<Json, Exn>, calls: seq<Event>, fs: seq<Retry>, a: Agent, prompt: string,
                         timestamp: string, rounds: nat -> Round, j: nat)
    requires RunFits(r, calls, fs, a, prompt, timestamp, rounds) && j < |Retrievals(calls)|
    ensures var e := Retrievals(calls)[j];
            e.Retrieve? && e.prompt == prompt && e.archive == Join("\n", Archive(a, fs[..j])) &&
            e.errors == (if j == 0 then None else Some(GetErrorMsg(fs[j - 1].err.stage, fs[j - 1].err.message)))
  {
    var n := |fs|;
    var ts, rs, cs := Transcripts(calls), Retrievals(calls), Creations(calls);
    assert RetrievalFits(rs[j], a, prompt, rounds(j), fs[..j]) by {
      if j < n {
        FitsAt(ts[..n], rs[..n], cs[..n], fs, a, prompt, timestamp, rounds, j);
        assert rs[..n][j] == rs[j];
      } else {
        assert fs[..j] == fs;
      }
    }
    if j > 0 {
      ReflectedAt(fs, j - 1);
      assert fs[..j][j - 1] == fs[j - 1];
      assert LastError(fs[..j]) == Some(fs[j - 1].errorMsg);
    }
  }

  /** The error message a later retrieval is given is get_error_msg of the stage and
      message of the error the previous iteration's step raised. */
  lemma PipelineFeedbackCaught(r: Result<Json, Exn>, calls: seq<Event>, fs: seq<Retry>, a: Agent, prompt: string,
                               timestamp: string, rounds: nat -> Round, j: nat)
    requires RunFits(r, calls, fs, a, prompt, timestamp, rounds) && RunRetries(r, fs, a, prompt, timestamp, rounds)
    requires 0 < j < |Retrievals(calls)|
    ensures j - 1 < |fs| && rounds(j - 1).plan.Success? && GuidelinesOf(rounds(j - 1).plan.value).Success?
    ensures var i := j - 1;
            var args := StepArgs(StepName(timestamp, i), prompt, Join("\n", Archive(a, fs[..i])), LastError(fs[..i]),
                                 GuidelinesOf(rounds(i).plan.value).value);
            StepRun(a, args, rounds(i).step).0 == Failure(Stage(fs[i].err))
    ensures Retrievals(calls)[j].Retrieve? &&
            Retrievals(calls)[j].errors == Some(GetErrorMsg(fs[j - 1].err.stage, fs[j - 1].err.message))
  {
    PipelineFeedback(r, calls, fs, a, prompt, timestamp, rounds, j);
    PipelineCaught(r, calls, fs, a, prompt, timestamp, rounds, j - 1);
  }

  /** Error j of a run is the one iteration j's step raised, after the errors before it. */
  lemma PipelineCaught(r: Result<Json, Exn>, calls: seq<Event>, fs: seq<Retry>, a: Agent, prompt: string,
                       timestamp: string, rounds: nat -> Round, j: nat)
    requires RunRetries(r, fs, a, prompt, timestamp, rounds) && j < |fs|
    ensures rounds(j).plan.Success? && GuidelinesOf(rounds(j).plan.value).Success?
    ensures var args := StepArgs(StepName(timestamp, j), prompt, Join("\n", Archive(a, fs[..j])), LastError(fs[..j]),
                                 GuidelinesOf(rounds(j).plan.value).value);
            StepRun(a, args, rounds(j).step).0 == Failure(Stage(fs[j].err))
  {
    assert CaughtIn(a, prompt, timestamp, j, rounds(j), fs[..j], fs[j].err);
  }

  /** In this round the meta agent answers with guidelines and the retrieval agent with a
      named workflow, but the platform refuses to create it. */
  predicate Refused(round: Round)
  {
    round.plan.Success? && GuidelinesOf(round.plan.value).Success? &&
    round.step.generation.Success? && round.step.generation.value.parsed.Success? &&
    round.step.generation.value.parsed.value.JObj? && "name" in round.step.generation.value.parsed.value.fields &&
    round.step.creation.Failure?
  }

  /** An iteration whose creation is refused catches the create_workflow error, whatever the
      archive and the last error message. */
  lemma RefusedIsCaught(a: Agent, prompt: string, timestamp: string, idx: nat, round: Round,
                        archives: seq<string>, errorMsg: Option<string>)
    requires Refused(round)
    ensures var o := IterationRun(a, prompt, timestamp, idx, round, archives, errorMsg).0;
            o.Caught? && o.err.stage == "create_workflow" &&
            o.err.message == "Error creating workflow: " + ExnText(round.step.creation.error)
  {
  }

  /** When the platform refuses every creation, the run makes max_retries iterations, each
      retrieving once and catching a create_workflow error, and fails with "Failed to
      generate workflow". */
  lemma PipelineExhausted(r: Result<Json, Exn>, calls: seq<Event>, fs: seq<Retry>, a: Agent, prompt: string,
                          timestamp: string, rounds: nat -> Round)
    requires RunFits(r, calls, fs, a, prompt, timestamp, rounds) && RunRetries(r, fs, a, prompt, timestamp, rounds)
    requires forall j: nat :: j < Bound(a.maxRetries) ==> Refused(rounds(j))
    ensures |fs| == Bound(a.maxRetries) && r == Failure(Exception("Failed to generate workflow"))
    ensures |Transcripts(calls)| == |Retrievals(calls)| == |Creations(calls)| == Bound(a.maxRetries)
    ensures forall j :: 0 <= j < |fs| ==> fs[j].err.stage == "create_workflow"
  {
    forall j: nat | j < Bound(a.maxRetries)
      ensures IterationRun(a, prompt, timestamp, j, rounds(j), Archive(a, fs), LastError(fs)).0.Caught?
    {
      RefusedIsCaught(a, prompt, timestamp, j, rounds(j), Archive(a, fs), LastError(fs));
    }
    forall j | 0 <= j < |fs|
      ensures fs[j].err.stage == "create_workflow"
    {
      assert CaughtIn(a, prompt, timestamp, j, rounds(j), fs[..j], fs[j].err);
      RefusedIsCaught(a, prompt, timestamp, j, rounds(j), Archive(a, fs[..j]), LastError(fs[..j]));
    }
  }

  /** The step of this round succeeds whatever it is asked, after a plan with guidelines. */
  ghost predicate Succeeds(a: Agent, round: Round)
  {
    round.plan.Success? && GuidelinesOf(round.plan.value).Success? &&
    forall args :: StepRun(a, args, round.step).0.Success?
  }

  /** A refused creation is retried: when the first round is refused and the second
      succeeds, the run catches one create_workflow error, tells the second retrieval about
      it, and ends with the answer of the second round's webhook call. */
  lemma PipelineRetryThenSuccess(r: Result<Json, Exn>, calls: seq<Event>, fs: seq<Retry>, a: Agent, prompt: string,
                                 timestamp: string, rounds: nat -> Round)
    requires RunFits(r, calls, fs, a, prompt, timestamp, rounds) && RunRetries(r, fs, a, prompt, timestamp, rounds)
    requires Bound(a.maxRetries) >= 2 && Refused(rounds(0)) && Succeeds(a, rounds(1))
    ensures |fs| == 1 && fs[0].err.stage == "create_workflow"
    ensures |Retrievals(calls)| == 2 && Retrievals(calls)[1].Retrieve? &&
            Retrievals(calls)[1].errors == Some(GetErrorMsg("create_workflow", fs[0].err.message))
    ensures r.Success? && rounds(1).step.invocation == Success(r.value)
  {
    RetriedOnce(r, fs, a, prompt, timestamp, rounds);
    PipelineFeedback(r, calls, fs, a, prompt, timestamp, rounds, 1);
    var meta := rounds(1).plan.value;
    var args := StepArgs(StepName(timestamp, 1), prompt, Join("\n", Archive(a, fs)), LastError(fs),
                         GuidelinesOf(meta).value);
    StepSucceedsIff(a, args, rounds(1).step);
  }

  /** A round whose step succeeds whatever it is asked does not catch an error. */
  lemma SucceedsNotCaught(a: Agent, prompt: string, timestamp: string, idx: nat, round: Round, fs: seq<Retry>,
                          err: WorkflowExecutionError)
    requires Succeeds(a, round)
    ensures !CaughtIn(a, prompt, timestamp, idx, round, fs, err)
  {
    var args := StepArgs(StepName(timestamp, idx), prompt, Join("\n", Archive(a, fs)), LastError(fs),
                         GuidelinesOf(round.plan.value).value);
    assert StepRun(a, args, round.step).0.Success?;
  }

  /** The iteration counting of PipelineRetryThenSuccess: the refused round is caught and the
      succeeding one ends the run. */
  lemma RetriedOnce(r: Result<Json, Exn>, fs: seq<Retry>, a: Agent, prompt: string, timestamp: string,
                    rounds: nat -> Round)
    requires RunRetries(r, fs, a, prompt, timestamp, rounds) && |fs| <= Bound(a.maxRetries)
    requires Bound(a.maxRetries) >= 2 && Refused(rounds(0)) && Succeeds(a, rounds(1))
    ensures |fs| == 1 && fs[0].err.stage == "create_workflow"
    ensures IterationRun(a, prompt, timestamp, 1, rounds(1), Archive(a, fs), LastError(fs)).0 == Finished(r)
  {
    RefusedIsCaught(a, prompt, timestamp, 0, rounds(0), Archive(a, fs), LastError(fs));
    assert |fs| >= 1;
    assert CaughtIn(a, prompt, timestamp, 0, rounds(0), fs[..0], fs[0].err);
    RefusedIsCaught(a, prompt, timestamp, 0, rounds(0), Archive(a, fs[..0]), LastError(fs[..0]));
    if |fs| >= 2 {
      SucceedsNotCaught(a, prompt, timestamp, 1, rounds(1), fs[..1], fs[1].err);
    }
  }
}
