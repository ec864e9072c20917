/** The calls the core makes to its collaborators: the n8n REST interface and webhooks, and the
    three language-model roles (the meta agent that plans, the retrieval agent that writes a
    workflow, the input agent that writes a webhook payload). Every call is recorded as an
    Event in a log. The collaborators are oracles: the n8n client's REST oracle answers a call
    given the log of the calls made before it, and the agent's collaborators answer from
    replies fixed in advance for each step and each iteration. */
module Calls {
  import opened Wrappers
  import opened JsonValues
  import opened WorkflowSchema

  /** A chat message of the meta agent's transcript. The system prompt and the reflection
      prompt are built by functions outside this model, so they are kept by their arguments. */
  datatype Message =
    | SystemDirective
    | Human(content: string)
    | AI(content: string)
    | Reflection(archive: string, errorMsg: string)

  datatype Event =
    | ListWorkflows(params: map<string, Json>)        // GET  /workflows with query parameters
    | CreateWorkflow(body: map<string, Json>)         // POST /workflows
    | DeleteWorkflow(id: Json)                        // DELETE /workflows/{id}
    | ActivateWorkflow(id: Json)                      // POST /workflows/{id}/activate
    | DeactivateWorkflow(id: Json)                    // POST /workflows/{id}/deactivate
    | CallWebhook(path: string, httpMethod: HTTPMethod, data: Json)
    | Plan(messages: seq<Message>)                    // meta agent over the transcript
    | Retrieve(prompt: string, archive: string, errors: Option<string>, guidelines: Json)
    | SynthesizeInput(workflow: Json)                 // input agent over the created workflow

  /** A language-model answer: its text and what json.loads makes of that text. */
  datatype Completion = Completion(text: string, parsed: Result<Json, Exn>)

  /** An HTTP exchange: the decoded body of a 2xx response, or the error raised by the
      status check, the transport or the decoder. */
  type Rest = (seq<Event>, Event) -> Result<Json, Exn>
}
