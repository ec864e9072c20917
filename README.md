# EvolveAgent core in Dafny

A model of the generate–validate–repair core of EvolveAgent, an agent that turns a
natural-language request into a running n8n workflow. The model covers:

- the agent (`agent.dfy`, module `AgentCore`): the tagged `WorkflowExecutionError`,
  `get_error_msg`, the body unwrap of `Agent.get_webhook_input`, `Agent.step` (generate,
  prefix the name, create, take the first webhook, synthesise its input, activate, call it,
  deactivate after a failed call) and `Agent.pipeline`, the bounded retry loop with its
  transcript, its append-only archive and its last error message;
- the n8n client (`n8n_service.dfy`, module `N8nService`): webhook-path extraction, the
  import normalisation `convert_json_to_workflow`, the query parameters of
  `get_filtered_workflows`, the paginated `delete_all_workflows`, and what `create_workflow`,
  `activate_workflow` and `deactivate_workflow` make of the platform's replies;
- the workflow schema (`workflow_schema.dfy`, module `WorkflowSchema`): the seven-member
  `HTTPMethod` enum, its case-insensitive parse, and the record types with their defaults;
- the brace escaping of `get_webhook_template` (`prompt.dfy`, module `Prompt`).

Supporting modules: `Wrappers` (Option, Result), `JsonValues` (decoded JSON and the Python
exceptions dictionary handling raises), `Strings` (decimal rendering, `"{:02d}"`, `str.join`,
`str.split("\n")`, `textwrap.dedent`), `Calls` (the events the core sends to its
collaborators).

The language models, the retrieval step and the n8n platform are oracles. `Step` takes a
`Replies` value holding what each collaborator answers (`Success(v)` or `Failure(e)`), and
`Pipeline` takes `rounds(idx)`, the answers of iteration `idx`. The platform's replies to
create, activate and deactivate go through the client's own handling (`CreateResponse`,
`ActiveOf`), so a step sends what `create_workflow` sends and fails as it fails. `Step` is
proved equal to the function `StepRun`, and `Pipeline`'s iterations to `IterationRun`; the
lemmas about those functions state what a step and a run do. Every call the core makes is
recorded, in order, in a returned log of `Event`s, so stage order and rollback are stated on
that log; `Pipeline`'s log is proved to be `RunLog`, its iterations' logs one after the other. The run's timestamp is a parameter. `json.dumps(…, indent=2)` and `str()` of a list
or dict are parameters of the `Agent` value (`dumps`, `show`); scalars are rendered exactly.

Where the repository's files disagree, the model follows what `agents/core.py` does:

- `core.py` calls `get_webhooks` and a three-argument `call_webhook`, but
  `app/services/n8n_service.py` defines no `get_webhooks` and only a one-argument
  `call_webhook`. `Step` takes the webhook list as an oracle answer of
  `(path, httpMethod)` records and records the call as `CallWebhook(path, method, data)`.
- `Agent.get_webhook_input` is called outside every `try` (`core.py:155`), so a failure of the
  input agent or of its JSON parse escapes `step` and `pipeline`. It is not tagged as a stage.
- The deactivate after a failed webhook call is not guarded (`core.py:181`). Its own failure
  replaces the tagged `call_webhook` error. It is not swallowed.
- `activate_workflow` raises on every non-2xx reply. A 400 is not treated as recoverable.
- Reading `created_workflow["id"]` happens inside the activation `try`. A created workflow
  without an id therefore fails at stage `activate_workflow` before any activation request.

## Model

| member | source | states |
|---|---|---|
| AgentCore.GetErrorMsgSingleLine | evolve_agent/agents/core.py:40-55 | get_error_msg of a one-line stage and message is the fixed twelve-line template with the margin removed, naming the stage and the message, ending in a newline |
| AgentCore.GetErrorMsg | evolve_agent/agents/core.py:40-55 | the model of get_error_msg: the template lines for the stage and message, joined and dedented; GetErrorMsgSingleLine states the result |
| AgentCore.Generated | evolve_agent/agents/core.py:119-120 | the generated definition succeeds exactly when the answer parses to an object with a name; it keeps every key and value except name, which becomes step_name + "-" + name |
| AgentCore.Created | evolve_agent/agents/core.py:126-136 | the create stage fails exactly when create_workflow raises or its result has no name, with that error |
| AgentCore.GetWebhookInput | evolve_agent/agents/core.py:81-96 | the input is the parsed answer, with an object's "body" key unwrapped to its value; the error cases of `"body" in x` for lists, strings and scalars; model and parse failures propagate |
| AgentCore.StepRun | evolve_agent/agents/core.py:98-190 | the model of Agent.step as a function of its collaborators' replies, giving its outcome and its calls; the StepRun lemmas below state them |
| AgentCore.Step | evolve_agent/agents/core.py:98-190 | the step's outcome and its calls are StepRun's: the imperative stages compute the function the lemmas below describe |
| AgentCore.StepRunShape | evolve_agent/agents/core.py:98-190 | the retrieval is the first call; a step succeeds exactly when it makes five calls, with the webhook's answer; every tagged error carries the generated definition with its prefixed name, after as many calls as its stage allows |
| AgentCore.StepRunCreates | evolve_agent/agents/core.py:118-155 | a generation failure escapes after the retrieval; the create_workflow error happens exactly when the client's create fails, with its message and error; a failed or empty webhook list gives the get_webhook_input errors; otherwise the input agent is asked about the created workflow |
| AgentCore.StepRunDeploys | evolve_agent/agents/core.py:155-190 | an input failure escapes before activation; a created workflow without id fails activate_workflow with no request; activation of the created id, whose failure stops before the call; only the first webhook is called, with the input; a failed call is followed by exactly one deactivate of that id, whose own failure replaces the tagged error |
| AgentCore.StepSucceedsIff | evolve_agent/agents/core.py:118-190 | a step returns the webhook's answer exactly when generation, create, webhook listing, input, id, activation and call all succeed, after five calls |
| AgentCore.StepWithoutNodes | evolve_agent/agents/core.py:126-136 | a generated definition without nodes is sent with an empty node list and fails create_workflow with KeyError 'nodes' even when the platform accepts it |
| AgentCore.StepLog | evolve_agent/agents/core.py:118-190 | a step retrieves once and plans never; a tagged error's definition is named after the step and is the one definition the step sent to the platform; a success answers the last call |
| AgentCore.Deploy | evolve_agent/agents/core.py:157-190 | computes DeployRun: activation of the created workflow's id (none without an id), then the call of the first webhook with the input, then one deactivate after a failed call, whose failure replaces the tagged error; success is the webhook's answer |
| AgentCore.StepNamesDistinct | evolve_agent/agents/core.py:222 | different iterations of a run get different step names `timestamp-NN` |
| AgentCore.Iteration | evolve_agent/agents/core.py:212-227 | one loop iteration ends as IterationRun says: it plans from the current transcript, a failed plan or guidelines parse ends the run, and otherwise the step runs with the iteration's step name, the prompt, the joined archive, the last error message and the guidelines; a caught error carries the one definition the iteration sent |
| AgentCore.Attempt | evolve_agent/agents/core.py:212-229 | the try block: a step's success or untagged exception ends the run, a WorkflowExecutionError is caught, with the step's calls |
| AgentCore.Catch | evolve_agent/agents/core.py:212-229 | the model of the try block: a WorkflowExecutionError is caught, a result or any other exception ends the run; Attempt and PipelineCaught use it |
| AgentCore.IterationRun | evolve_agent/agents/core.py:212-229 | the model of one loop iteration after the plan: a failed plan or guidelines parse ends the run, otherwise the step under the iteration's name, archive, last error and guidelines; Iteration, RunRetries and PipelineCaught state it |
| AgentCore.StateGrows | evolve_agent/agents/core.py:229-235 | a caught error appends the plan and the reflection to the transcript, the workflow's dump to the archive, and sets the error message to get_error_msg of its stage and message |
| AgentCore.TranscriptIsOf | evolve_agent/agents/core.py:205-235 | the transcript the loop keeps is TranscriptOf: system and prompt, then per caught error the plan and the reflection on it |
| AgentCore.RunLogGrows | evolve_agent/agents/core.py:211-235 | a caught error extends the run's log by the log of its iteration: the plan over the transcript, then the step's calls |
| AgentCore.Pipeline | evolve_agent/agents/core.py:192-237 | at most max_retries iterations; each caught error is the one its iteration's step raised after the errors before it, and fewer than max_retries caught errors mean the next iteration ended the run with r; "Failed to generate workflow" once all of them caught; the log is exactly RunLog, the plan and step calls of each iteration in order, so every activation, webhook call and rollback deactivate is the one its iteration's step made; a success answers the last call; each caught error's definition is what its iteration sent |
| AgentCore.TranscriptLength | evolve_agent/agents/core.py:205-235 | after k caught errors the transcript has 2 + 2k messages |
| AgentCore.ArchiveAt | evolve_agent/agents/core.py:232-233 | archive entry j is the dump of the j-th caught error's workflow |
| AgentCore.PipelineArchive | evolve_agent/agents/core.py:210-233 | the archive has one entry per caught error and entry j is the dump of the definition iteration j created, named with iteration j's step name; the successful definition is never archived |
| AgentCore.PipelineTranscripts | evolve_agent/agents/core.py:205-217 | the meta agent of iteration j sees 2 + 2j messages, the first iteration exactly the system directive and the prompt |
| AgentCore.PipelineFeedback | evolve_agent/agents/core.py:209-234 | the retrieval of iteration j gets the prompt, the newline-joined archive of the earlier errors, None in the first iteration and get_error_msg of the previous error's stage and message afterwards |
| AgentCore.PipelineCaught | evolve_agent/agents/core.py:212-229 | error j of a run is exactly the tagged error iteration j's step raised, with the archive and last message of the errors before it |
| AgentCore.PipelineFeedbackCaught | evolve_agent/agents/core.py:220-234 | the error message of retrieval j is get_error_msg of the error the step of iteration j-1 raised |
| AgentCore.RefusedIsCaught | evolve_agent/agents/core.py:126-136 | an iteration whose creation the platform refuses catches a create_workflow error with the client's error text |
| AgentCore.PipelineExhausted | evolve_agent/agents/core.py:211-237 | when every creation is refused the run makes max_retries iterations, each planning, retrieving and sending once, catches only create_workflow errors and fails with "Failed to generate workflow" |
| AgentCore.PipelineRetryThenSuccess | evolve_agent/agents/core.py:211-234 | a refused first creation followed by a succeeding round is retried once: one caught create_workflow error, a second retrieval told about it, and the second round's webhook answer as result |
| N8nService.GetWebhookIds | evolve_agent/app/services/n8n_service.py:19-26 | the loop returns the paths of the webhook nodes in node order, or the first error a node raises |
| N8nService.WebhookIdsOf | evolve_agent/app/services/n8n_service.py:19-26 | the model of get_webhook_ids: the nodes' webhook paths in order or the first error; GetWebhookIds, WebhookPathsMembers and FirstRaisingNode state it |
| N8nService.NodePath | evolve_agent/app/services/n8n_service.py:24-25 | a node is skipped exactly when its type is present and is not "n8n-nodes-base.webhook" |
| N8nService.WebhookPathsMembers | evolve_agent/app/services/n8n_service.py:20-26 | a value is among the collected paths exactly when some webhook node has it as parameters.path |
| N8nService.WebhookPathsAppend | evolve_agent/app/services/n8n_service.py:23-25 | collecting over two runs of nodes is collecting over each, in order |
| N8nService.WebhookPathsSucceed | evolve_agent/app/services/n8n_service.py:23-25 | collection succeeds exactly when no node raises |
| N8nService.FirstRaisingNode | evolve_agent/app/services/n8n_service.py:23-25 | the first node that raises decides the error |
| N8nService.SchemaNodePath | evolve_agent/app/services/n8n_service.py:24 | a schema-built node with the default type is recognised with its path; any other type is skipped |
| N8nService.Convert | evolve_agent/app/services/n8n_service.py:29-49 | exactly the keys name, nodes, connections, settings; present values copied; missing ones "Imported Workflow", [], {} and the four-entry settings |
| N8nService.ConvertIdempotent | evolve_agent/app/services/n8n_service.py:35-49 | normalising a normalised definition changes nothing |
| N8nService.ConvertKeepsWorkflowKeys | evolve_agent/app/services/n8n_service.py:35-49 | a definition with all four keys only loses its other keys |
| N8nService.DefaultSettingsAreSchemaDefaults | evolve_agent/app/services/n8n_service.py:39-46 | the import's default settings are the schema's default settings without executionOrder |
| N8nService.FilterParams | evolve_agent/app/services/n8n_service.py:81-93 | active as "true"/"false" when given; tags, name, projectId and cursor only when truthy; limit min(limit, 250) when non-zero |
| N8nService.GetFilteredWorkflows | evolve_agent/app/services/n8n_service.py:58-98 | one listing call with exactly those parameters, answered by the platform |
| N8nService.DeleteListed | evolve_agent/app/services/n8n_service.py:191-193 | the per-page loop deletes each item's id in order and records it |
| N8nService.DeleteAllWorkflows | evolve_agent/app/services/n8n_service.py:162-209 | the paginated loop over the chain of listed pages computes the drain of the chain, its result and its calls |
| N8nService.DrainFrom | evolve_agent/app/services/n8n_service.py:182-207 | the model of the paginated loop from page i: list, delete each listed id, follow the cursor; DeleteAllCollectsEveryPage and ListedLogCounts state it |
| N8nService.DeleteAllCollectsEveryPage | evolve_agent/app/services/n8n_service.py:190-209 | without failures the result is the concatenation of every reached page's ids in page order, and the calls are per page one listing then one delete per item |
| N8nService.ListedLogCounts | evolve_agent/app/services/n8n_service.py:182-207 | exactly one delete per returned id in the same order, and one listing per page reached |
| N8nService.ListedLogFilters | evolve_agent/app/services/n8n_service.py:182-204 | every listing repeats the same filters with limit 250; only the cursor differs |
| N8nService.ListRequestFilters | evolve_agent/app/services/n8n_service.py:182-204 | a bulk-delete listing request is the filters plus limit 250 plus the cursor |
| N8nService.DeleteAllEmptyFirstPage | evolve_agent/app/services/n8n_service.py:190-196 | an empty first page without a cursor gives [] after one listing and no delete |
| N8nService.CreateResponse | evolve_agent/app/services/n8n_service.py:100-110 | a failed reply propagates; without is_webhook the reply is returned; with it, a reply succeeds exactly when it is an object and the webhook ids of the input as given can be collected, gets webhookIDs, and a failed collection raises its error |
| N8nService.CreateWithoutNodes | evolve_agent/app/services/n8n_service.py:102-110 | the webhook ids come from the original input, not the normalised body: an input without nodes is sent with [] and then fails with KeyError 'nodes' |
| N8nService.ActiveOf | evolve_agent/app/services/n8n_service.py:211-223 | activate and deactivate return the reply's "active" value, fail with the reply's error, or KeyError 'active' |
| WorkflowSchema.MethodsAreSeven | evolve_agent/app/schemas/workflow.py:7-14 | exactly seven members with distinct upper-case values |
| WorkflowSchema.MethodOfIff | evolve_agent/app/schemas/workflow.py:7-14 | lookup by value gives a member exactly when the string is its value |
| WorkflowSchema.ParseMethodIff | evolve_agent/app/routes/n8n.py:64 | a string parses to a method exactly when its upper case is that method's value |
| WorkflowSchema.ParseParameters | evolve_agent/app/schemas/workflow.py:17-21 | parsed parameters carry the input's string path |
| WorkflowSchema.ParametersRoundTrip | evolve_agent/app/schemas/workflow.py:17-21 | parsing the JSON form of parameters gives them back |
| WorkflowSchema.ParametersDefaults | evolve_agent/app/schemas/workflow.py:17-21 | path alone gives POST, "responseNode" and empty options |
| WorkflowSchema.ParametersNeedPath | evolve_agent/app/schemas/workflow.py:19 | without a string path there are no parameters |
| WorkflowSchema.SchemaDefaults | evolve_agent/app/schemas/workflow.py:24-58 | node defaults type "n8n-nodes-base.webhook", typeVersion 2, name "Webhook", webhookId None; connection index 0; main [[]]; settings "v1", true, true, "all", "all"; workflow active, no id, default settings |
| Prompt.EscapeIsDoubling | evolve_agent/agents/prompt.py:16 | the two chained replacements double each brace and keep every other character in place |
| Prompt.EscapeBraces | evolve_agent/agents/prompt.py:16 | the model of the two chained str.replace calls; EscapeIsDoubling and EscapeRoundTrip state it |
| Prompt.EscapeBracesLength | evolve_agent/agents/prompt.py:16 | output length is input length plus the number of braces |
| Prompt.EscapeBracesKeepsOthers | evolve_agent/agents/prompt.py:16 | the non-brace characters are unchanged and in order |
| Prompt.EscapeRoundTrip | evolve_agent/agents/prompt.py:15-16 | collapsing {{ to { and }} to } recovers the input |
| Prompt.EscapeBracesPaired | evolve_agent/agents/prompt.py:16 | every brace of the output stands in a pair of equal braces |
| Prompt.PairedIsEscaped | evolve_agent/agents/prompt.py:16 | every paired string is the escaping of its unescaping |
| Prompt.EscapeBracesEvenRuns | evolve_agent/agents/prompt.py:16 | every maximal run of { or } in the output has even length |
| Strings.DedentCommonIndent | evolve_agent/agents/core.py:41 | dedent of lines sharing a blank margin, one line indented by exactly it, empties blank lines and cuts the margin from the others |
| Strings.Dedent | evolve_agent/agents/core.py:41 | the model of textwrap.dedent: blank lines emptied, the common margin of the others removed; DedentCommonIndent states it |
| Strings.ZeroPad2Injective | evolve_agent/agents/core.py:222 | different numbers render differently under "{:02d}" |

## Left out

- Filesystem writes (`save_path.write_text`, `mkdir`, `log_context`), logging and async scheduling are not modelled; the wall-clock timestamp is a parameter.
- The language models, the retrieval store, their prompt texts (`get_system_prompt`, `get_reflection_prompt`, the RAG prompt) and `json.loads` are oracles: a model answer carries its text and its parse outcome.
- `json.dumps` and `str()` of lists and dicts are parameters, because they depend on dict insertion order, which the JSON model (keyed maps) does not keep.
- JSON numbers are integers; floating-point values are not modelled.
- The HTTP behaviour of httpx is not modelled: a non-2xx reply is a `Failure` answer of the platform oracle.
- `get_webhooks` and the three-argument `call_webhook` are not part of this model's source; their results are oracle answers.
- `get_execution_results`, `get_workflow_executions`, `get_workflow`, `update_workflow`, `delete_workflow` as a standalone call, and the one-argument `call_webhook` of the client are pure I/O and are not modelled beyond the delete events of the bulk delete.
- N8nService.DeleteAllWorkflows: the platform's list replies are a finite sequence of pages given in advance (the i-th listing is answered by the i-th page, and the last page ends the chain); a platform that answers forever is not modelled.
- AgentCore.GetErrorMsgSingleLine: stated for a stage and message without newlines; a multi-line message, whose later lines change the margin dedent computes, is covered by the definition only.
- WorkflowSchema.ParseMethodIff: `str.upper` is modelled for ASCII and for the non-ASCII characters whose upper case is ASCII; other characters are kept as they are, which cannot change whether a string parses.
- The HTTP routes, the FastAPI application, settings, the Dify client, the frontend and the duplicate `app/agents` modules are outside the core.
