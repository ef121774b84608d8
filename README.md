# smart_financial_solutions — a verified model of the service core

The service is a chat-driven data-analysis assistant. A user uploads a CSV file, or a ZIP
archive holding one, and the upload becomes the current dataset. The user then chats with
a supervisor agent. The supervisor delegates to analysis tools: these summarise the data,
list rows, find outliers, and draw charts that are stored under fresh ids. The agent's
final text is turned into a `{response, graph_id}` reply. The user can switch the language
model and register provider keys. Exceptions that reach the HTTP boundary are mapped to
responses.

This project models, in Dafny, the decision logic the service itself contains. Every
library call is an opaque value or a function parameter that may fail: pandas, plotly,
scikit-learn, SQLAlchemy, zipfile, LangChain and the model providers. Each source file of
the core has a module:

- `exceptions.dfy` (`Exceptions`): the five exception classes and their `msg or default`
  constructor, and the foreign exception kinds that reach the boundary.
- `exception_handler.dfy` (`ExceptionHandler`): the middleware's table from exception kind
  to (status, body), or to "propagate".
- `parser_tool.dfy` (`ParserTool`): the `json_output_parser` envelope, i.e. `json.dumps`
  of a two-member object with `ensure_ascii` escaping.
- `json_output.dfy` (`JsonOutput`): `JSONOutput.model_validate_json` as a reader of JSON
  objects with string members.
- `reply_coercion.dfy` (`ReplyCoercion`): the coercion `send_prompt` applies to the agent's
  final text, as written and as intended.
- `table.dfy` (`Tables`): the dataset as columns (name and dtype kind: number, boolean or other) over rows.
- `data_processing.dfy` (`DataProcessing`): upload dispatch by content type, the archive
  member search, and the module-global dataset (`DatasetHolder`).
- `data_analysis_tool.dfy` (`DataAnalysisTool`): each tool's check chain, the row
  selection, the outlier filter, and the chart store (`ArtifactStore`, standing in for the
  `charts` table).
- `settings.dfy` (`AppSettings`), `base_agent.dfy` (`BaseAgent`) and `chat_model.dfy`
  (`ChatModel`): the model binding of an agent, the chat object, and the chat-service
  singleton.
- `common.dfy` (`Common`): Python string semantics the others share (`strip`,
  `replace(…, 1)`, `endswith`, `in`, `str(int)`).

Code that updates state in place is modelled as classes whose methods state the whole new
state: the global dataset, the chart store, the agent, the settings and the singleton.
Everything else is modelled as functions and lemmas.

Two facts the model makes explicit:

- A model switch rebuilds the executor with a new memory object. The conversation so far is
  therefore not carried over, although the comment at
  `backend/src/services/chat_model.py:62` says the memory is kept.
- A `FileNotFoundError` raised with one argument reaches the client as a 400 answer whose
  body is `null`.

## Model

| member | source | states |
|---|---|---|
| Exceptions.DefaultMsg | backend/src/utils/exceptions.py:1-39 | every class has a non-empty fallback message |
| Exceptions.Make | backend/src/utils/exceptions.py:1-39 | `msg` is the given message when it is a non-empty string; otherwise it is the class default (None and `''` both count as absent); so `msg` is never empty |
| Exceptions.RemakeIsIdentity | backend/src/utils/exceptions.py:1-39 | raising the same class again with the message it already carries yields the same exception |
| Exceptions.FileNotFoundWithText | backend/src/services/data_processing.py:92-93 | a one-argument `FileNotFoundError` leaves `strerror` unset and carries only its text |
| ExceptionHandler.Dispatch | backend/src/exception_handler.py:17-49 | a downstream response passes unchanged; the handled kinds answer 400, except the provider errors, which keep their own status; the three own classes answer with `exc.msg`; `FileNotFoundError` answers with `strerror`; `BadZipFile` and `ChatGoogleGenerativeAIError` answer 400 with their fixed texts; the provider errors answer with their `message`; every other exception propagates unchanged |
| ExceptionHandler.AppErrorAnswersWithMessage | backend/src/exception_handler.py:23-30 | APIKeyNotFound, WrongFileType and ModelNotFound always answer 400 with a non-empty body, whatever message they were raised with |
| ExceptionHandler.UnhandledAppErrorsPropagate | backend/src/exception_handler.py:23-49 | ExecutorNotFound and DatabaseFailed escape the handler unchanged |
| ExceptionHandler.ProviderStatusPassesThrough | backend/src/exception_handler.py:41-44 | a Groq status error answers with its own status code, and ResourceExhausted answers 429 |
| ParserTool.EnvelopeRoundTrip | backend/src/tools/parser_tool.py:8-12 | for all strings, the envelope is a JSON object with exactly the members `response` and `graph_id`, holding the two strings passed in, and it validates as `JSONOutput(response, graph_id)` |
| ParserTool.EnvelopeAmidWhitespace | backend/src/tools/parser_tool.py:8-12 | the envelope still validates to the same two strings with any JSON whitespace around it |
| ParserTool.DefaultGraphIdIsEmpty | backend/src/tools/parser_tool.py:9 | without a `graph_id` argument the envelope carries the empty string |
| ParserTool.EscapedStringReadsBack | backend/src/tools/parser_tool.py:12 | reading the `ensure_ascii` escaping of any string gives that string back, including characters outside the BMP written as surrogate pairs |
| Common.Strip | backend/src/services/chat_model.py:35 | `strip('`')` leaves text that neither starts nor ends with a backtick |
| Common.StripRuns | backend/src/services/chat_model.py:35 | `strip` removes exactly the runs of the character around the text and nothing inside it |
| Common.ReplaceFirstSplit | backend/src/services/chat_model.py:35 | `replace(pat, repl, 1)` replaces the leftmost occurrence: the text before it holds no earlier occurrence |
| ReplyCoercion.CoerceRemovesAtMostOneTag | backend/src/services/chat_model.py:35 | the coerced text is the backtick-stripped text, or that text with its leftmost `json` cut out; nothing else is removed |
| ReplyCoercion.ProseFallsBack | backend/src/services/chat_model.py:37-42 | an answer in plain prose (no `{` left after the coercion) never validates, so the reply is `{response: coerced text, graph_id: ''}` |
| ReplyCoercion.EscapeLacksJ | backend/src/tools/parser_tool.py:12 | JSON escaping never produces a `j`, so a `json` in the envelope text can only come from the strings themselves |
| ReplyCoercion.EscapeCommutesWithTagRemoval | backend/src/services/chat_model.py:35 | cutting the first `json` out of escaped text cuts it out of the string before escaping |
| ReplyCoercion.CoerceTwoMemberObject | backend/src/services/chat_model.py:35 | coercing a two-member object cuts the first `json` from the first value that contains one, and leaves the member names intact |
| ReplyCoercion.ReplyOfEnvelope | backend/src/services/chat_model.py:34-42 | an unfenced envelope comes back with the first `json` cut from `response`, or from `graph_id` when `response` has none |
| ReplyCoercion.EnvelopeWithoutTagKept | backend/src/services/chat_model.py:34-42 | an envelope whose strings contain no `json` comes back exactly |
| ReplyCoercion.FencedEnvelopeKept | backend/src/services/chat_model.py:35-40 | an envelope inside a code block tagged `json` comes back exactly |
| ReplyCoercion.ResponseLosesTag | backend/src/services/chat_model.py:35 | an unfenced envelope whose response holds `json` after `j`-free text loses that `json` |
| ReplyCoercion.MentionOfJsonIsCut | backend/src/services/chat_model.py:35 | the envelope for the response `a json file` comes back as `a  file` |
| ReplyCoercion.IntendedAgreesOnTagAtStart | backend/src/services/chat_model.py:35 | the intended coercion agrees with the written one when the stripped text starts with `json` or holds no `json` |
| ReplyCoercion.IntendedEnvelopeKept | backend/src/services/chat_model.py:34-42 | under the intended coercion, every envelope comes back exactly, whatever strings it holds |
| ReplyCoercion.IntendedFencedEnvelopeKept | backend/src/services/chat_model.py:34-42 | under the intended coercion, every envelope inside a `json` code block comes back exactly |
| Tables.ColumnIndex | backend/src/tools/data_analysis_tool.py:115-117 | the position of the first column with the name, and none exactly when no column has it |
| Tables.NumericColumns | backend/src/tools/data_analysis_tool.py:97 | `select_dtypes(include='number')` keeps the number-dtype columns, in their order, each once, and as many as there are; boolean columns are dropped |
| Tables.BooleanColumnsDiffer | backend/src/tools/data_analysis_tool.py:97-117 | a boolean column passes `is_numeric_dtype` (lines 117, 147, 282, 358) yet is not among the columns `select_dtypes(include='number')` keeps (lines 97, 326) |
| Common.Select | backend/src/tools/data_analysis_tool.py:126 | boolean indexing `df[mask]` returns the elements at the true positions of the mask, in ascending order of position |
| Common.TruePositions | backend/src/tools/data_analysis_tool.py:126 | the true positions of a mask: strictly ascending, each true, and every true position present |
| Common.SelectIsSelection | backend/src/tools/data_analysis_tool.py:126 | boolean indexing keeps exactly the elements where the mask holds, in order, each once, and as many as the mask has true entries |
| Tables.Head | backend/src/tools/data_analysis_tool.py:76-77 | `head(n)` keeps the columns and the first min(n, len) rows, in order |
| Tables.Tail | backend/src/tools/data_analysis_tool.py:78-79 | `tail(n)` keeps the columns and the last min(n, len) rows, in order |
| DataProcessing.Namelist | backend/src/services/data_processing.py:87-90 | the archive's names, in archive order |
| DataProcessing.Open | backend/src/services/data_processing.py:95 | opening a name reads the last entry stored under it |
| DataProcessing.FirstCsvIndex | backend/src/services/data_processing.py:87-90 | the first name ending in `.csv` (compared case-sensitively), and none exactly when no name ends so |
| DataProcessing.DatasetHolder.constructor | backend/src/services/data_processing.py:11 | no dataset is held at start |
| DataProcessing.DatasetHolder.LoadCsv | backend/src/services/data_processing.py:30-68 | on success the held dataset becomes exactly the new table and the preview is its first five rows; on any failure the held dataset is unchanged and the error is passed on |
| DataProcessing.UnsupportedTypeNamed | backend/src/services/data_processing.py:61-65 | any other content type raises WrongFileTypeError whose message contains the type (`None` when absent) |
| DataProcessing.OnlyZipOpensArchive | backend/src/services/data_processing.py:55-59 | only `application/zip` consults the archive reader; the two CSV types are parsed directly |
| DataProcessing.ArchiveReadsFirstCsv | backend/src/services/data_processing.py:85-96 | the member read is the first `.csv` name in archive order; later matches are ignored |
| DataProcessing.ArchiveWithoutCsv | backend/src/services/data_processing.py:92-93 | an archive without a `.csv` member raises FileNotFoundError with only a message |
| DataProcessing.ArchiveWithoutCsvAnswersNull | backend/src/exception_handler.py:36-40 | that error reaches the client as 400 with a `null` body |
| DataAnalysisTool.ArtifactStore.constructor | backend/src/services/db_services.py:110-118 | the store starts empty |
| DataAnalysisTool.ArtifactStore.SaveGraph | backend/src/tools/data_analysis_tool.py:16-24 | a new id gets the figure and metadata and is returned; an id already present raises the unwrapped integrity error and writes nothing |
| DataAnalysisTool.ArtifactStore.CreateHistogram | backend/src/tools/data_analysis_tool.py:134-168 | the store changes only when the check chain passes (data, column present, numeric), by one artifact holding the returned metadata; a boolean column passes the chain, but building its statistics text (lines 150-157) raises ValueError and nothing is saved |
| DataAnalysisTool.ArtifactStore.CreateScatterPlot | backend/src/tools/data_analysis_tool.py:171-198 | the same, with the chain data and both columns present |
| DataAnalysisTool.ArtifactStore.CreateBarChart | backend/src/tools/data_analysis_tool.py:201-233 | the same, with the chain data, column present, not numeric |
| DataAnalysisTool.ArtifactStore.CreateLinePlot | backend/src/tools/data_analysis_tool.py:236-265 | the same, with the chain data and both columns present |
| DataAnalysisTool.ArtifactStore.CreateBoxPlot | backend/src/tools/data_analysis_tool.py:268-312 | the same, with the chain data, y present, y numeric, and a truthy grouping column present; the metadata mentions the grouping only when one is given; a boolean y raises ValueError from the statistics text (lines 285-292) before the grouping column is checked, and nothing is saved |
| DataAnalysisTool.BooleanColumnsPassToStatistics | backend/src/tools/data_analysis_tool.py:145-150 | a boolean column passes the numeric checks of the histogram and of the box plot (lines 280-285), so both reach the statistics text; for a number column the histogram check passes and the box plot's passes exactly when the grouping column, if given, exists |
| DataAnalysisTool.ArtifactStore.CreateCorrelationHeatmap | backend/src/tools/data_analysis_tool.py:315-341 | the same, with the chain data and at least two numeric columns |
| DataAnalysisTool.ArtifactStore.FindClustersAndPlot | backend/src/tools/data_analysis_tool.py:344-383 | the same, with the chain data, both present, both numeric; a clustering failure after the checks raises and writes nothing |
| DataAnalysisTool.GetMetadata | backend/src/tools/data_analysis_tool.py:27-32 | an id's stored metadata, or None for an unknown id |
| DataAnalysisTool.ChartAddsOneArtifact | backend/src/tools/data_analysis_tool.py:161-168 | a chart answer means the checks passed, the id was not used before, exactly one key was added, every old entry is kept, and the returned metadata reads back under the returned id |
| DataAnalysisTool.NoChartNoWrite | backend/src/tools/data_analysis_tool.py:142-148 | any answer other than a chart leaves the store as it was |
| DataAnalysisTool.EmptyDatasetChecksFirst | backend/src/tools/data_analysis_tool.py:142-143 | without data, or with an empty frame, every chart tool answers `DataFrame empty, no data to analyse.` before any other check |
| DataAnalysisTool.HistogramAndBarAreDual | backend/src/tools/data_analysis_tool.py:145-148 | for a present column exactly one of histogram and bar chart passes (histogram exactly for numeric columns); the histogram's refusal names `create_bar_chart` and the bar chart's (lines 212-215) names `create_histogram` |
| DataAnalysisTool.ChecksPassExactly | backend/src/tools/data_analysis_tool.py:171-361 | on a non-empty frame: scatter and line need both columns present; clusters need both numeric; the box plot needs a numeric y and a present grouping column if one is given; the heatmap needs two numeric columns |
| DataAnalysisTool.GetDataSummary | backend/src/tools/data_analysis_tool.py:35-53 | the empty-data message exactly when there is no data; otherwise the summary of the frame |
| DataAnalysisTool.GetCorrelationMatrix | backend/src/tools/data_analysis_tool.py:86-101 | the empty-data message first; then the no-numeric message exactly when no column has a number dtype; otherwise the matrix over the number columns |
| DataAnalysisTool.NoNumberColumns | backend/src/tools/data_analysis_tool.py:97-99 | `select_dtypes(include='number')` of a frame with rows is empty exactly when no column has a number dtype |
| DataAnalysisTool.GetDataRows | backend/src/tools/data_analysis_tool.py:55-83 | the defaults are 10 rows and `head`; the empty-data message exactly when there is no data; rows shown keep the columns and number between 1 and `n_rows` |
| DataAnalysisTool.DefaultDataRows | backend/src/tools/data_analysis_tool.py:56 | called without arguments on a frame with data, the tool shows its first ten rows |
| DataAnalysisTool.SamplePositions | backend/src/tools/data_analysis_tool.py:80-81 | `count` distinct row positions inside the frame |
| DataAnalysisTool.DataRowsSelection | backend/src/tools/data_analysis_tool.py:73-83 | a non-positive count is refused whatever the method; `head` and `tail` give the first and last min(n, len) rows; any other method than the three, with a positive count, gets the sample-method message |
| DataAnalysisTool.RandomRowsSelection | backend/src/tools/data_analysis_tool.py:80-81 | with a positive count, `random` gives min(n, len) rows of the frame, with its columns, taken from distinct positions |
| DataAnalysisTool.RowsBeyond | backend/src/tools/data_analysis_tool.py:126 | the rows whose cell lies strictly outside the bounds, in the frame's order, a repeated row as often as it occurs, and as many as there are positions beyond; a missing value is never outside |
| DataAnalysisTool.RowsBeyondEmpty | backend/src/tools/data_analysis_tool.py:126-129 | the selection is empty exactly when no row lies beyond the bounds |
| DataAnalysisTool.DetectOutliers | backend/src/tools/data_analysis_tool.py:104-118 | the empty-data, missing-column and not-numeric answers, in that order |
| DataAnalysisTool.OutliersAreBeyondFences | backend/src/tools/data_analysis_tool.py:120-131 | outliers are reported exactly when some row lies strictly outside [q1 − 1.5·IQR, q3 + 1.5·IQR]; the rows reported are those rows, selected in the frame's order, and the count reported is the number of positions beyond; otherwise the no-outlier message |
| AppSettings.Settings.constructor | backend/src/settings.py:9-11 | both keys are optional |
| BaseAgent.DefaultBinding | backend/src/agents/base_agent.py:86-94 | Groq's `qwen/qwen3-32b` when the Groq key is truthy, else Gemini's `gemini-2.5-flash` when its key is, else nothing; always temperature 0 |
| BaseAgent.ToolsOrOwn | backend/src/agents/base_agent.py:131 | an absent or empty tool list falls back to the agent's own |
| BaseAgent.Agent.constructor | backend/src/agents/base_agent.py:18-23 | only the given model is set; no executor, no model name or provider |
| BaseAgent.Agent.ModelInfo | backend/src/agents/base_agent.py:153-154 | the bound model name and provider, or AttributeError when none was ever bound |
| BaseAgent.Agent.InitGemini | backend/src/agents/base_agent.py:43-62 | without a Gemini key it raises APIKeyNotFoundException with the Gemini message and changes nothing; otherwise it binds Gemini with that key and the model info is (name, `google`) |
| BaseAgent.Agent.InitGroq | backend/src/agents/base_agent.py:65-84 | the same for Groq and `groq` |
| BaseAgent.Agent.InitDefaultLlm | backend/src/agents/base_agent.py:86-94 | binds what the default rule chooses, or raises the class-default APIKeyNotFoundException and changes nothing |
| BaseAgent.Agent.InitializeAgent | backend/src/agents/base_agent.py:97-151 | the default model is bound only when none is; it succeeds exactly when a model is or can be bound; the executor gets the model, the given or own tools and prompt, and the cap 7; a truthy memory key gives a new memory, otherwise the passed one is used |
| BaseAgent.Agent.Run | backend/src/agents/base_agent.py:156-160 | without an executor it raises ExecutorNotFoundException; otherwise it gives the executor's result |
| ChatModel.ModelsUseKnownProviders | backend/src/services/chat_model.py:10-18 | every selectable model is served by `google` or `groq` |
| ChatModel.Chat.constructor | backend/src/services/chat_model.py:27-28 | the chat wraps the given agent |
| ChatModel.Chat.SendPrompt | backend/src/services/chat_model.py:30-44 | an agent failure is passed on; the final text becomes the reply through the coercion as written (`ReplyCoercion.Reply`): strip, first-`json` removal, validation and fallback |
| ChatModel.Chat.SendPromptIntended | backend/src/services/chat_model.py:30-44 | the same, through the corrected coercion `ReplyCoercion.ReplyIntended`, under which an envelope comes back intact |
| ChatModel.Chat.ChangeModel | backend/src/services/chat_model.py:46-67 | an unknown name raises ModelNotFoundException, and a provider without a key raises APIKeyNotFoundException; both change nothing. Otherwise the model is bound at temperature 0 and the model info names it and its provider; the executor is rebuilt over the agent's tools and prompt with a fresh memory that differs from the previous one; the detail names the model and the upper-cased provider |
| ChatModel.Chat.UpdateApiKey | backend/src/services/chat_model.py:73 | every call raises AttributeError and no setting changes |
| ChatModel.Chat.UpdateApiKeyIntended | backend/src/services/chat_model.py:69-87 | the named model's provider key is replaced and the other is kept; an unknown name raises ModelNotFoundException and changes nothing |
| ChatModel.KeyUpdateErrorEscapes | backend/src/exception_handler.py:23-49 | that AttributeError is not handled at the boundary and propagates |
| ChatModel.NewSupervisor | backend/src/agents/supervisor_agent.py:13-43 | a new supervisor is bound by the default rule, with its three tools, its prompt and a conversation memory; without any key it raises APIKeyNotFoundException |
| ChatModel.ChatService.constructor | backend/src/services/chat_model.py:92 | no instance at start |
| ChatModel.ChatService.GetChatService | backend/src/services/chat_model.py:95-115 | an existing instance is returned unchanged unless a rebuild is forced, without consulting the keys; building without any key raises and keeps the previous instance; a built instance is new and its agent follows the default rule, whatever model was selected before |

## Left out

- Library work is not modelled: plotly figures and `to_json`, pandas `info`/`describe`/`corr`, the `:.2f` statistics text, KMeans, `read_csv`, `zipfile` decoding, the LangChain executor loop and the provider clients. Figures and statistics text enter as strings; the one failure of the statistics text that follows from the column's dtype, a boolean column's summary without a mean, is modelled. The CSV reader, the archive reader, the clustering outcome and the executor invocation are parameters that may fail.
- A failure inside plotly, or while constructing a model client, after a tool's checks have passed is not modelled.
- Text renderings (`to_string`, `to_json`) are replaced by the tables they render.
- DataAnalysisTool.SamplePositions: `df.sample` draws rows at random; the model takes `min(n, len)` consecutive positions, wrapping around, from a seed. Only the count and the distinctness of the positions are promised.
- DataAnalysisTool.OutliersAreBeyondFences: the quartiles are inputs over `real`. Pandas interpolation and floating point are not modelled. Neither are NaN quartiles, which make every comparison false. The cells of a boolean column are taken to be the numbers 0 and 1, and whether pandas can compute its quartiles is not modelled.
- Tables.ColumnIndex: duplicate column names, for which pandas returns a frame rather than a column, are not modelled; the first column with the name is used.
- DataAnalysisTool.GetMetadata: the SQL error path (`DatabaseFailedException`) is not modelled. The store is an in-memory map, and a repeated id models an insert that violates the key.
- JsonOutput.Validate: an object member whose value is not a string makes the text invalid even when its name is not a field of the schema; pydantic would ignore such an extra member.
- BaseAgent.Agent.ModelInfo: the AttributeError carries only the attribute name, not Python's full message.
- The detail strings of `change_model` and `update_api_key` use ASCII-only `upper` and `capitalize`.
- A memory is modelled as an object identity only; its contents (the summarised conversation) are not modelled.
- Only the supervisor is modelled, as its construction. The data-analyst and data-engineer agents are prompt and tool configuration and are not modelled.
- Loading the settings from the environment is not modelled; the settings are constructed with the loaded keys.
- The process-wide globals (the dataset, the settings, the singleton) are modelled as objects used sequentially; concurrent requests and `async` scheduling are not modelled.
- The HTTP controllers, CORS, the Python execution tool and the date tool are not modelled.

## Findings

| source | as written | input that shows it | evidently intended | confidence | as-written member | corrected member |
|---|---|---|---|---|---|---|
| backend/src/services/chat_model.py:35 | `.replace('json', '', 1)` deletes the first `json` anywhere in the agent's text | a final answer written as the envelope itself, without a code fence: `{"response": "a json file", "graph_id": ""}` comes back with the response `a  file` | remove only the `json` language tag that follows an opening code fence, leaving the JSON text untouched | high, not executed | ReplyCoercion.MentionOfJsonIsCut | ReplyCoercion.IntendedEnvelopeKept |
| backend/src/services/chat_model.py:73 | `MODELS.GET(input.model_name)`: a `dict` has no attribute `GET`, so every call raises AttributeError before any key is set, and the boundary does not handle it | any `ApiKeyInput`, e.g. model `qwen/qwen3-32b` with any key | `MODELS.get(...)`: set the key of the model's provider, and reject unknown names with ModelNotFoundException | high, not executed | ChatModel.Chat.UpdateApiKey | ChatModel.Chat.UpdateApiKeyIntended |
