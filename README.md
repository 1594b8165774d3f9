# Raj AI app builder — a verified Dafny model of its core

This project models the server and client logic of an AI application builder. The builder is a Next.js app in which a user describes an application. Three agent stages then ask Groq-hosted language models for a data schema, a React page and an API route. The generated code is checked, and repaired once when a check fires, before it is stored with a first version. The model covers:

- **JsText** (`js_text.dfy`): the JavaScript string primitives the code relies on. These are `\s`/`\w`, `trim`, `includes`, `split`/`join`, `slice(-n)`, decimal rendering, and the leftmost, non-overlapping scans behind `replace(/re/g, '')`, `match(/re/g)` and a non-global `match`.
- **Types** (`types.dfy`): projects, files, versions, log entries, and the values a call can throw.
- **Validation** (`validation.dfy`): the request validators, the API error mapping and the in-memory rate limiter. The limiter is a class whose map of timestamps per key is updated in place.
- **Storage** (`storage.dfy`): the in-memory store, a class that holds projects (with their insertion order), files, versions and logs.
- **GroqClient** (`groq_client.dfy`): the model client. It covers the prompt checks, option defaults and clamping, error mapping, fence stripping, JSON extraction, the per-model wrappers and stream collection. The remote service is a function parameter.
- **Orchestrator** (`orchestrator.dfy`): the three fallback stages, the code check, the repair step, and the run that stores three files and version 1. The run is a class, a log buffer mirrored into the store, with each method proved against a specification function.
- **FileTree** (`file_tree.dfy`): `buildFileStructure`, the loop that turns file paths into a folder tree. Nodes live in one list and children are indices into it.
- **Logging** (`logger.dfy`): the bounded log buffer and its queries.
- **ProjectContext** (`project_context.dfy`): the client state updates of the file and log lists.
- **ModelSelector** (`model_selector.dfy`): the table of models, the selection toggle and the picker's label.
- **ProjectsRoute** (`projects_route.dfy`): the projects endpoint, covering body validation and the POST and GET handlers behind per-client rate limits.
- **Preview** (`preview.dfy`): which code the preview shows, how its state follows the code, fence removal, and the default-export rewrite.

Clocks, identifiers, the random draw that triggers the limiter cleanup and the language model are parameters. Every regular expression the core uses is written as a deterministic matcher. Its comment explains why the greedy choice is the one a backtracking engine reports.

In the preview, the second fence removal never removes anything. The first removal already deletes every run of three backticks: `Preview.CleanCodeRemovesFences` proves that the second pass is the identity.

## Model

| member | source | states |
|---|---|---|
| JsText.Trim | src/lib/validation.ts:20 | the result has no white space at either end, and it is empty exactly when the input is all white space |
| JsText.TrimIgnoresPadding | src/lib/groq-client.ts:134 | adding white space around a text does not change what `trim()` returns |
| JsText.TrimIdempotent | src/lib/groq-client.ts:134 | trimming twice is trimming once |
| JsText.TrimShortens | src/lib/groq-client.ts:134 | `trim()` never lengthens a text and keeps one it does not shorten |
| JsText.Split | src/lib/utils.ts:8 | at least one piece, none containing the separator |
| JsText.JoinSplit | src/lib/utils.ts:8 | joining the pieces of a split with the separator gives the text back |
| JsText.NatToStringRoundTrip | src/components/ui/model-selector.tsx:102 | reading back the decimal digits of a count gives the count |
| JsText.IntToStringRoundTrip | src/lib/logger.ts:130 | the decimal text of an integer, sign included, reads back as that integer |
| JsText.TakeLast | src/lib/logger.ts:104 | `slice(-limit)` is a suffix, of length `limit` when positive and in range, and the whole list for 0 |
| JsText.RemoveAllWithoutMatch | src/lib/groq-client.ts:131-133 | a global removal whose pattern never matches leaves the text unchanged |
| JsText.RemoveAllKeepsAll | src/lib/groq-client.ts:131-133 | a global removal that removes nothing returns the text unchanged |
| JsText.FirstMatch | src/components/app-builder/preview-component.tsx:81 | the leftmost match: a match at the result and none before it, or none at all |
| JsText.MatchAllNonEmpty | src/lib/agents/orchestrator.ts:340 | a global match finds something exactly when the pattern matches somewhere |
| Validation.FromErrors | src/lib/validation.ts:84-87 | valid exactly when the error list is empty, and the errors are kept |
| Validation.LengthErrors | src/lib/validation.ts:20-27 | the trimmed length decides: empty, under 10, over 2000, or no error |
| Validation.ValidatePrompt | src/lib/validation.ts:14-48 | each message appears exactly when its condition on the trimmed prompt holds; valid exactly when the prompt is non-empty, 10..2000 long after trimming, and matches no harmful pattern |
| Validation.PromptMessagesDiffer | src/lib/validation.ts:18-40 | the five prompt messages are pairwise different, so each error can be told apart |
| Validation.ValidateProjectId | src/lib/validation.ts:50-63 | valid exactly for ids of at least 8 characters over `[A-Za-z0-9_-]`; the empty id gets its own message |
| Validation.ValidateFilePath | src/lib/validation.ts:65-88 | the traversal error exactly when the path has `../`, `..\` or a leading `/`; the type error exactly when no allowed extension ends it |
| Validation.AcceptedPathStaysInside | src/lib/validation.ts:72-81 | an accepted path is not absolute and none of its `/`-separated segments is `..` |
| Validation.NoDotDotSegment | src/lib/validation.ts:72 | without `../` and with an allowed extension, no segment is `..` |
| Validation.SegmentAt | src/lib/validation.ts:72 | each segment of the split is the text at its offset, followed by `/` unless it is the last |
| Validation.ValidateCodeContent | src/lib/validation.ts:90-118 | valid exactly when non-empty, at most 100000 characters and free of every dangerous pattern; each error appears exactly when its cause holds |
| Validation.HandleApiError | src/lib/validation.ts:121-144 | validation errors keep their message with 400; other errors: "Network error occurred" 503 for network/fetch, "Request timed out" 408 for timeout, "Too many requests" 429 for rate limit, checked in that order, else the message with 500; non-errors "An unexpected error occurred" 500 |
| Validation.Recent | src/lib/validation.ts:177 | the filter keeps exactly the timestamps after the window start |
| Validation.RecentKeepsInside | src/lib/validation.ts:177 | a list already inside the window is kept whole |
| Validation.RecentOfExpired | src/lib/validation.ts:177 | a list with nothing inside the window filters to nothing |
| Validation.RecentAppend | src/lib/validation.ts:177 | the filter distributes over concatenation, so order is kept |
| Validation.Admit | src/lib/validation.ts:172-185 | one `isAllowed` decision for one key and the list it stores; its meaning is in `AdmitShape`, including that an admitted key never holds more than the limit |
| Validation.AdmitShape | src/lib/validation.ts:172-185 | admitted exactly when fewer than the limit are recent; an admitted key holds only in-window stamps ending with `now`; a rejected call records nothing |
| Validation.BoundaryTimestampExpired | src/lib/validation.ts:175-177 | a timestamp exactly one window old no longer counts |
| Validation.Replay | src/lib/validation.ts:172-199 | successive calls give one decision each |
| Validation.BurstWithinWindow | src/lib/validation.ts:172-199 | within one window, with `c` recent stamps, call `i` of a burst is admitted exactly when `c + i` is under the limit |
| Validation.BurstStep | src/lib/validation.ts:172-185 | one call of a burst: its decision and a stored list that keeps the band empty |
| Validation.AdmittedInside | src/lib/validation.ts:183 | what an admitted call stores is inside the window and survives the next filter |
| Validation.SameRecent | src/lib/validation.ts:177 | window starts with no stamp between them filter alike |
| Validation.FirstNAdmitted | src/lib/validation.ts:172-199 | a fresh key admits exactly the first `maxRequests` calls of a burst in one window |
| Validation.Prune | src/lib/validation.ts:187-196 | the cleanup: every key's in-window stamps, and no key left without one; its meaning is in `PruneShape` |
| Validation.PruneShape | src/lib/validation.ts:187-196 | after cleanup every key left has at least one stamp and only in-window ones, and exactly the keys with such a stamp remain |
| Validation.RateLimiter.IsAllowed | src/lib/validation.ts:172-199 | the decision is `Admit` on the key's old list; rejected calls change nothing; admitted calls store the filtered list plus `now`, then prune when the cleanup draw fires |
| Validation.RateLimiter.CleanUp | src/lib/validation.ts:187-196 | the map becomes `Prune` of the old map |
| Storage.ApplyPatch | src/lib/storage.ts:55-61 | every field the patch sets wins, every other field is kept, and `updatedAt` is the call's time |
| Storage.EmptyPatchTouchesOnly | src/lib/storage.ts:55-61 | an empty patch changes only the modification time |
| Storage.FirstWithPath | src/lib/storage.ts:95 | the index of the first file with the path, or none when no file has it |
| Storage.FindByPath | src/lib/storage.ts:88-91 | found exactly when some file has the path, and the file found has it |
| Storage.WithoutFirst | src/lib/storage.ts:102-106 | the first file with the path is spliced out, or nothing changes |
| Storage.WithFirstUpdated | src/lib/storage.ts:93-100 | only the first file with the path gets the new content and time |
| Storage.DeleteUndoesCreate | src/lib/storage.ts:71-106 | deleting the path of a just-created file with a new path restores the list |
| Storage.GetAfterUpdate | src/lib/storage.ts:88-100 | after an update the same file is found first, with the new content |
| Storage.DeleteKeepsOthers | src/lib/storage.ts:102-106 | deletion removes exactly one occurrence, the first with the path |
| Storage.Remove | src/lib/storage.ts:63-67 | the id leaves the insertion order and everything else stays |
| Storage.RemoveKeepsDistinct | src/lib/storage.ts:63-67 | the insertion order stays free of duplicates |
| Storage.InMemoryStorage.constructor | src/lib/storage.ts:30-34 | the store starts empty |
| Storage.InMemoryStorage.CreateProject | src/lib/storage.ts:37-49 | the new project gets both times from `now`, is stored under its id with empty file and version lists, and joins the order once |
| Storage.InMemoryStorage.ListProjects | src/lib/storage.ts:51 | every project, in insertion order, and nothing else |
| Storage.InMemoryStorage.GetProject | src/lib/storage.ts:53 | the project under the id, or none |
| Storage.InMemoryStorage.UpdateProject | src/lib/storage.ts:55-61 | an unknown id is an error that changes nothing; otherwise the patched project replaces the old one |
| Storage.InMemoryStorage.DeleteProject | src/lib/storage.ts:63-67 | the project, its files and its versions go, and so does its place in the order |
| Storage.InMemoryStorage.CreateFile | src/lib/storage.ts:71-84 | the file is appended to the project's list, with no check on path or project |
| Storage.InMemoryStorage.ListFiles | src/lib/storage.ts:86 | the project's files in creation order |
| Storage.InMemoryStorage.GetFile | src/lib/storage.ts:88-91 | the first file with the path |
| Storage.InMemoryStorage.UpdateFile | src/lib/storage.ts:93-100 | a missing file is an error that changes nothing; otherwise only the first file with the path is updated |
| Storage.InMemoryStorage.DeleteFile | src/lib/storage.ts:102-106 | only the first file with the path is removed |
| Storage.InMemoryStorage.CreateVersion | src/lib/storage.ts:110-124 | the version is appended with the caller's number, snapshot and description |
| Storage.InMemoryStorage.ListVersions | src/lib/storage.ts:126 | the project's versions |
| Storage.InMemoryStorage.AddLog | src/lib/storage.ts:134-143 | the entry is appended and nothing else changes |
| Storage.InMemoryStorage.ListLogs | src/lib/storage.ts:145 | the last `limit` entries, 100 by default |
| Storage.InMemoryStorage.ClearLogs | src/lib/storage.ts:147-149 | the log list empties and nothing else changes |
| GroqClient.CodeRequest | src/lib/groq-client.ts:51-60 | the model defaults to llama-3.3-70b-versatile and the options to 1, 8192 and 1; temperature is clamped to [0, 2], max_tokens to [1, 65536] and top_p to [0, 1], an in-range option is sent as given and one below or above its range becomes that bound; streaming off |
| GroqClient.StreamRequest | src/lib/groq-client.ts:96-105 | the same defaults, nothing clamped, streaming on |
| GroqClient.GptOssRequest | src/lib/groq-client.ts:146-160 | the GPT-OSS model with its tools, default 65536 tokens, nothing clamped |
| GroqClient.FamilyOptions | src/lib/groq-client.ts:168-202 | each wrapper sets its model and fills only the token and temperature options the caller left out |
| GroqClient.FamilyDefaults | src/lib/groq-client.ts:168-202 | without options each wrapper sends its model with its documented defaults |
| GroqClient.MapError | src/lib/groq-client.ts:68-91 | a client error passes unchanged; a status becomes the error of that status; anything else is wrapped with its message; the result is always a client error |
| GroqClient.SpacesToLineEnd | src/lib/groq-client.ts:132-133 | `\s*$` under `m`: white space only, ending at a line terminator or the end |
| GroqClient.SpacesThroughNewline | src/lib/groq-client.ts:131 | `\s*\n`: white space only, ending just after a newline |
| GroqClient.CleanCodeResponse | src/lib/groq-client.ts:129-135 | the cleaned text is trimmed and never longer than the response |
| GroqClient.CleanKeepsLength | src/lib/groq-client.ts:129-135 | a cleaning that does not shorten the response returns it unchanged |
| GroqClient.CleanCodeResponseNotIdempotent | src/lib/groq-client.ts:129-135 | cleaning `" ```ts\nfoo"` leaves the fence, and cleaning that again removes it, so the cleaner is not idempotent |
| GroqClient.CleanCodeSettled | src/lib/groq-client.ts:129-135 | cleaning repeated until nothing changes: a fixed point of the cleaner, trimmed, no longer than the response |
| GroqClient.CleanCodeSettledIdempotent | src/lib/groq-client.ts:129-135 | the settled cleaner is idempotent |
| GroqClient.CleanCodeSettledAgrees | src/lib/groq-client.ts:129-135 | wherever one cleaning already settles, the settled cleaner gives the source's result |
| GroqClient.FenceNeedsBacktick | src/lib/groq-client.ts:131-133 | none of the three fence patterns matches without a backtick |
| GroqClient.CleanWithoutBackticks | src/lib/groq-client.ts:129-135 | a response without backticks is only trimmed |
| GroqClient.CleanFencedBlock | src/lib/groq-client.ts:129-135 | a block fenced with any recognised tag, or none, comes out as its body |
| GroqClient.OpeningPass | src/lib/groq-client.ts:131 | the first removal takes out the opening fence line and nothing else |
| GroqClient.ClosingPass | src/lib/groq-client.ts:132 | the second removal takes out the closing fence and nothing else |
| GroqClient.ExtractJson | src/lib/groq-client.ts:137-141 | an error exactly when no opener has a matching closer after it; otherwise an infix of the text, bracketed at both ends |
| GroqClient.JsonSpanAtOpens | src/lib/groq-client.ts:137-141 | the pattern matches at an opener exactly when its closer occurs later; the match ends at the last such closer |
| GroqClient.ExtractJsonPicks | src/lib/groq-client.ts:137-141 | the span starts at the leftmost opener that has a closer after it and ends at that opener's last closer |
| GroqClient.GenerateCode | src/lib/groq-client.ts:39-92 | a blank prompt and an over-long prompt fail before any request; an empty answer fails; otherwise the cleaned answer or the mapped error, always a client error on failure |
| GroqClient.GenerateWith | src/lib/groq-client.ts:168-202 | each wrapper sends its model, with its default tokens and temperature where the caller gave none, clamped, and answers like `generateCode` |
| GroqClient.FamilyRequest | src/lib/groq-client.ts:168-202 | the request a wrapper sends is its model with its defaults filled in and clamped |
| GroqClient.GenerateWithGptOss | src/lib/groq-client.ts:144-166 | no prompt checks, thrown values pass unmapped, an empty answer is the only error, and a non-empty answer comes back cleaned |
| GroqClient.GenerateJson | src/lib/groq-client.ts:118-127 | a failed generation fails; an answer that parses is the value; otherwise the extracted span's parse, its error, or the extraction error |
| GroqClient.JsonPrompt | src/lib/groq-client.ts:119 | the prompt followed by exactly the JSON instruction |
| GroqClient.ToStreamChunk | src/lib/groq-client.ts:107-114 | a missing delta is the empty string, and the finish reason is kept |
| GroqClient.ToStreamChunks | src/lib/groq-client.ts:107-114 | one chunk per raw chunk, in order |
| GroqClient.GenerateCodeStream | src/lib/groq-client.ts:94-116 | one chunk per streamed chunk of the request with the default model, 1, 8192 and 1, unclamped, streaming on |
| GroqClient.GenerateWithStream | src/lib/groq-client.ts:229-263 | each streaming wrapper streams its model with its defaults where the caller gave none, unclamped |
| GroqClient.GenerateWithGptOssStream | src/lib/groq-client.ts:205-227 | the GPT-OSS model with its tools, 65536 tokens by default, streaming on, one chunk per streamed chunk |
| GroqClient.Contents | src/lib/groq-client.ts:266-272 | the chunk contents, in order |
| GroqClient.JoinEmptySnoc | src/lib/groq-client.ts:266-272 | joining with no separator extends by the next piece |
| GroqClient.JoinEmptyLength | src/lib/groq-client.ts:266-272 | the joined text is as long as all pieces together |
| GroqClient.GenerateStreamingAsString | src/lib/groq-client.ts:266-272 | the loop's result is the join of every chunk's content, in order |
| Orchestrator.StoredAll | src/lib/agents/orchestrator.ts:7-18 | each buffer entry becomes one store entry, in order |
| Orchestrator.RouteOf | src/lib/agents/orchestrator.ts:41-56 | the GPT-OSS id goes to its own call, each named family to its wrapper, and every other id to Llama 3.3 |
| Orchestrator.RoutedToNamedModel | src/lib/agents/orchestrator.ts:41-56 | every model id is answered through the client call of the model it names |
| Orchestrator.Generate | src/lib/agents/orchestrator.ts:46-56 | one request to the model a stage names: a success is trimmed text, and a blank prompt fails before any request on every route but GPT-OSS; which client call answers is in `RoutedToNamedModel` |
| Orchestrator.Ask | src/lib/agents/orchestrator.ts:23-60 | a stage's request: the stage's prompt sent through `Generate` to the named model; its meaning is in `Generate`, `RoutedToNamedModel` and the stage lemmas |
| Orchestrator.Repair | src/lib/agents/orchestrator.ts:213 | the repair request: the repair prompt sent through `generateCode` with no options; its meaning is in `FixSpecCases` |
| Orchestrator.Fallback | src/lib/agents/orchestrator.ts:41-70 | the stage asks at most every model, and a success is non-blank text |
| Orchestrator.FallbackStep | src/lib/agents/orchestrator.ts:41-66 | one turn: stop at usable text, otherwise log and continue with the rest |
| Orchestrator.FallbackFirstUsable | src/lib/agents/orchestrator.ts:41-66 | the first model with usable text decides, after exactly that many asks |
| Orchestrator.FallbackIgnoresLater | src/lib/agents/orchestrator.ts:41-66 | models after the first usable one are never asked |
| Orchestrator.FallbackExhausted | src/lib/agents/orchestrator.ts:68-70 | with no usable text every model is asked and the stage throws |
| Orchestrator.FallbackThrowsLastError | src/lib/agents/orchestrator.ts:61-70 | the stage throws the last thrown error, or its own error when none threw |
| Orchestrator.FallbackLogIsTrail | src/lib/agents/orchestrator.ts:41-66 | the stage's log is one attempt entry per asked model plus its warning or success |
| Orchestrator.StageStep | src/lib/agents/orchestrator.ts:41-66 | the loop body keeps the stage's remaining specification |
| Orchestrator.SchemaPrompt | src/lib/agents/orchestrator.ts:139-147 | the schema prompt opens with the lead and the user's description, verbatim, closed by a quote |
| Orchestrator.UiPrompt | src/lib/agents/orchestrator.ts:23-35 | the UI prompt opens with the lead and the user's description, verbatim, closed by a quote |
| Orchestrator.ApiPrompt | src/lib/agents/orchestrator.ts:81-93 | the API prompt opens with the lead and the user's description, verbatim, closed by a quote; the schema it carries is in `ApiPromptEmbedsSchema` |
| Orchestrator.ApiPromptEmbedsSchema | src/lib/agents/orchestrator.ts:81-93 | the API stage's prompt carries the generated schema verbatim |
| Orchestrator.FixPrompt | src/lib/agents/orchestrator.ts:195-211 | the repair prompt lists the issues joined by newlines right after its lead; the code it carries is in `FixPromptEmbedsCode` |
| Orchestrator.FixPromptEmbedsCode | src/lib/agents/orchestrator.ts:195-211 | the repair prompt carries the code verbatim inside its fence |
| Orchestrator.MessageTellsKind | src/lib/agents/orchestrator.ts:324-347 | different kinds of issue have different messages |
| Orchestrator.Issues | src/lib/agents/orchestrator.ts:327-341 | the four fixed checks in source order, then the uninitialised variables; its meaning is in `IssuesRanked`, `FixedKindsFound` and `IssuesUninitialisedLast` |
| Orchestrator.ValidateCode | src/lib/agents/orchestrator.ts:324-347 | at most five messages and no message twice; each message's condition is in `ValidateCodeFlags` and `ValidateCodeEmpty` |
| Orchestrator.UninitialisedIssue | src/lib/agents/orchestrator.ts:336-341 | reported exactly when `\w+\s*=\s*undefined` matches, listing every match |
| Orchestrator.Messages | src/lib/agents/orchestrator.ts:324-347 | one message per issue, in order |
| Orchestrator.IssuesRanked | src/lib/agents/orchestrator.ts:324-347 | issues come in the order of the checks, at most one per kind |
| Orchestrator.IssuesUninitialisedLast | src/lib/agents/orchestrator.ts:336-341 | the uninitialised-variables issue is last and present exactly when the pattern matches |
| Orchestrator.FixedMessageIn | src/lib/agents/orchestrator.ts:324-347 | a fixed message is in the report exactly when its kind is found |
| Orchestrator.ValidateCodeFlags | src/lib/agents/orchestrator.ts:327-335 | each fixed message is reported exactly when its marker occurs |
| Orchestrator.FixedKindsFound | src/lib/agents/orchestrator.ts:327-335 | each fixed kind is found exactly when its check fires |
| Orchestrator.ValidateCodeEmpty | src/lib/agents/orchestrator.ts:324-347 | the report is empty exactly when no check fires |
| Orchestrator.FixSpec | src/lib/agents/orchestrator.ts:187-217 | the reference definition of `validateAndFixCode`'s result and log, which `Generator.ValidateAndFixCode` is proved equal to; its cases are in `FixSpecCases` |
| Orchestrator.DraftsSpec | src/lib/agents/orchestrator.ts:229-236 | the reference definition of the three stages in order, stopping at the first that throws, with the API stage given the schema text; `Generator.GenerateDrafts` is proved equal to it |
| Orchestrator.ReviewSpec | src/lib/agents/orchestrator.ts:239-244 | the reference definition of the review: the UI code always through repair, the API code only with issues, the schema kept; `Generator.Review` is proved equal to it |
| Orchestrator.PipelineSpec | src/lib/agents/orchestrator.ts:228-244 | the reference definition of a run between its start and final entries; `Generator.RunPipeline` is proved equal to it, and its properties are in `PipelineKeepsSchema`, `PipelineKeepsCleanApiCode` and `PipelineFailsWithStage` |
| Orchestrator.FixSpecCases | src/lib/agents/orchestrator.ts:187-217 | clean code comes back unchanged and nothing is asked; otherwise the answer to a repair request carrying the code, logging the issue count |
| Orchestrator.PipelineKeepsSchema | src/lib/agents/orchestrator.ts:229-236 | on success the schema is the schema stage's own non-blank text, never repaired, and the API stage given that schema succeeded |
| Orchestrator.PipelineKeepsCleanApiCode | src/lib/agents/orchestrator.ts:243-244 | API code without issues is stored as generated |
| Orchestrator.PipelineFailsWithStage | src/lib/agents/orchestrator.ts:229-236 | a failing schema stage fails the run with its error; no models means failure |
| Orchestrator.GeneratedFiles | src/lib/agents/orchestrator.ts:247-292 | the page, the route and the schema, in that order, each with its path, type and content |
| Orchestrator.RunLogs | src/lib/agents/orchestrator.ts:225-227 | a run's log starts with the start entry and ends with success exactly when the pipeline succeeded, or with the failure entry carrying the error |
| Orchestrator.Generator.AddLog | src/lib/agents/orchestrator.ts:7-18 | the entry goes to the buffer and to the store's log list, and nothing else changes |
| Orchestrator.Generator.TryModel | src/lib/agents/orchestrator.ts:42-64 | one asked model adds its attempt entry and its outcome's entry |
| Orchestrator.Generator.RunStage | src/lib/agents/orchestrator.ts:20-76 | the stage loop's result and log are the stage's specification |
| Orchestrator.Generator.ValidateAndFixCode | src/lib/agents/orchestrator.ts:187-217 | result and log are those of the repair specification |
| Orchestrator.Generator.GenerateDrafts | src/lib/agents/orchestrator.ts:229-236 | the three stages in order, stopping at the first that throws |
| Orchestrator.Generator.Review | src/lib/agents/orchestrator.ts:239-244 | the UI code is always passed through repair, and the API code only when it has issues |
| Orchestrator.Generator.SaveGenerated | src/lib/agents/orchestrator.ts:247-302 | three files appended to the project and version 1 recorded, nothing else |
| Orchestrator.Generator.OrchestrateGeneration | src/lib/agents/orchestrator.ts:219-322 | the buffer is reset, the log is the run's log mirrored into the store, and files and a version are stored exactly on success |
| Orchestrator.Generator.Orchestrate | src/lib/agents/orchestrator.ts:219-322 | the same for any way of asking the models |
| Orchestrator.Generator.Conclude | src/lib/agents/orchestrator.ts:295-321 | on success the files and version 1, then the final entry; on failure nothing stored and the error reported |
| Orchestrator.Generator.RunPipeline | src/lib/agents/orchestrator.ts:228-244 | the pipeline's result and log are its specification |
| FileTree.BuildFileStructure | src/lib/utils.ts:3-40 | the file nodes are the files in order; every node was made in input order and sits under its parent path; each directory prefix has exactly one folder |
| FileTree.AllNodes | src/lib/utils.ts:7-37 | at the end, every node was made in input order and is placed where its parent path says |
| FileTree.AllFiles | src/lib/utils.ts:16-21 | at the end, the file nodes are the files, in order |
| FileTree.AllFolders | src/lib/utils.ts:22-35 | at the end, each directory prefix has exactly one folder node |
| FileTree.AddPath | src/lib/utils.ts:8-36 | walking one file's parts extends the built tree by that file |
| FileTree.AddPart | src/lib/utils.ts:13-35 | one part: the file node at the last part, else the folder found in the map or created |
| FileTree.AddEntry | src/lib/utils.ts:17-32 | a new node goes at the end and into the current list |
| Logging.Pushed | src/lib/logger.ts:42-47 | push, then one shift past 1000: the entry is last, and a buffer within the bound stays within it; the window it keeps is in `PushKeepsWindow` |
| Logging.PushKeepsWindow | src/lib/logger.ts:42-47 | push-then-shift keeps exactly the last 1000 entries written |
| Logging.OfLevel | src/lib/logger.ts:109 | exactly the entries of the level |
| Logging.OfLevelAppend | src/lib/logger.ts:109 | the level filter distributes over concatenation |
| Logging.ApiLevel | src/lib/logger.ts:129-138 | WARN exactly for status 400 and above |
| Logging.DurationText | src/lib/logger.ts:135 | the whole milliseconds in decimal, a point, two fraction digits and `ms`; the digits read back give the duration in hundredths |
| Logging.ApiMessage | src/lib/logger.ts:130 | `API <method> <path> - ` followed by the decimal status, which reads back as the status |
| Logging.ApiContext | src/lib/logger.ts:131-137 | exactly the four keys plus the caller's; the caller's values win; method, path, status and duration text fill every key the caller left out |
| Logging.Logger.constructor | src/lib/logger.ts:19-21 | an empty buffer |
| Logging.Logger.ShouldLogCases | src/lib/logger.ts:23-28 | DEBUG is written exactly when debug logging is on; every other level always |
| Logging.Logger.WriteLog | src/lib/logger.ts:42-47 | the entry is appended, and the oldest dropped once the buffer exceeds 1000 |
| Logging.Logger.Log | src/lib/logger.ts:145-149 | written exactly when the filter allows |
| Logging.Logger.LogError | src/lib/logger.ts:98-100 | always written, at ERROR |
| Logging.Logger.LogApiRequest | src/lib/logger.ts:129-138 | one entry with the level, message and context above |
| Logging.Logger.LogUserAction | src/lib/logger.ts:141-143 | one INFO entry naming the action |
| Logging.Logger.GetRecentLogs | src/lib/logger.ts:103-105 | the last `limit` entries, 100 by default |
| Logging.Logger.GetLogsByLevel | src/lib/logger.ts:108-110 | the last `limit` entries of the level |
| Logging.Logger.ClearLogs | src/lib/logger.ts:113-115 | the buffer empties |
| ProjectContext.AddFile | src/context/ProjectContext.tsx:33-43 | the first file with the path is replaced in place; otherwise the file is appended; other files stay |
| ProjectContext.AddFileIdempotent | src/context/ProjectContext.tsx:33-43 | adding the same file again changes nothing |
| ProjectContext.UpdateFile | src/context/ProjectContext.tsx:45-47 | every file with the path gets the new content and time; the others are kept |
| ProjectContext.UpdateKeepsPaths | src/context/ProjectContext.tsx:45-47 | an update moves no file |
| ProjectContext.RemoveFile | src/context/ProjectContext.tsx:49-51 | exactly the files with other paths remain |
| ProjectContext.RemoveFileAppend | src/context/ProjectContext.tsx:49-51 | removal keeps the survivors' order |
| ProjectContext.RemoveUndoesAdd | src/context/ProjectContext.tsx:33-51 | removing the path of a just-added file gives what removing it from the old list gives |
| ProjectContext.AddLog | src/context/ProjectContext.tsx:53-55 | the entry goes at the end |
| ProjectContext.ClearLogs | src/context/ProjectContext.tsx:57-59 | nothing is left |
| ModelSelector.ModelIdsDistinct | src/components/ui/model-selector.tsx:18-65 | the model ids are pairwise different |
| ModelSelector.AiModelsTable | src/components/ui/model-selector.tsx:18-65 | five models with distinct ids, each named by its id, and only the first recommended |
| ModelSelector.FindModel | src/components/ui/model-selector.tsx:99 | the model found has the id, and none is found exactly when no model has it |
| ModelSelector.FindDistinct | src/components/ui/model-selector.tsx:99 | with distinct ids the model found for an id is the one that has it |
| ModelSelector.Without | src/components/ui/model-selector.tsx:91 | exactly the other ids remain |
| ModelSelector.WithoutAppend | src/components/ui/model-selector.tsx:91 | removal keeps the relative order |
| ModelSelector.Toggle | src/components/ui/model-selector.tsx:89-95 | the id is selected afterwards exactly when it was not before, and nothing else changes |
| ModelSelector.ToggleTwice | src/components/ui/model-selector.tsx:89-95 | toggling an unselected id twice restores the selection |
| ModelSelector.Label | src/components/ui/model-selector.tsx:97-104 | a placeholder for none, the display name (or "Unknown Model") for one, the count for several |
| ModelSelector.LabelOfOneModel | src/components/ui/model-selector.tsx:97-104 | one selected model of the table is shown by its display name |
| ModelSelector.LabelCountsModels | src/components/ui/model-selector.tsx:102 | the label for several models gives their number back |
| ProjectsRoute.NameErrors | src/app/api/projects/route.ts:9-17 | at most one name error: required, empty after trimming, or over 100 characters |
| ProjectsRoute.DescriptionErrors | src/app/api/projects/route.ts:19-23 | an error only for a truthy non-string or a string over 500 characters |
| ProjectsRoute.ValidateProjectData | src/app/api/projects/route.ts:6-27 | valid exactly when neither check fails; a missing name is the first error |
| ProjectsRoute.TrimmedDescription | src/app/api/projects/route.ts:56 | `description?.trim()`: a value exactly for a string description, trimmed, and empty exactly when the description is all white space |
| ProjectsRoute.ClientIp | src/app/api/projects/route.ts:32-34 | the forwarded address, else the real address, else "unknown"; an empty header is skipped |
| ProjectsRoute.RouteKeysSeparate | src/app/api/projects/route.ts:35 | creating and listing never share a limiter key, and each key names one client |
| ProjectsRoute.PostQuota | src/app/api/projects/route.ts:38 | half the budget, rounded down |
| ProjectsRoute.ListQuota | src/app/api/projects/route.ts:75 | twice the budget |
| ProjectsRoute.QuotasOrdered | src/app/api/projects/route.ts:38-75 | creating is allowed at most the budget and listing at least it |
| ProjectsRoute.Post | src/app/api/projects/route.ts:29-64 | 429 over the limit; the caught error for a bad body; 400 with the joined errors; otherwise a project created under the fresh id, appended to the order when new, with empty files and versions; the limiter map is the limiter's admit or prune of the old map; logs unchanged |
| ProjectsRoute.Get | src/app/api/projects/route.ts:66-87 | 429 over the limit, otherwise every project in insertion order; the limiter map is the limiter's admit or prune of the old map |
| Preview.CodeToRender | src/components/app-builder/preview-component.tsx:21 | the generated code when present, else the streaming code |
| Preview.Initial | src/components/app-builder/preview-component.tsx:20-24 | the first state holds the code, key 0, no error |
| Preview.Follow | src/components/app-builder/preview-component.tsx:27-30 | new code bumps the key and clears the error; the same code changes nothing |
| Preview.FollowSettles | src/components/app-builder/preview-component.tsx:27-30 | following twice is following once, and the key counts the changes of code |
| Preview.CleanCode | src/components/app-builder/preview-component.tsx:74-77 | the cleaned code is trimmed |
| Preview.CleanCodeRemovesFences | src/components/app-builder/preview-component.tsx:74-77 | no three backticks remain, and the second removal finds nothing |
| Preview.CleanFencedBlock | src/components/app-builder/preview-component.tsx:74-77 | a fenced block with any word tag, or none, comes out as its body |
| Preview.KeywordAt | src/components/app-builder/preview-component.tsx:81 | the captured keyword is empty or one of the five and present at that point |
| Preview.KeywordFound | src/components/app-builder/preview-component.tsx:81 | a declaration keyword at that point is the one the group captures |
| Preview.ExportAt | src/components/app-builder/preview-component.tsx:81 | a match starts with `export`, captures an empty or declaration keyword and a name of word characters, possibly empty, that ends the match at a non-word character |
| Preview.ExportAtHead | src/components/app-builder/preview-component.tsx:81 | the pattern matches at a point exactly when `export`, spaces, `default` and a space begin there |
| Preview.Replacement | src/components/app-builder/preview-component.tsx:81-86 | the replacement callback; what it yields in context is in `RewriteNamedDeclaration` and `RewriteNameless`, and `ReplacementHasNoBacktick` shows it adds no backtick |
| Preview.RewriteExport | src/components/app-builder/preview-component.tsx:80-87 | code without `export default` is unchanged |
| Preview.RewriteFirstClause | src/components/app-builder/preview-component.tsx:80-87 | with `export default` present, the first match alone is replaced by its replacement text, the rest kept |
| Preview.RewriteWithoutClause | src/components/app-builder/preview-component.tsx:80-87 | code where the pattern matches nowhere is unchanged |
| Preview.RewriteNamedDeclaration | src/components/app-builder/preview-component.tsx:80-87 | after any text with no `export`, `export default <keyword> <name>` becomes `window.default = <name>; <keyword> <name>` |
| Preview.RewriteNameless | src/components/app-builder/preview-component.tsx:85 | after any text with no `export`, `export default ` followed by neither a word nor a space becomes `window.default =` |
| Preview.Prepare | src/components/app-builder/preview-component.tsx:74-87 | the frame's script has no three backticks, and is the cleaned code unchanged by the export rewrite when it has no `export default` |
| Preview.RewriteKeepsNoTicks | src/components/app-builder/preview-component.tsx:80-87 | the export rewrite adds no backtick run |
| Preview.Render | src/components/app-builder/preview-component.tsx:21-71 | the state follows the code; generating with no code shows the spinner, no code the placeholder, a non-empty error the error panel, and otherwise the frame with the code to render, whose script is `Prepare` of it |
| Preview.Shown | src/components/app-builder/preview-component.tsx:33-71 | spinner when generating with no code (line 33), placeholder with no code (45), the error panel for a non-empty error (56), else the frame (144) |
| Preview.NewCodeIsShown | src/components/app-builder/preview-component.tsx:27-71 | new non-empty code always reaches the frame, because the change clears the error |

## Findings

| source | as written | input that shows it | evidently intended | confidence | as-written member | corrected member |
|---|---|---|---|---|---|---|
| src/lib/groq-client.ts:129-135 | the opening-fence pattern needs its backticks at the start of a line, and `trim()` runs after the removals, so a fence indented by white space survives and ends up at the start of the result | `" ```ts\nfoo"` cleans to `"```ts\nfoo"`, which cleans again to `"foo"` | cleaning an answer once gives text that cleaning leaves alone | medium, not executed | GroqClient.CleanCodeResponseNotIdempotent | GroqClient.CleanCodeSettled |

`GroqClient.GenerateCode` and the wrappers keep the cleaner as written, because their contracts describe what the client returns. `GroqClient.CleanCodeSettledAgrees` shows that the settled cleaner gives the same text wherever one cleaning already settles.

## Left out

- The network, the Groq SDK and the `fetch`/`NextResponse` machinery are left out. The model service is a function parameter, and responses are datatypes.
- `JSON.parse` and `JSON.stringify` are left out. Parsing is a parameter of `GroqClient.GenerateJson`, and the version snapshot is kept as a structured value.
- Environment and configuration reading is left out. Debug logging and the rate-limit budget and window are parameters.
- Console output, `Date`, `Math.random` and generated ids are left out. The clock, the ids and the cleanup draw are parameters.
- React rendering is left out: spinners, panels and the preview iframe's HTML page. Only the branch taken and the code placed in the frame are modelled.
- `logger.time` is left out because it measures wall-clock time.
- `extractComponentNames` and `extractEndpoints` are left out, because `orchestrateGeneration` discards their results.
- `versions.restore` is left out, because it only writes to the console.
- Floating point is left out. Durations are hundredths of a millisecond, so `toFixed(2)` is exact. Temperatures and `top_p` are reals, clamped exactly.
- Strings are sequences of UTF-16 code units, each a `char`. No Unicode-aware case folding is done: the case-insensitive patterns only use ASCII letters.
- The `stop` and `tools` request options are forwarded unchanged and are not modelled.
- The log entries' `id` and `createdAt` are not modelled.
- Concurrency and interleaving of async calls are left out. Each call runs to completion.
- FileTree.BuildFileStructure: folders are entries of one list that hold the indices of their children. No shared references are modelled, so aliasing between a folder object and the map's copy is not captured.
- Orchestrator.Generator.RunStage: the prompt text is abstracted into `Ask`. Only the facts the proofs need about the API and repair prompts are proved (the schema and the code are embedded verbatim).
- ProjectsRoute.Post: the `TypeError` that `?.trim()` raises on a falsy non-string description is a parameter `typeError`, because its text comes from the JavaScript engine.
- Shared mutable objects are not modelled: `files.list` returns the stored array itself (src/lib/storage.ts:86), `files.update` changes the stored file object in place (src/lib/storage.ts:96-98), and `orchestrateGeneration` returns the module-level log array that the next run empties (src/lib/agents/orchestrator.ts:5, 226, 308). The model works on values, so a caller holding such a reference does not see later changes.
- Thrown values that are falsy (`throw null`) are not modelled as distinct from other non-errors.
