# Nexus AGI Workbench, modelled in Dafny

Nexus AGI Workbench is a single-page React console. A sidebar switches
between agents: chat, image generation, image editing, a local-folder file
manager, a model registry, an integrations page and a workflow builder.
This project models the console's state logic and its two service files.
It covers:

- the workflow canvas: drag with grid snapping, adding nodes, and the edge
  curves it draws;
- the model registry: the download simulation, the single-active toggle,
  the requirements classifier and the GitHub result mapping;
- the folder picker's breadcrumbs;
- the file manager's permission and unsaved-changes state machine with its
  newest-first activity log;
- the chat shell: the four per-agent histories, the choice of service for a
  message, and the one reply every message gets;
- the Gemini service's request building and answer handling;
- the directory listing's entry construction and directories-first sort;
- the record and enum shapes of `types.ts`.

Each module follows one part of the program:

| module | file | models |
|---|---|---|
| `Types` | types.dfy | the records and enums of types.ts, plus `Option`/`Result` |
| `Text` | text.dfy | the JavaScript string operations the code uses |
| `Workflow` | workflow.dfy | `WorkflowEditor` in App.tsx |
| `ModelRegistry` | modelregistry.dfy | `ModelRegistry` in App.tsx |
| `FileSelector` | fileselector.dfy | `FileSystemSelector` in App.tsx |
| `FileManager` | filemanager.dfy | `FileSystemManager` in App.tsx |
| `Chat` | chat.dfy | `App` message handling and `ChatInterface` in App.tsx |
| `Gemini` | gemini.dfy | services/geminiService.ts |
| `FileService` | fileservice.dfy | `readDirectory` in services/fileService.ts |

Component state that the handlers update becomes a class. The class fields
are the `useState` cells. Each handler becomes a method that states the
whole new state. The reasoning lives in pure functions and lemmas beside the
class:

- `WorkflowEditor`, `Registry`, `Selector`, `Manager`, `Console` and
  `ChatInput` are classes.
- The file manager's handlers are also written as transitions on a
  `ManagerState` value. Each `Manager` method is proved equal to its
  transition, and the lemmas are stated about the transitions.

Everything the outside world decides is an input. That covers the clock,
the directory picker, file reads and writes, the three SDK calls, `fetch`,
the prompt dialog and the attached file.

The workflow editor, as the code has it:

- positions snap to a 20-unit grid (App.tsx:146-147);
- each curve leaves and enters with a horizontal tangent 50 long
  (App.tsx:238-240);
- the drag offset is the pointer minus the node's position (App.tsx:136);
- there is no pan, zoom, edge-creation gesture or node deletion
  (App.tsx:304-310).

Two behaviours of the code are kept as written:

- A failed save is logged with the action `"SAVE"`, which `LogEntry`
  does not declare.
- Deleting the open file does not clear the unsaved-changes flag.

## Model

| member | source | states |
|---|---|---|
| Types.AgentTypesEnumerated | types.ts:2-11 | exactly eight agent types, listed once each, and each one's string value parses back to it |
| Types.ParseAgentType | types.ts:2-11 | a parsed agent type has exactly that string value |
| Types.LogShapes | types.ts:41-43 | the declared actions are exactly the six values READ, CREATE, MODIFY, DELETE, PERMISSION_GRANT and PERMISSION_DENY; action values are distinct; a status is one of three |
| Types.ParseModelStatus | types.ts:53 | a parsed status has exactly that string value |
| Types.ModelStatusRoundTrip | types.ts:53-54 | each of the five statuses reads back from its string value |
| Types.DeclaredNodeTypes | types.ts:92 | the declared node type is the closed set of seven tags; AGENT_CHAT, AGENT_IMAGE and FILE_READ, which the editor uses, are outside it |
| Text.IndexOf | App.tsx:361-366 | the index found is the first occurrence at or after the start; none means no occurrence |
| Text.IncludesAt | services/geminiService.ts:26 | any occurrence makes `includes` true |
| Text.Lower | App.tsx:360 | lower-casing keeps the length and maps every character, ASCII letters only |
| Text.TrimStart | App.tsx:371 | the result is a suffix, everything removed is white space, and it does not start with white space |
| Text.TrimEnd | App.tsx:1027 | the result is a prefix, everything removed is white space, and it does not end with white space |
| Text.TrimEmptyIffBlank | App.tsx:371 | `trim()` is empty exactly when every character is white space |
| Text.IsBlank | App.tsx:371 | `!s.trim()` holds exactly when the string is all white space |
| Text.Split | App.tsx:687 | splitting always yields at least one segment |
| Text.SplitSegmentsLackSeparator | App.tsx:687 | no segment of a split contains the separator |
| Text.JoinSplit | App.tsx:687 | joining the segments of a split gives back the string |
| Text.SplitJoin | App.tsx:687 | splitting a join of separator-free segments gives back the segments |
| Text.SplitNoSeparator | App.tsx:687 | a string without the separator splits into itself alone |
| Text.SplitConcat | App.tsx:687 | splitting `a + sep + b` is the split of `a` followed by the split of `b` |
| Text.DropLastTwo | App.tsx:687 | definition of `slice(0, -2)`: all but the last two elements, or nothing when there are fewer than two; what Back does with it is proved in FileSelector.SegmentsAfterBack and FileSelector.BackAfterNavigate |
| Text.DecimalString | App.tsx:160 | `String(n)` is non-empty and all digits for a non-negative `n` |
| Text.NatDecimalValue | App.tsx:160 | the digits written for a natural number read back as that number |
| Text.DecimalStringValue | App.tsx:160 | `String(n)`, read back with its optional minus sign, is `n` |
| Text.DecimalStringInjective | App.tsx:160 | distinct clock readings give distinct ids |
| Workflow.Snap | App.tsx:146-147 | the snapped coordinate is a multiple of 20 within (n − 10, n + 10], so halves round up |
| Workflow.SnapIsUnique | App.tsx:146-147 | exactly one multiple of 20 lies in that window, so the rounding is determined |
| Workflow.SnapOnGrid | App.tsx:146-147 | a coordinate already on the grid stays put |
| Workflow.FindIndex | App.tsx:132 | the index of the first node with the id, or none when no node has it |
| Workflow.FindNode | App.tsx:132 | `find` succeeds exactly when some node has the id, and returns a node with that id |
| Workflow.MoveNode | App.tsx:149-151 | only the position of nodes carrying the dragged id changes; ids, types, data, length and order stay |
| Workflow.MoveNodeKeepsIds | App.tsx:149-151 | a move neither adds nor removes an id |
| Workflow.MoveAtPressPointIsIdentity | App.tsx:130-151 | with unique ids, pressing on an on-grid node and moving without leaving the press point leaves the list unchanged |
| Workflow.CurveBetween | App.tsx:233-241 | the curve leaves the source's right edge at (x + 180, y + 40) and enters the target at (x, y + 40), with horizontal tangents 50 long at both ends |
| Workflow.EdgeCurve | App.tsx:229-231 | an edge is drawn exactly when both its endpoints exist |
| Workflow.EdgeCurveShape | App.tsx:233-241 | the curve runs from (src.x + 180, src.y + 40) to (tgt.x, tgt.y + 40), with control points 50 to the right of the start and 50 to the left of the end, at their heights |
| Workflow.EdgeCurveAfterMove | App.tsx:149-151 | dragging a node leaves curves between other nodes as they were and moves the start of its outgoing curves |
| Workflow.FindIndexSameIds | App.tsx:229-230 | lookups depend only on the ids, position by position |
| Workflow.FindAfterMove | App.tsx:149-151 | after a move, other ids find the same node, and the moved id finds it at the new position |
| Workflow.RenderedEdges | App.tsx:228-252 | at most one curve per edge, and one for each edge when all endpoints exist |
| Workflow.RenderedEdgesSound | App.tsx:228-252 | every drawn curve is the curve of some edge |
| Workflow.RenderedEdgesOne | App.tsx:228-231 | a single edge is drawn as its curve exactly when both endpoints exist, and as nothing otherwise |
| Workflow.RenderedEdgesAppend | App.tsx:228-252 | the curves of two edge lists in a row are the curves of the first followed by those of the second, so curves keep the edges' order |
| Workflow.RenderedEdgesComplete | App.tsx:228-252 | every edge whose endpoints both exist is drawn |
| Workflow.WorkflowEditor.constructor | App.tsx:119-128 | the two starting nodes and one edge, nothing selected, no drag, offset zero |
| Workflow.WorkflowEditor.MouseDown | App.tsx:130-138 | a known node becomes selected and dragged with offset pointer − position; an unknown id changes nothing |
| Workflow.WorkflowEditor.MouseMove | App.tsx:140-153 | during a drag the dragged node moves to the snapped pointer − offset; otherwise nothing changes |
| Workflow.WorkflowEditor.MouseUp | App.tsx:155-157 | the drag always ends and nothing else changes |
| Workflow.NewNodeLabel | App.tsx:161 | the label is one of Trigger, Chat Agent, Image Gen and File Op, and File Op exactly for every tag other than the first three |
| Workflow.WorkflowEditor.AddNode | App.tsx:159-169 | exactly one node is appended, at (200, 200), with the clock reading in decimal as its id and the label for its tag, and no uniqueness check |
| Workflow.WorkflowEditor.CloseProperties | App.tsx:298 | the selection is cleared and nothing else changes |
| Workflow.AppendKeepsIds | App.tsx:168 | appending keeps every id and adds the new one |
| Workflow.PressAndHold | App.tsx:130-153 | pressing and moving at the press point targets the node's own position, snapped |
| ModelRegistry.Apply | App.tsx:331-346 | a patch never changes a model's id |
| ModelRegistry.UpdateWhere | App.tsx:333 | definition of the `map` over the list: models with the id are patched in place, all others and the length are kept; what it keeps is proved in ModelRegistry.UpdateKeepsIds and ModelRegistry.UpdateAfterProgress |
| ModelRegistry.UpdateKeepsIds | App.tsx:333 | the mapping keeps every id in place |
| ModelRegistry.UpdateAfterProgress | App.tsx:343-346 | a progress or Ready write after a progress write equals the later write alone |
| ModelRegistry.TickLands | App.tsx:341-347 | one more tick overwrites the earlier ticks' counter, and the tick reaching 100 leaves the model Ready with no progress |
| ModelRegistry.StartDownload | App.tsx:330-334 | definition of the download start: an absent id is appended as Downloading at 0, an existing one is reset in place; what it keeps is proved in ModelRegistry.StartDownloadKeepsUnique |
| ModelRegistry.StartDownloadKeepsUnique | App.tsx:330-334 | starting a download never duplicates an id, and the model is then listed |
| ModelRegistry.ToggleActive | App.tsx:351-357 | length and ids kept, only statuses change: the id becomes Active, other Active models become Ready, the rest are unchanged |
| ModelRegistry.ToggleLeavesOneActive | App.tsx:351-357 | with unique ids, exactly one model is Active afterwards when the id is listed, and none otherwise |
| ModelRegistry.ClassifyIsFirstMatch | App.tsx:359-368 | the ordered classifier returns the first matching rule's label, or Manual Setup when none matches |
| ModelRegistry.EstimateRequirements | App.tsx:359-368 | the estimate is one of the seven labels, and 48GB+ VRAM exactly when "70b" occurs in the lower-cased name + " " + description |
| ModelRegistry.EstimateIsClassify | App.tsx:359-368 | the if-chain of `includes` tests is the ordered classifier over the six rules in source order |
| ModelRegistry.ManualSetupIffNoKeyword | App.tsx:359-368 | 'Manual Setup' comes back exactly when no keyword occurs in the lower-cased name + " " + description |
| ModelRegistry.ClassifyDefaultIffNoMatch | App.tsx:367 | when no rule's label is the default, the default comes back exactly when no rule matches |
| ModelRegistry.FirstMatching | App.tsx:361-366 | when some rule matches, a first matching rule exists |
| ModelRegistry.DescriptionOr | App.tsx:389-390 | `d \|\| fallback` takes the fallback exactly for a missing or empty description |
| ModelRegistry.FromGitHub | App.tsx:384-394 | a search item becomes a Local, Not Installed model with its id in decimal, the owner as provider, its description or "No description provided", and its URL and stars |
| ModelRegistry.FromGitHubRequirements | App.tsx:390 | a mapped result's requirements are the classifier's answer on the raw description, one of seven labels |
| ModelRegistry.MapItems | App.tsx:384-394 | definition of the `map` over the items: one mapped model per item, in order; what each one is is stated by ModelRegistry.FromGitHub |
| ModelRegistry.InitialModelsWellFormed | App.tsx:18-61 | the four starting models have unique ids and exactly one is Active |
| ModelRegistry.Registry.constructor | App.tsx:322-326 | starts on the installed tab with the four models and an empty search |
| ModelRegistry.Registry.HandleDownload | App.tsx:328-337 | the model is put into the list as Downloading and the installed tab is shown |
| ModelRegistry.Registry.Tick | App.tsx:341-347 | the counter grows by 10 and is written; at 100 or more the model becomes Ready with no progress |
| ModelRegistry.Registry.Download | App.tsx:328-348 | after ten ticks the model is Ready with no progress and every other model is unchanged |
| ModelRegistry.Registry.Activate | App.tsx:351-357 | the list is replaced by its toggle |
| ModelRegistry.Registry.SetSearchQuery | App.tsx:324 | only the query changes |
| ModelRegistry.Registry.PerformSearch | App.tsx:370-426 | a blank query changes nothing; otherwise the results are the mapped items, or the fallback when the fetch fails, and searching ends |
| FileSelector.NavigatePath | App.tsx:677 | the new path ends with '/', starts with the old path, and holds the directory name between them |
| FileSelector.BackPath | App.tsx:687 | the path after Back ends with '/' |
| FileSelector.BackAfterNavigate | App.tsx:673-689 | entering a directory whose name has no '/' and going back restores the path |
| FileSelector.SegmentsAfterNavigate | App.tsx:677 | entering adds one path segment |
| FileSelector.SegmentsAfterBack | App.tsx:687 | Back removes one segment from any path deeper than "/" |
| FileSelector.Selector.constructor | App.tsx:662-665 | path "/", the given handle, no files and no breadcrumbs |
| FileSelector.Selector.ShowListing | App.tsx:667-671 | only the listing changes |
| FileSelector.Selector.Navigate | App.tsx:673-679 | a directory, while a handle is set, pushes the current handle and appends name + '/'; anything else changes nothing; the path keeps one segment per breadcrumb |
| FileSelector.Selector.Back | App.tsx:681-689 | pops the last breadcrumb, returns to its handle and drops the last segment; with no breadcrumb nothing changes |
| FileSelector.NavigateThenBack | App.tsx:673-689 | navigate then back restores path, handle and breadcrumbs |
| FileManager.AddLog | App.tsx:758-768 | one entry is put in front with the clock reading as id and timestamp and the given action, details and status; nothing else changes |
| FileManager.Opened | App.tsx:770-785 | one log entry, or two when the pick succeeds and the listing fails; only a full success sets the root, listing and path; flags and dialogs are kept |
| FileManager.Loaded | App.tsx:787-797 | one entry with the read's status; a successful read selects the file with its content and clears the flag; a failed one changes only the log |
| FileManager.FileClick | App.tsx:798-806 | a directory changes nothing; the selection changes only on a clean click whose read succeeds; only a dirty click defers, to this node |
| FileManager.NavigationConfirmed | App.tsx:808-813 | the deferral is always cleared; with none nothing changes; a successful read opens the deferred file clean |
| FileManager.NavigationCancelled | App.tsx:815-817 | only the deferred navigation changes, to none |
| FileManager.Requested | App.tsx:819-821 | only the pending action changes, to the one requested |
| FileManager.Confirmed | App.tsx:823-851 | without an action or a root nothing changes; otherwise the action ends cleared; root, path and deferral are kept; a save or a failure keeps the file-system state, a successful create shows the new listing, a successful delete shows it and closes the file; only a successful save changes the flag |
| FileManager.Denied | App.tsx:853-856 | one PERMISSION_DENY failure entry in front, the pending action cleared, nothing else changed |
| FileManager.CreateClicked | App.tsx:858-862 | a non-empty answer while a folder is open requests a create of that name; anything else changes nothing |
| FileManager.SaveClicked | App.tsx:937-943 | with unsaved changes and an open file a save of its name and content is requested; otherwise nothing changes |
| FileManager.DeleteClicked | App.tsx:897-898 | only the pending action changes, to a delete of the row's name |
| FileManager.Edit | App.tsx:947-952 | the content becomes the text and is marked unsaved; nothing else changes |
| FileManager.ConfirmRequest | App.tsx:824-843 | which call confirmAction makes: none without an action or a root, none for a save with no open file, a save writes `data \|\| ''` to the open file, a delete removes and a create makes the target in the root |
| FileManager.LogIsPrependOnly | App.tsx:758-768 | no handler rewrites or drops a log entry; each adds at most two, in front |
| FileManager.DirtyClickOnlyDefers | App.tsx:798-802 | a file click with unsaved changes only records the pending navigation |
| FileManager.CleanClickLoads | App.tsx:787-804 | without unsaved changes a click loads the file and clears the flag; a failed read changes only the log |
| FileManager.ConfirmNavigationLoads | App.tsx:808-813 | discarding changes loads the deferred file and clears the deferral |
| FileManager.ConfirmClearsPending | App.tsx:823-851 | with an action and a root the pending action always ends cleared; without either nothing changes |
| FileManager.ConfirmLogsGrantFirst | App.tsx:826-847 | the grant is logged first, then one entry for the operation unless a save had no open file; the entry's status is the outcome, and a failure carries the action's own tag |
| FileManager.ConfirmSaveClearsDirty | App.tsx:829-847 | a successful save clears the unsaved-changes flag; a failure leaves the flag and the file-system state |
| FileManager.ConfirmDeleteKeepsDirty | App.tsx:835-839 | a delete closes the open file and shows the new listing, and keeps the unsaved-changes flag |
| FileManager.CancelClearsPending | App.tsx:853-856 | denying logs one failure and clears the pending action, and changes nothing else |
| FileManager.SaveRequestsOpenFile | App.tsx:937-939 | Save asks for permission only with unsaved changes, for the open file and the editor's content |
| FileManager.Manager.constructor | App.tsx:753-756 | an empty log, no unsaved changes, nothing pending, no folder |
| FileManager.Manager.AddLogEntry | App.tsx:758-768 | the entry is prepended and nothing else changes |
| FileManager.Manager.OpenDirectory | App.tsx:770-785 | the state is the openDirectory transition |
| FileManager.Manager.LoadFile | App.tsx:787-796 | the state is the loadFile transition |
| FileManager.Manager.HandleFileClick | App.tsx:798-806 | the state is the handleFileClick transition |
| FileManager.Manager.ConfirmNavigation | App.tsx:808-813 | the state is the confirmNavigation transition |
| FileManager.Manager.CancelNavigation | App.tsx:815-817 | the pending navigation is cleared |
| FileManager.Manager.RequestAction | App.tsx:819-821 | the action becomes pending |
| FileManager.Manager.ConfirmAction | App.tsx:823-851 | returns the call made, and the state is the confirmAction transition |
| FileManager.Manager.CancelAction | App.tsx:853-856 | the state is the cancelAction transition |
| FileManager.Manager.HandleCreateFile | App.tsx:858-862 | a non-empty answer, while a folder is open, requests a create |
| FileManager.Manager.HandleSaveClick | App.tsx:937-943 | the state is the Save button's transition |
| FileManager.Manager.HandleDeleteClick | App.tsx:897-898 | a delete of the row's name is requested |
| FileManager.Manager.EditContent | App.tsx:947-952 | the content is replaced and marked unsaved |
| Chat.SlotFor | App.tsx:1181-1197 | image generation, image editing and local LLM have their own histories; every other agent uses the chat history |
| Chat.Select | App.tsx:1181-1188 | image generation, image editing and local LLM read their own histories; every other agent reads the chat history |
| Chat.Append | App.tsx:1190-1197 | exactly one message is added across the four histories, and each history keeps what it had as a prefix |
| Chat.UserMessage | App.tsx:1209-1215 | a user message with the typed text, no error mark, the clock reading as id and timestamp, and an image exactly when a file is attached, its object URL |
| Chat.AppendTouchesOneHistory | App.tsx:1181-1197 | addMessage appends to exactly the history getCurrentMessages shows for the same agent, and leaves the other three alone |
| Chat.RouteFor | App.tsx:1224-1251 | image generation goes to generateImagePro, image editing to editImage only with a file, chat to generateText, everything else to the fixed text |
| Chat.HistoryTurns | App.tsx:1235-1244 | one turn per message, in order: user turns are "user", all others "model", with the text as the only part |
| Chat.HistoryTurnsAppend | App.tsx:1235-1244 | the history mapping distributes over concatenation |
| Chat.CallFor | App.tsx:1224-1251 | the call a message makes, route by route: image generation sends the text with the chosen size and ratio; an edit sends the text with the file's data URL and type; a chat sends the text, the file's data URL only with a file, and the mapped history; the not-connected route, and only it, makes no call |
| Chat.Reply | App.tsx:1253-1270 | one model message: "Error: " + message exactly when a called service failed; the image exactly for a successful image route, with "Generated image based on prompt." or "Edited image."; the answer for a successful chat; the fixed text when nothing is connected |
| Chat.SendAddsTwo | App.tsx:1217-1270 | sending adds the user's message and then the reply to the active agent's history, and to no other |
| Chat.SentHistoryOmitsMessage | App.tsx:1235-1247 | the history sent with a chat message is the one from before it; the stored history afterwards maps to those turns followed by the message's and the reply's |
| Chat.Console.constructor | App.tsx:1156-1178 | chat agent, four empty histories, not loading, 1K square images |
| Chat.Console.SetActiveAgent | App.tsx:1156 | only the active agent changes |
| Chat.Console.SetImageConfig | App.tsx:1175-1178 | only the image settings change |
| Chat.Console.AddMessage | App.tsx:1190-1197 | the histories become their addMessage update |
| Chat.Console.HandleSendMessage | App.tsx:1208-1274 | the call made is chosen from the old agent, settings and chat history; the user's message and the reply are appended; loading ends |
| Chat.ShouldSendIff | App.tsx:1027 | a message is sent exactly when a file is attached or the input is not all white space |
| Chat.ChatInput.constructor | App.tsx:1017-1018 | empty input, no file |
| Chat.ChatInput.SetInput | App.tsx:1017 | only the input changes |
| Chat.ChatInput.SelectFile | App.tsx:1018 | only the file changes |
| Chat.ChatInput.HandleSend | App.tsx:1026-1031 | a blank input with no file does nothing; otherwise both are handed over and cleared |
| Chat.ChatInput.HandleKeyDown | App.tsx:1033-1038 | Enter without Shift sends, any other key does nothing |
| Chat.TypeAndSend | App.tsx:1208-1274 | a typed message reaches the active agent's history followed by its reply; a blank one with no file changes no history |
| Gemini.FirstCandidateParts | services/geminiService.ts:80 | the first candidate's parts when the candidate, its content and its parts all exist, and no parts otherwise |
| Gemini.GetAI | services/geminiService.ts:5-10 | "API Key not found" exactly when the key is unset or empty; otherwise a client bound to the key |
| Gemini.CleanBase64 | services/geminiService.ts:26 | the cleaned data is never longer than the image, and without 'base64,' it is the image itself |
| Gemini.CleanBase64Segment | services/geminiService.ts:26 | without 'base64,' the image is unchanged; with it, the result is the text after the first marker, up to the next marker or the end |
| Gemini.UserParts | services/geminiService.ts:22-33 | the prompt part, then one PNG inline part with the cleaned data only when a non-empty image is given |
| Gemini.TextOrDefault | services/geminiService.ts:43 | the response text, or "No response generated." when it is missing or empty |
| Gemini.GenerateText | services/geminiService.ts:12-44 | no call and the key error without a key; otherwise the history turns in order then exactly one user turn, the prompt and the cleaned PNG data only for a non-empty image, on the flash model; the text or the thrown error |
| Gemini.FirstInlineImage | services/geminiService.ts:80-84 | the first part with inline data, as a PNG data URL, whenever there is such a part, and none exactly when no part has it |
| Gemini.GenerateImagePro | services/geminiService.ts:46-87 | the key error without a key; otherwise the image request, then the first inline part's data URL whenever a part has inline data, or "No image generated in response." exactly when none has |
| Gemini.WordRun | services/geminiService.ts:100 | the length of the leading run of `\w` characters |
| Gemini.StripWrapped | services/geminiService.ts:100 | stripping `data:image/<word>;base64,` from the front yields the data |
| Gemini.WordRunOf | services/geminiService.ts:100 | the run stops exactly at the end of the word |
| Gemini.StripImageDataUrl | services/geminiService.ts:82-100 | stripping a data URL the image calls return yields the original data |
| Gemini.StripDataUrlPrefix | services/geminiService.ts:100 | the stripped string is a suffix of its input, and a string without the image prefix is kept whole |
| Gemini.StripOnlyWrapped | services/geminiService.ts:100 | a string that changes is exactly `data:image/<word>;base64,` followed by the result, so any other string, one starting with "data:image/" included, is sent whole |
| Gemini.PrefixedByWrapper | services/geminiService.ts:100 | a string cut after "data:image/", after a non-empty word run and after ";base64," is that wrapper around its tail |
| Gemini.StripLeavesOthers | services/geminiService.ts:100 | a string without the prefix is sent unchanged |
| Gemini.EditImage | services/geminiService.ts:89-126 | the key error without a key; otherwise the image part with the stripped data and type (PNG by default) then the prompt, then the first inline part's data URL whenever a part has inline data, or the no-image error carrying the response text exactly when none has |
| Gemini.LocalRequestFor | services/geminiService.ts:135-143 | the request goes to baseUrl + "/api/generate", unstreamed, with the model and prompt |
| Gemini.GenerateLocal | services/geminiService.ts:144-150 | only a parsed body succeeds, with the body's response |
| Gemini.LocalErrorsWrapped | services/geminiService.ts:134-150 | only a parsed body succeeds; every failure, a non-OK status included, is "Local LLM Error: " + its message |
| FileService.BeforeIsTotalPreorder | services/fileService.ts:20-23 | the comparator orders any two nodes and is transitive |
| FileService.ReadDirectory | services/fileService.ts:7-24 | one node per entry, as a permutation, named, typed and pathed path + '/' + name; all directories before all files; names in order within a kind |
| FileService.SortEntries | services/fileService.ts:20-23 | the array ends sorted by the comparator and is a permutation of what it held |
| FileService.Insert | services/fileService.ts:20-23 | one insertion step extends the sorted prefix by one cell and keeps the contents |
| FileService.Swap | services/fileService.ts:20-23 | two neighbouring cells are exchanged and nothing else changes |

## Left out

- JSX rendering, CSS classes, icons and `getNodeIcon`/`getNodeColor` (App.tsx:171-187): presentation only.
- The workflow properties panel's inputs and its Delete Node button (App.tsx:304-310): they have no handlers.
- The file manager's `alert` on a failed open (App.tsx:783): output only.
- `fileToBase64` (App.tsx:1199-1206) and `URL.createObjectURL` (App.tsx:1214): the data URL and the object URL are fields of the attachment.
- The GitHub `fetch`, its request URL and its mock fallback list (App.tsx:378-379, 400-423): the parsed items or the thrown error are an input, and the fallback list is a parameter of `PerformSearch`.
- The Gemini SDK calls, the Ollama `fetch` and the `window.aistudio` key dialog: their answers are inputs.
- The File System Access API, `FileReader` and `URL.createObjectURL` (services/fileService.ts:3-5, 26-55): I/O, so their results are inputs.
- `setInterval` timing and overlapping downloads of one id: one tick is one step, and `Download` runs the ticks with nothing in between.
- `Date.now()`: each id and timestamp comes from a clock reading passed in.
- Chat.Console.HandleSendMessage: a send is one atomic step, so overlapping sends are not modelled. Enter sends even while a reply is pending, because `handleKeyDown` and the input (App.tsx:1033-1038, 1135) never check `isLoading`; only the button (App.tsx:1136) does. A reply can then land after a later user message. Chat.TypeAndSend's "followed by its reply" holds only for sends that do not overlap.
- Chat.UserMessage: one clock reading gives both the id and the timestamp, where the code reads the clock twice.
- Chat.Reply: the id is the reading plus one and the timestamp the reading itself, where the code reads the clock twice.
- FileManager.AddLog: one clock reading gives both the id and the timestamp, where the code reads the clock twice.
- `toFixed` star formatting (App.tsx:542): floating point.
- `localeCompare` locale rules: names are ordered by an abstract total preorder.
- FileService.SortEntries: states sortedness and permutation only, not stability. `Array.prototype.sort` is stable, so entries with equal keys keep their iteration order in the program, and the insertion sort here keeps it too, but no contract says so.
- Text.Lower: lower-cases ASCII letters only, not the full Unicode mapping.
- IntegrationManager (App.tsx:613-658) and the settings panel: static display.
- `Math.round` on fractional pointer coordinates: the pointer is integral.
- The `addGlobalLog` callback: the app never passes it (App.tsx:1289-1292), so it is never called.
- `generateLocal` is called nowhere in the app, so it is modelled on its own.
- Which agents can send: the app shows the input box only for the chat agent and the two image agents (App.tsx:1295). `HandleSendMessage` accepts any agent, and every other agent would get the not-connected text.
- The folder picker's read of the listing when the handle changes (App.tsx:667-671) is I/O: the listing is the input of `ShowListing`.
- The folder picker's file pick (App.tsx:691-696): it reads the file and hands it to a callback, both I/O.
