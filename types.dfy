/** Record and enum shapes of the console (types.ts), plus the two
    failure-carrying wrappers every other module uses. */
module Types {

  datatype Option<+T> = None | Some(value: T) {
    function GetOr(default: T): T {
      if Some? then value else default
    }
  }

  /** The outcome of something that may throw: `Err` carries the thrown
      error's message. */
  datatype Result<+T> = Ok(value: T) | Err(message: string)

  /** AgentType (types.ts:2-11): exactly eight agents. */
  datatype AgentType =
    | Chat | ImageGen | ImageEdit | FileSystem | LocalLlm | Models | Integrations | Workflow

  const AllAgentTypes: seq<AgentType> :=
    [Chat, ImageGen, ImageEdit, FileSystem, LocalLlm, Models, Integrations, Workflow]

  /** The string value each enum member stands for at run time. */
  function AgentTypeValue(a: AgentType): string {
    match a
    case Chat => "CHAT"
    case ImageGen => "IMAGE_GEN"
    case ImageEdit => "IMAGE_EDIT"
    case FileSystem => "FILESYSTEM"
    case LocalLlm => "LOCAL_LLM"
    case Models => "MODELS"
    case Integrations => "INTEGRATIONS"
    case Workflow => "WORKFLOW"
  }

  function ParseAgentType(s: string): (r: Option<AgentType>)
    ensures r.Some? ==> AgentTypeValue(r.value) == s
  {
    if s == "CHAT" then Some(Chat)
    else if s == "IMAGE_GEN" then Some(ImageGen)
    else if s == "IMAGE_EDIT" then Some(ImageEdit)
    else if s == "FILESYSTEM" then Some(FileSystem)
    else if s == "LOCAL_LLM" then Some(LocalLlm)
    else if s == "MODELS" then Some(Models)
    else if s == "INTEGRATIONS" then Some(Integrations)
    else if s == "WORKFLOW" then Some(Workflow)
    else None
  }

  /** The eight members are listed once each, and each one's string value
      reads back as that member. */
  lemma AgentTypesEnumerated(a: AgentType)
    ensures |AllAgentTypes| == 8 && a in AllAgentTypes
    ensures forall i, j :: 0 <= i < j < |AllAgentTypes| ==> AllAgentTypes[i] != AllAgentTypes[j]
    ensures ParseAgentType(AgentTypeValue(a)) == Some(a)
  {
    forall i, j | 0 <= i < j < |AllAgentTypes|
      ensures AllAgentTypes[i] != AllAgentTypes[j]
    {
      assert AgentTypeIndex(AllAgentTypes[i]) == i && AgentTypeIndex(AllAgentTypes[j]) == j;
    }
    match a
    case Chat => assert AllAgentTypes[0] == a;
    case ImageGen => assert AllAgentTypes[1] == a;
    case ImageEdit => assert AllAgentTypes[2] == a;
    case FileSystem => assert AllAgentTypes[3] == a;
    case LocalLlm => assert AllAgentTypes[4] == a;
    case Models => assert AllAgentTypes[5] == a;
    case Integrations => assert AllAgentTypes[6] == a;
    case Workflow => assert AllAgentTypes[7] == a;
  }

  /** The position of each member in `AllAgentTypes`. */
  function AgentTypeIndex(a: AgentType): nat {
    match a
    case Chat => 0
    case ImageGen => 1
    case ImageEdit => 2
    case FileSystem => 3
    case LocalLlm => 4
    case Models => 5
    case Integrations => 6
    case Workflow => 7
  }

  /** Message (types.ts:13-20). */
  datatype Role = User | Model | System

  datatype Message = Message(
    id: string,
    role: Role,
    content: string,
    timestamp: int,
    image: Option<string>,
    isError: Option<bool>)

  /** FileNode and the file-system handles behind it (types.ts:22-28).
      A handle is opaque: `key` stands for its identity. */
  datatype Kind = File | Directory

  datatype Handle = Handle(key: nat, name: string, kind: Kind)

  datatype FileNode = FileNode(
    name: string,
    kind: Kind,
    handle: Handle,
    path: string,
    children: Option<seq<FileNode>>)

  /** FileSystemState (types.ts:30-36). */
  datatype FileSystemState = FileSystemState(
    rootHandle: Option<Handle>,
    currentPath: string,
    files: seq<FileNode>,
    selectedFile: Option<FileNode>,
    fileContent: string)

  /** LogEntry (types.ts:38-44): six declared actions, three statuses. The
      file manager also writes the pending action's own tag as the action of
      a failure entry (App.tsx:848), which for a save is "SAVE", a value
      outside the declaration; `Save` stands for it. */
  datatype LogAction = Read | Create | Modify | Delete | PermissionGrant | PermissionDeny | Save

  predicate IsDeclaredLogAction(a: LogAction) {
    !a.Save?
  }

  datatype LogStatus = Success | Failure | Pending

  datatype LogEntry = LogEntry(
    id: string,
    timestamp: int,
    action: LogAction,
    details: string,
    status: LogStatus)

  function LogActionValue(a: LogAction): string {
    match a
    case Read => "READ"
    case Create => "CREATE"
    case Modify => "MODIFY"
    case Delete => "DELETE"
    case PermissionGrant => "PERMISSION_GRANT"
    case PermissionDeny => "PERMISSION_DENY"
    case Save => "SAVE"
  }

  /** Six declared actions and three statuses, each with its own value. */
  lemma LogShapes(a: LogAction, b: LogAction, st: LogStatus)
    ensures IsDeclaredLogAction(a) <==>
      LogActionValue(a) in {"READ", "CREATE", "MODIFY", "DELETE", "PERMISSION_GRANT", "PERMISSION_DENY"}
    ensures LogActionValue(a) == LogActionValue(b) ==> a == b
    ensures st in {Success, Failure, Pending}
  {
  }

  /** AIModel (types.ts:46-58): five statuses, optional progress. */
  datatype ModelKind = Cloud | Local

  datatype ModelStatus = NotInstalled | Downloading | Ready | Active | Error

  function ModelStatusValue(s: ModelStatus): string {
    match s
    case NotInstalled => "Not Installed"
    case Downloading => "Downloading"
    case Ready => "Ready"
    case Active => "Active"
    case Error => "Error"
  }

  function ParseModelStatus(s: string): (r: Option<ModelStatus>)
    ensures r.Some? ==> ModelStatusValue(r.value) == s
  {
    if s == "Not Installed" then Some(NotInstalled)
    else if s == "Downloading" then Some(Downloading)
    else if s == "Ready" then Some(Ready)
    else if s == "Active" then Some(Active)
    else if s == "Error" then Some(Error)
    else None
  }

  /** Each status's string value reads back as that status. */
  lemma ModelStatusRoundTrip(s: ModelStatus)
    ensures ParseModelStatus(ModelStatusValue(s)) == Some(s)
  {
  }

  datatype AIModel = AIModel(
    id: string,
    name: string,
    provider: string,
    kind: ModelKind,
    description: string,
    requirements: string,
    status: ModelStatus,
    progress: Option<int>,
    apiKeyRequired: Option<bool>,
    downloadUrl: Option<string>,
    stars: Option<int>)

  /** ImageSize and AspectRatio (types.ts:69-81). */
  datatype ImageSize = Size1K | Size2K | Size4K

  function ImageSizeValue(s: ImageSize): string {
    match s
    case Size1K => "1K"
    case Size2K => "2K"
    case Size4K => "4K"
  }

  datatype AspectRatio = Square | Landscape | Portrait | FourThree | ThreeFour

  function AspectRatioValue(r: AspectRatio): string {
    match r
    case Square => "1:1"
    case Landscape => "16:9"
    case Portrait => "9:16"
    case FourThree => "4:3"
    case ThreeFour => "3:4"
  }

  /** ApiKeyConfig (types.ts:83-89). */
  datatype ApiKeyConfig = ApiKeyConfig(
    google: string, openai: string, anthropic: string, groq: string, mistral: string)

  /** Node tags. The first seven are the declared WorkflowNodeType
      (types.ts:92); the workflow editor also stores three tags that the
      declaration does not list (App.tsx:121, 161, 198-204). */
  datatype NodeType =
    | Trigger | Agent | ModelNode | Tool | Memory | Output | ChainNode
    | AgentChat | AgentImage | FileRead

  predicate IsDeclaredNodeType(t: NodeType) {
    t in {Trigger, Agent, ModelNode, Tool, Memory, Output, ChainNode}
  }

  function NodeTypeValue(t: NodeType): string {
    match t
    case Trigger => "TRIGGER"
    case Agent => "AGENT"
    case ModelNode => "MODEL"
    case Tool => "TOOL"
    case Memory => "MEMORY"
    case Output => "OUTPUT"
    case ChainNode => "CHAIN"
    case AgentChat => "AGENT_CHAT"
    case AgentImage => "AGENT_IMAGE"
    case FileRead => "FILE_READ"
  }

  /** The declared node type is a closed set of seven tags, and the editor's
      own tags (other than TRIGGER) fall outside it. */
  lemma DeclaredNodeTypes(t: NodeType)
    ensures IsDeclaredNodeType(t) <==>
      NodeTypeValue(t) in {"TRIGGER", "AGENT", "MODEL", "TOOL", "MEMORY", "OUTPUT", "CHAIN"}
    ensures !IsDeclaredNodeType(AgentChat) && !IsDeclaredNodeType(AgentImage)
    ensures !IsDeclaredNodeType(FileRead) && IsDeclaredNodeType(Trigger)
  {
  }

  /** WorkflowNode data (types.ts:94-106): eight providers, four statuses. */
  datatype Provider = Google | OpenAi | Anthropic | Ollama | Mistral | Groq | SystemProvider | Custom

  datatype NodeStatus = Idle | Running | Complete | Failed

  datatype NodeData = NodeData(
    labelText: string,
    subLabel: Option<string>,
    icon: Option<string>,
    provider: Option<Provider>,
    status: Option<NodeStatus>,
    config: Option<map<string, string>>)

  datatype Point = Point(x: int, y: int)

  datatype WorkflowNode = WorkflowNode(id: string, nodeType: NodeType, position: Point, data: NodeData)

  /** WorkflowEdge (types.ts:108-112). */
  datatype WorkflowEdge = WorkflowEdge(id: string, source: string, target: string)

  /** A node's data holding only a label, as every node the editor creates does. */
  function LabelOnly(text: string): NodeData {
    NodeData(text, None, None, None, None, None)
  }
}
