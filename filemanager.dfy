/** The file-system manager (App.tsx:752-1012): the activity log, the
    unsaved-changes flag, and the two confirmation dialogs that stand
    between a click and a file-system call. Every handler is a transition
    on `ManagerState`; what the file system answers is an input. */
module FileManager {

  import opened Types
  import opened Text

  datatype ActionType = SaveFile | DeleteFile | CreateFile

  function ActionTypeValue(t: ActionType): string {
    match t
    case SaveFile => "SAVE"
    case DeleteFile => "DELETE"
    case CreateFile => "CREATE"
  }

  /** The action awaiting the permission dialog (App.tsx:755). */
  datatype PendingAction = PendingAction(kind: ActionType, target: string, data: Option<string>)

  /** The file-system call a confirmation makes. */
  datatype FsRequest =
    | WriteFile(file: Handle, content: string)
    | RemoveEntry(root: Handle, name: string)
    | MakeFile(root: Handle, name: string)

  /** The manager's own state together with the lifted file-system state it
      edits. */
  datatype ManagerState = ManagerState(
    logs: seq<LogEntry>,
    isDirty: bool,
    pendingAction: Option<PendingAction>,
    pendingNavigation: Option<FileNode>,
    fs: FileSystemState)

  const InitialFs := FileSystemState(None, "/", [], None, "")

  const Initial := ManagerState([], false, None, None, InitialFs)

  /** addLog (App.tsx:758-768): the entry goes in front, so the log reads
      newest first. Its id is the clock reading in decimal. */
  function AddLog(s: ManagerState, now: int, action: LogAction, details: string, status: LogStatus): (r: ManagerState)
    ensures |r.logs| == |s.logs| + 1 && r.logs[1..] == s.logs
    ensures r.logs[0].id == DecimalString(now) && r.logs[0].timestamp == now
    ensures r.logs[0].action == action && r.logs[0].details == details && r.logs[0].status == status
    ensures r.fs == s.fs && r.isDirty == s.isDirty
    ensures r.pendingAction == s.pendingAction && r.pendingNavigation == s.pendingNavigation
  {
    s.(logs := [LogEntry(DecimalString(now), now, action, details, status)] + s.logs)
  }

  /** openDirectory (App.tsx:770-785). A listing failure after a
      successful pick leaves both the success and the failure entry. */
  function Opened(s: ManagerState, picked: Result<Handle>, listing: Result<seq<FileNode>>, now: int): (r: ManagerState)
    ensures |r.logs| == |s.logs| + (if picked.Ok? && listing.Err? then 2 else 1)
    ensures r.logs[|r.logs| - |s.logs|..] == s.logs
    ensures picked.Ok? && listing.Ok? ==>
      r.fs.rootHandle == Some(picked.value) && r.fs.files == listing.value
      && r.fs.currentPath == picked.value.name
    ensures picked.Err? || listing.Err? ==> r.fs == s.fs
    ensures r.isDirty == s.isDirty
    ensures r.pendingAction == s.pendingAction && r.pendingNavigation == s.pendingNavigation
  {
    if picked.Err? then AddLog(s, now, Read, "Failed to open directory picker", Failure)
    else
      var h := picked.value;
      var withHandle := AddLog(s, now, Read, "Opened directory handle: " + h.name, Success);
      if listing.Err? then AddLog(withHandle, now, Read, "Failed to open directory picker", Failure)
      else withHandle.(fs := withHandle.fs.(rootHandle := Some(h), files := listing.value, currentPath := h.name))
  }

  /** loadFile (App.tsx:787-797): only a successful read selects the file
      and clears the unsaved-changes flag. */
  function Loaded(s: ManagerState, node: FileNode, read: Result<string>, now: int): (r: ManagerState)
    ensures |r.logs| == |s.logs| + 1 && r.logs[1..] == s.logs
    ensures r.logs[0].status == (if read.Ok? then Success else Failure)
    ensures read.Ok? ==> r.fs.selectedFile == Some(node) && r.fs.fileContent == read.value && !r.isDirty
    ensures read.Err? ==> r.fs == s.fs && r.isDirty == s.isDirty
    ensures r.fs.rootHandle == s.fs.rootHandle && r.fs.files == s.fs.files
    ensures r.pendingAction == s.pendingAction && r.pendingNavigation == s.pendingNavigation
  {
    if read.Ok? then
      var logged := AddLog(s, now, Read, "Read file: " + node.name, Success);
      logged.(fs := logged.fs.(selectedFile := Some(node), fileContent := read.value), isDirty := false)
    else AddLog(s, now, Read, "Failed to read " + node.name, Failure)
  }

  /** handleFileClick (App.tsx:798-806). */
  function FileClick(s: ManagerState, node: FileNode, read: Result<string>, now: int): (r: ManagerState)
    ensures node.kind != File ==> r == s
    ensures r.fs.selectedFile != s.fs.selectedFile ==>
      node.kind == File && !s.isDirty && read.Ok? && r.fs.selectedFile == Some(node)
    ensures r.pendingNavigation != s.pendingNavigation ==> s.isDirty && r.pendingNavigation == Some(node)
    ensures r.pendingAction == s.pendingAction
  {
    if node.kind != File then s
    else if s.isDirty then s.(pendingNavigation := Some(node))
    else Loaded(s, node, read, now)
  }

  /** confirmNavigation and cancelNavigation (App.tsx:808-817). */
  function NavigationConfirmed(s: ManagerState, read: Result<string>, now: int): (r: ManagerState)
    ensures r.pendingNavigation.None? && r.pendingAction == s.pendingAction
    ensures s.pendingNavigation.None? ==> r == s
    ensures s.pendingNavigation.Some? && read.Ok? ==>
      r.fs.selectedFile == s.pendingNavigation && r.fs.fileContent == read.value && !r.isDirty
  {
    if s.pendingNavigation.None? then s
    else Loaded(s, s.pendingNavigation.value, read, now).(pendingNavigation := None)
  }

  function NavigationCancelled(s: ManagerState): (r: ManagerState)
    ensures r.pendingNavigation.None? && r.(pendingNavigation := s.pendingNavigation) == s
  {
    s.(pendingNavigation := None)
  }

  /** requestAction (App.tsx:819-821). */
  function Requested(s: ManagerState, kind: ActionType, target: string, data: Option<string>): (r: ManagerState)
    ensures r.pendingAction == Some(PendingAction(kind, target, data))
    ensures r.(pendingAction := s.pendingAction) == s
  {
    s.(pendingAction := Some(PendingAction(kind, target, data)))
  }

  /** The call confirmAction makes (App.tsx:829-843): none without a pending
      action or a root, none for a save with no file open, and a save writes
      `data || ''`. */
  function ConfirmRequest(s: ManagerState): (r: Option<FsRequest>)
    ensures r.Some? ==> s.pendingAction.Some? && s.fs.rootHandle.Some?
    ensures r.Some? && r.value.WriteFile? ==>
      s.pendingAction.value.kind == SaveFile && s.fs.selectedFile.Some?
      && r.value.file == s.fs.selectedFile.value.handle
      && r.value.content == DataOrEmpty(s.pendingAction.value.data)
    ensures r.Some? && !r.value.WriteFile? ==>
      s.pendingAction.value.kind != SaveFile
      && r.value == (if s.pendingAction.value.kind == DeleteFile
                     then RemoveEntry(s.fs.rootHandle.value, s.pendingAction.value.target)
                     else MakeFile(s.fs.rootHandle.value, s.pendingAction.value.target))
    ensures r.None? && s.pendingAction.Some? && s.fs.rootHandle.Some? ==>
      s.pendingAction.value.kind == SaveFile && s.fs.selectedFile.None?
  {
    if s.pendingAction.None? || s.fs.rootHandle.None? then None
    else
      var p := s.pendingAction.value;
      match p.kind
      case SaveFile =>
        if s.fs.selectedFile.Some? then Some(WriteFile(s.fs.selectedFile.value.handle, DataOrEmpty(p.data)))
        else None
      case DeleteFile => Some(RemoveEntry(s.fs.rootHandle.value, p.target))
      case CreateFile => Some(MakeFile(s.fs.rootHandle.value, p.target))
  }

  /** `data || ''`. */
  function DataOrEmpty(d: Option<string>): string {
    if d.Some? then d.value else ""
  }

  /** The action a failure entry carries: the pending action's own tag. */
  function FailureAction(t: ActionType): LogAction {
    match t
    case SaveFile => Save
    case DeleteFile => Delete
    case CreateFile => Create
  }

  /** confirmAction (App.tsx:823-851). `outcome` is what the call and the
      re-listing that follows it produced: the new listing, or the thrown
      error rendered with `String(e)`. A save ignores the listing. */
  function Confirmed(s: ManagerState, outcome: Result<seq<FileNode>>, now: int): (r: ManagerState)
    ensures s.pendingAction.None? || s.fs.rootHandle.None? ==> r == s
    ensures s.pendingAction.Some? && s.fs.rootHandle.Some? ==> r.pendingAction.None?
    ensures r.pendingNavigation == s.pendingNavigation
    ensures r.fs.rootHandle == s.fs.rootHandle && r.fs.currentPath == s.fs.currentPath
    ensures r.fs.selectedFile != s.fs.selectedFile ==>
      s.pendingAction.Some? && s.pendingAction.value.kind == DeleteFile && outcome.Ok?
      && r.fs.selectedFile.None?
    ensures r.isDirty != s.isDirty ==>
      s.pendingAction.Some? && s.pendingAction.value.kind == SaveFile && outcome.Ok? && !r.isDirty
    ensures s.pendingAction.Some? && (s.pendingAction.value.kind == SaveFile || outcome.Err?) ==> r.fs == s.fs
    ensures s.pendingAction.Some? && s.fs.rootHandle.Some? && outcome.Ok? ==>
      (s.pendingAction.value.kind == CreateFile ==> r.fs == s.fs.(files := outcome.value))
      && (s.pendingAction.value.kind == DeleteFile ==>
            r.fs == s.fs.(files := outcome.value, selectedFile := None, fileContent := ""))
  {
    if s.pendingAction.None? || s.fs.rootHandle.None? then s
    else
      var p := s.pendingAction.value;
      var granted := AddLog(s, now, PermissionGrant,
        "User authorized " + ActionTypeValue(p.kind) + " on " + p.target, Success);
      var after :=
        if p.kind == SaveFile && granted.fs.selectedFile.None? then granted
        else if outcome.Err? then
          AddLog(granted, now, FailureAction(p.kind),
            "Operation failed on " + p.target + ": " + outcome.message, Failure)
        else
          match p.kind
          case SaveFile =>
            AddLog(granted, now, Modify, "Saved changes to " + p.target, Success).(isDirty := false)
          case DeleteFile =>
            var cleared := granted.(fs := granted.fs.(files := outcome.value, selectedFile := None, fileContent := ""));
            AddLog(cleared, now, Delete, "Deleted " + p.target, Success)
          case CreateFile =>
            AddLog(granted.(fs := granted.fs.(files := outcome.value)), now, Create,
              "Created new file " + p.target, Success);
      after.(pendingAction := None)
  }

  /** cancelAction (App.tsx:853-856): the denial is logged even with no
      action pending, and then reads "undefined". */
  function Denied(s: ManagerState, now: int): (r: ManagerState)
    ensures r.pendingAction.None?
    ensures |r.logs| == |s.logs| + 1 && r.logs[1..] == s.logs
    ensures r.logs[0].action == PermissionDeny && r.logs[0].status == Failure
    ensures r.fs == s.fs && r.isDirty == s.isDirty && r.pendingNavigation == s.pendingNavigation
  {
    var kind := if s.pendingAction.Some? then ActionTypeValue(s.pendingAction.value.kind) else "undefined";
    var target := if s.pendingAction.Some? then s.pendingAction.value.target else "undefined";
    AddLog(s, now, PermissionDeny, "User denied " + kind + " permission for " + target, Failure)
      .(pendingAction := None)
  }

  /** handleCreateFile (App.tsx:858-862): `answer` is what the prompt
      returned; a cancelled or empty answer asks for nothing. */
  function CreateClicked(s: ManagerState, answer: Option<string>): (r: ManagerState)
    ensures s.fs.rootHandle.Some? && answer.Some? && answer.value != "" ==>
      r.pendingAction == Some(PendingAction(CreateFile, answer.value, None))
    ensures s.fs.rootHandle.None? || answer.None? || answer.value == "" ==> r == s
    ensures r.(pendingAction := s.pendingAction) == s
  {
    if s.fs.rootHandle.None? then s
    else if answer.Some? && answer.value != "" then Requested(s, CreateFile, answer.value, None)
    else s
  }

  /** The Save button (App.tsx:937-943), disabled unless there are unsaved
      changes and drawn only while a file is open. */
  function SaveClicked(s: ManagerState): (r: ManagerState)
    ensures s.isDirty && s.fs.selectedFile.Some? ==>
      r.pendingAction == Some(PendingAction(SaveFile, s.fs.selectedFile.value.name, Some(s.fs.fileContent)))
    ensures !s.isDirty || s.fs.selectedFile.None? ==> r == s
    ensures r.(pendingAction := s.pendingAction) == s
  {
    if s.isDirty && s.fs.selectedFile.Some? then
      Requested(s, SaveFile, s.fs.selectedFile.value.name, Some(s.fs.fileContent))
    else s
  }

  /** The delete button on a listing row (App.tsx:897-898). */
  function DeleteClicked(s: ManagerState, node: FileNode): (r: ManagerState)
    ensures r.pendingAction == Some(PendingAction(DeleteFile, node.name, None))
    ensures r.(pendingAction := s.pendingAction) == s
  {
    Requested(s, DeleteFile, node.name, None)
  }

  /** Typing in the editor (App.tsx:947-952). */
  function Edit(s: ManagerState, text: string): (r: ManagerState)
    ensures r.isDirty && r.fs.fileContent == text
    ensures r.fs.(fileContent := s.fs.fileContent) == s.fs
    ensures r.(fs := s.fs, isDirty := s.isDirty) == s
  {
    s.(fs := s.fs.(fileContent := text), isDirty := true)
  }

  /** Everything the user can do to the manager, with what the outside
      world answers. */
  datatype Event =
    | OpenDir(picked: Result<Handle>, listing: Result<seq<FileNode>>)
    | ClickFile(node: FileNode, read: Result<string>)
    | ConfirmNav(read: Result<string>)
    | CancelNav
    | ClickCreate(answer: Option<string>)
    | ClickSave
    | ClickDelete(node: FileNode)
    | ConfirmAct(outcome: Result<seq<FileNode>>)
    | CancelAct
    | Type(text: string)

  function Step(s: ManagerState, e: Event, now: int): ManagerState {
    match e
    case OpenDir(picked, listing) => Opened(s, picked, listing, now)
    case ClickFile(node, read) => FileClick(s, node, read, now)
    case ConfirmNav(read) => NavigationConfirmed(s, read, now)
    case CancelNav => NavigationCancelled(s)
    case ClickCreate(answer) => CreateClicked(s, answer)
    case ClickSave => SaveClicked(s)
    case ClickDelete(node) => DeleteClicked(s, node)
    case ConfirmAct(outcome) => Confirmed(s, outcome, now)
    case CancelAct => Denied(s, now)
    case Type(text) => Edit(s, text)
  }

  /** `added` new entries sit in front of the old log, which is unchanged. */
  predicate LogExtends(before: seq<LogEntry>, after: seq<LogEntry>, added: nat) {
    |after| == |before| + added && after[added..] == before
  }

  /** No handler rewrites or drops a log entry: each adds at most two, in
      front. */
  lemma LogIsPrependOnly(s: ManagerState, e: Event, now: int)
    ensures exists added: nat :: added <= 2 && LogExtends(s.logs, Step(s, e, now).logs, added)
  {
    var r := Step(s, e, now);
    var added := |r.logs| - |s.logs|;
    match e
    case OpenDir(picked, listing) =>
      if picked.Ok? && listing.Err? {
        assert LogExtends(s.logs, r.logs, 2);
      } else {
        assert LogExtends(s.logs, r.logs, 1);
      }
    case ClickFile(node, read) =>
      assert LogExtends(s.logs, r.logs, added);
    case ConfirmNav(read) =>
      assert LogExtends(s.logs, r.logs, added);
    case ConfirmAct(outcome) =>
      if s.pendingAction.None? || s.fs.rootHandle.None? {
        assert LogExtends(s.logs, r.logs, 0);
      } else {
        ConfirmLogsGrantFirst(s, outcome, now);
      }
    case CancelAct =>
      assert LogExtends(s.logs, r.logs, 1);
    case CancelNav =>
      assert LogExtends(s.logs, r.logs, 0);
    case ClickCreate(answer) =>
      assert LogExtends(s.logs, r.logs, 0);
    case ClickSave =>
      assert LogExtends(s.logs, r.logs, 0);
    case ClickDelete(node) =>
      assert LogExtends(s.logs, r.logs, 0);
    case Type(text) =>
      assert LogExtends(s.logs, r.logs, 0);
  }

  /** Clicking a file while there are unsaved changes only records it as
      the pending navigation; nothing is read and nothing is logged. */
  lemma DirtyClickOnlyDefers(s: ManagerState, node: FileNode, read: Result<string>, now: int)
    requires node.kind == File && s.isDirty
    ensures FileClick(s, node, read, now) == s.(pendingNavigation := Some(node))
  {
  }

  /** With no unsaved changes, a file click loads the file; a successful
      read selects it, shows its content and leaves no unsaved changes, a
      failed one changes nothing but the log. */
  lemma CleanClickLoads(s: ManagerState, node: FileNode, read: Result<string>, now: int)
    requires node.kind == File && !s.isDirty
    ensures read.Ok? ==> var r := FileClick(s, node, read, now);
      r.fs.selectedFile == Some(node) && r.fs.fileContent == read.value && !r.isDirty
      && r.pendingAction == s.pendingAction && r.pendingNavigation == s.pendingNavigation
    ensures read.Err? ==> FileClick(s, node, read, now).(logs := s.logs) == s
  {
  }

  /** Discarding changes loads the deferred file and clears the deferral,
      whatever the read returns. */
  lemma ConfirmNavigationLoads(s: ManagerState, read: Result<string>, now: int)
    requires s.pendingNavigation.Some?
    ensures NavigationConfirmed(s, read, now).pendingNavigation.None?
    ensures read.Ok? ==> var r := NavigationConfirmed(s, read, now);
      r.fs.selectedFile == s.pendingNavigation && !r.isDirty && r.fs.fileContent == read.value
    ensures read.Err? ==> NavigationConfirmed(s, read, now).isDirty == s.isDirty
  {
  }

  /** confirmAction with an action pending and a root open always ends
      with no action pending. Without either it changes nothing at all, so
      an action pending without a root stays pending. */
  lemma ConfirmClearsPending(s: ManagerState, outcome: Result<seq<FileNode>>, now: int)
    ensures s.pendingAction.Some? && s.fs.rootHandle.Some? ==>
      Confirmed(s, outcome, now).pendingAction.None?
    ensures s.pendingAction.None? || s.fs.rootHandle.None? ==> Confirmed(s, outcome, now) == s
  {
  }

  /** The grant is logged before the operation's own entry: the log gains
      the grant and then, unless a save had no file to write, one entry for
      the operation whose status says whether it succeeded. */
  lemma ConfirmLogsGrantFirst(s: ManagerState, outcome: Result<seq<FileNode>>, now: int)
    requires s.pendingAction.Some? && s.fs.rootHandle.Some?
    ensures var r := Confirmed(s, outcome, now);
      var p := s.pendingAction.value;
      var attempted := ConfirmRequest(s).Some?;
      var added := if attempted then 2 else 1;
      LogExtends(s.logs, r.logs, added)
      && r.logs[added - 1].action == PermissionGrant && r.logs[added - 1].status == Success
      && (attempted ==> r.logs[0].status == (if outcome.Ok? then Success else Failure))
      && (attempted && outcome.Err? ==> r.logs[0].action == FailureAction(p.kind))
      && (attempted && outcome.Ok? ==>
            r.logs[0].action == (match p.kind case SaveFile => Modify case DeleteFile => Delete
                                              case CreateFile => Create))
  {
    var r := Confirmed(s, outcome, now);
    var p := s.pendingAction.value;
    var grant := LogEntry(DecimalString(now), now, PermissionGrant,
      "User authorized " + ActionTypeValue(p.kind) + " on " + p.target, Success);
    if ConfirmRequest(s).Some? {
      assert r.logs[1..] == [grant] + s.logs;
      assert r.logs[2..] == s.logs;
    } else {
      assert r.logs == [grant] + s.logs;
    }
  }

  /** A successful save leaves no unsaved changes; a failed operation
      leaves the flag and the file-system state as they were. */
  lemma ConfirmSaveClearsDirty(s: ManagerState, outcome: Result<seq<FileNode>>, now: int)
    requires s.pendingAction.Some? && s.fs.rootHandle.Some?
    ensures s.pendingAction.value.kind == SaveFile && s.fs.selectedFile.Some? && outcome.Ok? ==>
      !Confirmed(s, outcome, now).isDirty
    ensures outcome.Err? ==>
      Confirmed(s, outcome, now).isDirty == s.isDirty && Confirmed(s, outcome, now).fs == s.fs
  {
  }

  /** Deleting closes the open file and shows the new listing, but keeps
      the unsaved-changes flag as it was. */
  lemma ConfirmDeleteKeepsDirty(s: ManagerState, listing: seq<FileNode>, now: int)
    requires s.pendingAction.Some? && s.pendingAction.value.kind == DeleteFile && s.fs.rootHandle.Some?
    ensures var r := Confirmed(s, Ok(listing), now);
      r.fs.selectedFile.None? && r.fs.fileContent == "" && r.fs.files == listing
      && r.isDirty == s.isDirty
  {
  }

  /** Denying always clears the pending action and logs one failure. */
  lemma CancelClearsPending(s: ManagerState, now: int)
    ensures var r := Denied(s, now);
      r.pendingAction.None? && LogExtends(s.logs, r.logs, 1)
      && r.logs[0].action == PermissionDeny && r.logs[0].status == Failure
      && r.(logs := s.logs, pendingAction := s.pendingAction) == s
  {
    var r := Denied(s, now);
    assert r.logs[1..] == s.logs;
  }

  /** Save asks for permission only with unsaved changes, and then for the
      open file and the content in the editor. */
  lemma SaveRequestsOpenFile(s: ManagerState)
    ensures SaveClicked(s).pendingAction != s.pendingAction ==>
      s.isDirty && s.fs.selectedFile.Some?
      && SaveClicked(s).pendingAction
         == Some(PendingAction(SaveFile, s.fs.selectedFile.value.name, Some(s.fs.fileContent)))
    ensures !s.isDirty ==> SaveClicked(s) == s
  {
  }

  /** The component's state (App.tsx:753-756) and the lifted
      file-system state it is handed (App.tsx:1160-1166). */
  class Manager {
    var logs: seq<LogEntry>
    var isDirty: bool
    var pendingAction: Option<PendingAction>
    var pendingNavigation: Option<FileNode>
    var fs: FileSystemState

    function State(): ManagerState
      reads this
    {
      ManagerState(logs, isDirty, pendingAction, pendingNavigation, fs)
    }

    constructor()
      ensures State() == Initial
    {
      logs := [];
      isDirty := false;
      pendingAction := None;
      pendingNavigation := None;
      fs := InitialFs;
    }

    method Become(t: ManagerState)
      modifies this
      ensures State() == t
    {
      logs := t.logs;
      isDirty := t.isDirty;
      pendingAction := t.pendingAction;
      pendingNavigation := t.pendingNavigation;
      fs := t.fs;
    }

    /** addLog: the entry is prepended. */
    method AddLogEntry(now: int, action: LogAction, details: string, status: LogStatus)
      modifies this
      ensures logs == [LogEntry(DecimalString(now), now, action, details, status)] + old(logs)
      ensures State().(logs := old(logs)) == old(State())
    {
      logs := [LogEntry(DecimalString(now), now, action, details, status)] + logs;
    }

    method OpenDirectory(picked: Result<Handle>, listing: Result<seq<FileNode>>, now: int)
      modifies this
      ensures State() == Opened(old(State()), picked, listing, now)
    {
      if picked.Err? {
        AddLogEntry(now, Read, "Failed to open directory picker", Failure);
      } else {
        var h := picked.value;
        AddLogEntry(now, Read, "Opened directory handle: " + h.name, Success);
        if listing.Err? {
          AddLogEntry(now, Read, "Failed to open directory picker", Failure);
        } else {
          fs := fs.(rootHandle := Some(h), files := listing.value, currentPath := h.name);
        }
      }
    }

    method LoadFile(node: FileNode, read: Result<string>, now: int)
      modifies this
      ensures State() == Loaded(old(State()), node, read, now)
    {
      if read.Ok? {
        AddLogEntry(now, Read, "Read file: " + node.name, Success);
        fs := fs.(selectedFile := Some(node), fileContent := read.value);
        isDirty := false;
      } else {
        AddLogEntry(now, Read, "Failed to read " + node.name, Failure);
      }
    }

    method HandleFileClick(node: FileNode, read: Result<string>, now: int)
      modifies this
      ensures State() == FileClick(old(State()), node, read, now)
    {
      if node.kind == File {
        if isDirty {
          pendingNavigation := Some(node);
        } else {
          LoadFile(node, read, now);
        }
      }
    }

    method ConfirmNavigation(read: Result<string>, now: int)
      modifies this
      ensures State() == NavigationConfirmed(old(State()), read, now)
    {
      if pendingNavigation.Some? {
        LoadFile(pendingNavigation.value, read, now);
        pendingNavigation := None;
      }
    }

    method CancelNavigation()
      modifies this
      ensures State() == NavigationCancelled(old(State()))
    {
      pendingNavigation := None;
    }

    method RequestAction(kind: ActionType, target: string, data: Option<string>)
      modifies this
      ensures State() == Requested(old(State()), kind, target, data)
    {
      pendingAction := Some(PendingAction(kind, target, data));
    }

    /** confirmAction; returns the file-system call it makes, if any. */
    method ConfirmAction(outcome: Result<seq<FileNode>>, now: int) returns (call: Option<FsRequest>)
      modifies this
      ensures call == ConfirmRequest(old(State()))
      ensures State() == Confirmed(old(State()), outcome, now)
    {
      call := ConfirmRequest(State());
      Become(Confirmed(State(), outcome, now));
    }

    method CancelAction(now: int)
      modifies this
      ensures State() == Denied(old(State()), now)
    {
      Become(Denied(State(), now));
    }

    method HandleCreateFile(answer: Option<string>)
      modifies this
      ensures State() == CreateClicked(old(State()), answer)
    {
      if fs.rootHandle.None? {
        return;
      }
      if answer.Some? && answer.value != "" {
        RequestAction(CreateFile, answer.value, None);
      }
    }

    method HandleSaveClick()
      modifies this
      ensures State() == SaveClicked(old(State()))
    {
      if isDirty && fs.selectedFile.Some? {
        RequestAction(SaveFile, fs.selectedFile.value.name, Some(fs.fileContent));
      }
    }

    method HandleDeleteClick(node: FileNode)
      modifies this
      ensures State() == DeleteClicked(old(State()), node)
    {
      RequestAction(DeleteFile, node.name, None);
    }

    method EditContent(text: string)
      modifies this
      ensures State() == Edit(old(State()), text)
    {
      fs := fs.(fileContent := text);
      isDirty := true;
    }
  }
}
