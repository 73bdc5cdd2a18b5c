/** The file-selector modal (App.tsx:661-689): a stack of breadcrumbs
    walked in step with a path string that always ends in '/'. */
module FileSelector {

  import opened Types
  import opened Text

  /** A breadcrumb: the directory left behind, by name and handle. */
  datatype Crumb = Crumb(name: string, handle: Handle)

  predicate EndsWithSlash(path: string) {
    |path| >= 1 && path[|path| - 1] == '/'
  }

  /** The path after entering directory `name` (App.tsx:677). */
  function NavigatePath(path: string, name: string): (r: string)
    ensures EndsWithSlash(r)
    ensures |r| == |path| + |name| + 1 && r[..|path|] == path && r[|path|..|r| - 1] == name
  {
    path + name + "/"
  }

  /** The path after Back (App.tsx:686): split at '/', drop the last two
      segments (the trailing empty one and the current directory), rejoin
      and end with '/'. */
  function BackPath(path: string): (r: string)
    ensures EndsWithSlash(r)
  {
    Join(DropLastTwo(Split(path, '/')), '/') + "/"
  }

  /** Entering a directory whose name has no '/' and going back restores
      the path. */
  lemma BackAfterNavigate(path: string, name: string)
    requires EndsWithSlash(path)
    requires '/' !in name
    ensures BackPath(NavigatePath(path, name)) == path
  {
    var front := path[..|path| - 1];
    assert path == front + ['/'];
    var p := NavigatePath(path, name);
    assert p == front + ['/'] + (name + ['/'] + "");
    SplitConcat(front, name + ['/'] + "", '/');
    SplitConcat(name, "", '/');
    SplitNoSeparator(name, '/');
    var parts := Split(front, '/') + [name] + [""];
    assert Split(p, '/') == parts;
    assert DropLastTwo(parts) == Split(front, '/');
    JoinSplit(front, '/');
  }

  /** Entering a directory adds one path segment; Back removes one from
      any path deeper than "/". */
  lemma SegmentsAfterNavigate(path: string, name: string)
    requires EndsWithSlash(path)
    requires '/' !in name
    ensures |Split(NavigatePath(path, name), '/')| == |Split(path, '/')| + 1
  {
    var front := path[..|path| - 1];
    assert path == front + ['/'] + "";
    SplitConcat(front, "", '/');
    assert NavigatePath(path, name) == front + ['/'] + (name + ['/'] + "");
    SplitConcat(front, name + ['/'] + "", '/');
    SplitConcat(name, "", '/');
    SplitNoSeparator(name, '/');
  }

  lemma {:induction false} SegmentsAfterBack(path: string)
    requires |Split(path, '/')| >= 3
    ensures |Split(BackPath(path), '/')| == |Split(path, '/')| - 1
  {
    var kept := DropLastTwo(Split(path, '/'));
    assert |kept| >= 1;
    assert forall k :: 0 <= k < |kept| ==> '/' !in kept[k] by {
      SplitSegmentsLackSeparator(path, '/');
      assert forall k :: 0 <= k < |kept| ==> kept[k] == Split(path, '/')[k];
    }
    SplitJoin(kept, '/');
    assert BackPath(path) == Join(kept, '/') + ['/'] + "";
    SplitConcat(Join(kept, '/'), "", '/');
  }

  /** The selector's state (App.tsx:662-665). */
  class Selector {
    var currentPath: string
    var currentHandle: Option<Handle>
    var files: seq<FileNode>
    var breadcrumbs: seq<Crumb>

    /** The path shows one segment per breadcrumb, between the leading and
        the trailing '/'. */
    predicate Valid()
      reads this
    {
      EndsWithSlash(currentPath) && |Split(currentPath, '/')| == |breadcrumbs| + 2
    }

    constructor(rootHandle: Option<Handle>)
      ensures currentPath == "/" && currentHandle == rootHandle
      ensures files == [] && breadcrumbs == []
      ensures Valid()
    {
      currentPath := "/";
      currentHandle := rootHandle;
      files := [];
      breadcrumbs := [];
      new;
      assert Split("/", '/') == ["", ""] by {
        assert "/"[1..] == "";
      }
    }

    /** The listing read for the current handle arrives (App.tsx:667-671). */
    method ShowListing(entries: seq<FileNode>)
      modifies this
      ensures files == entries
      ensures currentPath == old(currentPath) && currentHandle == old(currentHandle)
      ensures breadcrumbs == old(breadcrumbs)
    {
      files := entries;
    }

    /** handleNavigate (App.tsx:673-679): only a directory, and only while a
        current handle is set, is entered. */
    method Navigate(dir: FileNode)
      modifies this
      ensures dir.kind == Directory && old(currentHandle).Some? ==>
        breadcrumbs == old(breadcrumbs) + [Crumb(old(currentHandle).value.name, old(currentHandle).value)]
        && currentHandle == Some(dir.handle)
        && currentPath == NavigatePath(old(currentPath), dir.name)
      ensures !(dir.kind == Directory && old(currentHandle).Some?) ==>
        breadcrumbs == old(breadcrumbs) && currentHandle == old(currentHandle)
        && currentPath == old(currentPath)
      ensures files == old(files)
      ensures old(Valid()) && '/' !in dir.name ==> Valid()
    {
      if dir.kind == Directory && currentHandle.Some? {
        ghost var wasValid := Valid();
        breadcrumbs := breadcrumbs + [Crumb(currentHandle.value.name, currentHandle.value)];
        currentHandle := Some(dir.handle);
        if wasValid && '/' !in dir.name {
          SegmentsAfterNavigate(currentPath, dir.name);
        }
        currentPath := NavigatePath(currentPath, dir.name);
      }
    }

    /** handleBack (App.tsx:681-689): pops the last breadcrumb and returns
        to its handle; with no breadcrumb nothing changes. */
    method Back()
      modifies this
      ensures old(breadcrumbs) == [] ==>
        breadcrumbs == [] && currentHandle == old(currentHandle) && currentPath == old(currentPath)
      ensures old(breadcrumbs) != [] ==>
        breadcrumbs == old(breadcrumbs)[..|old(breadcrumbs)| - 1]
        && currentHandle == Some(old(breadcrumbs)[|old(breadcrumbs)| - 1].handle)
        && currentPath == BackPath(old(currentPath))
      ensures files == old(files)
      ensures old(Valid()) ==> Valid()
    {
      if breadcrumbs != [] {
        var last := breadcrumbs[|breadcrumbs| - 1];
        if Valid() {
          SegmentsAfterBack(currentPath);
        }
        breadcrumbs := breadcrumbs[..|breadcrumbs| - 1];
        currentHandle := Some(last.handle);
        currentPath := BackPath(currentPath);
      }
    }
  }

  /** Entering a directory and going straight back leaves the selector
      where it was: same path, same handle, same breadcrumbs. */
  method NavigateThenBack(s: Selector, dir: FileNode)
    requires s.Valid()
    requires dir.kind == Directory && s.currentHandle.Some?
    requires '/' !in dir.name
    modifies s
    ensures s.currentPath == old(s.currentPath) && s.currentHandle == old(s.currentHandle)
    ensures s.breadcrumbs == old(s.breadcrumbs) && s.files == old(s.files)
    ensures s.Valid()
  {
    ghost var crumbs := s.breadcrumbs;
    s.Navigate(dir);
    assert s.breadcrumbs[..|s.breadcrumbs| - 1] == crumbs;
    s.Back();
    BackAfterNavigate(old(s.currentPath), dir.name);
  }
}
