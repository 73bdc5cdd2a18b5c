/** readDirectory (services/fileService.ts:7-24): one node per directory
    entry, then directories before files and names in order within each
    kind. `localeCompare` is an abstract total preorder on names; the
    directory handle's iteration is the sequence of its entries. */
module FileService {

  import opened Types

  /** `le(x, y)`: `x.localeCompare(y) <= 0`. */
  ghost predicate TotalPreorder(le: (string, string) -> bool) {
    (forall x, y :: le(x, y) || le(y, x))
    && (forall x, y, z :: le(x, y) && le(y, z) ==> le(x, z))
  }

  /** The comparator (services/fileService.ts:20-23) as "`a` may come
      before `b`": same kind by name, otherwise the directory first. */
  predicate Before(le: (string, string) -> bool, a: FileNode, b: FileNode) {
    if a.kind == b.kind then le(a.name, b.name) else a.kind == Directory
  }

  /** The comparator orders any two nodes and is transitive. */
  lemma BeforeIsTotalPreorder(le: (string, string) -> bool, a: FileNode, b: FileNode, c: FileNode)
    requires TotalPreorder(le)
    ensures Before(le, a, b) || Before(le, b, a)
    ensures Before(le, a, b) && Before(le, b, c) ==> Before(le, a, c)
  {
  }

  predicate Sorted(le: (string, string) -> bool, s: seq<FileNode>) {
    forall i, j :: 0 <= i < j < |s| ==> Before(le, s[i], s[j])
  }

  /** The node pushed for one entry (services/fileService.ts:11-16). */
  function NodeFor(entry: Handle, path: string): FileNode {
    FileNode(entry.name, entry.kind, entry, path + "/" + entry.name, None)
  }

  /** readDirectory(dirHandle, path): `listing` is what iterating the
      handle yields. */
  method ReadDirectory(le: (string, string) -> bool, listing: seq<Handle>, path: string)
    returns (r: seq<FileNode>)
    requires TotalPreorder(le)
    ensures |r| == |listing|
    ensures multiset(r) == multiset(seq(|listing|, k requires 0 <= k < |listing| => NodeFor(listing[k], path)))
    ensures forall k :: 0 <= k < |r| ==>
      r[k].name == r[k].handle.name && r[k].kind == r[k].handle.kind
      && r[k].path == path + "/" + r[k].name && r[k].children.None?
    ensures forall i, j :: 0 <= i < j < |r| && r[j].kind == Directory ==> r[i].kind == Directory
    ensures forall i, j :: 0 <= i < j < |r| && r[i].kind == r[j].kind ==> le(r[i].name, r[j].name)
  {
    var entries: seq<FileNode> := [];
    for i := 0 to |listing|
      invariant entries == seq(i, k requires 0 <= k < i => NodeFor(listing[k], path))
    {
      entries := entries + [NodeFor(listing[i], path)];
    }
    var a := new FileNode[|entries|](k requires 0 <= k < |entries| => entries[k]);
    assert a[..] == entries;
    SortEntries(le, a);
    r := a[..];
    forall k | 0 <= k < |r|
      ensures r[k].name == r[k].handle.name && r[k].kind == r[k].handle.kind
      ensures r[k].path == path + "/" + r[k].name && r[k].children.None?
    {
      assert r[k] in multiset(entries);
    }
  }

  /** The first `n` cells of `a` are in order. */
  ghost predicate SortedUpTo(le: (string, string) -> bool, a: array<FileNode>, n: int)
    reads a
    requires 0 <= n <= a.Length
  {
    forall k, l :: 0 <= k < l < n ==> Before(le, a[k], a[l])
  }

  /** `entries.sort(comparator)`, in place: each cell in turn is moved left
      past the cells that must come after it. */
  method SortEntries(le: (string, string) -> bool, a: array<FileNode>)
    requires TotalPreorder(le)
    modifies a
    ensures Sorted(le, a[..])
    ensures multiset(a[..]) == multiset(old(a[..]))
  {
    if a.Length == 0 {
      return;
    }
    for i := 1 to a.Length
      invariant SortedUpTo(le, a, i)
      invariant multiset(a[..]) == multiset(old(a[..]))
    {
      Insert(le, a, i);
    }
    assert SortedUpTo(le, a, a.Length);
  }

  /** One insertion step: cells `0..i` in order, then `0..i+1`. */
  method Insert(le: (string, string) -> bool, a: array<FileNode>, i: int)
    requires TotalPreorder(le)
    requires 1 <= i < a.Length && SortedUpTo(le, a, i)
    modifies a
    ensures SortedUpTo(le, a, i + 1)
    ensures multiset(a[..]) == multiset(old(a[..]))
  {
    var j := i;
    while j > 0 && !Before(le, a[j - 1], a[j])
      invariant 0 <= j <= i
      invariant forall k, l :: 0 <= k < l <= i && k != j && l != j ==> Before(le, a[k], a[l])
      invariant forall l :: j < l <= i ==> Before(le, a[j], a[l])
      invariant multiset(a[..]) == multiset(old(a[..]))
    {
      BeforeIsTotalPreorder(le, a[j - 1], a[j], a[j]);
      Swap(a, j);
      j := j - 1;
    }
    forall k, l | 0 <= k < l <= i
      ensures Before(le, a[k], a[l])
    {
      if l == j && k < j {
        BeforeIsTotalPreorder(le, a[k], a[j - 1], a[j]);
      }
    }
  }

  /** Exchange cells `j - 1` and `j`. */
  method Swap(a: array<FileNode>, j: int)
    requires 1 <= j < a.Length
    modifies a
    ensures a[j - 1] == old(a[j]) && a[j] == old(a[j - 1])
    ensures forall k :: 0 <= k < a.Length && k != j - 1 && k != j ==> a[k] == old(a[k])
    ensures multiset(a[..]) == multiset(old(a[..]))
  {
    a[j - 1], a[j] := a[j], a[j - 1];
  }
}
