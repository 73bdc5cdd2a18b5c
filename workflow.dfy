/** The workflow builder's canvas (App.tsx:118-318): a node list, an edge
    list, the selected node and a drag gesture with grid snapping, plus the
    edge geometry the canvas draws. */
module Workflow {
  import opened Types
  import opened Text

  const GridSize: int := 20

  /** `Math.round(n / 20) * 20` for an integer `n`: the multiple of 20
      nearest to `n`, halves rounding up. */
  function Snap(n: int): (r: int)
    ensures r % GridSize == 0
    ensures n - 10 < r <= n + 10
  {
    GridSize * ((n + 10) / GridSize)
  }

  /** The window `(n - 10, n + 10]` holds exactly one multiple of 20, so
      `Snap` is determined by its contract. */
  lemma SnapIsUnique(n: int, m: int)
    requires m % GridSize == 0 && n - 10 < m <= n + 10
    ensures m == Snap(n)
  {
    var r := Snap(n);
    assert (m - r) % GridSize == 0 && -20 < m - r < 20;
  }

  lemma SnapOnGrid(n: int)
    requires n % GridSize == 0
    ensures Snap(n) == n
  {
    SnapIsUnique(n, n);
  }

  predicate HasNode(nodes: seq<WorkflowNode>, id: string) {
    exists k :: 0 <= k < |nodes| && nodes[k].id == id
  }

  predicate UniqueNodeIds(nodes: seq<WorkflowNode>) {
    forall i, j :: 0 <= i < j < |nodes| ==> nodes[i].id != nodes[j].id
  }

  /** The index of the first node with that id. */
  function FindIndex(nodes: seq<WorkflowNode>, id: string): (r: Option<nat>)
    ensures r.Some? ==> r.value < |nodes| && nodes[r.value].id == id
    ensures r.Some? ==> forall j :: 0 <= j < r.value ==> nodes[j].id != id
    ensures r.None? ==> forall k :: 0 <= k < |nodes| ==> nodes[k].id != id
  {
    if nodes == [] then None
    else if nodes[0].id == id then Some(0)
    else match FindIndex(nodes[1..], id)
      case Some(k) => Some(k + 1)
      case None => None
  }

  /** `nodes.find(n => n.id === id)`: the first node with that id. */
  function FindNode(nodes: seq<WorkflowNode>, id: string): (r: Option<WorkflowNode>)
    ensures r.Some? <==> HasNode(nodes, id)
    ensures r.Some? ==> r.value.id == id && r.value in nodes
  {
    match FindIndex(nodes, id)
    case Some(k) => Some(nodes[k])
    case None => None
  }

  /** The node list after one drag step (App.tsx:149-151): every node
      carrying the dragged id moves to `p`; nothing else about any node,
      nor the order of the list, changes. */
  function MoveNode(nodes: seq<WorkflowNode>, id: string, p: Point): (r: seq<WorkflowNode>)
    ensures |r| == |nodes|
    ensures forall k :: 0 <= k < |nodes| ==>
      && r[k].id == nodes[k].id
      && r[k].nodeType == nodes[k].nodeType
      && r[k].data == nodes[k].data
      && r[k].position == (if nodes[k].id == id then p else nodes[k].position)
  {
    if nodes == [] then []
    else
      var n := nodes[0];
      [if n.id == id then n.(position := p) else n] + MoveNode(nodes[1..], id, p)
  }

  /** Moving nodes never adds or removes an id. */
  lemma MoveNodeKeepsIds(nodes: seq<WorkflowNode>, id: string, p: Point, other: string)
    ensures HasNode(MoveNode(nodes, id, p), other) <==> HasNode(nodes, other)
  {
    var r := MoveNode(nodes, id, p);
    if HasNode(nodes, other) {
      var k :| 0 <= k < |nodes| && nodes[k].id == other;
      assert r[k].id == other;
    }
    if HasNode(r, other) {
      var k :| 0 <= k < |r| && r[k].id == other;
      assert nodes[k].id == other;
    }
  }

  /** Where a drag step puts the node: pointer minus offset, snapped. */
  function DragTarget(pointer: Point, offset: Point): Point {
    Point(Snap(pointer.x - offset.x), Snap(pointer.y - offset.y))
  }

  /** With unique ids, pressing on a node that sits on the grid and then
      moving without leaving the press point leaves every node in place. */
  lemma {:induction false} MoveAtPressPointIsIdentity(nodes: seq<WorkflowNode>, id: string, press: Point)
    requires UniqueNodeIds(nodes)
    requires FindNode(nodes, id).Some?
    requires FindNode(nodes, id).value.position.x % GridSize == 0
    requires FindNode(nodes, id).value.position.y % GridSize == 0
    ensures var n := FindNode(nodes, id).value;
            MoveNode(nodes, id, DragTarget(press, Point(press.x - n.position.x, press.y - n.position.y))) == nodes
  {
    var n := FindNode(nodes, id).value;
    var target := DragTarget(press, Point(press.x - n.position.x, press.y - n.position.y));
    SnapOnGrid(n.position.x);
    SnapOnGrid(n.position.y);
    assert target == n.position;
    var r := MoveNode(nodes, id, target);
    forall k | 0 <= k < |nodes| ensures r[k] == nodes[k] {
      if nodes[k].id == id {
        assert FindIndex(nodes, id).Some? && nodes[FindIndex(nodes, id).value] == n;
        assert k == FindIndex(nodes, id).value;
      }
    }
  }

  /** The fixed geometry of a drawn edge (App.tsx:233-241). */
  const NodeWidth: int := 180
  const HandleHeight: int := 40
  const Tangent: int := 50

  datatype Curve = Curve(start: Point, control1: Point, control2: Point, end: Point)

  /** The curve from a source node at `src` to a target node at `tgt`. */
  function CurveBetween(src: Point, tgt: Point): (c: Curve)
    ensures c.start == Point(src.x + NodeWidth, src.y + HandleHeight)
    ensures c.end == Point(tgt.x, tgt.y + HandleHeight)
    ensures c.control1.y == c.start.y && c.control1.x - c.start.x == Tangent
    ensures c.control2.y == c.end.y && c.end.x - c.control2.x == Tangent
  {
    var start := Point(src.x + NodeWidth, src.y + HandleHeight);
    var end := Point(tgt.x, tgt.y + HandleHeight);
    Curve(start, Point(start.x + Tangent, start.y), Point(end.x - Tangent, end.y), end)
  }

  /** The curve drawn for an edge, or nothing when an endpoint is missing
      (App.tsx:229-241). */
  function EdgeCurve(nodes: seq<WorkflowNode>, e: WorkflowEdge): (r: Option<Curve>)
    ensures r.Some? <==> HasNode(nodes, e.source) && HasNode(nodes, e.target)
  {
    var src := FindNode(nodes, e.source);
    var tgt := FindNode(nodes, e.target);
    if src.Some? && tgt.Some? then Some(CurveBetween(src.value.position, tgt.value.position))
    else None
  }

  /** A drawn curve leaves the source's right side and enters the target's
      left side, both at height 40, with horizontal tangents of length 50. */
  lemma EdgeCurveShape(nodes: seq<WorkflowNode>, e: WorkflowEdge)
    requires HasNode(nodes, e.source) && HasNode(nodes, e.target)
    ensures var c := EdgeCurve(nodes, e).value;
            var src := FindNode(nodes, e.source).value;
            var tgt := FindNode(nodes, e.target).value;
            && c.start == Point(src.position.x + 180, src.position.y + 40)
            && c.end == Point(tgt.position.x, tgt.position.y + 40)
            && c.control1 == Point(c.start.x + 50, c.start.y)
            && c.control2 == Point(c.end.x - 50, c.end.y)
  {
  }

  /** Dragging one node only reshapes the edges attached to it: an edge
      between two other nodes keeps its curve, and an edge leaving the
      dragged node now starts at its new right-hand handle. */
  lemma EdgeCurveAfterMove(nodes: seq<WorkflowNode>, id: string, p: Point, e: WorkflowEdge)
    ensures e.source != id && e.target != id ==>
      EdgeCurve(MoveNode(nodes, id, p), e) == EdgeCurve(nodes, e)
    ensures e.source == id && HasNode(nodes, id) && HasNode(nodes, e.target) ==>
      EdgeCurve(MoveNode(nodes, id, p), e).value.start == Point(p.x + 180, p.y + 40)
  {
    var moved := MoveNode(nodes, id, p);
    FindAfterMove(nodes, id, p, e.source);
    FindAfterMove(nodes, id, p, e.target);
    MoveNodeKeepsIds(nodes, id, p, e.source);
    MoveNodeKeepsIds(nodes, id, p, e.target);
  }

  /** Two node lists with the same ids, position by position, find the same index. */
  lemma {:induction false} FindIndexSameIds(a: seq<WorkflowNode>, b: seq<WorkflowNode>, id: string)
    requires |a| == |b| && forall k :: 0 <= k < |a| ==> a[k].id == b[k].id
    ensures FindIndex(a, id) == FindIndex(b, id)
  {
    if a != [] && a[0].id != id {
      FindIndexSameIds(a[1..], b[1..], id);
    }
  }

  lemma FindAfterMove(nodes: seq<WorkflowNode>, id: string, p: Point, other: string)
    ensures other != id ==> FindNode(MoveNode(nodes, id, p), other) == FindNode(nodes, other)
    ensures other == id && HasNode(nodes, id) ==>
      FindNode(MoveNode(nodes, id, p), other) == Some(FindNode(nodes, other).value.(position := p))
  {
    FindIndexSameIds(MoveNode(nodes, id, p), nodes, other);
  }

  /** The curves the canvas draws: one per edge whose endpoints both exist,
      in edge order. */
  function RenderedEdges(nodes: seq<WorkflowNode>, edges: seq<WorkflowEdge>): (r: seq<Curve>)
    ensures |r| <= |edges|
    ensures (forall k :: 0 <= k < |edges| ==> EdgeCurve(nodes, edges[k]).Some?) ==> |r| == |edges|
  {
    if edges == [] then []
    else
      var rest := RenderedEdges(nodes, edges[1..]);
      match EdgeCurve(nodes, edges[0])
      case Some(c) => [c] + rest
      case None => rest
  }

  /** Every drawn curve is the curve of some edge. */
  lemma {:induction false} RenderedEdgesSound(nodes: seq<WorkflowNode>, edges: seq<WorkflowEdge>, c: Curve)
    requires c in RenderedEdges(nodes, edges)
    ensures exists k :: 0 <= k < |edges| && EdgeCurve(nodes, edges[k]) == Some(c)
  {
    var rest := RenderedEdges(nodes, edges[1..]);
    if EdgeCurve(nodes, edges[0]) == Some(c) {
      assert EdgeCurve(nodes, edges[0]) == Some(c);
    } else {
      assert c in rest;
      RenderedEdgesSound(nodes, edges[1..], c);
      var k :| 0 <= k < |edges[1..]| && EdgeCurve(nodes, edges[1..][k]) == Some(c);
      assert edges[k + 1] == edges[1..][k];
    }
  }

  /** One edge is drawn exactly when both its endpoints exist. */
  lemma RenderedEdgesOne(nodes: seq<WorkflowNode>, e: WorkflowEdge)
    ensures RenderedEdges(nodes, [e]) ==
      (if EdgeCurve(nodes, e).Some? then [EdgeCurve(nodes, e).value] else [])
  {
    assert [e][1..] == [];
  }

  /** Drawing a list of edges draws each part in turn: the curves keep the
      order of the edges. */
  lemma {:induction false} RenderedEdgesAppend(nodes: seq<WorkflowNode>, a: seq<WorkflowEdge>, b: seq<WorkflowEdge>)
    ensures RenderedEdges(nodes, a + b) == RenderedEdges(nodes, a) + RenderedEdges(nodes, b)
  {
    if a == [] {
      assert a + b == b;
    } else {
      assert (a + b)[0] == a[0];
      assert (a + b)[1..] == a[1..] + b;
      RenderedEdgesAppend(nodes, a[1..], b);
    }
  }

  /** Every edge whose endpoints both exist is drawn. */
  lemma RenderedEdgesComplete(nodes: seq<WorkflowNode>, edges: seq<WorkflowEdge>, k: int)
    requires 0 <= k < |edges| && EdgeCurve(nodes, edges[k]).Some?
    ensures EdgeCurve(nodes, edges[k]).value in RenderedEdges(nodes, edges)
  {
    assert edges == edges[..k] + ([edges[k]] + edges[k + 1..]);
    RenderedEdgesAppend(nodes, edges[..k], [edges[k]] + edges[k + 1..]);
    RenderedEdgesAppend(nodes, [edges[k]], edges[k + 1..]);
    RenderedEdgesOne(nodes, edges[k]);
  }

  /** A new node's label by its tag (App.tsx:161). */
  function NewNodeLabel(t: NodeType): (r: string)
    ensures r in ["Trigger", "Chat Agent", "Image Gen", "File Op"]
    ensures r == "File Op" <==> t !in [Trigger, AgentChat, AgentImage]
  {
    if t == Trigger then "Trigger"
    else if t == AgentChat then "Chat Agent"
    else if t == AgentImage then "Image Gen"
    else "File Op"
  }

  /** The mouse-down record of a drag. */
  datatype DragRecord = DragRecord(id: string, startX: int, startY: int)

  const InitialNodes: seq<WorkflowNode> := [
    WorkflowNode("1", Trigger, Point(100, 100), LabelOnly("On Start")),
    WorkflowNode("2", AgentChat, Point(400, 150), LabelOnly("Summarize"))
  ]

  const InitialEdges: seq<WorkflowEdge> := [WorkflowEdge("e1-2", "1", "2")]

  class WorkflowEditor {
    var nodes: seq<WorkflowNode>
    var edges: seq<WorkflowEdge>
    var selectedNode: Option<string>
    var dragging: Option<DragRecord>
    var dragOffset: Point

    /** Nodes are never removed, so a selection or a drag always refers to
        a node that exists. */
    ghost predicate Valid()
      reads this
    {
      && (selectedNode.Some? ==> HasNode(nodes, selectedNode.value))
      && (dragging.Some? ==> HasNode(nodes, dragging.value.id))
    }

    constructor ()
      ensures Valid()
      ensures nodes == InitialNodes && edges == InitialEdges
      ensures selectedNode.None? && dragging.None? && dragOffset == Point(0, 0)
    {
      nodes := InitialNodes;
      edges := InitialEdges;
      selectedNode := None;
      dragging := None;
      dragOffset := Point(0, 0);
    }

    /** Press on a node (App.tsx:130-138): select it, start a drag and
        record pointer minus position as the offset; an unknown id changes
        nothing. */
    method MouseDown(nodeId: string, clientX: int, clientY: int)
      requires Valid()
      modifies this
      ensures Valid()
      ensures nodes == old(nodes) && edges == old(edges)
      ensures FindNode(nodes, nodeId).None? ==>
        selectedNode == old(selectedNode) && dragging == old(dragging) && dragOffset == old(dragOffset)
      ensures FindNode(nodes, nodeId).Some? ==>
        var n := FindNode(nodes, nodeId).value;
        && selectedNode == Some(nodeId)
        && dragging == Some(DragRecord(nodeId, clientX, clientY))
        && dragOffset == Point(clientX - n.position.x, clientY - n.position.y)
    {
      var found := FindNode(nodes, nodeId);
      if found.Some? {
        var n := found.value;
        selectedNode := Some(nodeId);
        dragging := Some(DragRecord(nodeId, clientX, clientY));
        dragOffset := Point(clientX - n.position.x, clientY - n.position.y);
      }
    }

    /** Pointer move over the canvas (App.tsx:140-153): during a drag the
        dragged node goes to the snapped pointer-minus-offset; otherwise
        nothing changes. */
    method MouseMove(clientX: int, clientY: int)
      requires Valid()
      modifies this
      ensures Valid()
      ensures edges == old(edges) && selectedNode == old(selectedNode)
      ensures dragging == old(dragging) && dragOffset == old(dragOffset)
      ensures dragging.None? ==> nodes == old(nodes)
      ensures dragging.Some? ==>
        nodes == MoveNode(old(nodes), dragging.value.id, DragTarget(Point(clientX, clientY), dragOffset))
    {
      if dragging.Some? {
        var target := DragTarget(Point(clientX, clientY), dragOffset);
        MoveNodeKeepsIds(nodes, dragging.value.id, target, dragging.value.id);
        if selectedNode.Some? {
          MoveNodeKeepsIds(nodes, dragging.value.id, target, selectedNode.value);
        }
        nodes := MoveNode(nodes, dragging.value.id, target);
      }
    }

    /** Releasing the pointer over the canvas always ends the drag
        (App.tsx:155-157). */
    method MouseUp()
      requires Valid()
      modifies this
      ensures Valid()
      ensures dragging.None?
      ensures nodes == old(nodes) && edges == old(edges)
      ensures selectedNode == old(selectedNode) && dragOffset == old(dragOffset)
    {
      dragging := None;
    }

    /** The palette's add button (App.tsx:159-169): append one node at
        (200, 200), labelled by its tag, whose id is the clock reading `now`
        in decimal; the id is not checked for uniqueness. */
    method AddNode(t: NodeType, now: int)
      requires Valid()
      modifies this
      ensures Valid()
      ensures nodes == old(nodes) + [WorkflowNode(DecimalString(now), t, Point(200, 200), LabelOnly(NewNodeLabel(t)))]
      ensures edges == old(edges) && selectedNode == old(selectedNode)
      ensures dragging == old(dragging) && dragOffset == old(dragOffset)
    {
      var added := WorkflowNode(DecimalString(now), t, Point(200, 200), LabelOnly(NewNodeLabel(t)));
      AppendKeepsIds(nodes, added);
      nodes := nodes + [added];
    }

    /** The properties panel's close button (App.tsx:298). */
    method CloseProperties()
      requires Valid()
      modifies this
      ensures Valid()
      ensures selectedNode.None?
      ensures nodes == old(nodes) && edges == old(edges)
      ensures dragging == old(dragging) && dragOffset == old(dragOffset)
    {
      selectedNode := None;
    }

    /** What the canvas draws for the current state (App.tsx:228-252). */
    function Curves(): seq<Curve>
      reads this
    {
      RenderedEdges(nodes, edges)
    }
  }

  lemma AppendKeepsIds(nodes: seq<WorkflowNode>, n: WorkflowNode)
    ensures forall id :: HasNode(nodes, id) ==> HasNode(nodes + [n], id)
    ensures HasNode(nodes + [n], n.id)
  {
    assert (nodes + [n])[|nodes|] == n;
    forall id | HasNode(nodes, id) ensures HasNode(nodes + [n], id) {
      var k :| 0 <= k < |nodes| && nodes[k].id == id;
      assert (nodes + [n])[k] == nodes[k];
    }
  }

  /** A press, then a move at the very press point, targets the node's own
      position snapped to the grid. */
  method PressAndHold(editor: WorkflowEditor, id: string, press: Point)
    requires editor.Valid() && HasNode(editor.nodes, id)
    modifies editor
    ensures editor.Valid()
    ensures var n := FindNode(old(editor.nodes), id).value;
            editor.nodes == MoveNode(old(editor.nodes), id, Point(Snap(n.position.x), Snap(n.position.y)))
    ensures editor.selectedNode == Some(id)
  {
    var n := FindNode(editor.nodes, id).value;
    editor.MouseDown(id, press.x, press.y);
    assert editor.dragOffset == Point(press.x - n.position.x, press.y - n.position.y);
    assert DragTarget(press, editor.dragOffset) == Point(Snap(n.position.x), Snap(n.position.y));
    editor.MouseMove(press.x, press.y);
  }
}
