/** The mind-map graph: the node and edge records the canvas is given, seeding from the
    initial map, the radial placement of a new child and the pure effect of "add to map"
    on nodes, edges and the per-parent child counters (src/components/MindMap.tsx). */
module Graph {
  import opened Js
  import opened Labels

  datatype Position = Position(x: real, y: real)

  /** A node of the initial map as the generator returns it; `data` has any shape. */
  datatype RawNode = RawNode(id: string, position: Position, data: JsValue)

  datatype RawEdge = RawEdge(id: string, source: string, target: string)

  datatype InitialData = InitialData(nodes: seq<RawNode>, edges: seq<RawEdge>)

  /** A canvas node: `caption` is its `data.label` and `nodeType` its `type`, which names
      the node renderer. */
  datatype Node = Node(id: string, position: Position, caption: JsValue, nodeType: string)

  datatype Marker = Marker(kind: string, color: string, width: int, height: int, strokeWidth: int)

  /** A canvas edge with its drawing attributes. */
  datatype Edge = Edge(id: string, source: string, target: string,
                       animated: bool, stroke: string, strokeWidth: int, markerEnd: Marker)

  const CustomNodeType := "custom"
  const EdgeColor := "#1565c0"
  /** `MarkerType.ArrowClosed` of the canvas library is the string "arrowclosed". */
  const ArrowHead := Marker("arrowclosed", EdgeColor, 32, 32, 2)

  /** An edge drawn the way every edge of the map is drawn: animated, stroked in `#1565c0`
      three pixels wide and ending in a closed 32x32 arrow head of that colour. */
  function Decorated(id: string, source: string, target: string): (e: Edge)
    ensures e.id == id && e.source == source && e.target == target
    ensures e.animated && e.stroke == "#1565c0" && e.strokeWidth == 3
    ensures e.markerEnd == Marker("arrowclosed", "#1565c0", 32, 32, 2)
  {
    Edge(id, source, target, true, EdgeColor, 3, ArrowHead)
  }

  // ---------------------------------------------------------------- seeding

  function SeedNode(raw: RawNode): Node {
    Node(raw.id, raw.position, ExtractLabel(raw.data, raw.id), CustomNodeType)
  }

  /** `initialData.nodes.map(...)`: one node per raw node, in order, with the same id and
      position, the extracted label and the custom node type. */
  function SeedNodes(raws: seq<RawNode>): (ns: seq<Node>)
    ensures |ns| == |raws|
    ensures forall i :: 0 <= i < |raws| ==>
      ns[i].id == raws[i].id && ns[i].position == raws[i].position &&
      ns[i].caption == ExtractLabel(raws[i].data, raws[i].id) && ns[i].nodeType == CustomNodeType
  {
    if raws == [] then [] else [SeedNode(raws[0])] + SeedNodes(raws[1..])
  }

  /** `initialData.edges.map(...)`: every raw edge is kept (none is checked against the
      nodes), in order, with its id and endpoints, and gets the common decoration. */
  function SeedEdges(raws: seq<RawEdge>): (es: seq<Edge>)
    ensures |es| == |raws|
    ensures forall i :: 0 <= i < |raws| ==>
      es[i] == Decorated(raws[i].id, raws[i].source, raws[i].target)
  {
    if raws == [] then [] else [Decorated(raws[0].id, raws[0].source, raws[0].target)] + SeedEdges(raws[1..])
  }

  function NodeIds(ns: seq<Node>): seq<string> {
    if ns == [] then [] else [ns[0].id] + NodeIds(ns[1..])
  }

  function RawNodeIds(raws: seq<RawNode>): seq<string> {
    if raws == [] then [] else [raws[0].id] + RawNodeIds(raws[1..])
  }

  /** Seeding keeps the id sequence of the initial map exactly: count, order and ids. */
  lemma {:induction false} SeedKeepsIds(raws: seq<RawNode>)
    ensures NodeIds(SeedNodes(raws)) == RawNodeIds(raws)
  {
    if raws != [] {
      assert SeedNodes(raws)[1..] == SeedNodes(raws[1..]);
      SeedKeepsIds(raws[1..]);
    }
  }

  /** No edge is dropped by seeding, even one whose endpoints name no node. The second
      requires only names that case: seeding never looks at the nodes, so the fact is
      `SeedEdges`' own contract read at index `k`. */
  lemma SeedKeepsDanglingEdges(data: InitialData, k: nat)
    requires k < |data.edges|
    requires forall n :: n in data.nodes ==> n.id != data.edges[k].source && n.id != data.edges[k].target
    ensures SeedEdges(data.edges)[k].source == data.edges[k].source
    ensures SeedEdges(data.edges)[k].target == data.edges[k].target
  {
  }

  // ---------------------------------------------------------------- placement

  /** Children intended per parent (the width of the fan). */
  const MaxChildren: nat := 7
  /** Distance from a parent to each of its children. */
  const Radius: real := 260.0

  /** The angle of the child with slot `count`, divided by pi:
      `pi/2 + (count - (MaxChildren - 1)/2) * pi/(MaxChildren + 1)`. With seven slots this is
      `(count + 1)` eighths of pi; slots 0 to 6 lie strictly between the two horizontal
      directions, and from slot 7 on the angles run past the fan. */
  function AngleOverPi(count: nat): (t: real)
    ensures t == (count + 1) as real / 8.0
    ensures count < MaxChildren ==> 0.0 < t < 1.0
    ensures count >= MaxChildren ==> t >= 1.0
  {
    0.5 + (count as real - (MaxChildren - 1) as real / 2.0) / (MaxChildren + 1) as real
  }

  /** Cosine and sine of pi times the argument, supplied by the caller: the model does not
      evaluate trigonometry. */
  datatype Trig = Trig(cosPi: real -> real, sinPi: real -> real)

  /** `cos(pi - a) == -cos(a)` and `sin(pi - a) == sin(a)`: reflection in the vertical axis. */
  ghost predicate ReflectsVertically(trig: Trig) {
    forall t, u :: t + u == 1.0 ==> trig.cosPi(u) == -trig.cosPi(t) && trig.sinPi(u) == trig.sinPi(t)
  }

  /** `cos(a)^2 + sin(a)^2 == 1` for every angle. */
  ghost predicate Pythagorean(trig: Trig) {
    forall t :: trig.cosPi(t) * trig.cosPi(t) + trig.sinPi(t) * trig.sinPi(t) == 1.0
  }

  /** Where a new child in slot `count` is placed relative to its parent. */
  function ChildPosition(parent: Position, count: nat, trig: Trig): Position {
    var t := AngleOverPi(count);
    Position(parent.x + trig.cosPi(t) * Radius, parent.y + trig.sinPi(t) * Radius)
  }

  /** Whatever the slot, the child is placed `Radius` away from its parent. */
  lemma ChildAtRadius(parent: Position, count: nat, trig: Trig)
    requires Pythagorean(trig)
    ensures var p := ChildPosition(parent, count, trig);
      (p.x - parent.x) * (p.x - parent.x) + (p.y - parent.y) * (p.y - parent.y) == Radius * Radius
  {
    var t := AngleOverPi(count);
    var c, s := trig.cosPi(t), trig.sinPi(t);
    assert c * c + s * s == 1.0;
    assert (c * Radius) * (c * Radius) + (s * Radius) * (s * Radius) == (c * c + s * s) * (Radius * Radius);
  }

  /** Slot 3 points straight down (screen y grows downwards): the child sits at distance
      `Radius` directly below its parent. */
  lemma MiddleSlotStraightDown(parent: Position, trig: Trig)
    requires trig.cosPi(0.5) == 0.0 && trig.sinPi(0.5) == 1.0
    ensures ChildPosition(parent, 3, trig) == Position(parent.x, parent.y + Radius)
  {
  }

  /** Slots `3 - d` and `3 + d` are mirror images about the vertical through the parent. */
  lemma MirrorSlots(parent: Position, trig: Trig, d: nat)
    requires d <= 3 && ReflectsVertically(trig)
    ensures ChildPosition(parent, 3 - d, trig).y == ChildPosition(parent, 3 + d, trig).y
    ensures ChildPosition(parent, 3 - d, trig).x - parent.x == parent.x - ChildPosition(parent, 3 + d, trig).x
  {
    var t, u := AngleOverPi(3 - d), AngleOverPi(3 + d);
    assert t + u == 1.0;
    assert trig.cosPi(u) == -trig.cosPi(t);
  }

  // ---------------------------------------------------------------- growth

  /** Per-parent count of children placed so far. */
  type Counts = map<string, nat>

  /** `childCounts[id] || 0`. */
  function ChildCount(counts: Counts, id: string): nat {
    if id in counts then counts[id] else 0
  }

  /** `{ ...counts, [id]: count + 1 }`: one more child under `id`, every other entry as it was. */
  function Bump(counts: Counts, id: string): (r: Counts)
    ensures ChildCount(r, id) == ChildCount(counts, id) + 1
    ensures forall k :: k != id ==> ChildCount(r, k) == ChildCount(counts, k)
    ensures r.Keys == counts.Keys + {id}
  {
    counts[id := ChildCount(counts, id) + 1]
  }

  /** Id of a new child, `${parentId}-${title}`: the parent's id, a dash, then the title as
      a template literal prints it. */
  function ChildId(parentId: string, title: JsValue): (id: string)
    ensures |id| > |parentId| && id[..|parentId|] == parentId && id[|parentId|] == '-'
    ensures id[|parentId| + 1..] == ToText(title)
  {
    parentId + "-" + ToText(title)
  }

  /** Two children of one parent get the same id exactly when their titles print the
      same: a title added twice under one parent yields a duplicate id. */
  lemma ChildIdCollision(parentId: string, t1: JsValue, t2: JsValue)
    ensures ChildId(parentId, t1) == ChildId(parentId, t2) <==> ToText(t1) == ToText(t2)
  {
    var p := parentId + "-";
    if ChildId(parentId, t1) == ChildId(parentId, t2) {
      assert (p + ToText(t1))[|p|..] == ToText(t1);
      assert (p + ToText(t2))[|p|..] == ToText(t2);
    }
  }

  /** The graph state the "add to map" handler updates. */
  datatype Graph = Graph(nodes: seq<Node>, edges: seq<Edge>, childCounts: Counts)

  /** "Add to map" under `parent` with title `title`: one node and one edge are appended,
      everything before is kept in order, the new node is `parentId-title`, labelled with
      the title and placed at the parent's next slot, the edge runs from the parent to it,
      and only the parent's counter moves, by one. */
  function AddChild(g: Graph, parent: Node, title: JsValue, trig: Trig): (g': Graph)
    ensures |g'.nodes| == |g.nodes| + 1 && g'.nodes[..|g.nodes|] == g.nodes
    ensures |g'.edges| == |g.edges| + 1 && g'.edges[..|g.edges|] == g.edges
    ensures var n := g'.nodes[|g.nodes|];
      n.id == parent.id + "-" + ToText(title) && n.caption == title && n.nodeType == CustomNodeType &&
      n.position == ChildPosition(parent.position, ChildCount(g.childCounts, parent.id), trig)
    ensures var e := g'.edges[|g.edges|];
      e.source == parent.id && e.target == g'.nodes[|g.nodes|].id &&
      e == Decorated("e" + parent.id + "-" + e.target, parent.id, e.target)
    ensures ChildCount(g'.childCounts, parent.id) == ChildCount(g.childCounts, parent.id) + 1
    ensures forall k :: k != parent.id ==> ChildCount(g'.childCounts, k) == ChildCount(g.childCounts, k)
  {
    var count := ChildCount(g.childCounts, parent.id);
    var child := Node(ChildId(parent.id, title), ChildPosition(parent.position, count, trig), title, CustomNodeType);
    var edge := Decorated("e" + parent.id + "-" + child.id, parent.id, child.id);
    Graph(g.nodes + [child], g.edges + [edge], Bump(g.childCounts, parent.id))
  }

  /** Several additions under one parent, in order. */
  function AddChildren(g: Graph, parent: Node, titles: seq<JsValue>, trig: Trig): Graph
    decreases |titles|
  {
    if titles == [] then g
    else AddChildren(AddChild(g, parent, titles[0], trig), parent, titles[1..], trig)
  }

  /** `n` additions under one parent append `n` nodes and `n` edges, keep everything that
      was there, raise that parent's counter by `n` and leave every other counter alone. */
  lemma {:induction false} AddChildrenShape(g: Graph, parent: Node, titles: seq<JsValue>, trig: Trig)
    ensures var g' := AddChildren(g, parent, titles, trig);
      |g'.nodes| == |g.nodes| + |titles| && g'.nodes[..|g.nodes|] == g.nodes &&
      |g'.edges| == |g.edges| + |titles| && g'.edges[..|g.edges|] == g.edges &&
      ChildCount(g'.childCounts, parent.id) == ChildCount(g.childCounts, parent.id) + |titles| &&
      (forall k :: k != parent.id ==> ChildCount(g'.childCounts, k) == ChildCount(g.childCounts, k))
    decreases |titles|
  {
    if titles != [] {
      var g1 := AddChild(g, parent, titles[0], trig);
      AddChildrenShape(g1, parent, titles[1..], trig);
      var g' := AddChildren(g1, parent, titles[1..], trig);
      assert g'.nodes[..|g.nodes|] == g'.nodes[..|g1.nodes|][..|g.nodes|];
      assert g'.edges[..|g.edges|] == g'.edges[..|g1.edges|][..|g.edges|];
    }
  }

  /** The i-th of several additions under one parent is labelled with the i-th title, has
      the id `parentId-title`, sits in the parent's next free slot and is reached by an edge
      from the parent. */
  lemma {:induction false} AddChildrenAt(g: Graph, parent: Node, titles: seq<JsValue>, trig: Trig, i: nat)
    requires i < |titles|
    ensures var g' := AddChildren(g, parent, titles, trig);
      |g.nodes| + i < |g'.nodes| && |g.edges| + i < |g'.edges| &&
      g'.nodes[|g.nodes| + i].caption == titles[i] &&
      g'.nodes[|g.nodes| + i].id == ChildId(parent.id, titles[i]) &&
      g'.nodes[|g.nodes| + i].position ==
        ChildPosition(parent.position, ChildCount(g.childCounts, parent.id) + i, trig) &&
      g'.edges[|g.edges| + i].source == parent.id &&
      g'.edges[|g.edges| + i].target == ChildId(parent.id, titles[i])
    decreases i
  {
    var g1 := AddChild(g, parent, titles[0], trig);
    AddChildrenShape(g1, parent, titles[1..], trig);
    var g' := AddChildren(g1, parent, titles[1..], trig);
    if i == 0 {
      var n, e := g1.nodes[|g.nodes|], g1.edges[|g.edges|];
      assert g'.nodes[|g.nodes|] == g'.nodes[..|g1.nodes|][|g.nodes|] == n;
      assert g'.edges[|g.edges|] == g'.edges[..|g1.edges|][|g.edges|] == e;
      assert n.id == ChildId(parent.id, titles[0]) && e.target == n.id;
    } else {
      AddChildrenAt(g1, parent, titles[1..], trig, i - 1);
      assert titles[1..][i - 1] == titles[i];
    }
  }
}
