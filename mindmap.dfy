/** The mind-map component's state and its event handlers: seeding, clicking a node
    (suggestions request), choosing a suggestion (detail request) and "add to map"
    (src/components/MindMap.tsx). Remote calls are replaced by their outcome, passed in. */
module MindMapView {
  import opened Js
  import opened Graph
  import opened Labels

  const SuggestionsError := "추천 결과를 불러오지 못했습니다."
  const DetailError := "상세 정보를 불러오지 못했습니다."

  /** The record shown when the detail request fails: the chosen suggestion as title, the fixed
      description, an empty salary and empty lists. */
  function FallbackDetail(title: JsValue): (d: JsValue)
    ensures Truthy(d)
    ensures Get(d, "title") == title && Get(d, "description") == Str(DetailError)
    ensures Get(d, "averageSalary") == Str("")
    ensures Get(d, "relatedCompanies") == Array([]) && Get(d, "roleModels") == Array([])
    ensures var req := Get(d, "requirements");
      Get(req, "education") == Array([]) && Get(req, "certifications") == Array([]) &&
      Get(req, "experience") == Array([])
    ensures title.Str? ==> IsCareerDetail(d)
    ensures Drawable(title) ==> DetailDrawable(d)
  {
    Object(map[
      "title" := title,
      "averageSalary" := Str(""),
      "requirements" := Object(map[
        "education" := Array([]), "certifications" := Array([]), "experience" := Array([])]),
      "description" := Str(DetailError),
      "relatedCompanies" := Array([]),
      "roleModels" := Array([])])
  }

  /** The suggestion list the click handler stores, if reading it does not throw: reading
      `response.data.suggestions` throws on a `null` or `undefined` body, and the handler
      treats that like a failed request. */
  function SuggestionsOf(reply: Reply): (r: Option<JsValue>)
    ensures r.Some? <==> reply.Ok? && !Nullish(reply.body)
    ensures r.Some? ==> r.value == Get(reply.body, "suggestions")
  {
    if reply.Ok? && !Nullish(reply.body) then Some(Get(reply.body, "suggestions")) else None
  }

  /** The interaction state besides the graph. */
  datatype Workflow = Workflow(
    isLoading: bool,
    errorMessage: Option<string>,
    suggestions: JsValue,
    showSuggestions: bool,
    selectedNode: Option<Node>,
    careerDetail: JsValue,
    showDetailModal: bool)

  /** What the component draws: the spinner while loading, else the error text once an
      error message is set, else the canvas with whichever modals are open; `Throws` when
      evaluating an open modal raises a TypeError (nothing catches it, so React unmounts
      the tree). */
  datatype Screen = Spinner | ErrorText(message: string) | Canvas(suggestionsOpen: bool, detailOpen: bool) | Throws

  /** `if (errorMessage)`. */
  predicate ErrorSet(w: Workflow) {
    w.errorMessage.Some? && w.errorMessage.value != ""
  }

  /** `showDetailModal && careerDetail`. */
  predicate DetailShown(w: Workflow) {
    w.showDetailModal && Truthy(w.careerDetail)
  }

  /** The suggestion list renders: `suggestions.map` needs an array, and every item is drawn
      as a button caption. */
  predicate ListDrawable(suggestions: JsValue) {
    suggestions.Array? && Drawable(suggestions)
  }

  /** The detail view renders: the five lists it joins with ", " are arrays (reading a
      field of a missing `requirements` throws, as does `.join` on a non-array), and the
      title, description and salary it draws are drawable. */
  predicate DetailDrawable(d: JsValue) {
    var req := Get(d, "requirements");
    && Get(req, "education").Array? && Get(req, "certifications").Array? && Get(req, "experience").Array?
    && Get(d, "relatedCompanies").Array? && Get(d, "roleModels").Array?
    && Drawable(Get(d, "title")) && Drawable(Get(d, "description")) && Drawable(Get(d, "averageSalary"))
  }

  /** An array of strings, the declared type of the suggestion list. */
  predicate StringList(v: JsValue) {
    v.Array? && forall i :: 0 <= i < |v.items| ==> v.items[i].Str?
  }

  /** A value of the declared `CareerDetail` type: string title, salary and description, a
      `requirements` record of three string lists, and two more string lists. */
  predicate IsCareerDetail(d: JsValue) {
    var req := Get(d, "requirements");
    && d.Object?
    && Get(d, "title").Str? && Get(d, "averageSalary").Str? && Get(d, "description").Str?
    && req.Object?
    && StringList(Get(req, "education")) && StringList(Get(req, "certifications"))
    && StringList(Get(req, "experience"))
    && StringList(Get(d, "relatedCompanies")) && StringList(Get(d, "roleModels"))
  }

  function ScreenOf(w: Workflow): (s: Screen)
    ensures s == Spinner <==> w.isLoading
    ensures s.ErrorText? <==> !w.isLoading && ErrorSet(w)
    ensures s.ErrorText? ==> s.message == w.errorMessage.value
    ensures s == Throws <==>
      !w.isLoading && !ErrorSet(w) &&
      ((w.showSuggestions && !ListDrawable(w.suggestions)) || (DetailShown(w) && !DetailDrawable(w.careerDetail)))
    ensures s.Canvas? ==> s.suggestionsOpen == w.showSuggestions && s.detailOpen == DetailShown(w)
  {
    if w.isLoading then Spinner
    else if ErrorSet(w) then ErrorText(w.errorMessage.value)
    else if (w.showSuggestions && !ListDrawable(w.suggestions)) || (DetailShown(w) && !DetailDrawable(w.careerDetail))
    then Throws
    else Canvas(w.showSuggestions, DetailShown(w))
  }

  /** Payloads of the declared types always render: with a string list and either no detail
      or a `CareerDetail`, the screen never throws. */
  lemma DeclaredTypesDraw(w: Workflow)
    requires StringList(w.suggestions)
    requires IsCareerDetail(w.careerDetail) || !Truthy(w.careerDetail)
    ensures ScreenOf(w) != Throws
  {
    StringListDrawable(w.suggestions);
    if IsCareerDetail(w.careerDetail) {
      var d := w.careerDetail;
      assert Drawable(Get(d, "title")) && Drawable(Get(d, "description")) && Drawable(Get(d, "averageSalary"));
    }
  }

  lemma StringListDrawable(v: JsValue)
    requires StringList(v)
    ensures ListDrawable(v)
  {
    forall i | 0 <= i < |v.items| ensures Drawable(v.items[i]) {
      assert v.items[i].Str?;
    }
  }

  class MindMap {
    var nodes: seq<Node>
    var edges: seq<Edge>
    var isLoading: bool
    var errorMessage: Option<string>
    var suggestions: JsValue
    var showSuggestions: bool
    var selectedNode: Option<Node>
    var childCounts: Counts
    var careerDetail: JsValue
    var showDetailModal: bool

    /** The seeded graph; every later node and edge comes from "add to map". */
    ghost var seedNodes: seq<Node>
    ghost var seedEdges: seq<Edge>

    function GraphState(): Graph reads this {
      Graph(nodes, edges, childCounts)
    }

    function Snapshot(): Workflow reads this {
      Workflow(isLoading, errorMessage, suggestions, showSuggestions, selectedNode, careerDetail, showDetailModal)
    }

    /** Between events: the graph has grown from the seed by additions only, no request is
        pending and the only error text ever set is the suggestions failure. */
    ghost predicate Valid() reads this {
      && GrownFrom(GraphState(), seedNodes, seedEdges)
      && !isLoading
      && (errorMessage.None? || errorMessage == Some(SuggestionsError))
    }

    /** Seeding from the initial map; nothing selected, loading or shown. */
    constructor (initialData: InitialData)
      ensures Valid()
      ensures nodes == SeedNodes(initialData.nodes) && edges == SeedEdges(initialData.edges)
      ensures seedNodes == nodes && seedEdges == edges
      ensures childCounts == map[]
      ensures Snapshot() == Workflow(false, None, Array([]), false, None, Null, false)
    {
      nodes := SeedNodes(initialData.nodes);
      edges := SeedEdges(initialData.edges);
      isLoading := false;
      errorMessage := None;
      suggestions := Array([]);
      showSuggestions := false;
      selectedNode := None;
      childCounts := map[];
      careerDetail := Null;
      showDetailModal := false;
      seedNodes := SeedNodes(initialData.nodes);
      seedEdges := SeedEdges(initialData.edges);
      new;
      SeedIsGrown(nodes, edges);
    }

    /** Clicking `node`: it becomes the selection and the spinner shows while a request with
        `nodeContent = node.data.label` is pending; then either the suggestions are stored
        verbatim and their list opened, or the fixed error text is set (the selection and the
        list flags stay as they were). Loading ends in both cases; the graph and the detail
        state are untouched. */
    method NodeClick(node: Node, reply: Reply) returns (nodeContent: JsValue, ghost pending: Workflow)
      requires Valid()
      modifies this
      ensures Valid()
      ensures nodeContent == node.caption
      ensures pending == old(Snapshot()).(selectedNode := Some(node), isLoading := true)
      ensures ScreenOf(pending) == Spinner
      ensures GraphState() == old(GraphState()) && seedNodes == old(seedNodes) && seedEdges == old(seedEdges)
      ensures SuggestionsOf(reply).Some? ==>
        Snapshot() == pending.(isLoading := false, suggestions := SuggestionsOf(reply).value, showSuggestions := true)
      ensures SuggestionsOf(reply).None? ==>
        Snapshot() == pending.(isLoading := false, errorMessage := Some(SuggestionsError))
    {
      selectedNode := Some(node);
      isLoading := true;
      pending := Snapshot();
      nodeContent := node.caption;
      var delivered := SuggestionsOf(reply);
      if delivered.Some? {
        suggestions := delivered.value;
        showSuggestions := true;
      } else {
        errorMessage := Some(SuggestionsError);
      }
      isLoading := false;
    }

    /** Choosing suggestion `choice`: the spinner shows while a request with
        `careerTitle = choice` is pending; then the detail view opens, holding the response
        body verbatim or, when the request failed, the fallback record. Loading ends in both
        cases; the selection, the suggestion state, the error text and the graph are
        untouched. */
    method SuggestionClick(choice: JsValue, reply: Reply) returns (careerTitle: JsValue, ghost pending: Workflow)
      requires Valid()
      modifies this
      ensures Valid()
      ensures careerTitle == choice
      ensures pending == old(Snapshot()).(isLoading := true)
      ensures ScreenOf(pending) == Spinner
      ensures GraphState() == old(GraphState()) && seedNodes == old(seedNodes) && seedEdges == old(seedEdges)
      ensures Snapshot() == old(Snapshot()).(
        careerDetail := if reply.Ok? then reply.body else FallbackDetail(choice),
        showDetailModal := true)
    {
      isLoading := true;
      pending := Snapshot();
      careerTitle := choice;
      if reply.Ok? {
        careerDetail := reply.body;
      } else {
        careerDetail := FallbackDetail(choice);
      }
      showDetailModal := true;
      isLoading := false;
    }

    /** "Add to map": without a selection or with a falsy detail nothing changes; otherwise
        the child titled `careerDetail.title` is added under the selected node and both
        modals close. The selection and the detail record are kept. */
    method AddToMindMap(trig: Trig)
      requires Valid()
      modifies this
      ensures Valid()
      ensures seedNodes == old(seedNodes) && seedEdges == old(seedEdges)
      ensures old(selectedNode).None? || !Truthy(old(careerDetail)) ==>
        GraphState() == old(GraphState()) && Snapshot() == old(Snapshot())
      ensures old(selectedNode).Some? && Truthy(old(careerDetail)) ==>
        GraphState() == AddChild(old(GraphState()), old(selectedNode).value, Get(old(careerDetail), "title"), trig) &&
        Snapshot() == old(Snapshot()).(showDetailModal := false, showSuggestions := false)
    {
      if selectedNode.None? || !Truthy(careerDetail) {
        return;
      }
      var parent := selectedNode.value;
      var g := AddChild(GraphState(), parent, Get(careerDetail, "title"), trig);
      AddChildKeepsGrowth(GraphState(), seedNodes, seedEdges, parent, Get(careerDetail, "title"), trig);
      nodes, edges, childCounts := g.nodes, g.edges, g.childCounts;
      showDetailModal := false;
      showSuggestions := false;
    }
  }

  /** `g` has grown from the seed `seedNodes`/`seedEdges` by additions only: the seed is a
      prefix of both collections, each later node came with exactly one later edge, which
      points at it, and every parent's counter equals the number of later edges leaving it. */
  ghost predicate GrownFrom(g: Graph, seedNodes: seq<Node>, seedEdges: seq<Edge>) {
    && seedNodes <= g.nodes && seedEdges <= g.edges
    && |g.nodes| - |seedNodes| == |g.edges| - |seedEdges|
    && (forall i :: |seedEdges| <= i < |g.edges| ==>
          g.edges[i].target == g.nodes[i - |seedEdges| + |seedNodes|].id)
    && (forall p :: ChildCount(g.childCounts, p) == SourceCount(g.edges[|seedEdges|..], p))
  }

  /** A seeded graph with no counters has grown from itself. */
  lemma SeedIsGrown(nodes: seq<Node>, edges: seq<Edge>)
    ensures GrownFrom(Graph(nodes, edges, map[]), nodes, edges)
  {
    assert edges[|edges|..] == [];
  }

  /** "Add to map" keeps a graph grown from its seed: the new edge leaves the parent whose
      counter it raises and points at the new node. */
  lemma AddChildKeepsGrowth(g: Graph, seedNodes: seq<Node>, seedEdges: seq<Edge>,
                            parent: Node, title: JsValue, trig: Trig)
    requires GrownFrom(g, seedNodes, seedEdges)
    ensures GrownFrom(AddChild(g, parent, title, trig), seedNodes, seedEdges)
  {
    var g' := AddChild(g, parent, title, trig);
    var added := g.edges[|seedEdges|..];
    var e := g'.edges[|g.edges|];
    assert g'.edges == g.edges + [e];
    assert g'.nodes == g.nodes + [g'.nodes[|g.nodes|]];
    assert g'.edges[|seedEdges|..] == added + [e];
    forall p ensures ChildCount(g'.childCounts, p) == SourceCount(g'.edges[|seedEdges|..], p) {
      SourceCountAppend(added, e, p);
    }
  }

  /** Number of edges of `es` leaving `p`. */
  function SourceCount(es: seq<Edge>, p: string): nat {
    if es == [] then 0 else (if es[0].source == p then 1 else 0) + SourceCount(es[1..], p)
  }

  lemma {:induction false} SourceCountAppend(es: seq<Edge>, e: Edge, p: string)
    ensures SourceCount(es + [e], p) == SourceCount(es, p) + (if e.source == p then 1 else 0)
    decreases |es|
  {
    if es != [] {
      assert (es + [e])[1..] == es[1..] + [e];
      SourceCountAppend(es[1..], e, p);
    }
  }

  /** A component seeded with the single node `root` at the origin. */
  method SingleRoot(data: JsValue) returns (m: MindMap, root: Node)
    ensures fresh(m) && m.Valid()
    ensures root == Node("root", Position(0.0, 0.0), ExtractLabel(data, "root"), CustomNodeType)
    ensures m.nodes == [root] && m.edges == [] && m.childCounts == map[]
    ensures m.Snapshot() == Workflow(false, None, Array([]), false, None, Null, false)
  {
    m := new MindMap(InitialData([RawNode("root", Position(0.0, 0.0), data)], []));
    root := m.nodes[0];
  }

  /** A detail record of the declared type. */
  function SampleDetail(title: string): (d: JsValue)
    ensures IsCareerDetail(d) && Get(d, "title") == Str(title)
  {
    Object(map[
      "title" := Str(title),
      "averageSalary" := Str("60,000,000"),
      "requirements" := Object(map[
        "education" := Array([Str("Statistics")]), "certifications" := Array([]),
        "experience" := Array([Str("Analytics")])]),
      "description" := Str("Builds models from data."),
      "relatedCompanies" := Array([Str("Acme")]),
      "roleModels" := Array([])])
  }

  /** The reply to a node click that suggests exactly `choice`. */
  function Suggesting(choice: string): (r: Reply)
    ensures SuggestionsOf(r) == Some(Array([Str(choice)])) && StringList(SuggestionsOf(r).value)
  {
    Ok(Object(map["suggestions" := Array([Str(choice)])]))
  }

  /** One expansion of a single-root map, every request answered with a payload of the
      declared type: the list and then the detail view are drawn, and "add to map" leaves
      two nodes, one edge from the root to the new node, a root counter of one and the
      canvas with both modals closed. */
  method ExpandRoot(trig: Trig)
    returns (afterClick: Screen, afterDetail: Screen, afterAdd: Screen,
             nodeCount: nat, edgeCount: nat, rootChildren: nat, added: Node, link: Edge)
    ensures afterClick == Canvas(true, false) && afterDetail == Canvas(true, true)
    ensures afterAdd == Canvas(false, false)
    ensures nodeCount == 2 && edgeCount == 1 && rootChildren == 1
    ensures added.id == ChildId("root", Str("Data Scientist")) && added.caption == Str("Data Scientist")
    ensures link.source == "root" && link.target == added.id
  {
    var m, root := SingleRoot(Str("Me"));
    var _, _ := m.NodeClick(root, Suggesting("Data Scientist"));
    assert m.selectedNode == Some(root) && m.GraphState() == Graph([root], [], map[]);
    DeclaredTypesDraw(m.Snapshot());
    afterClick := ScreenOf(m.Snapshot());
    var detail := SampleDetail("Data Scientist");
    var _, _ := m.SuggestionClick(Str("Data Scientist"), Ok(detail));
    assert m.selectedNode == Some(root) && m.careerDetail == detail && m.GraphState() == Graph([root], [], map[]);
    DeclaredTypesDraw(m.Snapshot());
    afterDetail := ScreenOf(m.Snapshot());
    m.AddToMindMap(trig);
    DeclaredTypesDraw(m.Snapshot());
    afterAdd := ScreenOf(m.Snapshot());
    nodeCount, edgeCount, rootChildren := |m.nodes|, |m.edges|, ChildCount(m.childCounts, "root");
    added, link := m.nodes[1], m.edges[0];
  }

  /** A failed suggestions request leaves the root selected and the error text on screen.
      No handler clears that text: the error screen draws no node to click, and even a
      further, successful click handler run would leave it in place. */
  method ErrorSticks(later: JsValue) returns (selected: Option<Node>, first: Screen, second: Screen)
    requires !Nullish(later)
    ensures selected.Some? && selected.value.id == "root"
    ensures first == ErrorText(SuggestionsError) && second == ErrorText(SuggestionsError)
  {
    var m, root := SingleRoot(Null);
    var _, _ := m.NodeClick(root, Failed(Undefined));
    selected, first := m.selectedNode, ScreenOf(m.Snapshot());
    var _, _ := m.NodeClick(root, Ok(later));
    second := ScreenOf(m.Snapshot());
  }

  /** A successful reply without a `suggestions` field opens a list that cannot be drawn:
      `suggestions` is `undefined` and the render throws. */
  method EmptyReplyBreaksList() returns (stored: JsValue, screen: Screen)
    ensures stored == Undefined && screen == Throws
  {
    var m, root := SingleRoot(Str("Me"));
    var _, _ := m.NodeClick(root, Ok(Object(map[])));
    stored, screen := m.suggestions, ScreenOf(m.Snapshot());
  }

  /** A detail reply holding only a title opens a detail view that cannot be drawn: its
      `requirements` is missing and the render throws. */
  method PartialDetailBreaksView(choice: string) returns (screen: Screen)
    ensures screen == Throws
  {
    var m, root := SingleRoot(Str("Me"));
    var _, _ := m.NodeClick(root, Suggesting(choice));
    var _, _ := m.SuggestionClick(Str(choice), Ok(Object(map["title" := Str(choice)])));
    assert DetailShown(m.Snapshot()) && !ErrorSet(m.Snapshot());
    screen := ScreenOf(m.Snapshot());
  }

  /** A failed detail request still opens the detail view, holding the fallback record,
      and that record renders: the list and the detail view are both drawn. */
  method FailedDetailStillOpens(choice: string) returns (detailOpen: bool, shown: JsValue, screen: Screen)
    ensures detailOpen && shown == FallbackDetail(Str(choice))
    ensures screen == Canvas(true, true)
  {
    var m, root := SingleRoot(Str("Me"));
    var _, _ := m.NodeClick(root, Suggesting(choice));
    var _, _ := m.SuggestionClick(Str(choice), Failed(Undefined));
    DeclaredTypesDraw(m.Snapshot());
    detailOpen, shown, screen := m.showDetailModal && !m.isLoading, m.careerDetail, ScreenOf(m.Snapshot());
  }

  /** Adding from the fallback record creates a child labelled with the chosen suggestion
      and returns to the canvas with both modals closed. */
  method AddAfterFailedDetail(trig: Trig, choice: string) returns (added: Node, screen: Screen)
    ensures added.caption == Str(choice) && added.id == "root-" + choice
    ensures screen == Canvas(false, false)
  {
    var m, root := SingleRoot(Str("Me"));
    var _, _ := m.NodeClick(root, Suggesting(choice));
    assert m.selectedNode == Some(root) && m.GraphState() == Graph([root], [], map[]);
    var _, _ := m.SuggestionClick(Str(choice), Failed(Undefined));
    assert m.selectedNode == Some(root) && m.careerDetail == FallbackDetail(Str(choice));
    assert m.GraphState() == Graph([root], [], map[]);
    assert Get(m.careerDetail, "title") == Str(choice);
    m.AddToMindMap(trig);
    DeclaredTypesDraw(m.Snapshot());
    added, screen := m.nodes[1], ScreenOf(m.Snapshot());
  }
}
