/**
 * The rules of the architecture-diagram updater: which diagram nodes are
 * module headers and which group each other node joins, the level each
 * node gets, which data-flow edges are drawn, how the YAML level file is
 * merged with the diagram, which YAML entries no longer exist, and which
 * edges the composed graph keeps.
 *
 * Reading the HTML, the YAML file and the layout JSON is not modelled: the
 * parsed nodes, the YAML `levels:` section and the old layout's node ids
 * and edges are parameters.
 */
module Architecture {
  import opened Wrappers
  import opened Text

  // ----- Headers and groups -----

  /** A node as parsed from the diagram's `graphData`. */
  datatype Parsed = Parsed(id: string, labelZh: string, moduleId: int, headerFlag: bool)

  /** `isModuleHeader: true`, or an id starting with "mod-". */
  predicate IsHeader(p: Parsed)
  {
    p.headerFlag || StartsWith(p.id, "mod-")
  }

  datatype Node = Node(id: string, labelZh: string, moduleId: int, isHeader: bool,
                       parentGroup: Option<string>, level: Option<int>)

  datatype Group = Group(id: string, labelZh: string, level: int, children: seq<string>)

  /** The header that owns a module id: the last one parsed, as a later header overwrites an earlier one. */
  function HeaderFor(parsed: seq<Parsed>, mid: int): (r: Option<Parsed>)
    ensures r.Some? ==> r.value in parsed && IsHeader(r.value) && r.value.moduleId == mid
    ensures r.None? <==> forall i :: 0 <= i < |parsed| ==> !(IsHeader(parsed[i]) && parsed[i].moduleId == mid)
  {
    if parsed == [] then None
    else
      var last := parsed[|parsed| - 1];
      if IsHeader(last) && last.moduleId == mid then Some(last)
      else
        var r := HeaderFor(parsed[..|parsed| - 1], mid);
        assert forall i :: 0 <= i < |parsed| - 1 ==> parsed[..|parsed| - 1][i] == parsed[i];
        r
  }

  /** The non-header nodes of a module id, in parse order. */
  function ChildrenOf(parsed: seq<Parsed>, mid: int): (r: seq<string>)
    ensures |r| <= |parsed|
  {
    if parsed == [] then []
    else
      var last := parsed[|parsed| - 1];
      ChildrenOf(parsed[..|parsed| - 1], mid) + (if !IsHeader(last) && last.moduleId == mid then [last.id] else [])
  }

  /** The groups after the header pass: one per module id that has a header, still without children. */
  function HeaderGroups(parsed: seq<Parsed>): (g: map<int, Group>)
    ensures forall mid :: mid in g <==> HeaderFor(parsed, mid).Some?
    ensures forall mid :: mid in g ==> g[mid] == Group(HeaderFor(parsed, mid).value.id, HeaderFor(parsed, mid).value.labelZh, 0, [])
  {
    if parsed == [] then map[]
    else
      var last := parsed[|parsed| - 1];
      var g := HeaderGroups(parsed[..|parsed| - 1]);
      if IsHeader(last) then g[last.moduleId := Group(last.id, last.labelZh, 0, [])] else g
  }

  /**
   * `parse_graphdata_from_html`, steps 3 and 4: every header opens (or
   * reopens) the group of its module id at level 0; every other node
   * joins the group of its module id when there is one.
   */
  method AssignGroups(parsed: seq<Parsed>) returns (nodes: seq<Node>, groups: map<int, Group>)
    ensures |nodes| == |parsed|
    ensures forall i :: 0 <= i < |parsed| ==>
      nodes[i].id == parsed[i].id && nodes[i].isHeader == IsHeader(parsed[i])
      && nodes[i].level.None? && nodes[i].moduleId == parsed[i].moduleId
    ensures forall i :: 0 <= i < |parsed| ==>
      nodes[i].parentGroup == (if !IsHeader(parsed[i]) && HeaderFor(parsed, parsed[i].moduleId).Some?
                               then Some(HeaderFor(parsed, parsed[i].moduleId).value.id) else None)
    ensures forall mid :: mid in groups <==> HeaderFor(parsed, mid).Some?
    ensures forall mid :: mid in groups ==>
      groups[mid] == Group(HeaderFor(parsed, mid).value.id, HeaderFor(parsed, mid).value.labelZh, 0, ChildrenOf(parsed, mid))
  {
    var headers := CollectHeaders(parsed);
    nodes, groups := JoinGroups(parsed, headers);
    JoinedNodes(parsed, headers);
    JoinedParents(parsed, headers);
    JoinedChildren(parsed, headers);
  }

  /** The header pass. */
  method CollectHeaders(parsed: seq<Parsed>) returns (groups: map<int, Group>)
    ensures groups == HeaderGroups(parsed)
  {
    groups := map[];
    for i := 0 to |parsed|
      invariant groups == HeaderGroups(parsed[..i])
    {
      assert parsed[..i + 1][..i] == parsed[..i];
      var p := parsed[i];
      if IsHeader(p) {
        groups := groups[p.moduleId := Group(p.id, p.labelZh, 0, [])];
      }
    }
    assert parsed[..|parsed|] == parsed;
  }

  /** The nodes built so far and the groups with the children joined so far. */
  datatype Joining = Joining(nodes: seq<Node>, groups: map<int, Group>)

  /** One parsed node: its `Node`, and its id appended to its module's group when that group exists. */
  function JoinStep(j: Joining, p: Parsed): (r: Joining)
  {
    if !IsHeader(p) && p.moduleId in j.groups then
      var g := j.groups[p.moduleId];
      Joining(j.nodes + [Node(p.id, p.labelZh, p.moduleId, false, Some(g.id), None)],
              j.groups[p.moduleId := g.(children := g.children + [p.id])])
    else
      Joining(j.nodes + [Node(p.id, p.labelZh, p.moduleId, IsHeader(p), None, None)], j.groups)
  }

  /** The membership pass over `parsed`, in order, starting from the header groups. */
  function Joined(parsed: seq<Parsed>, headers: map<int, Group>): (r: Joining)
    decreases |parsed|
  {
    if parsed == [] then Joining([], headers)
    else JoinStep(Joined(parsed[..|parsed| - 1], headers), parsed[|parsed| - 1])
  }

  /** Each node keeps its id, module id and header flag, and gets no level; no group is added or lost. */
  lemma {:induction false} JoinedNodes(parsed: seq<Parsed>, headers: map<int, Group>)
    ensures var r := Joined(parsed, headers);
      |r.nodes| == |parsed| && r.groups.Keys == headers.Keys
      && forall i :: 0 <= i < |parsed| ==>
           r.nodes[i].id == parsed[i].id && r.nodes[i].isHeader == IsHeader(parsed[i])
           && r.nodes[i].level.None? && r.nodes[i].moduleId == parsed[i].moduleId
    decreases |parsed|
  {
    if parsed != [] {
      var prefix := parsed[..|parsed| - 1];
      JoinedNodes(prefix, headers);
      assert forall i :: 0 <= i < |prefix| ==> Joined(parsed, headers).nodes[i] == Joined(prefix, headers).nodes[i];
    }
  }

  /** A non-header node's parent is the header group of its module, when there is one. */
  lemma {:induction false} JoinedParents(parsed: seq<Parsed>, headers: map<int, Group>)
    ensures var r := Joined(parsed, headers);
      |r.nodes| == |parsed|
      && forall i :: 0 <= i < |parsed| ==>
           r.nodes[i].parentGroup == (if !IsHeader(parsed[i]) && parsed[i].moduleId in headers
                                      then Some(headers[parsed[i].moduleId].id) else None)
    decreases |parsed|
  {
    if parsed != [] {
      var prefix := parsed[..|parsed| - 1];
      JoinedParents(prefix, headers);
      JoinedNodes(prefix, headers);
      JoinedChildren(prefix, headers);
      assert forall i :: 0 <= i < |prefix| ==> Joined(parsed, headers).nodes[i] == Joined(prefix, headers).nodes[i];
    }
  }

  /** Each group keeps its header and gains its module's non-header nodes, in parse order. */
  lemma {:induction false} JoinedChildren(parsed: seq<Parsed>, headers: map<int, Group>)
    ensures var r := Joined(parsed, headers);
      r.groups.Keys == headers.Keys
      && forall mid :: mid in r.groups ==> r.groups[mid] == headers[mid].(children := headers[mid].children + ChildrenOf(parsed, mid))
    decreases |parsed|
  {
    if parsed != [] {
      var prefix := parsed[..|parsed| - 1];
      var p := parsed[|parsed| - 1];
      JoinedChildren(prefix, headers);
      var r := Joined(parsed, headers);
      forall mid | mid in r.groups
        ensures r.groups[mid] == headers[mid].(children := headers[mid].children + ChildrenOf(parsed, mid))
      {
        assert ChildrenOf(parsed, mid) == ChildrenOf(prefix, mid) + (if !IsHeader(p) && p.moduleId == mid then [p.id] else []);
      }
    }
  }

  /** The membership pass: each non-header node is appended to its module's group. */
  method JoinGroups(parsed: seq<Parsed>, headers: map<int, Group>) returns (nodes: seq<Node>, groups: map<int, Group>)
    ensures Joining(nodes, groups) == Joined(parsed, headers)
  {
    groups := headers;
    nodes := [];
    assert parsed[..0] == [];
    for i := 0 to |parsed|
      invariant Joining(nodes, groups) == Joined(parsed[..i], headers)
    {
      var p := parsed[i];
      assert parsed[..i + 1][..i] == parsed[..i];
      var parent: Option<string> := None;
      if !IsHeader(p) && p.moduleId in groups {
        var g := groups[p.moduleId];
        groups := groups[p.moduleId := g.(children := g.children + [p.id])];
        parent := Some(g.id);
      }
      nodes := nodes + [Node(p.id, p.labelZh, p.moduleId, IsHeader(p), parent, None)];
    }
    assert parsed[..|parsed|] == parsed;
  }

  // ----- Levels -----

  /** A dict entry of the YAML `levels:` section; `level` is `None` unless it is an int. */
  datatype Entry = Entry(level: Option<int>, hasChildren: bool, children: seq<string>, labelText: string, description: string)

  /** The last-resort levels. */
  const FALLBACK_BUILTIN_MAP: map<string, int> := map[
    "mod-storage" := 0, "mod-retrieval" := 0, "mod-ranking" := 0,
    "mod-search" := 0, "mod-reasoning" := 0, "mod-output" := 0, "mod-others" := 0,
    "sys-db" := 1, "sys-cache" := 1, "internal-index" := 1, "sys-vec" := 1,
    "web-search-api" := 1, "mmr" := 1, "weight-calibrator" := 1, "xgboost-ranker" := 1]

  /** `if node.get("parent_group")`: a group id that is present and not empty. */
  predicate InGroup(n: Node)
  {
    n.parentGroup.Some? && n.parentGroup.value != ""
  }

  /**
   * A node's level: headers are always 0; then an int level in the YAML
   * `levels:` section; then 1 for a node in a group; then the YAML
   * `builtin:` section; then the fallback map; otherwise undecided.
   */
  function LevelOf(n: Node, levels: map<string, Entry>, builtin: map<string, int>, fallback: map<string, int>): (lv: Option<int>)
    ensures n.isHeader ==> lv == Some(0)
    ensures !n.isHeader && n.id in levels && levels[n.id].level.Some? ==> lv == levels[n.id].level
    ensures !n.isHeader && !(n.id in levels && levels[n.id].level.Some?) && InGroup(n) ==> lv == Some(1)
    ensures !n.isHeader && !(n.id in levels && levels[n.id].level.Some?) && !InGroup(n) && n.id in builtin ==>
      lv == Some(builtin[n.id])
    ensures (!n.isHeader && !(n.id in levels && levels[n.id].level.Some?) && !InGroup(n)
             && n.id !in builtin && n.id in fallback) ==> lv == Some(fallback[n.id])
    ensures lv.None? <==>
      !n.isHeader && !(n.id in levels && levels[n.id].level.Some?) && !InGroup(n)
      && n.id !in builtin && n.id !in fallback
  {
    if n.isHeader then Some(0)
    else if n.id in levels && levels[n.id].level.Some? then levels[n.id].level
    else if InGroup(n) then Some(1)
    else if n.id in builtin then Some(builtin[n.id])
    else if n.id in fallback then Some(fallback[n.id])
    else None
  }

  /** A node of a group gets level 1 unless the YAML file gives it one. */
  lemma GroupMemberLevel(n: Node, levels: map<string, Entry>, builtin: map<string, int>)
    requires !n.isHeader && InGroup(n)
    ensures LevelOf(n, levels, builtin, FALLBACK_BUILTIN_MAP) ==
      (if n.id in levels && levels[n.id].level.Some? then levels[n.id].level else Some(1))
  {
  }

  /** `existing + [c for c in extra if c not in set(existing)]`: the set is taken once, before appending. */
  function AppendMissing(existing: seq<string>, extra: seq<string>): (r: seq<string>)
    ensures |existing| <= |r| && r[..|existing|] == existing
    ensures forall c :: c in r <==> c in existing || c in extra
    ensures forall c :: c in r[|existing|..] ==> c !in existing
  {
    if extra == [] then existing
    else
      var r := AppendMissing(existing, extra[..|extra| - 1]);
      var c := extra[|extra| - 1];
      var out := if c in existing then r else r + [c];
      assert forall x :: x in extra <==> x in extra[..|extra| - 1] || x == c;
      assert out[|existing|..] == if c in existing then r[|existing|..] else r[|existing|..] + [c];
      out
  }

  /** A group the YAML file names with a `children` list: an int level overrides, new children are appended. */
  function MergeGroup(g: Group, levels: map<string, Entry>): (r: Group)
    ensures r.id == g.id && r.labelZh == g.labelZh
    ensures g.id in levels && levels[g.id].hasChildren && levels[g.id].level.Some? ==> r.level == levels[g.id].level.value
    ensures !(g.id in levels && levels[g.id].hasChildren) ==> r == g
    ensures forall c :: c in r.children <==> c in g.children || (g.id in levels && levels[g.id].hasChildren && c in levels[g.id].children)
  {
    if g.id in levels && levels[g.id].hasChildren then
      var e := levels[g.id];
      g.(level := if e.level.Some? then e.level.value else g.level, children := AppendMissing(g.children, e.children))
    else g
  }

  /** A dict built by a comprehension keyed by id: its keys in insertion order, and the value under each. */
  datatype Keyed<T> = Keyed(order: seq<string>, values: map<string, T>)

  /** `{key(x): x for x in xs}`: a key enters the order when it is first met; a later element replaces the value. */
  function DictBy<T>(xs: seq<T>, key: T -> string): (r: Keyed<T>)
    ensures forall k :: k in r.order <==> k in r.values
    decreases |xs|
  {
    if xs == [] then Keyed([], map[])
    else
      var r := DictBy(xs[..|xs| - 1], key);
      var x := xs[|xs| - 1];
      Keyed(if key(x) in r.values then r.order else r.order + [key(x)], r.values[key(x) := x])
  }

  /**
   * Every key appears once in the order, every element's key is there,
   * and each key holds an element carrying it: the last such element.
   */
  lemma {:induction false} DictByKeys<T>(xs: seq<T>, key: T -> string)
    ensures var r := DictBy(xs, key);
      (forall i, j :: 0 <= i < j < |r.order| ==> r.order[i] != r.order[j])
      && (forall i :: 0 <= i < |xs| ==> key(xs[i]) in r.values)
      && (forall k :: k in r.values ==> key(r.values[k]) == k && r.values[k] in xs)
      && (forall i :: 0 <= i < |xs| ==> r.values[key(xs[i])] == xs[i] || exists j :: i < j < |xs| && key(xs[j]) == key(xs[i]))
    decreases |xs|
  {
    if xs != [] {
      var prefix := xs[..|xs| - 1];
      DictByKeys(prefix, key);
      assert forall i :: 0 <= i < |xs| - 1 ==> xs[i] == prefix[i];
      var x := xs[|xs| - 1];
      var r := DictBy(xs, key);
      forall i | 0 <= i < |xs|
        ensures r.values[key(xs[i])] == xs[i] || exists j :: i < j < |xs| && key(xs[j]) == key(xs[i])
      {
        if i < |xs| - 1 && key(xs[i]) == key(x) {
          assert key(xs[|xs| - 1]) == key(xs[i]);
        }
      }
    }
  }

  /** `list(d.values())` */
  function ValuesOf<T>(d: Keyed<T>): (r: seq<T>)
    requires forall k :: k in d.order ==> k in d.values
    ensures |r| == |d.order| && forall i :: 0 <= i < |r| ==> r[i] == d.values[d.order[i]]
  {
    seq(|d.order|, i requires 0 <= i < |d.order| => d.values[d.order[i]])
  }

  function GroupId(g: Group): string { g.id }
  function NodeId(n: Node): string { n.id }

  /** Two parsed nodes with the same id come back as one: the later one. */
  lemma DuplicateIdsCollapse(a: Node, b: Node)
    requires a.id == b.id
    ensures DictBy([a, b], NodeId) == Keyed([a.id], map[a.id := b])
  {
    assert [a, b][..1] == [a];
    assert [a][..0] == [];
    assert DictBy([a], NodeId) == Keyed([a.id], map[a.id := a]);
    assert NodeId(b) == a.id;
  }

  /** A node with its level decided. */
  function Decided(n: Node, levels: map<string, Entry>, builtin: map<string, int>): Node
  {
    n.(level := LevelOf(n, levels, builtin, FALLBACK_BUILTIN_MAP))
  }

  /**
   * `determine_levels_by_group`: the groups and the nodes, each keyed by
   * id, so that a repeated id keeps its first place and its last element;
   * every group merged with the YAML file and every node's level decided.
   */
  method DetermineLevels(nodes: seq<Node>, groups: seq<Group>, levels: map<string, Entry>, builtin: map<string, int>)
    returns (outNodes: seq<Node>, outGroups: seq<Group>)
    ensures var gs := ValuesOf(DictBy(groups, GroupId));
      |outGroups| == |gs| && forall i :: 0 <= i < |gs| ==> outGroups[i] == MergeGroup(gs[i], levels)
    ensures var ns := ValuesOf(DictBy(nodes, NodeId));
      |outNodes| == |ns| && forall i :: 0 <= i < |ns| ==> outNodes[i] == Decided(ns[i], levels, builtin)
  {
    var groupList := ValuesOf(DictBy(groups, GroupId));
    outGroups := [];
    for i := 0 to |groupList|
      invariant |outGroups| == i
      invariant forall j :: 0 <= j < i ==> outGroups[j] == MergeGroup(groupList[j], levels)
    {
      outGroups := outGroups + [MergeGroup(groupList[i], levels)];
    }
    var nodeList := ValuesOf(DictBy(nodes, NodeId));
    outNodes := [];
    for i := 0 to |nodeList|
      invariant |outNodes| == i
      invariant forall j :: 0 <= j < i ==> outNodes[j] == Decided(nodeList[j], levels, builtin)
    {
      var n := nodeList[i];
      var lv: Option<int>;
      if n.isHeader {
        lv := Some(0);
      } else if n.id in levels && levels[n.id].level.Some? {
        lv := levels[n.id].level;
      } else if InGroup(n) {
        lv := Some(1);
      } else if n.id in builtin {
        lv := Some(builtin[n.id]);
      } else if n.id in FALLBACK_BUILTIN_MAP {
        lv := Some(FALLBACK_BUILTIN_MAP[n.id]);
      } else {
        lv := None;
      }
      outNodes := outNodes + [n.(level := lv)];
    }
  }

  // ----- Edges -----

  datatype Edge = Edge(from: string, to: string)

  /** The defined data flows, in definition order. */
  const DATAFLOW: seq<Edge> := [
    Edge("sys-api", "query-decomp"), Edge("sys-api", "knowledge-gap"), Edge("query-decomp", "internal-index"),
    Edge("internal-index", "sys-vec"), Edge("internal-index", "sys-db"),
    Edge("sys-vec", "internal-index"), Edge("sys-db", "internal-index"),
    Edge("internal-index", "xgboost"), Edge("xgboost", "mmr"),
    Edge("mmr", "evidence-chain"), Edge("evidence-chain", "synthesis"),
    Edge("synthesis", "sys-llm"), Edge("sys-llm", "synthesis"), Edge("synthesis", "sys-api"), Edge("sys-api", "sys-fe"),
    Edge("prompt-guardrails", "sys-llm"), Edge("xgboost", "sys-ana"), Edge("sys-ana", "sys-db")]

  /** The edges whose two ends are both known, in their original order. */
  function KeepKnown(edges: seq<Edge>, ids: set<string>): (r: seq<Edge>)
    ensures |r| <= |edges|
    ensures forall e :: e in r <==> e in edges && e.from in ids && e.to in ids
  {
    if edges == [] then []
    else
      var last := edges[|edges| - 1];
      var r := KeepKnown(edges[..|edges| - 1], ids);
      assert forall e :: e in edges <==> e in edges[..|edges| - 1] || e == last;
      r + (if last.from in ids && last.to in ids then [last] else [])
  }

  /** `detect_edges_from_dataflow`: the defined flows between nodes the diagram has. */
  method DetectDataflowEdges(defined: seq<Edge>, nodeIds: set<string>) returns (valid: seq<Edge>)
    ensures valid == KeepKnown(defined, nodeIds)
  {
    valid := [];
    var i := 0;
    while i < |defined|
      invariant 0 <= i <= |defined|
      invariant valid == KeepKnown(defined[..i], nodeIds)
    {
      assert defined[..i + 1][..i] == defined[..i];
      var e := defined[i];
      if e.from in nodeIds && e.to in nodeIds {
        valid := valid + [e];
      }
      i := i + 1;
    }
    assert defined[..i] == defined;
  }

  /** Keeping the known edges twice keeps the same edges: filtering is idempotent and order-preserving. */
  lemma {:induction false} KeepKnownIdempotent(edges: seq<Edge>, ids: set<string>)
    ensures KeepKnown(KeepKnown(edges, ids), ids) == KeepKnown(edges, ids)
    decreases |edges|
  {
    if edges != [] {
      var init := edges[..|edges| - 1];
      var last := edges[|edges| - 1];
      KeepKnownIdempotent(init, ids);
      var r := KeepKnown(init, ids);
      if last.from in ids && last.to in ids {
        var kept := r + [last];
        assert KeepKnown(edges, ids) == kept;
        assert kept[..|kept| - 1] == r && kept[|kept| - 1] == last;
        assert KeepKnown(kept, ids) == KeepKnown(r, ids) + [last];
      } else {
        assert KeepKnown(edges, ids) == r;
      }
    }
  }

  /**
   * The node ids of the composed graph: the diagram's nodes and the nodes
   * only the old layout has (with a non-empty id).
   */
  function FinalNodeIds(diagramIds: seq<string>, layoutIds: seq<string>): (ids: set<string>)
    ensures forall x :: x in ids <==> x in diagramIds || (x in layoutIds && x != "")
  {
    (set x | x in diagramIds) + (set x | x in layoutIds && x != "")
  }

  /** `compose_graph_data`, step 5: the old layout's edges between surviving nodes, or the data flows when there were none. */
  function FinalEdges(oldEdges: seq<Edge>, dataflow: seq<Edge>, ids: set<string>): (r: seq<Edge>)
    ensures oldEdges == [] ==> r == dataflow
    ensures oldEdges != [] ==> forall e :: e in r <==> e in oldEdges && e.from in ids && e.to in ids
  {
    if oldEdges != [] then KeepKnown(oldEdges, ids) else dataflow
  }

  // ----- The YAML file -----

  /** A group the file does not have yet. */
  function NewGroupEntry(g: Group): Entry
  {
    Entry(Some(g.level), true, g.children, g.labelZh, "")
  }

  /** A node the file does not have yet. */
  function NewNodeEntry(n: Node): Entry
  {
    Entry(n.level, false, [], n.labelZh, "")
  }

  /** The entry after a group's update, and whether it changed: only new children are added. */
  function UpdateGroupEntry(e: Entry, g: Group): (r: (Entry, bool))
    ensures r.0.level == e.level && r.0.labelText == e.labelText && r.0.description == e.description
    ensures r.1 <==> exists c :: c in g.children && c !in e.children
    ensures r.1 ==> r.0.hasChildren && r.0.children == AppendMissing(e.children, g.children)
    ensures !r.1 ==> r.0 == e
  {
    var added := AppendMissing(e.children, g.children);
    if |added| > |e.children| then
      assert added[|e.children|] in added;
      (e.(hasChildren := true, children := added), true)
    else
      assert added == e.children;
      (e, false)
  }

  /** The entry after a node's update: a missing level and an empty label are filled, nothing is overwritten. */
  function UpdateNodeEntry(e: Entry, n: Node): (r: (Entry, bool))
    ensures e.level.Some? ==> r.0.level == e.level
    ensures e.labelText != "" ==> r.0.labelText == e.labelText
    ensures r.0.level == (if e.level.None? then n.level else e.level)
    ensures r.0.labelText == (if e.labelText == "" then n.labelZh else e.labelText)
    ensures r.0.children == e.children && r.0.description == e.description
    ensures r.1 <==> r.0 != e
  {
    var level := if e.level.None? && n.level.Some? then n.level else e.level;
    var text := if e.labelText == "" && n.labelZh != "" then n.labelZh else e.labelText;
    var r := e.(level := level, labelText := text);
    (r, r != e)
  }

  function GroupIds(groups: seq<Group>): (ids: set<string>)
  {
    if groups == [] then {} else GroupIds(groups[..|groups| - 1]) + {groups[|groups| - 1].id}
  }

  function NodeIds(nodes: seq<Node>): (ids: set<string>)
  {
    if nodes == [] then {} else NodeIds(nodes[..|nodes| - 1]) + {nodes[|nodes| - 1].id}
  }

  /** What a pass over groups or nodes produced: the entries, the keys added and the existing entries changed. */
  datatype Tally = Tally(entries: map<string, Entry>, added: nat, changed: nat)

  /** What one group or node did to the entries: the new map, whether its key was new, whether an entry changed. */
  datatype Step = Step(entries: map<string, Entry>, isNew: bool, changed: bool)

  /**
   * `update_yaml_entries`: every group and node id ends up in the file;
   * `newCount` is the number of keys added and `updatedCount` the number of
   * existing entries that changed. An existing level or label is never
   * overwritten.
   */
  method UpdateYamlEntries(levels: map<string, Entry>, nodes: seq<Node>, groups: seq<Group>)
    returns (updated: map<string, Entry>, newCount: nat, updatedCount: nat)
    ensures var g := GroupPass(levels, groups); var n := NodePass(g.entries, nodes);
      updated == n.entries && newCount == g.added + n.added && updatedCount == g.changed + n.changed
    ensures updated.Keys == levels.Keys + GroupIds(groups) + NodeIds(nodes)
    ensures newCount == |updated.Keys - levels.Keys|
    ensures updatedCount <= |groups| + |nodes|
    ensures forall k :: k in levels && levels[k].level.Some? ==> updated[k].level == levels[k].level
    ensures forall k :: k in levels && levels[k].labelText != "" ==> updated[k].labelText == levels[k].labelText
  {
    var withGroups, groupsNew, groupsUpdated := UpdateGroupEntries(levels, groups);
    var nodesNew, nodesUpdated;
    updated, nodesNew, nodesUpdated := UpdateNodeEntries(withGroups, nodes);
    GroupPassKeys(levels, groups);
    NodePassKeys(withGroups, nodes);
    GroupPassCounts(levels, groups);
    NodePassCounts(withGroups, nodes);
    CountsAdd(levels.Keys, withGroups.Keys, updated.Keys);
    newCount := groupsNew + nodesNew;
    updatedCount := groupsUpdated + nodesUpdated;
  }

  /** Adding a key that neither set has grows the difference by one. */
  lemma NewKeyCounted(keys: set<string>, known: set<string>, k: string)
    requires k !in keys && known <= keys
    ensures |(keys + {k}) - known| == |keys - known| + 1
  {
    assert (keys + {k}) - known == (keys - known) + {k};
  }

  lemma CountsAdd(a: set<string>, b: set<string>, c: set<string>)
    requires a <= b <= c
    ensures |c - a| == |b - a| + |c - b|
  {
    assert c - a == (b - a) + (c - b);
    assert (b - a) * (c - b) == {};
  }

  // ----- The group pass -----

  /** One group: a new id gets a fresh entry; a known one may gain children. */
  function GroupStep(m: map<string, Entry>, g: Group): (r: Step)
    ensures r.entries.Keys == m.Keys + {g.id}
    ensures r.isNew <==> g.id !in m
    ensures r.isNew ==> !r.changed && r.entries[g.id] == NewGroupEntry(g)
    ensures forall k :: k in m ==> r.entries[k].level == m[k].level && r.entries[k].labelText == m[k].labelText
  {
    if g.id !in m then Step(m[g.id := NewGroupEntry(g)], true, false)
    else
      var (e, changed) := UpdateGroupEntry(m[g.id], g);
      Step(m[g.id := e], false, changed)
  }

  /**
   * The group pass over `groups`, in order. The level and label of an entry
   * already in the file are left as they are.
   */
  function GroupPass(levels: map<string, Entry>, groups: seq<Group>): (t: Tally)
    ensures levels.Keys <= t.entries.Keys && t.changed <= |groups|
    ensures forall k :: k in levels ==> t.entries[k].level == levels[k].level && t.entries[k].labelText == levels[k].labelText
    decreases |groups|
  {
    if groups == [] then Tally(levels, 0, 0)
    else
      var before := GroupPass(levels, groups[..|groups| - 1]);
      var step := GroupStep(before.entries, groups[|groups| - 1]);
      Tally(step.entries, before.added + (if step.isNew then 1 else 0), before.changed + (if step.changed then 1 else 0))
  }

  /** The group pass adds exactly the group ids as keys. */
  lemma {:induction false} GroupPassKeys(levels: map<string, Entry>, groups: seq<Group>)
    ensures GroupPass(levels, groups).entries.Keys == levels.Keys + GroupIds(groups)
    decreases |groups|
  {
    if groups != [] {
      GroupPassKeys(levels, groups[..|groups| - 1]);
    }
  }

  /** The count of new keys the group pass reports is the number of keys it added. */
  lemma {:induction false} GroupPassCounts(levels: map<string, Entry>, groups: seq<Group>)
    ensures GroupPass(levels, groups).added == |GroupPass(levels, groups).entries.Keys - levels.Keys|
    decreases |groups|
  {
    if groups != [] {
      var prefix := groups[..|groups| - 1];
      GroupPassCounts(levels, prefix);
      var keys := GroupPass(levels, prefix).entries.Keys;
      var id := groups[|groups| - 1].id;
      if id in keys {
        assert GroupPass(levels, groups).entries.Keys == keys;
      } else {
        NewKeyCounted(keys, levels.Keys, id);
      }
    }
  }

  /** One more group extends the pass by one step. */
  lemma GroupPassStep(levels: map<string, Entry>, groups: seq<Group>, i: nat)
    requires i < |groups|
    ensures var before := GroupPass(levels, groups[..i]);
      var step := GroupStep(before.entries, groups[i]);
      GroupPass(levels, groups[..i + 1])
        == Tally(step.entries, before.added + (if step.isNew then 1 else 0), before.changed + (if step.changed then 1 else 0))
  {
    assert groups[..i + 1][..i] == groups[..i];
  }

  /** The group loop of `update_yaml_entries`. */
  method UpdateGroupEntries(levels: map<string, Entry>, groups: seq<Group>)
    returns (updated: map<string, Entry>, newCount: nat, updatedCount: nat)
    ensures Tally(updated, newCount, updatedCount) == GroupPass(levels, groups)
  {
    updated, newCount, updatedCount := levels, 0, 0;
    assert groups[..0] == [];
    for i := 0 to |groups|
      invariant Tally(updated, newCount, updatedCount) == GroupPass(levels, groups[..i])
    {
      var step := GroupStep(updated, groups[i]);
      GroupPassStep(levels, groups, i);
      if step.isNew {
        newCount := newCount + 1;
      } else if step.changed {
        updatedCount := updatedCount + 1;
      }
      updated := step.entries;
    }
    assert groups[..|groups|] == groups;
  }

  // ----- The node pass -----

  /** One node: a new id gets a fresh entry; a known one may have its level or label filled. */
  function NodeStep(m: map<string, Entry>, n: Node): (r: Step)
    ensures r.entries.Keys == m.Keys + {n.id}
    ensures r.isNew <==> n.id !in m
    ensures r.isNew ==> !r.changed && r.entries[n.id] == NewNodeEntry(n)
    ensures forall k :: k in m && m[k].level.Some? ==> r.entries[k].level == m[k].level
    ensures forall k :: k in m && m[k].labelText != "" ==> r.entries[k].labelText == m[k].labelText
  {
    if n.id !in m then Step(m[n.id := NewNodeEntry(n)], true, false)
    else
      var (e, changed) := UpdateNodeEntry(m[n.id], n);
      Step(m[n.id := e], false, changed)
  }

  /** The node pass, over the map the group pass left: a level or label already there is never overwritten. */
  function NodePass(levels: map<string, Entry>, nodes: seq<Node>): (t: Tally)
    ensures levels.Keys <= t.entries.Keys && t.changed <= |nodes|
    ensures forall k :: k in levels && levels[k].level.Some? ==> t.entries[k].level == levels[k].level
    ensures forall k :: k in levels && levels[k].labelText != "" ==> t.entries[k].labelText == levels[k].labelText
    decreases |nodes|
  {
    if nodes == [] then Tally(levels, 0, 0)
    else
      var before := NodePass(levels, nodes[..|nodes| - 1]);
      var step := NodeStep(before.entries, nodes[|nodes| - 1]);
      Tally(step.entries, before.added + (if step.isNew then 1 else 0), before.changed + (if step.changed then 1 else 0))
  }

  /** The node pass adds exactly the node ids as keys. */
  lemma {:induction false} NodePassKeys(levels: map<string, Entry>, nodes: seq<Node>)
    ensures NodePass(levels, nodes).entries.Keys == levels.Keys + NodeIds(nodes)
    decreases |nodes|
  {
    if nodes != [] {
      NodePassKeys(levels, nodes[..|nodes| - 1]);
    }
  }

  /** The count of new keys the node pass reports is the number of keys it added. */
  lemma {:induction false} NodePassCounts(levels: map<string, Entry>, nodes: seq<Node>)
    ensures NodePass(levels, nodes).added == |NodePass(levels, nodes).entries.Keys - levels.Keys|
    decreases |nodes|
  {
    if nodes != [] {
      var prefix := nodes[..|nodes| - 1];
      NodePassCounts(levels, prefix);
      var keys := NodePass(levels, prefix).entries.Keys;
      var id := nodes[|nodes| - 1].id;
      if id in keys {
        assert NodePass(levels, nodes).entries.Keys == keys;
      } else {
        NewKeyCounted(keys, levels.Keys, id);
      }
    }
  }

  /** One more node extends the pass by one step. */
  lemma NodePassStep(levels: map<string, Entry>, nodes: seq<Node>, i: nat)
    requires i < |nodes|
    ensures var before := NodePass(levels, nodes[..i]);
      var step := NodeStep(before.entries, nodes[i]);
      NodePass(levels, nodes[..i + 1])
        == Tally(step.entries, before.added + (if step.isNew then 1 else 0), before.changed + (if step.changed then 1 else 0))
  {
    assert nodes[..i + 1][..i] == nodes[..i];
  }

  /** The node loop of `update_yaml_entries`. */
  method UpdateNodeEntries(levels: map<string, Entry>, nodes: seq<Node>)
    returns (updated: map<string, Entry>, newCount: nat, updatedCount: nat)
    ensures Tally(updated, newCount, updatedCount) == NodePass(levels, nodes)
  {
    updated, newCount, updatedCount := levels, 0, 0;
    assert nodes[..0] == [];
    for i := 0 to |nodes|
      invariant Tally(updated, newCount, updatedCount) == NodePass(levels, nodes[..i])
    {
      var step := NodeStep(updated, nodes[i]);
      NodePassStep(levels, nodes, i);
      if step.isNew {
        newCount := newCount + 1;
      } else if step.changed {
        updatedCount := updatedCount + 1;
      }
      updated := step.entries;
    }
    assert nodes[..|nodes|] == nodes;
  }

  /** `detect_removed_yaml_entries`: the keys of the file, in order, that name neither a node nor a group. */
  function RemovedEntries(keys: seq<string>, nodeIds: set<string>, groupIds: set<string>): (r: seq<string>)
    ensures |r| <= |keys|
    ensures forall k :: k in r <==> k in keys && k !in nodeIds && k !in groupIds
  {
    if keys == [] then []
    else
      var last := keys[|keys| - 1];
      var r := RemovedEntries(keys[..|keys| - 1], nodeIds, groupIds);
      assert forall k :: k in keys <==> k in keys[..|keys| - 1] || k == last;
      r + (if last !in nodeIds && last !in groupIds then [last] else [])
  }

  /**
   * The removed keys keep the file's order: those of an earlier stretch
   * of keys come before those of a later one (RemovedEntriesInOrder), and
   * a single key is reported exactly when neither a node nor a group has
   * its id (RemovedEntry).
   */
  lemma {:induction false} RemovedEntriesInOrder(a: seq<string>, b: seq<string>, nodeIds: set<string>, groupIds: set<string>)
    ensures RemovedEntries(a + b, nodeIds, groupIds) == RemovedEntries(a, nodeIds, groupIds) + RemovedEntries(b, nodeIds, groupIds)
    decreases |b|
  {
    if b == [] {
      assert a + b == a;
    } else {
      var b', last := b[..|b| - 1], b[|b| - 1];
      var tail := if last !in nodeIds && last !in groupIds then [last] else [];
      RemovedEntriesInOrder(a, b', nodeIds, groupIds);
      assert (a + b)[..|a + b| - 1] == a + b';
      assert (a + b)[|a + b| - 1] == last;
      calc {
        RemovedEntries(a + b, nodeIds, groupIds);
        RemovedEntries(a + b', nodeIds, groupIds) + tail;
        RemovedEntries(a, nodeIds, groupIds) + RemovedEntries(b', nodeIds, groupIds) + tail;
        RemovedEntries(a, nodeIds, groupIds) + (RemovedEntries(b', nodeIds, groupIds) + tail);
        RemovedEntries(a, nodeIds, groupIds) + RemovedEntries(b, nodeIds, groupIds);
      }
    }
  }

  lemma RemovedEntry(k: string, nodeIds: set<string>, groupIds: set<string>)
    ensures RemovedEntries([k], nodeIds, groupIds) == (if k !in nodeIds && k !in groupIds then [k] else [])
  {
    assert [k][..0] == [];
  }
}
