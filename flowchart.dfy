/**
 * The Mermaid flow-chart generator of the v3 pipeline
 * (functions/api/pipeline-v3/visualization/FlowDiagram.ts): node shapes,
 * icons and classes from the node type, arrows and labels from the
 * connection's output, the full and the simplified chart, the Markdown
 * details of a node and a connection, and the workflow statistics.
 *
 * The generator reads workflow definitions loosely (`any[]`), including
 * fields the engine ignores (`icon`, `comment`, `description`,
 * `position`), so it has its own view of nodes and connections. A string
 * field that JavaScript would find falsy is `None` or `Some("")`; both
 * count as absent.
 */
module Flowchart {
  import opened Common

  datatype Position = Position(x: int, y: int)

  datatype ChartNode = ChartNode(
    id: string, typeName: string, name: string, icon: Option<string>,
    description: Option<string>, config: Option<map<string, Value>>, position: Option<Position>)

  datatype ChartLink = ChartLink(
    from: string, to: string, fromOutput: Option<string>, comment: Option<string>, condition: Option<string>)

  datatype ChartWorkflow = ChartWorkflow(id: string, name: string, version: string, nodes: seq<ChartNode>, connections: seq<ChartLink>)

  /** The part of `FlowDiagramConfig` the model reads. */
  datatype ChartConfig = ChartConfig(direction: string, showConfig: bool)

  /** The shapes `getNodeShape` can choose. */
  datatype Shape = Rectangle | RoundedRectangle | Stadium | Subroutine | Diamond

  /** One entry of a `Record<string, number>` count, in insertion order. */
  datatype Entry = Entry(key: string, count: nat)

  datatype WorkflowStats = WorkflowStats(
    id: string, name: string, version: string, totalNodes: nat, totalConnections: nat,
    nodeTypes: seq<Entry>, connectionTypes: seq<Entry>, complexity: nat)

  /** A JavaScript string that is present and non-empty (truthy). */
  predicate Present(s: Option<string>)
  {
    s.Some? && s.value != ""
  }

  /** `new FlowDiagram(config)`: direction `TD` and no configuration details unless configured. */
  function NewConfig(direction: Option<string>, showConfig: Option<bool>): (c: ChartConfig)
    ensures c.direction == (if direction.Some? then direction.value else "TD")
    ensures c.showConfig == (showConfig.Some? && showConfig.value)
  {
    ChartConfig(if direction.Some? then direction.value else "TD", showConfig.Some? && showConfig.value)
  }

  // ---------------------------------------------------------------------
  // Nodes

  /** `getNodeShape`: decision/check, then start/end, then validate, then response/output. */
  function NodeShape(typeName: string): (s: Shape)
    ensures s == Diamond <==> Contains(typeName, "decision") || Contains(typeName, "check")
    ensures s == Stadium <==> !Contains(typeName, "decision") && !Contains(typeName, "check")
                              && (Contains(typeName, "start") || Contains(typeName, "end"))
    ensures s == Subroutine ==> Contains(typeName, "validate")
    ensures s == RoundedRectangle ==> Contains(typeName, "response") || Contains(typeName, "output")
    ensures s == Rectangle <==> (!Contains(typeName, "decision") && !Contains(typeName, "check")
      && !Contains(typeName, "start") && !Contains(typeName, "end") && !Contains(typeName, "validate")
      && !Contains(typeName, "response") && !Contains(typeName, "output"))
  {
    if Contains(typeName, "decision") || Contains(typeName, "check") then Diamond
    else if Contains(typeName, "start") || Contains(typeName, "end") then Stadium
    else if Contains(typeName, "validate") then Subroutine
    else if Contains(typeName, "response") || Contains(typeName, "output") then RoundedRectangle
    else Rectangle
  }

  /** `getNodeClassName`: validate, then check/decision, then response/output, then error, else processing; never null. */
  function ClassName(typeName: string): (c: string)
    ensures c in {"validation", "decision", "output", "error", "processing"}
    ensures c == "validation" <==> Contains(typeName, "validate")
    ensures c == "processing" <==> (!Contains(typeName, "validate") && !Contains(typeName, "check")
      && !Contains(typeName, "decision") && !Contains(typeName, "response") && !Contains(typeName, "output")
      && !Contains(typeName, "error"))
  {
    if Contains(typeName, "validate") then "validation"
    else if Contains(typeName, "check") || Contains(typeName, "decision") then "decision"
    else if Contains(typeName, "response") || Contains(typeName, "output") then "output"
    else if Contains(typeName, "error") then "error"
    else "processing"
  }

  /** The two priorities differ: a validating check is drawn as a decision but styled as a validation. */
  lemma ShapeAndClassPrioritiesDiffer()
    ensures NodeShape("validate-check") == Diamond && ClassName("validate-check") == "validation"
  {
    var t := "validate-check";
    assert IsPrefix("check", t[9..]);
    assert IsPrefix("validate", t[0..]);
  }

  /** The default icon of each node type. */
  function TypeIcon(typeName: string): Option<string>
  {
    match typeName
    case "validate-request" => Some("🔍")
    case "initialize-services" => Some("⚙️")
    case "context-management" => Some("💬")
    case "intent-extraction" => Some("🎯")
    case "state-transition" => Some("🔄")
    case "special-intents" => Some("⚡")
    case "faq-check" => Some("❓")
    case "llm-generation" => Some("🤖")
    case "build-response" => Some("📦")
    case _ => None
  }

  /** `getNodeIcon`: the node's own icon, else the type's, else a pin. */
  function NodeIcon(n: ChartNode): (icon: string)
    ensures Present(n.icon) ==> icon == n.icon.value
    ensures !Present(n.icon) && TypeIcon(n.typeName).None? ==> icon == "📌"
    ensures icon != ""
  {
    if Present(n.icon) then n.icon.value
    else if TypeIcon(n.typeName).Some? then TypeIcon(n.typeName).value
    else "📌"
  }

  /** `generateNodeDefinition`: the label `icon name` inside the shape's brackets. */
  function NodeLine(n: ChartNode): string
  {
    var text := "\"" + NodeIcon(n) + " " + n.name + "\"";
    var (open, close) := Brackets(NodeShape(n.typeName));
    "  " + n.id + open + text + close
  }

  /** The opening and closing brackets of a shape. */
  function Brackets(s: Shape): (string, string)
  {
    match s
    case RoundedRectangle => ("(", ")")
    case Stadium => ("([", "])")
    case Subroutine => ("[[", "]]")
    case Diamond => ("{", "}")
    case Rectangle => ("[", "]")
  }

  // ---------------------------------------------------------------------
  // Connections

  /** `getArrowStyle`: dotted for `error`, thick for `response`, plain otherwise, including no output. */
  function ArrowStyle(output: Option<string>): (a: string)
    ensures Present(output) && output.value == "error" ==> a == "-.->"
    ensures Present(output) && output.value == "response" ==> a == "==>"
    ensures !(Present(output) && output.value in {"error", "response"}) ==> a == "-->"
  {
    if !Present(output) then "-->"
    else if output.value == "error" then "-.->"
    else if output.value == "response" then "==>"
    else "-->"
  }

  /** The label of a connection: its output and its comment, joined by `<br/>` when both are present. */
  function LinkLabel(c: ChartLink): (text: string)
    ensures Present(c.fromOutput) && Present(c.comment) ==> text == c.fromOutput.value + "<br/>" + c.comment.value
    ensures Present(c.fromOutput) && !Present(c.comment) ==> text == c.fromOutput.value
    ensures !Present(c.fromOutput) && Present(c.comment) ==> text == c.comment.value
    ensures text == "" <==> !Present(c.fromOutput) && !Present(c.comment)
  {
    var text := if Present(c.fromOutput) then c.fromOutput.value else "";
    if Present(c.comment) then (if text != "" then text + "<br/>" + c.comment.value else c.comment.value)
    else text
  }

  /** Some node of `nodes` has id `id` (`nodes.find` succeeds). */
  predicate HasNode(nodes: seq<ChartNode>, id: string)
  {
    exists i :: 0 <= i < |nodes| && nodes[i].id == id
  }

  /** `generateConnectionDefinition`: a warning comment when an endpoint is missing, else the arrow with its label. */
  function LinkLine(c: ChartLink, nodes: seq<ChartNode>): (line: string)
    ensures !HasNode(nodes, c.from) || !HasNode(nodes, c.to) ==>
      line == "  %% Warning: Connection from " + c.from + " to " + c.to + " has missing nodes"
    ensures HasNode(nodes, c.from) && HasNode(nodes, c.to) && LinkLabel(c) != "" ==>
      line == "  " + c.from + " " + ArrowStyle(c.fromOutput) + "|\"" + LinkLabel(c) + "\"| " + c.to
    ensures HasNode(nodes, c.from) && HasNode(nodes, c.to) && LinkLabel(c) == "" ==>
      line == "  " + c.from + " " + ArrowStyle(c.fromOutput) + " " + c.to
  {
    if !HasNode(nodes, c.from) || !HasNode(nodes, c.to) then
      "  %% Warning: Connection from " + c.from + " to " + c.to + " has missing nodes"
    else if LinkLabel(c) != "" then
      "  " + c.from + " " + ArrowStyle(c.fromOutput) + "|\"" + LinkLabel(c) + "\"| " + c.to
    else
      "  " + c.from + " " + ArrowStyle(c.fromOutput) + " " + c.to
  }

  // ---------------------------------------------------------------------
  // The charts

  function NodeLines(nodes: seq<ChartNode>): (r: seq<string>)
    ensures |r| == |nodes| && forall i :: 0 <= i < |nodes| ==> r[i] == NodeLine(nodes[i])
  {
    if nodes == [] then [] else NodeLines(nodes[..|nodes| - 1]) + [NodeLine(nodes[|nodes| - 1])]
  }

  function LinkLines(links: seq<ChartLink>, nodes: seq<ChartNode>): (r: seq<string>)
    ensures |r| == |links| && forall i :: 0 <= i < |links| ==> r[i] == LinkLine(links[i], nodes)
  {
    if links == [] then []
    else
      var init := links[..|links| - 1];
      assert forall i :: 0 <= i < |init| ==> init[i] == links[i];
      LinkLines(init, nodes) + [LinkLine(links[|links| - 1], nodes)]
  }

  /** `class <id> <className>`: every node gets one, since the class name is never null. */
  function ClassLine(n: ChartNode): string
  {
    "  class " + n.id + " " + ClassName(n.typeName)
  }

  function ClassLines(nodes: seq<ChartNode>): (r: seq<string>)
    ensures |r| == |nodes| && forall i :: 0 <= i < |nodes| ==> r[i] == ClassLine(nodes[i])
  {
    if nodes == [] then [] else ClassLines(nodes[..|nodes| - 1]) + [ClassLine(nodes[|nodes| - 1])]
  }

  /** The lines of `generateMermaid` (without custom node styles). */
  function MermaidLines(cfg: ChartConfig, wf: ChartWorkflow): (lines: seq<string>)
    ensures |lines| == 2 * |wf.nodes| + |wf.connections| + 14
    ensures lines[0] == "graph " + cfg.direction
  {
    Assemble(MermaidHead(cfg, wf.nodes), LinkLines(wf.connections, wf.nodes), ClassLines(wf.nodes))
  }

  /** The sections of the full chart in order, with the class definitions between the connections and the `class` lines. */
  function Assemble(head: seq<string>, links: seq<string>, classes: seq<string>): (lines: seq<string>)
    ensures |lines| == |head| + |links| + 9 + |classes|
    ensures forall i :: 0 <= i < |head| ==> lines[i] == head[i]
    ensures forall j :: 0 <= j < |links| ==> lines[|head| + j] == links[j]
    ensures forall i :: 0 <= i < |classes| ==> lines[|head| + |links| + 9 + i] == classes[i]
  {
    assert |MermaidMiddle| == 9;
    head + links + MermaidMiddle + classes
  }

  /** The header and the node section of the full chart. */
  function MermaidHead(cfg: ChartConfig, nodes: seq<ChartNode>): (h: seq<string>)
    ensures |h| == 5 + |nodes| && h[0] == "graph " + cfg.direction
    ensures forall i :: 0 <= i < |nodes| ==> h[3 + i] == NodeLine(nodes[i])
  {
    ["graph " + cfg.direction, "", "  %% 节点定义"] + NodeLines(nodes) + ["", "  %% 连接定义"]
  }

  /** Between the connections and the `class` lines: the fixed class definitions. */
  const MermaidMiddle: seq<string> := [
    "",
    "  %% 类定义",
    "  classDef validation fill:#2196F3,stroke:#1976D2,stroke-width:2px,color:#fff",
    "  classDef processing fill:#FF9800,stroke:#F57C00,stroke-width:2px,color:#fff",
    "  classDef decision fill:#9C27B0,stroke:#7B1FA2,stroke-width:2px,color:#fff",
    "  classDef output fill:#4CAF50,stroke:#388E3C,stroke-width:2px,color:#fff",
    "  classDef error fill:#F44336,stroke:#D32F2F,stroke-width:2px,color:#fff",
    "",
    "  %% 应用类"]

  /** `generateMermaid(workflow)`: the lines joined by newlines. */
  function GenerateMermaid(cfg: ChartConfig, wf: ChartWorkflow): (r: string)
    ensures "graph " + cfg.direction <= r
  {
    Join(MermaidLines(cfg, wf), '\n')
  }

  /**
   * The full chart opens with its direction and draws every node once, in
   * the workflow's order.
   */
  lemma FullChartLines(cfg: ChartConfig, wf: ChartWorkflow)
    ensures var lines := MermaidLines(cfg, wf); var n := |wf.nodes|;
      && |lines| == 2 * n + |wf.connections| + 14 && lines[0] == "graph " + cfg.direction
      && (forall i :: 0 <= i < n ==> lines[3 + i] == NodeLine(wf.nodes[i]))
  {
    var head := MermaidHead(cfg, wf.nodes);
    AssembledAt(head, LinkLines(wf.connections, wf.nodes), ClassLines(wf.nodes), 5 + |wf.nodes|, |wf.connections|, |wf.nodes|);
  }

  /** Every connection is drawn once, in order (a warning in place of a connection with a missing end). */
  lemma ChartLinkLines(cfg: ChartConfig, wf: ChartWorkflow)
    ensures var lines := MermaidLines(cfg, wf); var n := |wf.nodes|; var m := |wf.connections|;
      && |lines| == 2 * n + m + 14
      && (forall j :: 0 <= j < m ==> lines[5 + n + j] == LinkLine(wf.connections[j], wf.nodes))
  {
    var head := MermaidHead(cfg, wf.nodes);
    var links := LinkLines(wf.connections, wf.nodes);
    AssembledAt(head, links, ClassLines(wf.nodes), 5 + |wf.nodes|, |wf.connections|, |wf.nodes|);
    var lines := MermaidLines(cfg, wf);
    forall j | 0 <= j < |wf.connections|
      ensures lines[5 + |wf.nodes| + j] == LinkLine(wf.connections[j], wf.nodes)
    {
      assert lines[5 + |wf.nodes| + j] == links[j];
    }
  }

  /** The chart ends with one `class` line per node, in order. */
  lemma ChartClassLines(cfg: ChartConfig, wf: ChartWorkflow)
    ensures MermaidLines(cfg, wf)[14 + |wf.nodes| + |wf.connections|..] == ClassLines(wf.nodes)
  {
    var head := MermaidHead(cfg, wf.nodes);
    var classes := ClassLines(wf.nodes);
    var n, m := |wf.nodes|, |wf.connections|;
    AssembledAt(head, LinkLines(wf.connections, wf.nodes), classes, 5 + n, m, n);
    var lines := MermaidLines(cfg, wf);
    var tail := lines[14 + n + m..];
    forall i | 0 <= i < n
      ensures tail[i] == classes[i]
    {
      assert tail[i] == lines[14 + n + m + i];
    }
  }

  /** `Assemble` with the section lengths named. */
  lemma AssembledAt(head: seq<string>, links: seq<string>, classes: seq<string>, h: nat, m: nat, c: nat)
    requires |head| == h && |links| == m && |classes| == c
    ensures var lines := Assemble(head, links, classes);
      && |lines| == h + m + 9 + c
      && (forall i :: 0 <= i < h ==> lines[i] == head[i])
      && (forall j :: 0 <= j < m ==> lines[h + j] == links[j])
      && (forall i :: 0 <= i < c ==> lines[h + m + 9 + i] == classes[i])
  {
  }

  /** A connection on the main path: no output, `success` or `continue`. */
  predicate MainPath(c: ChartLink)
  {
    !Present(c.fromOutput) || c.fromOutput.value == "success" || c.fromOutput.value == "continue"
  }

  /** `connections.filter(...)`: the main-path connections, in order. */
  function MainLinks(links: seq<ChartLink>): (r: seq<ChartLink>)
    ensures forall c :: c in r <==> c in links && MainPath(c)
    ensures |r| <= |links|
  {
    if links == [] then []
    else
      var rest := MainLinks(links[..|links| - 1]);
      var c := links[|links| - 1];
      assert links == links[..|links| - 1] + [c];
      if MainPath(c) then rest + [c] else rest
  }

  /** The ids at either end of the connections. */
  function Endpoints(links: seq<ChartLink>): (ids: set<string>)
    ensures forall id :: id in ids <==> exists c :: c in links && (c.from == id || c.to == id)
  {
    (set c | c in links :: c.from) + (set c | c in links :: c.to)
  }

  /** `nodes.filter(n => usedNodeIds.has(n.id))`, in order. */
  function UsedNodes(nodes: seq<ChartNode>, ids: set<string>): (r: seq<ChartNode>)
    ensures forall n :: n in r <==> n in nodes && n.id in ids
    ensures |r| <= |nodes|
  {
    if nodes == [] then []
    else
      var rest := UsedNodes(nodes[..|nodes| - 1], ids);
      var n := nodes[|nodes| - 1];
      assert nodes == nodes[..|nodes| - 1] + [n];
      if n.id in ids then rest + [n] else rest
  }

  /**
   * The lines of `generateSimplifiedMermaid`: only the main-path
   * connections and the nodes they touch. Connection lines still look up
   * endpoints among all nodes.
   */
  function SimplifiedLines(cfg: ChartConfig, wf: ChartWorkflow): (lines: seq<string>)
  {
    var links := MainLinks(wf.connections);
    ["graph " + cfg.direction, ""] + NodeLines(UsedNodes(wf.nodes, Endpoints(links))) + [""]
    + LinkLines(links, wf.nodes)
  }

  /** `generateSimplifiedMermaid(workflow)`. */
  function GenerateSimplifiedMermaid(cfg: ChartConfig, wf: ChartWorkflow): (r: string)
    ensures "graph " + cfg.direction <= r
  {
    Join(SimplifiedLines(cfg, wf), '\n')
  }

  /**
   * The simplified chart draws a node exactly when it is a node of the
   * workflow at one end of a main-path connection, and a connection line
   * exactly for each main-path connection.
   */
  lemma SimplifiedKeepsMainPath(cfg: ChartConfig, wf: ChartWorkflow)
    ensures var links := MainLinks(wf.connections); var used := UsedNodes(wf.nodes, Endpoints(links));
      SimplifiedLines(cfg, wf) == ["graph " + cfg.direction, ""] + NodeLines(used) + [""] + LinkLines(links, wf.nodes)
      && (forall n :: n in used <==> n in wf.nodes && exists c :: c in wf.connections && MainPath(c) && (c.from == n.id || c.to == n.id))
      && (forall c :: c in links <==> c in wf.connections && MainPath(c))
  {
    var links := MainLinks(wf.connections);
    var used := UsedNodes(wf.nodes, Endpoints(links));
    forall n
      ensures n in used <==> n in wf.nodes && exists c :: c in wf.connections && MainPath(c) && (c.from == n.id || c.to == n.id)
    {
      if n in wf.nodes && exists c :: c in wf.connections && MainPath(c) && (c.from == n.id || c.to == n.id) {
        var c :| c in wf.connections && MainPath(c) && (c.from == n.id || c.to == n.id);
        assert c in links;
      }
    }
  }

  // ---------------------------------------------------------------------
  // Details

  /** The lines of `generateNodeDetails`; `json` is `JSON.stringify(config, null, 2)`. */
  function NodeDetailLines(cfg: ChartConfig, n: ChartNode, json: map<string, Value> -> string): (lines: seq<string>)
    ensures |lines| >= 5 && lines[0] == "### " + n.name
    ensures lines[2] == "**ID**: `" + n.id + "`" && lines[3] == "**类型**: `" + n.typeName + "`"
    ensures |lines| == 5 + (if Present(n.description) then 2 else 0)
      + (if n.config.Some? && cfg.showConfig then 5 else 0) + (if n.position.Some? then 2 else 0)
  {
    ["### " + n.name, "", "**ID**: `" + n.id + "`", "**类型**: `" + n.typeName + "`", ""]
    + (if Present(n.description) then ["**描述**: " + n.description.value, ""] else [])
    + (if n.config.Some? && cfg.showConfig then ["**配置**:", "```json", json(n.config.value), "```", ""] else [])
    + (if n.position.Some? then ["**位置**: x=" + IntToString(n.position.value.x) + ", y=" + IntToString(n.position.value.y), ""] else [])
  }

  /** `generateNodeDetails(node)`. */
  function GenerateNodeDetails(cfg: ChartConfig, n: ChartNode, json: map<string, Value> -> string): (r: string)
    ensures "### " + n.name <= r
  {
    Join(NodeDetailLines(cfg, n, json), '\n')
  }

  /** The lines of `generateConnectionDetails`: a heading, then output, comment and condition when present. */
  function LinkDetailLines(c: ChartLink): (lines: seq<string>)
    ensures |lines| == 2 + (if Present(c.fromOutput) then 1 else 0) + (if Present(c.comment) then 1 else 0)
      + (if Present(c.condition) then 1 else 0)
    ensures lines[0] == "### 连接: " + c.from + " → " + c.to
  {
    ["### 连接: " + c.from + " → " + c.to, ""]
    + (if Present(c.fromOutput) then ["**输出**: `" + c.fromOutput.value + "`"] else [])
    + (if Present(c.comment) then ["**说明**: " + c.comment.value] else [])
    + (if Present(c.condition) then ["**条件**: `" + c.condition.value + "`"] else [])
  }

  /** `generateConnectionDetails(connection)`. */
  function GenerateConnectionDetails(c: ChartLink): string
  {
    Join(LinkDetailLines(c), '\n')
  }

  // ---------------------------------------------------------------------
  // Statistics

  /** The sum of the counts. */
  function Total(stats: seq<Entry>): nat
  {
    if stats == [] then 0 else stats[0].count + Total(stats[1..])
  }

  /** The count recorded under `k` (the sum over entries with that key). */
  function CountOf(stats: seq<Entry>, k: string): nat
  {
    if stats == [] then 0 else (if stats[0].key == k then stats[0].count else 0) + CountOf(stats[1..], k)
  }

  predicate KeysDistinct(stats: seq<Entry>)
  {
    forall i, j :: 0 <= i < j < |stats| ==> stats[i].key != stats[j].key
  }

  /** How often `k` occurs in `xs`. */
  function Occurrences(xs: seq<string>, k: string): nat
  {
    if xs == [] then 0 else Occurrences(xs[..|xs| - 1], k) + (if xs[|xs| - 1] == k then 1 else 0)
  }

  /** `stats[k] = (stats[k] || 0) + 1`: a known key is incremented in place, a new one is added last with 1. */
  function Bump(stats: seq<Entry>, k: string): (r: seq<Entry>)
    ensures (exists i :: 0 <= i < |stats| && stats[i].key == k) ==> |r| == |stats|
    ensures (forall i :: 0 <= i < |stats| ==> stats[i].key != k) ==> r == stats + [Entry(k, 1)]
    ensures forall i :: 0 <= i < |stats| ==> r[i].key == stats[i].key
  {
    if stats == [] then [Entry(k, 1)]
    else if stats[0].key == k then [stats[0].(count := stats[0].count + 1)] + stats[1..]
    else
      var tail := stats[1..];
      var rest := Bump(tail, k);
      assert stats == [stats[0]] + tail;
      assert forall i :: 1 <= i < |stats| ==> stats[i] == tail[i - 1];
      assert (exists i :: 0 <= i < |stats| && stats[i].key == k) ==> (exists i :: 0 <= i < |tail| && tail[i].key == k);
      [stats[0]] + rest
  }

  /** A bump adds one to the total, one to its own key and nothing to the others, and keeps keys distinct. */
  lemma BumpCounts(stats: seq<Entry>, k: string)
    ensures Total(Bump(stats, k)) == Total(stats) + 1
    ensures forall x :: CountOf(Bump(stats, k), x) == CountOf(stats, x) + (if x == k then 1 else 0)
    ensures KeysDistinct(stats) ==> KeysDistinct(Bump(stats, k))
  {
    BumpTotal(stats, k);
    forall x ensures CountOf(Bump(stats, k), x) == CountOf(stats, x) + (if x == k then 1 else 0) {
      BumpCountOf(stats, k, x);
    }
    if KeysDistinct(stats) {
      BumpDistinct(stats, k);
    }
  }

  lemma {:induction false} BumpTotal(stats: seq<Entry>, k: string)
    ensures Total(Bump(stats, k)) == Total(stats) + 1
  {
    if stats != [] {
      var r := Bump(stats, k);
      if stats[0].key == k {
        assert r[1..] == stats[1..];
      } else {
        BumpTotal(stats[1..], k);
        assert r[1..] == Bump(stats[1..], k);
      }
    } else {
      assert Bump(stats, k)[1..] == [];
    }
  }

  lemma {:induction false} BumpCountOf(stats: seq<Entry>, k: string, x: string)
    ensures CountOf(Bump(stats, k), x) == CountOf(stats, x) + (if x == k then 1 else 0)
  {
    if stats != [] {
      var r := Bump(stats, k);
      if stats[0].key == k {
        assert r[1..] == stats[1..];
      } else {
        BumpCountOf(stats[1..], k, x);
        assert r[1..] == Bump(stats[1..], k);
      }
    } else {
      assert Bump(stats, k)[1..] == [];
    }
  }

  lemma {:induction false} BumpDistinct(stats: seq<Entry>, k: string)
    requires KeysDistinct(stats)
    ensures KeysDistinct(Bump(stats, k))
  {
    if stats != [] && stats[0].key != k {
      var r := Bump(stats, k);
      assert KeysDistinct(stats[1..]);
      BumpDistinct(stats[1..], k);
      assert r[1..] == Bump(stats[1..], k);
      forall i | 1 <= i < |r|
        ensures r[i].key != r[0].key
      {
        if i < |stats| {
          assert r[i].key == stats[i].key;
        } else {
          assert r[1..] == stats[1..] + [Entry(k, 1)];
        }
      }
      forall i, j | 0 <= i < j < |r| ensures r[i].key != r[j].key {
        if i > 0 {
          assert r[i] == r[1..][i - 1] && r[j] == r[1..][j - 1];
        }
      }
    } else if stats != [] {
      var r := Bump(stats, k);
      forall i, j | 0 <= i < j < |r| ensures r[i].key != r[j].key {
        assert r[i].key == stats[i].key && r[j].key == stats[j].key;
      }
    }
  }

  /** The counts of `xs`, keys in order of first occurrence. */
  function Tally(xs: seq<string>): seq<Entry>
  {
    if xs == [] then [] else Bump(Tally(xs[..|xs| - 1]), xs[|xs| - 1])
  }

  /**
   * The counts sum to the number of items, every key is counted as often
   * as it occurs, and no key appears twice.
   */
  lemma {:induction false} TallyCounts(xs: seq<string>)
    ensures Total(Tally(xs)) == |xs|
    ensures forall k :: CountOf(Tally(xs), k) == Occurrences(xs, k)
    ensures KeysDistinct(Tally(xs))
  {
    if xs != [] {
      TallyCounts(xs[..|xs| - 1]);
      BumpCounts(Tally(xs[..|xs| - 1]), xs[|xs| - 1]);
    }
  }

  /** The loop of `getNodeTypeStats` and `getConnectionTypeStats` over the keys it counts. */
  method CountKeys(xs: seq<string>) returns (stats: seq<Entry>)
    ensures stats == Tally(xs)
    ensures Total(stats) == |xs|
  {
    stats := [];
    for i := 0 to |xs|
      invariant stats == Tally(xs[..i])
    {
      assert xs[..i + 1][..i] == xs[..i];
      stats := Bump(stats, xs[i]);
    }
    assert xs[..|xs|] == xs;
    TallyCounts(xs);
  }

  /** The node types, in order. */
  function NodeTypes(nodes: seq<ChartNode>): (r: seq<string>)
    ensures |r| == |nodes| && forall i :: 0 <= i < |nodes| ==> r[i] == nodes[i].typeName
  {
    if nodes == [] then [] else NodeTypes(nodes[..|nodes| - 1]) + [nodes[|nodes| - 1].typeName]
  }

  /** The connection type, `fromOutput || 'default'`. */
  function LinkType(c: ChartLink): string
  {
    if Present(c.fromOutput) then c.fromOutput.value else "default"
  }

  function LinkTypes(links: seq<ChartLink>): (r: seq<string>)
    ensures |r| == |links| && forall i :: 0 <= i < |links| ==> r[i] == LinkType(links[i])
  {
    if links == [] then [] else LinkTypes(links[..|links| - 1]) + [LinkType(links[|links| - 1])]
  }

  /** The number of branches: connections with an output other than `success`. */
  function Branches(links: seq<ChartLink>): (b: nat)
    ensures b <= |links|
  {
    if links == [] then 0
    else
      var c := links[|links| - 1];
      Branches(links[..|links| - 1]) + (if Present(c.fromOutput) && c.fromOutput.value != "success" then 1 else 0)
  }

  /** `calculateComplexity`: nodes + connections + 2 per branch. */
  function Complexity(wf: ChartWorkflow): (c: nat)
    ensures |wf.nodes| + |wf.connections| <= c <= |wf.nodes| + 3 * |wf.connections|
    ensures c == |wf.nodes| + |wf.connections| <==> Branches(wf.connections) == 0
  {
    |wf.nodes| + |wf.connections| + 2 * Branches(wf.connections)
  }

  /** A workflow whose connections all leave through `success` has no branches. */
  lemma {:induction false} SuccessOnlyIsLinear(links: seq<ChartLink>)
    requires forall i :: 0 <= i < |links| ==> links[i].fromOutput == Some("success")
    ensures Branches(links) == 0
  {
    if links != [] {
      SuccessOnlyIsLinear(links[..|links| - 1]);
    }
  }

  /**
   * `generateWorkflowStats(workflow)`: the counts by node type and by
   * connection type sum to the node and connection counts.
   */
  method GenerateWorkflowStats(wf: ChartWorkflow) returns (s: WorkflowStats)
    ensures s.id == wf.id && s.name == wf.name && s.version == wf.version
    ensures s.totalNodes == |wf.nodes| && s.totalConnections == |wf.connections|
    ensures s.nodeTypes == Tally(NodeTypes(wf.nodes)) && Total(s.nodeTypes) == |wf.nodes|
    ensures s.connectionTypes == Tally(LinkTypes(wf.connections)) && Total(s.connectionTypes) == |wf.connections|
    ensures s.complexity == Complexity(wf)
  {
    var nodeTypes := CountKeys(NodeTypes(wf.nodes));
    var linkTypes := CountKeys(LinkTypes(wf.connections));
    s := WorkflowStats(wf.id, wf.name, wf.version, |wf.nodes|, |wf.connections|, nodeTypes, linkTypes, Complexity(wf));
  }
}
