/** The Alerts & Logs page: the alert and log filters, and the network
    scene (node colouring and placement, the edge-selection rule, and the
    per-frame node drift and line pulse). */
module AlertsLogs {
  import opened Trig
  import opened Text
  import opened Seqs
  import Palette

  datatype AlertType = Critical | Warning | Info

  datatype Alert = Alert(
    id: int,
    kind: AlertType,
    system: string,
    message: string,
    timestamp: string,
    resolved: bool)

  datatype LogLevel = ERROR | WARN | INFO | DEBUG

  datatype LogEntry = LogEntry(
    id: int,
    level: LogLevel,
    system: string,
    message: string,
    timestamp: string)

  /** The type/level selector: "all" or one specific value. */
  datatype Selector<K> = All | Only(choice: K)

  predicate Selects<K(==)>(sel: Selector<K>, k: K) {
    sel.All? || sel.choice == k
  }

  /** Case-insensitive search over the message or the system name. */
  predicate MatchesSearch(message: string, system: string, query: string) {
    Contains(Lower(message), Lower(query)) || Contains(Lower(system), Lower(query))
  }

  predicate AlertKept(a: Alert, sel: Selector<AlertType>, query: string) {
    Selects(sel, a.kind) && MatchesSearch(a.message, a.system, query)
  }

  predicate LogKept(l: LogEntry, sel: Selector<LogLevel>, query: string) {
    Selects(sel, l.level) && MatchesSearch(l.message, l.system, query)
  }

  /** `filteredAlerts`: an alert is kept iff its type is selected and the
      query occurs in its message or system; order is preserved. */
  function FilterAlerts(alerts: seq<Alert>, sel: Selector<AlertType>, query: string): (r: seq<Alert>)
    ensures forall a :: a in r <==> a in alerts && AlertKept(a, sel, query)
    ensures Subseq(r, alerts)
    ensures forall a :: multiset(r)[a] == if AlertKept(a, sel, query) then multiset(alerts)[a] else 0
  {
    FilterIsSubseq(alerts, a => AlertKept(a, sel, query));
    FilterMultiplicity(alerts, a => AlertKept(a, sel, query));
    Filter(alerts, a => AlertKept(a, sel, query))
  }

  /** `filteredLogs`: a log line is kept iff its level is selected and the
      query occurs in its message or system; order is preserved. */
  function FilterLogs(logs: seq<LogEntry>, sel: Selector<LogLevel>, query: string): (r: seq<LogEntry>)
    ensures forall l :: l in r <==> l in logs && LogKept(l, sel, query)
    ensures Subseq(r, logs)
    ensures forall l :: multiset(r)[l] == if LogKept(l, sel, query) then multiset(logs)[l] else 0
  {
    FilterIsSubseq(logs, l => LogKept(l, sel, query));
    FilterMultiplicity(logs, l => LogKept(l, sel, query));
    Filter(logs, l => LogKept(l, sel, query))
  }

  /** An empty query matches every record. */
  lemma EmptyQueryMatches(message: string, system: string)
    ensures MatchesSearch(message, system, "")
  {
    assert Lower("") == "";
    ContainsEmpty(Lower(message));
  }

  /** With "all" selected and an empty query both lists come back whole. */
  lemma UnfilteredIsIdentity(alerts: seq<Alert>, logs: seq<LogEntry>)
    ensures FilterAlerts(alerts, All, "") == alerts
    ensures FilterLogs(logs, All, "") == logs
  {
    forall a | a in alerts
      ensures AlertKept(a, All, "")
    {
      EmptyQueryMatches(a.message, a.system);
    }
    FilterKeepsAll(alerts, a => AlertKept(a, All, ""));
    forall l | l in logs
      ensures LogKept(l, All, "")
    {
      EmptyQueryMatches(l.message, l.system);
    }
    FilterKeepsAll(logs, l => LogKept(l, All, ""));
  }

  /** Narrowing the selector from "all" to one type keeps a subsequence of
      what "all" shows for the same query. */
  lemma NarrowingSelectsSubseq(alerts: seq<Alert>, logs: seq<LogEntry>,
                               kind: AlertType, level: LogLevel, query: string)
    ensures Subseq(FilterAlerts(alerts, Only(kind), query), FilterAlerts(alerts, All, query))
    ensures Subseq(FilterLogs(logs, Only(level), query), FilterLogs(logs, All, query))
  {
    FilterMonotone(alerts, a => AlertKept(a, Only(kind), query), a => AlertKept(a, All, query));
    FilterMonotone(logs, l => LogKept(l, Only(level), query), l => LogKept(l, All, query));
  }

  // ---------------------------------------------------------------------
  // Network scene

  /** `nodeCount` in `createNodes`. */
  const NodeCount: nat := 12

  /** Node colour, cycling red, blue, amber with the index. */
  function NodeColor(i: nat): (c: string)
    ensures c == Palette.Red <==> i % 3 == 0
    ensures c == Palette.Blue <==> i % 3 == 1
    ensures c == Palette.Amber <==> i % 3 == 2
  {
    if i % 3 == 0 then Palette.Red else if i % 3 == 1 then Palette.Blue else Palette.Amber
  }

  lemma NodeColorPeriodic(i: nat)
    ensures NodeColor(i + 3) == NodeColor(i)
  {
  }

  /** The random parts of a node: orbit radius, height and sphere size. */
  datatype NodeSpec = NodeSpec(index: nat, radius: real, y: real, size: real, color: string)

  /** `createNodes`, consuming three `Math.random()` draws per node (radius,
      height, size) in that order. Positions on the circle are not
      modelled. */
  function CreateNodes(draw: nat -> Unit): (r: seq<NodeSpec>)
    ensures |r| == NodeCount
    ensures forall i :: 0 <= i < |r| ==>
      r[i].index == i && r[i].color == NodeColor(i)
      && 3.0 <= r[i].radius < 4.0
      && -1.0 <= r[i].y < 1.0
      && 0.2 <= r[i].size < 0.4
  {
    seq(NodeCount, i requires 0 <= i < NodeCount =>
      NodeSpec(i, 3.0 + draw(3 * i), draw(3 * i + 1) * 2.0 - 1.0,
               0.2 + draw(3 * i + 2) * 0.2, NodeColor(i)))
  }

  /** A line between nodes `a` and `b`. */
  datatype Edge = Edge(a: nat, b: nat)

  /** Pairs whose indices are both multiples of 4 are always connected. */
  predicate Backbone(i: nat, j: nat) {
    i % 4 == 0 && j % 4 == 0
  }

  /** `Math.random() > 0.7 || (i % 4 === 0 && j % 4 === 0)`, with `draw(i, j)`
      the draw made for the pair. */
  predicate Chosen(draw: (nat, nat) -> Unit, i: nat, j: nat) {
    draw(i, j) > 0.7 || Backbone(i, j)
  }

  /** Lexicographic order of the loop that visits the pairs. */
  predicate Before(e: Edge, f: Edge) {
    e.a < f.a || (e.a == f.a && e.b < f.b)
  }

  predicate StrictlyOrdered(r: seq<Edge>) {
    forall k, l :: 0 <= k < l < |r| ==> Before(r[k], r[l])
  }

  /** The inner loop: pairs (i, j) for j from `j` up to `n`. */
  function Row(n: nat, i: nat, j: nat, draw: (nat, nat) -> Unit): (r: seq<Edge>)
    ensures forall e :: e in r <==> e.a == i && j <= e.b < n && Chosen(draw, e.a, e.b)
    ensures StrictlyOrdered(r)
    decreases n - j
  {
    if j >= n then []
    else if Chosen(draw, i, j) then [Edge(i, j)] + Row(n, i, j + 1, draw)
    else Row(n, i, j + 1, draw)
  }

  /** The outer loop from row `i` on. */
  function RowsFrom(n: nat, i: nat, draw: (nat, nat) -> Unit): (r: seq<Edge>)
    ensures forall e :: e in r <==> i <= e.a < e.b < n && Chosen(draw, e.a, e.b)
    ensures StrictlyOrdered(r)
    decreases n - i
  {
    if i >= n then []
    else
      var head := Row(n, i, i + 1, draw);
      var tail := RowsFrom(n, i + 1, draw);
      head + tail
  }

  /** `createLines` over `n` nodes: exactly the pairs i < j that the rule
      chooses, each once, in loop order. */
  function CreateLines(n: nat, draw: (nat, nat) -> Unit): (r: seq<Edge>)
    ensures forall e :: e in r <==> e.a < e.b < n && Chosen(draw, e.a, e.b)
    ensures forall e :: e in r ==> e.a != e.b
    ensures NoDuplicates(r)
  {
    var r := RowsFrom(n, 0, draw);
    assert forall k, l :: 0 <= k < l < |r| ==> Before(r[k], r[l]);
    r
  }

  /** `nodesRef.current.length > 0 && createLines()`: no lines while there
      are no nodes. */
  function SceneLines(n: nat, draw: (nat, nat) -> Unit): (r: seq<Edge>)
    ensures n == 0 ==> r == []
    ensures forall e :: e in r <==> e.a < e.b < n && Chosen(draw, e.a, e.b)
  {
    if n > 0 then CreateLines(n, draw) else []
  }

  /** A pair of multiples of 4 is drawn whatever the random draws are. */
  lemma BackbonePairDrawn(n: nat, draw: (nat, nat) -> Unit, i: nat, j: nat)
    requires i < j < n && Backbone(i, j)
    ensures Edge(i, j) in SceneLines(n, draw)
  {
    assert Chosen(draw, Edge(i, j).a, Edge(i, j).b);
  }

  /** With the twelve nodes, (0,4), (0,8) and (4,8) are drawn whatever the
      random draws are. */
  lemma BackboneAlwaysDrawn(draw: (nat, nat) -> Unit)
    ensures Edge(0, 4) in SceneLines(NodeCount, draw)
    ensures Edge(0, 8) in SceneLines(NodeCount, draw)
    ensures Edge(4, 8) in SceneLines(NodeCount, draw)
  {
    BackbonePairDrawn(NodeCount, draw, 0, 4);
    BackbonePairDrawn(NodeCount, draw, 0, 8);
    BackbonePairDrawn(NodeCount, draw, 4, 8);
  }

  /** Per-frame node drift: `sin(t*0.5 + i) * 0.1`. */
  function NodeDrift(sin: Sine, t: real, i: nat): (y: real)
    ensures -0.1 <= y <= 0.1
  {
    sin(t * 0.5 + i as real) * 0.1
  }

  /** Per-frame line pulse: `0.5 + sin(t*2 + i) * 0.3`. */
  function LineOpacity(sin: Sine, t: real, i: nat): (o: real)
    ensures 0.2 <= o <= 0.8
  {
    0.5 + sin(t * 2.0 + i as real) * 0.3
  }
}
