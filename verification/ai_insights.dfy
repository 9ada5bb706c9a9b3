/** The AI Insights page: the insight cards with their single-selection
    toggle and colour buckets, and the layered neural-network scene (node
    colours, connections between adjacent layers, per-frame pulse). */
module AIInsights {
  import opened Wrappers
  import opened Trig
  import Palette

  // ---------------------------------------------------------------------
  // Insight cards
  // ---------------------------------------------------------------------

  datatype Insight = Insight(
    id: int,
    category: string,
    title: string,
    impact: string,
    timeframe: string,
    confidence: int)

  /** The five cards, without their descriptions. */
  const Insights: seq<Insight> := [
    Insight(1, "Energy", "Power Usage Optimization", "High", "Immediate", 92),
    Insight(2, "Maintenance", "Predictive Bearing Replacement", "Critical", "72 hours", 89),
    Insight(3, "Quality", "Defect Rate Reduction", "Medium", "1 week", 85),
    Insight(4, "Inventory", "Supply Chain Optimization", "Medium", "Next quarter", 76),
    Insight(5, "Process", "Assembly Line Reconfiguration", "High", "1 month", 94)
  ]

  /** `selectedInsight`, which starts as null. */
  type Selection = Option<int>

  /** A card shows its details (and its highlighted border) exactly when its
      id is the selection. */
  predicate Expanded(sel: Selection, id: int) {
    sel == Some(id)
  }

  /** The card's click handler: clicking the selected card clears the
      selection, clicking any other card selects it. */
  function ClickInsight(sel: Selection, id: int): (r: Selection)
    ensures Expanded(r, id) <==> !Expanded(sel, id)
    ensures forall other :: other != id ==> !Expanded(r, other)
  {
    if sel == Some(id) then None else Some(id)
  }

  /** Clicking the same card twice restores the selection when that card
      was selected or nothing was; after a click on another card it is that
      card's click that decides. */
  lemma ClickTwice(sel: Selection, id: int)
    requires sel == None || sel == Some(id)
    ensures ClickInsight(ClickInsight(sel, id), id) == sel
  {
  }

  /** Among cards with distinct ids, at most one shows its details. */
  lemma AtMostOneExpanded(cards: seq<Insight>, sel: Selection, i: int, j: int)
    requires forall a, b :: 0 <= a < b < |cards| ==> cards[a].id != cards[b].id
    requires 0 <= i < |cards| && 0 <= j < |cards|
    requires Expanded(sel, cards[i].id) && Expanded(sel, cards[j].id)
    ensures i == j
  {
  }

  /** The page's cards have distinct ids, so the rule above applies. */
  lemma InsightIdsDistinct()
    ensures forall a, b :: 0 <= a < b < |Insights| ==> Insights[a].id != Insights[b].id
  {
  }

  /** The three text colours for the confidence figure. */
  datatype Tone = GreenText | BlueText | YellowText | DimText

  function ConfidenceTone(confidence: int): Tone {
    if confidence > 90 then GreenText else if confidence > 80 then BlueText else YellowText
  }

  /** The confidence buckets as ranges: above 90, (80, 90], at most 80. */
  lemma ConfidenceBuckets(c: int)
    ensures ConfidenceTone(c) == GreenText <==> c > 90
    ensures ConfidenceTone(c) == BlueText <==> 80 < c <= 90
    ensures ConfidenceTone(c) == YellowText <==> c <= 80
  {
  }

  /** Higher confidence never reads in a lower bucket (yellow, blue, green). */
  lemma ConfidenceMonotone(a: int, b: int)
    requires a <= b
    ensures ConfidenceTone(a) == GreenText ==> ConfidenceTone(b) == GreenText
    ensures ConfidenceTone(b) == YellowText ==> ConfidenceTone(a) == YellowText
  {
  }

  function ImpactTone(impact: string): Tone {
    if impact == "High" || impact == "Critical" then GreenText
    else if impact == "Medium" then BlueText
    else DimText
  }

  /** Impact colours: green for High and Critical, blue for Medium, dim
      white for anything else; never yellow. */
  lemma ImpactBuckets(impact: string)
    ensures ImpactTone(impact) == GreenText <==> impact in {"High", "Critical"}
    ensures ImpactTone(impact) == BlueText <==> impact == "Medium"
    ensures ImpactTone(impact) != YellowText
  {
  }

  /** The category badge's classes; unknown categories share the orange
      fallback with "Process". */
  function CategoryClass(category: string): string {
    if category == "Energy" then "bg-blue-500/20 text-blue-400"
    else if category == "Maintenance" then "bg-yellow-500/20 text-yellow-400"
    else if category == "Quality" then "bg-purple-500/20 text-purple-400"
    else if category == "Inventory" then "bg-green-500/20 text-green-400"
    else "bg-orange-500/20 text-orange-400"
  }

  /** Each of the four named categories has a badge of its own; every
      other category, "Process" included, falls through to orange. */
  lemma CategoryClassFallback(a: string, b: string)
    ensures CategoryClass(a) == "bg-orange-500/20 text-orange-400" <==>
      a !in {"Energy", "Maintenance", "Quality", "Inventory"}
    ensures a in {"Energy", "Maintenance", "Quality", "Inventory"} ==>
      (CategoryClass(a) == CategoryClass(b) <==> a == b)
  {
  }

  /** The confidence colours of the five cards as listed. */
  lemma InsightTones()
    ensures |Insights| == 5
    ensures ConfidenceTone(Insights[0].confidence) == GreenText
    ensures ConfidenceTone(Insights[1].confidence) == BlueText
    ensures ConfidenceTone(Insights[2].confidence) == BlueText
    ensures ConfidenceTone(Insights[3].confidence) == YellowText
    ensures ConfidenceTone(Insights[4].confidence) == GreenText
  {
  }

  // ---------------------------------------------------------------------
  // Neural network scene
  // ---------------------------------------------------------------------

  /** Nodes per layer, input to output. */
  const Layers: seq<nat> := [4, 6, 8, 6, 3]

  function Sum(s: seq<nat>): nat {
    if s == [] then 0 else s[0] + Sum(s[1..])
  }

  /** A node of the network: its layer, its place in the layer, its colour. */
  datatype Neuron = Neuron(layer: nat, index: nat, color: string)

  /** Input nodes are blue, output nodes green, hidden nodes white. */
  function NeuronColor(layer: nat, count: nat): string {
    if layer == 0 then Palette.Blue
    else if layer == count - 1 then Palette.Green
    else Palette.White
  }

  /** The nodes of layer `k`, from index `i` on. */
  function LayerNodes(layers: seq<nat>, k: nat, i: nat): (r: seq<Neuron>)
    requires k < |layers| && i <= layers[k]
    ensures |r| == layers[k] - i
    ensures forall n :: n in r <==>
      n.layer == k && i <= n.index < layers[k] && n.color == NeuronColor(k, |layers|)
    decreases layers[k] - i
  {
    if i == layers[k] then []
    else [Neuron(k, i, NeuronColor(k, |layers|))] + LayerNodes(layers, k, i + 1)
  }

  /** The nodes of layers `k` onwards, layer by layer. */
  function NodesFrom(layers: seq<nat>, k: nat): (r: seq<Neuron>)
    requires k <= |layers|
    ensures |r| == Sum(layers[k..])
    ensures forall n :: n in r <==>
      k <= n.layer < |layers| && n.index < layers[n.layer] && n.color == NeuronColor(n.layer, |layers|)
    decreases |layers| - k
  {
    if k == |layers| then []
    else
      assert layers[k..][1..] == layers[k + 1..];
      LayerNodes(layers, k, 0) + NodesFrom(layers, k + 1)
  }

  /** Every node `createNeuralNetwork` builds, one per (layer, index). */
  function Neurons(layers: seq<nat>): (r: seq<Neuron>)
    ensures |r| == Sum(layers)
    ensures forall n :: n in r <==>
      n.layer < |layers| && n.index < layers[n.layer] && n.color == NeuronColor(n.layer, |layers|)
  {
    assert layers[0..] == layers;
    NodesFrom(layers, 0)
  }

  /** The page's network has 27 nodes; the input layer is blue, the output
      layer green and the three hidden layers white. */
  lemma NetworkNodes()
    ensures |Neurons(Layers)| == 27
    ensures NeuronColor(0, |Layers|) == Palette.Blue
    ensures NeuronColor(4, |Layers|) == Palette.Green
    ensures forall k :: 1 <= k <= 3 ==> NeuronColor(k, |Layers|) == Palette.White
  {
    LayersSum();
  }

  lemma LayersSum()
    ensures Sum(Layers) == 27
  {
    assert Layers[1..] == [6, 8, 6, 3];
    assert Layers[1..][1..] == [8, 6, 3];
    assert Layers[1..][1..][1..] == [6, 3];
    assert Layers[1..][1..][1..][1..] == [3];
  }

  /** A line from node `from` of layer `layer - 1` to node `to` of `layer`. */
  datatype Synapse = Synapse(layer: nat, to: nat, from: nat, color: string)

  /** `Math.random()` for the candidate line into node `to` of `layer` from
      node `from` of the previous layer. */
  type LinkDraws = (nat, nat, nat) -> Unit

  /** A candidate line is drawn when its draw exceeds 0.3. */
  predicate Linked(draw: LinkDraws, layer: nat, to: nat, from: nat) {
    draw(layer, to, from) > 0.3
  }

  /** Lines into the output layer are green, the rest blue. */
  function SynapseColor(layer: nat, count: nat): string {
    if layer == count - 1 then Palette.Green else Palette.Blue
  }

  /** Lines into node `to` of `layer` from nodes `from..prev-1`. */
  function LinksFrom(layer: nat, to: nat, from: nat, prev: nat, count: nat, draw: LinkDraws): (r: seq<Synapse>)
    requires from <= prev
    ensures |r| <= prev - from
    ensures forall s :: s in r <==>
      s.layer == layer && s.to == to && from <= s.from < prev &&
      Linked(draw, layer, to, s.from) && s.color == SynapseColor(layer, count)
    decreases prev - from
  {
    if from == prev then []
    else
      (if Linked(draw, layer, to, from) then [Synapse(layer, to, from, SynapseColor(layer, count))] else []) +
      LinksFrom(layer, to, from + 1, prev, count, draw)
  }

  /** Lines into nodes `to..` of layer `k` (which has a previous layer). */
  function LinksInto(layers: seq<nat>, k: nat, to: nat, draw: LinkDraws): (r: seq<Synapse>)
    requires 1 <= k < |layers| && to <= layers[k]
    ensures |r| <= (layers[k] - to) * layers[k - 1]
    ensures forall s :: s in r <==>
      s.layer == k && to <= s.to < layers[k] && s.from < layers[k - 1] &&
      Linked(draw, k, s.to, s.from) && s.color == SynapseColor(k, |layers|)
    decreases layers[k] - to
  {
    if to == layers[k] then []
    else
      var here := LinksFrom(k, to, 0, layers[k - 1], |layers|, draw);
      var rest := LinksInto(layers, k, to + 1, draw);
      MulStep(layers[k] - to, layers[k - 1]);
      here + rest
  }

  lemma MulStep(a: nat, b: nat)
    requires a >= 1
    ensures (a - 1) * b + b == a * b
  {
  }

  /** The most lines layers `k..` can receive: the products of adjacent
      layer sizes. */
  function Capacity(layers: seq<nat>, k: nat): nat
    requires 1 <= k <= |layers|
    decreases |layers| - k
  {
    if k == |layers| then 0 else layers[k] * layers[k - 1] + Capacity(layers, k + 1)
  }

  /** All lines into layers `k` onwards. */
  function SynapsesFrom(layers: seq<nat>, k: nat, draw: LinkDraws): (r: seq<Synapse>)
    requires 1 <= k <= |layers|
    ensures |r| <= Capacity(layers, k)
    ensures forall s :: s in r <==>
      k <= s.layer < |layers| && s.to < layers[s.layer] && s.from < layers[s.layer - 1] &&
      Linked(draw, s.layer, s.to, s.from) && s.color == SynapseColor(s.layer, |layers|)
    decreases |layers| - k
  {
    if k == |layers| then []
    else LinksInto(layers, k, 0, draw) + SynapsesFrom(layers, k + 1, draw)
  }

  /** `createNeuralNetwork`'s connections: a line from node `j` of layer
      `k - 1` to node `i` of layer `k` is present exactly when its draw
      exceeds 0.3, and there are no others; in particular none enters the
      input layer, and none skips a layer. */
  function Synapses(layers: seq<nat>, draw: LinkDraws): (r: seq<Synapse>)
    ensures |layers| > 0 ==> |r| <= Capacity(layers, 1)
    ensures forall s :: s in r <==>
      1 <= s.layer < |layers| && s.to < layers[s.layer] && s.from < layers[s.layer - 1] &&
      Linked(draw, s.layer, s.to, s.from) && s.color == SynapseColor(s.layer, |layers|)
  {
    if layers == [] then [] else SynapsesFrom(layers, 1, draw)
  }

  /** For the page's layers there are at most 4·6 + 6·8 + 8·6 + 6·3 = 138
      lines, and a line is green exactly when it enters the output layer. */
  lemma NetworkSynapses(draw: LinkDraws)
    ensures |Synapses(Layers, draw)| <= 138
    ensures forall s :: s in Synapses(Layers, draw) ==> (s.color == Palette.Green <==> s.layer == 4)
  {
    LayersCapacity();
    forall s | s in Synapses(Layers, draw)
      ensures s.color == Palette.Green <==> s.layer == 4
    {
      SynapseColorGreen(s.layer, |Layers|);
    }
  }

  lemma LayersCapacity()
    ensures Capacity(Layers, 1) == 138
  {
    assert Capacity(Layers, 5) == 0;
    assert Capacity(Layers, 4) == 18;
    assert Capacity(Layers, 3) == 66;
    assert Capacity(Layers, 2) == 114;
  }

  /** Green marks exactly the lines into the output layer. */
  lemma SynapseColorGreen(layer: nat, count: nat)
    ensures SynapseColor(layer, count) == Palette.Green <==> layer == count - 1
  {
    assert Palette.Green[3] != Palette.Blue[3];
  }

  /** If every draw exceeds 0.3, every adjacent pair is joined. */
  lemma FullDrawsLinkEverything(layers: seq<nat>, draw: LinkDraws, k: nat, i: nat, j: nat)
    requires forall a, b, c :: draw(a, b, c) > 0.3
    requires 1 <= k < |layers| && i < layers[k] && j < layers[k - 1]
    ensures Synapse(k, i, j, SynapseColor(k, |layers|)) in Synapses(layers, draw)
  {
  }

  /** The layer's distance along x: `(k - (n - 1) / 2) * 1.5`. */
  function LayerX(k: nat, n: nat): real {
    (k as real - (n as real - 1.0) / 2.0) * 1.5
  }

  /** The layers sit symmetrically about the origin; for five layers at
      -3, -1.5, 0, 1.5 and 3. */
  lemma LayerXSymmetric(k: nat, n: nat)
    requires k < n
    ensures LayerX(k, n) == -LayerX(n - 1 - k, n)
    ensures n == 5 ==> LayerX(k, n) == (k as real - 2.0) * 1.5
  {
  }

  // ---------------------------------------------------------------------
  // Per-frame animation
  // ---------------------------------------------------------------------

  /** Node `i`'s scale at time `t`: `1 + sin(2t + 0.2i) * 0.1`. */
  function NodeScale(sin: Sine, t: real, i: nat): (v: real)
    ensures 0.9 <= v <= 1.1
  {
    ScaledSine(sin(t * 2.0 + i as real * 0.2), 0.1);
    1.0 + sin(t * 2.0 + i as real * 0.2) * 0.1
  }

  /** Node `i` flares to 2 while `sin(t + i)` exceeds 0.7, and rests at 0.5
      otherwise. */
  function NodeEmission(sin: Sine, t: real, i: nat): (v: real)
    ensures v == 2.0 <==> sin(t + i as real) > 0.7
    ensures v == 0.5 <==> sin(t + i as real) <= 0.7
  {
    if sin(t + i as real) > 0.7 then 2.0 else 0.5
  }

  /** Line `i`'s opacity: `0.2 + |sin(3t + 0.5i)| * 0.8`. */
  function SynapseOpacity(sin: Sine, t: real, i: nat): (o: real)
    ensures 0.2 <= o <= 1.0
  {
    var s := Abs(sin(t * 3.0 + i as real * 0.5));
    ScaledSine(s, 0.8);
    0.2 + s * 0.8
  }
}
