/** The graph builder of the neural scene: neurons placed layer by layer, then a
    feed-forward connection between each neuron of layer k and each neuron of
    layer k + 1 whenever a draw of `Math.random()` exceeds 0.3. */
module NeuralGraph {
  import opened Randomness
  import opened Sequences

  /** One row of the scene's layer table. */
  datatype LayerSpec = LayerSpec(name: string, count: nat, z: int, color: int)

  /** The layer whose neurons react to the selected band. */
  const MusicLayerName: string := "MusicGeneration"

  /** The scene's five layers, in order. */
  const Layers: seq<LayerSpec> := [
    LayerSpec("Input", 8, -6, 0x00FFFF),
    LayerSpec("Processing1", 12, -3, 0x6A0DAD),
    LayerSpec("Processing2", 10, 0, 0xFF1493),
    LayerSpec(MusicLayerName, 15, 3, 0xFFD700),
    LayerSpec("Output", 6, 6, 0x00FF88)
  ]

  /** A neuron. Its position is (cos a * radius, sin a * radius, z) with
      a = 2 pi slot / count; the trigonometry is left to the renderer.
      `displayColor` and `emissiveIntensity` are its material's fields. */
  datatype Neuron = Neuron(
    layer: nat,
    slot: nat,
    radius: real,
    z: int,
    color: int,
    pulseIntensity: real,
    isMusicNeuron: bool,
    emissiveIntensity: real,
    displayColor: int)

  /** A connection between two neurons, given by their indices in the neuron list. */
  datatype Connection = Connection(from: nat, to: nat)

  /** Number of neurons placed for the first `k` layers. */
  function Offset(layers: seq<LayerSpec>, k: nat): nat
    requires k <= |layers|
  {
    if k == 0 then 0 else Offset(layers, k - 1) + layers[k - 1].count
  }

  /** Number of draws the builder consumes for the first `k` layers: one radius
      per neuron, and a second one for a neuron of the music layer. */
  function RadiusDraws(layers: seq<LayerSpec>, k: nat): nat
    requires k <= |layers|
  {
    if k == 0 then 0
    else RadiusDraws(layers, k - 1) + layers[k - 1].count * DrawsPerNeuron(layers[k - 1])
  }

  function DrawsPerNeuron(spec: LayerSpec): nat {
    if spec.name == MusicLayerName then 2 else 1
  }

  /** A neuron as the builder leaves it: taken from the row of its layer, not yet pulsed. */
  ghost predicate FreshFor(n: Neuron, spec: LayerSpec) {
    && n.z == spec.z
    && n.color == spec.color
    && n.displayColor == spec.color
    && n.pulseIntensity == 0.0
    && n.emissiveIntensity == 0.1
    && n.isMusicNeuron == (spec.name == MusicLayerName)
    && (if n.isMusicNeuron then 4.0 <= n.radius < 7.0 else 3.0 <= n.radius < 5.0)
  }

  /** Neuron `j` is slot `slot` of layer `layer`, sitting where the layer-by-layer
      placement puts it. */
  ghost predicate Placed(layers: seq<LayerSpec>, neurons: seq<Neuron>, j: nat)
    requires j < |neurons|
  {
    var n := neurons[j];
    && n.layer < |layers|
    && n.slot < layers[n.layer].count
    && Offset(layers, n.layer) + n.slot == j
    && FreshFor(n, layers[n.layer])
  }

  /** The neurons are exactly the table's slots, each placed as the builder places it. */
  ghost predicate Laid(layers: seq<LayerSpec>, neurons: seq<Neuron>) {
    && |neurons| == Offset(layers, |layers|)
    && forall j :: 0 <= j < |neurons| ==> Placed(layers, neurons, j)
  }

  /** Places `count` neurons per layer, in layer order (the first nested loop of
      the scene's setup). */
  method BuildNeurons(layers: seq<LayerSpec>, rng: Rng) returns (neurons: seq<Neuron>, rng': Rng)
    ensures |neurons| == Offset(layers, |layers|)
    ensures forall j :: 0 <= j < |neurons| ==> Placed(layers, neurons, j)
    ensures rng' == rng.Skip(RadiusDraws(layers, |layers|))
  {
    neurons, rng' := [], rng;
    for k := 0 to |layers|
      invariant |neurons| == Offset(layers, k)
      invariant forall j :: 0 <= j < |neurons| ==> Placed(layers, neurons, j)
      invariant rng' == rng.Skip(RadiusDraws(layers, k))
    {
      var spec := layers[k];
      for i := 0 to spec.count
        invariant |neurons| == Offset(layers, k) + i
        invariant forall j :: 0 <= j < |neurons| ==> Placed(layers, neurons, j)
        invariant rng' == rng.Skip(RadiusDraws(layers, k) + i * DrawsPerNeuron(spec))
      {
        var radius := Spread(3.0, 2.0, rng'.Peek());
        rng' := rng'.Skip(1);
        if spec.name == MusicLayerName {
          radius := Spread(4.0, 3.0, rng'.Peek());
          rng' := rng'.Skip(1);
        }
        var n := Neuron(k, i, radius, spec.z, spec.color, 0.0,
                        spec.name == MusicLayerName, 0.1, spec.color);
        ghost var placed := neurons;
        neurons := neurons + [n];
        forall j | 0 <= j < |neurons| ensures Placed(layers, neurons, j) {
          if j < |placed| {
            assert neurons[j] == placed[j] && Placed(layers, placed, j);
          }
        }
        assert (i + 1) * DrawsPerNeuron(spec) == i * DrawsPerNeuron(spec) + DrawsPerNeuron(spec);
      }
    }
  }

  /** The indices, in list order, of the neurons among the first `upTo` that
      belong to `layer` (the source's `neurons.filter(n => n.layer === layer)`). */
  function Members(neurons: seq<Neuron>, layer: nat, upTo: nat): seq<nat>
    requires upTo <= |neurons|
  {
    if upTo == 0 then []
    else Members(neurons, layer, upTo - 1) + (if neurons[upTo - 1].layer == layer then [upTo - 1] else [])
  }

  /** The filter keeps exactly the neurons of the layer, each once and in order. */
  lemma {:induction false} MembersOf(neurons: seq<Neuron>, layer: nat, upTo: nat)
    requires upTo <= |neurons|
    ensures forall t :: 0 <= t < |Members(neurons, layer, upTo)| ==>
              Members(neurons, layer, upTo)[t] < upTo && neurons[Members(neurons, layer, upTo)[t]].layer == layer
    ensures forall j :: 0 <= j < upTo && neurons[j].layer == layer ==> j in Members(neurons, layer, upTo)
    ensures forall s, t :: 0 <= s < t < |Members(neurons, layer, upTo)| ==>
              Members(neurons, layer, upTo)[s] < Members(neurons, layer, upTo)[t]
  {
    if upTo > 0 {
      MembersOf(neurons, layer, upTo - 1);
    }
  }

  function LayerMembers(neurons: seq<Neuron>, layer: nat): seq<nat> {
    Members(neurons, layer, |neurons|)
  }

  /** Candidate connections from neuron `a` to each neuron of `tos`, in order. */
  function Row(a: nat, tos: seq<nat>): (r: seq<Connection>)
    ensures |r| == |tos|
  {
    if tos == [] then [] else Row(a, tos[..|tos| - 1]) + [Connection(a, tos[|tos| - 1])]
  }

  /** Candidate connections from each neuron of `froms` to each neuron of `tos`, row by row. */
  function Pairs(froms: seq<nat>, tos: seq<nat>): seq<Connection> {
    if froms == [] then [] else Pairs(froms[..|froms| - 1], tos) + Row(froms[|froms| - 1], tos)
  }

  /** The member lists of the `count` layers, one filter per layer. */
  function Groups(neurons: seq<Neuron>, count: nat): (groups: seq<seq<nat>>)
    ensures |groups| == count
    ensures forall j :: 0 <= j < count ==> groups[j] == LayerMembers(neurons, j)
  {
    seq(count, j requires 0 <= j => LayerMembers(neurons, j))
  }

  /** The candidates considered for the first `k` layers: layer j is paired
      with layer j + 1 only when there is a layer j + 1. */
  function CandidatesBelow(groups: seq<seq<nat>>, k: nat): seq<Connection>
    requires k <= |groups|
  {
    if k == 0 then [] else CandidatesBelow(groups, k - 1) + LayerStep(groups, k - 1)
  }

  /** The candidates from layer j to layer j + 1: none from the last layer. */
  function LayerStep(groups: seq<seq<nat>>, j: nat): seq<Connection>
    requires j < |groups|
  {
    if j + 1 < |groups| then Pairs(groups[j], groups[j + 1]) else []
  }

  /** Every pair the builder draws for, in the order it draws. */
  function Candidates(neurons: seq<Neuron>, count: nat): (cs: seq<Connection>)
    ensures forall c :: c in cs ==> FeedForward(neurons, count, c)
  {
    CandidatesFeedForward(neurons, count, count);
    CandidatesBelow(Groups(neurons, count), count)
  }

  /** The candidates whose draw exceeds 0.3, candidate t being decided by draw
      `start + t` of the stream `draws`. */
  function Kept(cs: seq<Connection>, draws: nat -> Draw, start: nat): (r: seq<Connection>)
    ensures forall c :: c in r ==> c in cs
  {
    if cs == [] then []
    else Kept(cs[..|cs| - 1], draws, start)
         + (if draws(start + |cs| - 1) > 0.3 then [cs[|cs| - 1]] else [])
  }

  /** Draws a connection for each candidate pair of consecutive layers (the
      second nested loop of the scene's setup). */
  method BuildConnections(neurons: seq<Neuron>, count: nat, rng: Rng)
    returns (connections: seq<Connection>, rng': Rng)
    ensures connections == Kept(Candidates(neurons, count), rng.source, rng.next)
    ensures rng'.source == rng.source && rng'.next == rng.next + |Candidates(neurons, count)|
    ensures forall c :: c in connections ==> FeedForward(neurons, count, c)
  {
    ghost var groups := Groups(neurons, count);
    connections, rng' := [], rng;
    for k := 0 to count
      invariant connections == Kept(CandidatesBelow(groups, k), rng.source, rng.next)
      invariant rng'.source == rng.source
      invariant rng'.next == rng.next + |CandidatesBelow(groups, k)|
    {
      var added;
      ghost var mid := rng'.next;
      added, rng' := ConnectStep(neurons, count, k, rng');
      CandidatesBelowNext(groups, k);
      KeptConcat(CandidatesBelow(groups, k), LayerStep(groups, k), CandidatesBelow(groups, k + 1),
                 rng.source, rng.next, mid, connections, added);
      connections := connections + added;
    }
    KeptFeedForward(neurons, count, rng.source, rng.next);
  }

  /** Layer k's turn of the outer loop: its pairs with layer k + 1, or nothing
      for the last layer. */
  method ConnectStep(neurons: seq<Neuron>, count: nat, k: nat, rng: Rng)
    returns (added: seq<Connection>, rng': Rng)
    requires k < count
    ensures added == Kept(LayerStep(Groups(neurons, count), k), rng.source, rng.next)
    ensures rng'.source == rng.source && rng'.next == rng.next + |LayerStep(Groups(neurons, count), k)|
  {
    if k < count - 1 {
      added, rng' := ConnectLayers(LayerMembers(neurons, k), LayerMembers(neurons, k + 1), rng);
    } else {
      added, rng' := [], rng;
    }
  }

  /** One layer pair: a draw for each (neuron of `current`, neuron of
      `following`), row by row; the pair is connected when the draw exceeds 0.3. */
  method ConnectLayers(current: seq<nat>, following: seq<nat>, rng: Rng)
    returns (added: seq<Connection>, rng': Rng)
    ensures added == Kept(Pairs(current, following), rng.source, rng.next)
    ensures rng'.source == rng.source && rng'.next == rng.next + |Pairs(current, following)|
  {
    added, rng' := [], rng;
    for a := 0 to |current|
      invariant added == Kept(Pairs(current[..a], following), rng.source, rng.next)
      invariant rng'.source == rng.source
      invariant rng'.next == rng.next + |Pairs(current[..a], following)|
    {
      ghost var before, mid := added, rng'.next;
      added, rng' := ConnectNeuron(current[a], following, added, rng');
      PairsSnoc(current, following, a);
      KeptConcat(Pairs(current[..a], following), Row(current[a], following), Pairs(current[..a + 1], following),
                 rng.source, rng.next, mid, before, Kept(Row(current[a], following), rng.source, mid));
    }
    assert current[..|current|] == current;
  }

  /** The inner loop for neuron `a`: a draw for each neuron of `following`, in
      order, appending the connection to `added` when the draw exceeds 0.3. */
  method ConnectNeuron(a: nat, following: seq<nat>, added: seq<Connection>, rng: Rng)
    returns (added': seq<Connection>, rng': Rng)
    ensures added' == added + Kept(Row(a, following), rng.source, rng.next)
    ensures rng'.source == rng.source && rng'.next == rng.next + |following|
  {
    added', rng' := added, rng;
    for b := 0 to |following|
      invariant added' == added + Kept(Row(a, following[..b]), rng.source, rng.next)
      invariant rng'.source == rng.source && rng'.next == rng.next + b
    {
      KeptRowStep(a, following, b, rng.source, rng.next);
      var kept := if rng'.Peek() > 0.3 then [Connection(a, following[b])] else [];
      Append3(added, Kept(Row(a, following[..b]), rng.source, rng.next), kept);
      added' := added' + kept;
      rng' := rng'.Skip(1);
    }
    assert following[..|following|] == following;
  }

  /** Deciding the next pair of a row uses the next draw. */
  lemma KeptRowStep(a: nat, tos: seq<nat>, b: nat, draws: nat -> Draw, start: nat)
    requires b < |tos|
    ensures Kept(Row(a, tos[..b + 1]), draws, start)
         == Kept(Row(a, tos[..b]), draws, start) + (if draws(start + b) > 0.3 then [Connection(a, tos[b])] else [])
  {
    RowSnoc(a, tos, b);
    RowFrom(a, tos[..b]);
    KeptSnoc(Row(a, tos[..b]), Connection(a, tos[b]), draws, start);
  }

  /** Deciding `xs` and then `ys` keeps what deciding `xs + ys` keeps, the
      second run starting where the first ends. */
  lemma KeptConcat(xs: seq<Connection>, ys: seq<Connection>, all: seq<Connection>, draws: nat -> Draw,
                   start: nat, mid: nat, before: seq<Connection>, added: seq<Connection>)
    requires all == xs + ys
    requires before == Kept(xs, draws, start)
    requires mid == start + |xs|
    requires added == Kept(ys, draws, mid)
    ensures before + added == Kept(all, draws, start)
    ensures |all| == |xs| + |ys|
  {
    KeptAppendAt(xs, ys, draws, start, mid);
  }

  lemma KeptAppendAt(xs: seq<Connection>, ys: seq<Connection>, draws: nat -> Draw, start: nat, mid: nat)
    requires mid == start + |xs|
    ensures Kept(xs + ys, draws, start) == Kept(xs, draws, start) + Kept(ys, draws, mid)
  {
    KeptAppend(xs, ys, draws, start);
  }

  lemma CandidatesBelowLength(groups: seq<seq<nat>>, k: nat)
    requires 1 <= k <= |groups|
    ensures |CandidatesBelow(groups, k)| == |CandidatesBelow(groups, k - 1)| + |LayerStep(groups, k - 1)|
  {
  }

  lemma CandidatesBelowNext(groups: seq<seq<nat>>, k: nat)
    requires k < |groups|
    ensures CandidatesBelow(groups, k + 1) == CandidatesBelow(groups, k) + LayerStep(groups, k)
  {
  }

  /** Deciding two runs of candidates one after the other uses consecutive draws. */
  lemma {:induction false} KeptAppend(xs: seq<Connection>, ys: seq<Connection>, draws: nat -> Draw, start: nat)
    ensures Kept(xs + ys, draws, start) == Kept(xs, draws, start) + Kept(ys, draws, start + |xs|)
  {
    if ys != [] {
      var init := ys[..|ys| - 1];
      assert (xs + ys)[..|xs + ys| - 1] == xs + init;
      KeptAppend(xs, init, draws, start);
    } else {
      assert xs + ys == xs;
    }
  }

  lemma {:induction false} RowSnoc(a: nat, tos: seq<nat>, b: nat)
    requires b < |tos|
    ensures Row(a, tos[..b + 1]) == Row(a, tos[..b]) + [Connection(a, tos[b])]
  {
    assert tos[..b + 1][..b] == tos[..b];
  }

  lemma {:induction false} PairsSnoc(froms: seq<nat>, tos: seq<nat>, a: nat)
    requires a < |froms|
    ensures Pairs(froms[..a + 1], tos) == Pairs(froms[..a], tos) + Row(froms[a], tos)
  {
    assert froms[..a + 1][..a] == froms[..a];
  }

  lemma {:induction false} KeptSnoc(cs: seq<Connection>, c: Connection, draws: nat -> Draw, start: nat)
    ensures Kept(cs + [c], draws, start) == Kept(cs, draws, start) + (if draws(start + |cs|) > 0.3 then [c] else [])
  {
    assert (cs + [c])[..|cs|] == cs;
  }

  /** The graph's invariant for one connection: both ends exist and it leads
      from a neuron of layer k to one of layer k + 1, never out of the last layer. */
  ghost predicate FeedForward(neurons: seq<Neuron>, count: nat, c: Connection) {
    && c.from < |neurons|
    && c.to < |neurons|
    && neurons[c.from].layer + 1 == neurons[c.to].layer
    && neurons[c.to].layer < count
  }

  lemma {:induction false} RowFrom(a: nat, tos: seq<nat>)
    ensures |Row(a, tos)| == |tos|
    ensures forall t :: 0 <= t < |tos| ==> Row(a, tos)[t] == Connection(a, tos[t])
  {
    if tos != [] {
      RowFrom(a, tos[..|tos| - 1]);
    }
  }

  /** Each candidate pairs a member of `froms` with a member of `tos`. */
  lemma {:induction false} PairsFrom(froms: seq<nat>, tos: seq<nat>)
    ensures |Pairs(froms, tos)| == |froms| * |tos|
    ensures forall c :: c in Pairs(froms, tos) ==> c.from in froms && c.to in tos
  {
    if froms != [] {
      var init, last := froms[..|froms| - 1], froms[|froms| - 1];
      PairsFrom(init, tos);
      RowFrom(last, tos);
      assert |Pairs(froms, tos)| == |init| * |tos| + |tos|;
      assert (|init| + 1) * |tos| == |init| * |tos| + |tos|;
      forall c | c in Pairs(froms, tos) ensures c.from in froms && c.to in tos {
        if c in Pairs(init, tos) {
          assert c.from in init;
        } else {
          assert c in Row(last, tos);
          var t :| 0 <= t < |tos| && Row(last, tos)[t] == c;
        }
      }
    }
  }

  /** Every candidate the builder considers respects the feed-forward invariant. */
  lemma CandidatesFeedForward(neurons: seq<Neuron>, count: nat, k: nat)
    requires k <= count
    ensures forall c :: c in CandidatesBelow(Groups(neurons, count), k) ==> FeedForward(neurons, count, c)
  {
    var groups := Groups(neurons, count);
    var i := 0;
    while i < k
      invariant i <= k
      invariant forall c :: c in CandidatesBelow(groups, i) ==> FeedForward(neurons, count, c)
    {
      if i + 1 < count {
        PairsFeedForward(neurons, count, i + 1);
      }
      CandidatesBelowNext(groups, i);
      i := i + 1;
    }
  }

  /** The pairs from layer k - 1 to layer k respect the feed-forward invariant. */
  lemma PairsFeedForward(neurons: seq<Neuron>, count: nat, k: nat)
    requires 1 <= k < count
    ensures forall c :: c in Pairs(LayerMembers(neurons, k - 1), LayerMembers(neurons, k)) ==> FeedForward(neurons, count, c)
  {
    var froms, tos := LayerMembers(neurons, k - 1), LayerMembers(neurons, k);
    PairsFrom(froms, tos);
    MembersOf(neurons, k - 1, |neurons|);
    MembersOf(neurons, k, |neurons|);
    forall c | c in Pairs(froms, tos) ensures FeedForward(neurons, count, c) {
      var s :| 0 <= s < |froms| && froms[s] == c.from;
      var t :| 0 <= t < |tos| && tos[t] == c.to;
    }
  }

  /** Only feed-forward pairs are ever connected. */
  lemma KeptFeedForward(neurons: seq<Neuron>, count: nat, draws: nat -> Draw, start: nat)
    ensures forall c :: c in Kept(Candidates(neurons, count), draws, start) ==> FeedForward(neurons, count, c)
  {
  }

  /** When every draw passes the 0.3 threshold, every candidate pair is connected. */
  lemma {:induction false} AllDrawsPass(cs: seq<Connection>, draws: nat -> Draw, start: nat)
    requires forall t :: start <= t < start + |cs| ==> draws(t) > 0.3
    ensures Kept(cs, draws, start) == cs
  {
    if cs != [] {
      AllDrawsPass(cs[..|cs| - 1], draws, start);
      assert cs[..|cs| - 1] + [cs[|cs| - 1]] == cs;
    }
  }

  /** When every draw fails the threshold, no connection is made. */
  lemma {:induction false} AllDrawsFail(cs: seq<Connection>, draws: nat -> Draw, start: nat)
    requires forall t :: start <= t < start + |cs| ==> draws(t) <= 0.3
    ensures Kept(cs, draws, start) == []
  {
    if cs != [] {
      AllDrawsFail(cs[..|cs| - 1], draws, start);
    }
  }

  /** The indices lo, lo + 1, ..., hi - 1. */
  function Range(lo: nat, hi: nat): (r: seq<nat>)
    ensures |r| == if hi <= lo then 0 else hi - lo
  {
    if hi <= lo then [] else Range(lo, hi - 1) + [hi - 1]
  }

  lemma {:induction false} OffsetMonotone(layers: seq<LayerSpec>, i: nat, j: nat)
    requires i <= j <= |layers|
    ensures Offset(layers, i) <= Offset(layers, j)
  {
    if i < j {
      OffsetMonotone(layers, i, j - 1);
    }
  }

  /** A placed neuron lies in layer k exactly when its index falls in that layer's block. */
  lemma LayerOfIndex(layers: seq<LayerSpec>, neurons: seq<Neuron>, k: nat, j: nat)
    requires k < |layers| && j < |neurons| && Placed(layers, neurons, j)
    ensures neurons[j].layer == k <==> Offset(layers, k) <= j < Offset(layers, k + 1)
  {
    var l := neurons[j].layer;
    if l < k {
      OffsetMonotone(layers, l + 1, k);
    } else if l > k {
      OffsetMonotone(layers, k + 1, l);
    }
  }

  lemma {:induction false} PlacedMembers(layers: seq<LayerSpec>, neurons: seq<Neuron>, k: nat, upTo: nat)
    requires k < |layers| && upTo <= |neurons|
    requires forall j :: 0 <= j < |neurons| ==> Placed(layers, neurons, j)
    ensures Members(neurons, k, upTo)
         == Range(Offset(layers, k), if upTo < Offset(layers, k + 1) then upTo else Offset(layers, k + 1))
  {
    if upTo > 0 {
      PlacedMembers(layers, neurons, k, upTo - 1);
      LayerOfIndex(layers, neurons, k, upTo - 1);
    }
  }

  /** The builder yields exactly `count` neurons for each layer, as one block, in
      layer order. */
  lemma LayerSizes(layers: seq<LayerSpec>, neurons: seq<Neuron>, k: nat)
    requires k < |layers|
    requires Laid(layers, neurons)
    ensures LayerMembers(neurons, k) == Range(Offset(layers, k), Offset(layers, k + 1))
    ensures |LayerMembers(neurons, k)| == layers[k].count
  {
    OffsetMonotone(layers, k + 1, |layers|);
    PlacedMembers(layers, neurons, k, |neurons|);
  }

  /** Where each layer of the scene's table begins: 0, 8, 20, 30, 45, and 51 in all. */
  lemma SceneOffsets()
    ensures Offset(Layers, 0) == 0 && Offset(Layers, 1) == 8 && Offset(Layers, 2) == 20
    ensures Offset(Layers, 3) == 30 && Offset(Layers, 4) == 45 && Offset(Layers, 5) == 51
  {
  }

  /** The scene's table places 51 neurons; only the 15 of the fourth layer are music neurons. */
  lemma SceneTable(neurons: seq<Neuron>)
    requires Laid(Layers, neurons)
    ensures |neurons| == 51
    ensures forall j :: 0 <= j < |neurons| ==> (neurons[j].isMusicNeuron <==> neurons[j].layer == 3)
    ensures forall j :: 0 <= j < |neurons| ==> (neurons[j].isMusicNeuron <==> 30 <= j < 45)
  {
    SceneOffsets();
    forall j | 0 <= j < |neurons|
      ensures neurons[j].isMusicNeuron <==> neurons[j].layer == 3
      ensures neurons[j].isMusicNeuron <==> 30 <= j < 45
    {
      assert Placed(Layers, neurons, j);
      LayerOfIndex(Layers, neurons, 3, j);
    }
  }

  /** Number of candidate pairs for the first `k` layers of the table: count(j) * count(j + 1)
      for each consecutive pair below k. */
  function PairCount(layers: seq<LayerSpec>, k: nat): nat
    requires k <= |layers|
  {
    if k == 0 then 0 else PairCount(layers, k - 1) + PairStep(layers, k)
  }

  /** count(k - 1) * count(k), or 0 for the last layer. */
  function PairStep(layers: seq<LayerSpec>, k: nat): nat
    requires 1 <= k <= |layers|
  {
    if k < |layers| then layers[k - 1].count * layers[k].count else 0
  }

  /** The builder draws once for every (neuron of layer k, neuron of layer k + 1). */
  lemma CandidateCount(layers: seq<LayerSpec>, groups: seq<seq<nat>>, k: nat)
    requires k <= |layers| == |groups|
    requires forall j :: 0 <= j < |groups| ==> |groups[j]| == layers[j].count
    ensures |CandidatesBelow(groups, k)| == PairCount(layers, k)
  {
    var i := 0;
    while i < k
      invariant i <= k
      invariant |CandidatesBelow(groups, i)| == PairCount(layers, i)
    {
      LayerStepCount(layers, groups, i + 1);
      CandidatesBelowLength(groups, i + 1);
      i := i + 1;
    }
  }

  /** Layer k - 1 contributes count(k - 1) * count(k) candidates, the last layer none. */
  lemma LayerStepCount(layers: seq<LayerSpec>, groups: seq<seq<nat>>, k: nat)
    requires 1 <= k <= |layers| == |groups|
    requires forall j :: 0 <= j < |groups| ==> |groups[j]| == layers[j].count
    ensures |LayerStep(groups, k - 1)| == PairStep(layers, k)
  {
    if k < |layers| {
      PairsFrom(groups[k - 1], groups[k]);
    }
  }

  /** The builder's filters find each layer's `count` neurons. */
  lemma GroupSizes(layers: seq<LayerSpec>, neurons: seq<Neuron>)
    requires Laid(layers, neurons)
    ensures forall j :: 0 <= j < |layers| ==> |Groups(neurons, |layers|)[j]| == layers[j].count
  {
    forall j | 0 <= j < |layers| ensures |Groups(neurons, |layers|)[j]| == layers[j].count {
      LayerSizes(layers, neurons, j);
    }
  }

  /** The scene's table: 66 radius draws (a second one for each of the 15 music
      neurons), then 456 connection draws. */
  lemma SceneDraws(neurons: seq<Neuron>)
    requires Laid(Layers, neurons)
    ensures RadiusDraws(Layers, |Layers|) == 66
    ensures |Candidates(neurons, |Layers|)| == 456
  {
    GroupSizes(Layers, neurons);
    CandidateCount(Layers, Groups(neurons, |Layers|), |Layers|);
    assert PairCount(Layers, 1) == 96;
    assert PairCount(Layers, 2) == 216;
    assert PairCount(Layers, 3) == 366;
    assert PairCount(Layers, 4) == 456;
    assert Layers[0].name != MusicLayerName && Layers[1].name != MusicLayerName;
    assert Layers[2].name != MusicLayerName && Layers[4].name != MusicLayerName;
    assert RadiusDraws(Layers, 1) == 8;
    assert RadiusDraws(Layers, 2) == 20;
    assert RadiusDraws(Layers, 3) == 30;
    assert RadiusDraws(Layers, 4) == 60;
  }

  /** When every draw passes, a connection exists exactly between each neuron
      of a layer and each neuron of the next layer. */
  lemma FullyConnected(layers: seq<LayerSpec>, neurons: seq<Neuron>, draws: nat -> Draw, start: nat, c: Connection)
    requires Laid(layers, neurons)
    requires forall t :: start <= t < start + |Candidates(neurons, |layers|)| ==> draws(t) > 0.3
    ensures c in Kept(Candidates(neurons, |layers|), draws, start) <==> FeedForward(neurons, |layers|, c)
  {
    AllDrawsPass(Candidates(neurons, |layers|), draws, start);
    KeptFeedForward(neurons, |layers|, draws, start);
    if FeedForward(neurons, |layers|, c) {
      CandidatesComplete(neurons, |layers|, |layers|, c);
      assert c in Candidates(neurons, |layers|);
    }
  }

  /** Every feed-forward pair leaving one of the first k layers is a candidate. */
  lemma CandidatesComplete(neurons: seq<Neuron>, count: nat, k: nat, c: Connection)
    requires k <= count
    requires FeedForward(neurons, count, c) && neurons[c.from].layer < k
    ensures c in CandidatesBelow(Groups(neurons, count), k)
  {
    var groups, l := Groups(neurons, count), neurons[c.from].layer;
    LayerPairHas(neurons, count, c);
    assert c in Pairs(groups[l], groups[l + 1]);
    CandidatesBelowStep(groups, l + 1, c);
    CandidatesGrow(groups, l + 1, k, c);
  }

  /** A candidate of the first j layers is a candidate of the first k >= j. */
  lemma CandidatesGrow(groups: seq<seq<nat>>, j: nat, k: nat, c: Connection)
    requires j <= k <= |groups| && c in CandidatesBelow(groups, j)
    ensures c in CandidatesBelow(groups, k)
  {
    BelowAtKeeps(groups, c);
    Chain(i => BelowAt(groups, i), j, k, c);
  }

  /** The candidates of the first i layers, none past the last layer. */
  function BelowAt(groups: seq<seq<nat>>, i: nat): seq<Connection> {
    if i <= |groups| then CandidatesBelow(groups, i) else []
  }

  lemma BelowAtKeeps(groups: seq<seq<nat>>, c: Connection)
    ensures forall i: nat :: i < |groups| && c in BelowAt(groups, i) ==> c in BelowAt(groups, i + 1)
  {
    forall i: nat | i < |groups| && c in BelowAt(groups, i)
      ensures c in BelowAt(groups, i + 1)
    {
      CandidatesBelowEarlier(groups, i, c);
    }
  }

  /** The candidates of the first k layers stay candidates of the first k + 1. */
  lemma CandidatesBelowEarlier(groups: seq<seq<nat>>, k: nat, c: Connection)
    requires k < |groups| && c in CandidatesBelow(groups, k)
    ensures c in CandidatesBelow(groups, k + 1)
  {
  }

  /** The pairs from layer k - 1 to layer k are candidates of the first k layers. */
  lemma CandidatesBelowStep(groups: seq<seq<nat>>, k: nat, c: Connection)
    requires 1 <= k < |groups| && c in Pairs(groups[k - 1], groups[k])
    ensures c in CandidatesBelow(groups, k)
  {
  }

  /** A feed-forward pair is among the candidates of its pair of layers. */
  lemma LayerPairHas(neurons: seq<Neuron>, count: nat, c: Connection)
    requires FeedForward(neurons, count, c)
    ensures c in Pairs(LayerMembers(neurons, neurons[c.from].layer), LayerMembers(neurons, neurons[c.from].layer + 1))
  {
    var l := neurons[c.from].layer;
    MembersOf(neurons, l, |neurons|);
    MembersOf(neurons, l + 1, |neurons|);
    PairsHas(LayerMembers(neurons, l), LayerMembers(neurons, l + 1), c);
  }

  /** A pair of a member of `froms` and a member of `tos` is among their candidates. */
  lemma {:induction false} PairsHas(froms: seq<nat>, tos: seq<nat>, c: Connection)
    requires c.from in froms && c.to in tos
    ensures c in Pairs(froms, tos)
  {
    var init, last := froms[..|froms| - 1], froms[|froms| - 1];
    if c.from == last {
      RowFrom(last, tos);
      var t :| 0 <= t < |tos| && tos[t] == c.to;
      assert Row(last, tos)[t] == c;
    } else {
      assert c.from in init by {
        var s :| 0 <= s < |froms| && froms[s] == c.from;
        assert init[s] == c.from;
      }
      PairsHas(init, tos, c);
    }
  }
}
