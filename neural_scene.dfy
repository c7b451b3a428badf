/** The mounted neural scene: its neurons, connections, pulse list and band
    labels, updated in place by the pulse timer and the animation loop. */
module NeuralScene {
  import opened Randomness
  import opened Options
  import opened Sequences
  import opened NeuralGraph
  import opened NeuralPulses
  import opened NeuralVisuals

  /** The labels as created, one per band in table order. */
  function Labels(): (ls: seq<Label>)
    ensures |ls| == |Bands| && forall i :: 0 <= i < |ls| ==> ls[i] == NewLabel(Bands[i])
  {
    [NewLabel(Bands[0]), NewLabel(Bands[1]), NewLabel(Bands[2])]
  }

  /** Replacing, then splicing out, the element between a prefix and a suffix
      joins them; a tail appended afterwards lands after the suffix. */
  lemma SpliceAt<T>(a: seq<T>, x: T, y: T, b1: seq<T>, b2: seq<T>, c: seq<T>)
    ensures var s := (a + [x] + b1 + b2)[|a| := y];
            s[..|a|] + s[|a| + 1..] + c == a + b1 + (b2 + c)
  {
    var s := (a + [x] + b1 + b2)[|a| := y];
    assert s[..|a|] == a;
    assert s[|a| + 1..] == b1 + b2;
  }

  /** The pulse pass's step at index `i` for a pulse that arrives: its target
      takes its intensity, its follow-ons are spawned, and it does not survive. */
  lemma SweepArrivesStep(ps: seq<Pulse>, i: nat, conns: seq<Connection>, neurons: seq<Neuron>, audio: Loudness, rng: Rng)
    requires i < |ps| && OnConnections(ps[i..], |conns|) && Wired(conns, |neurons|)
    requires Advance(ps[i], audio).progress >= 1.0
    ensures OnConnections(ps[i + 1..], |conns|)
    ensures var rest := Sweep(ps[i + 1..], conns, neurons, audio, rng);
            var to := conns[ps[i].connection].to;
            var b := FollowOns(Outgoing(conns, to), rng.Skip(rest.used));
            var r := Sweep(ps[i..], conns, neurons, audio, rng);
            && r.survivors == rest.survivors
            && r.spawned == rest.spawned + b.pulses
            && r.neurons == rest.neurons[to := rest.neurons[to].(pulseIntensity := ps[i].intensity)]
            && r.lit == rest.lit
            && r.used == rest.used + b.used
  {
    assert ps[i..][1..] == ps[i + 1..] && ps[i..][0] == ps[i];
  }

  /** The same step on the pulse list: splicing pulse `i` out of the list
      before the step and appending its follow-ons gives the list after it. */
  lemma SweepArrives(ps: seq<Pulse>, i: nat, conns: seq<Connection>, neurons: seq<Neuron>, audio: Loudness, rng: Rng,
                     before: seq<Pulse>, y: Pulse)
    requires i < |ps| && OnConnections(ps[i..], |conns|) && Wired(conns, |neurons|)
    requires Advance(ps[i], audio).progress >= 1.0
    requires before == ps[..i + 1] + Sweep(ps[i + 1..], conns, neurons, audio, rng).survivors
                                   + Sweep(ps[i + 1..], conns, neurons, audio, rng).spawned
    ensures OnConnections(ps[i + 1..], |conns|)
    ensures var rest := Sweep(ps[i + 1..], conns, neurons, audio, rng);
            var b := FollowOns(Outgoing(conns, conns[ps[i].connection].to), rng.Skip(rest.used));
            var r := Sweep(ps[i..], conns, neurons, audio, rng);
            before[i := y][..i] + before[i := y][i + 1..] + b.pulses == ps[..i] + r.survivors + r.spawned
  {
    SweepArrivesStep(ps, i, conns, neurons, audio, rng);
    var rest := Sweep(ps[i + 1..], conns, neurons, audio, rng);
    var b := FollowOns(Outgoing(conns, conns[ps[i].connection].to), rng.Skip(rest.used));
    assert ps[..i + 1] == ps[..i] + [ps[i]];
    SpliceAt(ps[..i], ps[i], y, rest.survivors, rest.spawned, b.pulses);
  }

  /** One more input neuron's turn in the ambient batch, in the terms of the
      batch before it. */
  lemma AmbientNext(conns: seq<Connection>, inputs: seq<nat>, j: nat, rng: Rng)
    requires j < |inputs|
    ensures var b := Ambient(conns, inputs[..j], rng);
            var at := rng.Skip(b.used);
            var outs := Outgoing(conns, inputs[j]);
            Ambient(conns, inputs[..j + 1], rng)
            == if at.Peek() > 0.7 && |outs| > 0
               then Batch(b.pulses + [NewPulse(outs[Pick(at.Skip(1).Peek(), |outs|)], at.Skip(2))], b.used + 4)
               else Batch(b.pulses, b.used + 1)
  {
    assert inputs[..j + 1][..j] == inputs[..j];
  }

  /** One more outgoing connection adds one draw, and a pulse when it exceeds 0.6. */
  lemma FollowOnsNext(outs: seq<nat>, j: nat, rng: Rng)
    requires j < |outs|
    ensures var b := FollowOns(outs[..j], rng);
            var at := rng.Skip(b.used);
            FollowOns(outs[..j + 1], rng)
            == if at.Peek() > 0.6 then Batch(b.pulses + [NewPulse(outs[j], at.Skip(1))], b.used + 3)
               else Batch(b.pulses, b.used + 1)
  {
    assert outs[..j + 1][..j] == outs[..j];
  }

  /** The pulse pass's step at index `i` for a pulse still travelling. */
  lemma SweepTravels(ps: seq<Pulse>, i: nat, conns: seq<Connection>, neurons: seq<Neuron>, audio: Loudness, rng: Rng)
    requires i < |ps| && OnConnections(ps[i..], |conns|) && Wired(conns, |neurons|)
    requires Advance(ps[i], audio).progress < 1.0
    ensures OnConnections(ps[i + 1..], |conns|)
    ensures var rest := Sweep(ps[i + 1..], conns, neurons, audio, rng);
            Sweep(ps[i..], conns, neurons, audio, rng)
            == Swept([Advance(ps[i], audio)] + rest.survivors, rest.spawned, rest.neurons,
                     rest.lit + {ps[i].connection}, rest.used)
  {
    assert ps[i..][1..] == ps[i + 1..] && ps[i..][0] == ps[i];
  }

  class Scene {
    /** The props the scene was mounted with. */
    const props: Props
    var neurons: seq<Neuron>
    var connections: seq<Connection>
    var pulses: seq<Pulse>
    var labels: seq<Label>
    /** Connections whose material a travelling pulse has turned cyan; no code
        path turns one back. */
    var lit: set<nat>

    /** Connections join existing neurons, every pulse is live on an existing
        connection, pulse intensities lie in [0, 1.2), and there is one label per band. */
    ghost predicate Valid()
      reads this
    {
      && Wired(connections, |neurons|)
      && OnConnections(pulses, |connections|)
      && (forall i :: 0 <= i < |pulses| ==> Live(pulses[i], |connections|))
      && (forall n :: 0 <= n < |neurons| ==> 0.0 <= neurons[n].pulseIntensity < 1.2)
      && |labels| == |Bands|
      && (forall i :: 0 <= i < |labels| ==> labels[i].band == Bands[i])
    }

    constructor (props: Props, neurons: seq<Neuron>, connections: seq<Connection>)
      ensures this.props == props && this.neurons == neurons && this.connections == connections
      ensures pulses == [] && labels == Labels() && lit == {}
    {
      this.props := props;
      this.neurons := neurons;
      this.connections := connections;
      pulses := [];
      labels := Labels();
      lit := {};
    }

    /** The scene's setup: neurons layer by layer, the labels, then the
        connections, drawing from `rng` in that order. */
    static method Mount(props: Props, rng: Rng) returns (scene: Scene, rng': Rng)
      ensures fresh(scene) && scene.Valid() && scene.props == props
      ensures |scene.neurons| == 51
      ensures forall j :: 0 <= j < |scene.neurons| ==> Placed(Layers, scene.neurons, j)
      ensures scene.connections == Kept(Candidates(scene.neurons, |Layers|), rng.source, rng.next + 66)
      ensures forall c :: c in scene.connections ==> FeedForward(scene.neurons, |Layers|, c)
      ensures scene.pulses == [] && scene.labels == Labels() && scene.lit == {}
      ensures rng'.source == rng.source && rng'.next == rng.next + 66 + 456
    {
      var neurons, afterNeurons := BuildNeurons(Layers, rng);
      SceneTable(neurons);
      SceneDraws(neurons);
      var connections;
      connections, rng' := BuildConnections(neurons, |Layers|, afterNeurons);
      scene := new Scene(props, neurons, connections);
      forall j | 0 <= j < |neurons| ensures 0.0 <= neurons[j].pulseIntensity < 1.2 {
        assert Placed(Layers, neurons, j);
      }
      forall k | 0 <= k < |connections| ensures connections[k].from < |neurons| && connections[k].to < |neurons| {
        assert connections[k] in connections;
      }
    }

    /** `createPulse`: appends a fresh pulse on connection `c`, drawing its speed
        and intensity. */
    method CreatePulse(c: nat, rng: Rng) returns (rng': Rng)
      modifies this`pulses
      ensures pulses == old(pulses) + [NewPulse(c, rng)]
      ensures rng'.source == rng.source && rng'.next == rng.next + 2
    {
      var speed := Spread(0.02, 0.03, rng.Peek());
      var intensity := Spread(0.8, 0.4, rng.Skip(1).Peek());
      pulses := pulses + [Pulse(c, 0.0, speed, intensity)];
      rng' := rng.Skip(2);
    }

    /** `startPulses`, run by the 500 ms timer: each input neuron, in order, may
        start one pulse on one of its outgoing connections, so no two of the new
        pulses leave the same neuron. */
    method StartPulses(rng: Rng) returns (rng': Rng)
      requires Valid()
      modifies this`pulses
      ensures pulses == old(pulses) + Ambient(connections, LayerMembers(neurons, 0), rng).pulses
      ensures rng'.source == rng.source && rng'.next == rng.next + Ambient(connections, LayerMembers(neurons, 0), rng).used
      ensures Valid()
      ensures forall i, j :: |old(pulses)| <= i < j < |pulses| ==>
                connections[pulses[i].connection].from != connections[pulses[j].connection].from
    {
      var inputs := LayerMembers(neurons, 0);
      ghost var before := pulses;
      rng' := rng;
      for j := 0 to |inputs|
        invariant pulses == before + Ambient(connections, inputs[..j], rng).pulses
        invariant rng' == rng.Skip(Ambient(connections, inputs[..j], rng).used)
      {
        ghost var done := Ambient(connections, inputs[..j], rng).pulses;
        AmbientNext(connections, inputs, j, rng);
        var outs := Outgoing(connections, inputs[j]);
        var coin := rng'.Peek();
        if coin > 0.7 && |outs| > 0 {
          var k := Pick(rng'.Skip(1).Peek(), |outs|);
          rng' := CreatePulse(outs[k], rng'.Skip(2));
          Append3(before, done, [NewPulse(outs[k], rng.Skip(Ambient(connections, inputs[..j], rng).used).Skip(2))]);
        } else {
          rng' := rng'.Skip(1);
        }
      }
      assert inputs[..|inputs|] == inputs;
      AmbientFromInputs(connections, inputs, rng);
      ValidAfterAppend(before, Ambient(connections, inputs, rng).pulses);
      MembersOf(neurons, 0, |neurons|);
      AmbientOnePerInput(connections, inputs, rng);
    }

    /** Appending fresh pulses on existing connections keeps the scene valid. */
    lemma ValidAfterAppend(before: seq<Pulse>, added: seq<Pulse>)
      requires pulses == before + added
      requires Wired(connections, |neurons|) && (forall i :: 0 <= i < |before| ==> Live(before[i], |connections|))
      requires forall n :: 0 <= n < |neurons| ==> 0.0 <= neurons[n].pulseIntensity < 1.2
      requires |labels| == |Bands| && (forall i :: 0 <= i < |labels| ==> labels[i].band == Bands[i])
      requires forall i :: 0 <= i < |added| ==> added[i].connection < |connections| && Fresh(added[i])
      ensures Valid()
    {
      forall i | 0 <= i < |pulses| ensures Live(pulses[i], |connections|) {
        if i >= |before| {
          assert pulses[i] == added[i - |before|];
        } else {
          assert pulses[i] == before[i];
        }
      }
    }

    /** The follow-ons of a delivery to neuron `target`: one draw per outgoing
        connection, in list order, and a new pulse when it exceeds 0.6. */
    method SpawnFollowOns(target: nat, rng: Rng) returns (rng': Rng)
      modifies this`pulses
      ensures pulses == old(pulses) + FollowOns(Outgoing(connections, target), rng).pulses
      ensures rng'.source == rng.source && rng'.next == rng.next + FollowOns(Outgoing(connections, target), rng).used
    {
      var outs := Outgoing(connections, target);
      ghost var before := pulses;
      rng' := rng;
      for j := 0 to |outs|
        invariant pulses == before + FollowOns(outs[..j], rng).pulses
        invariant rng' == rng.Skip(FollowOns(outs[..j], rng).used)
      {
        ghost var done := FollowOns(outs[..j], rng).pulses;
        FollowOnsNext(outs, j, rng);
        if rng'.Peek() > 0.6 {
          rng' := CreatePulse(outs[j], rng'.Skip(1));
          Append3(before, done, [NewPulse(outs[j], rng.Skip(FollowOns(outs[..j], rng).used).Skip(1))]);
        } else {
          rng' := rng'.Skip(1);
        }
      }
      assert outs[..|outs|] == outs;
    }

    /** The animation loop's pulse pass, from the last pulse to the first: each
        pulse advances; one that reaches its target sets the target's pulse
        intensity, spawns follow-ons at the end of the list and is spliced out;
        the others turn their connection cyan. */
    method UpdatePulses(audio: Loudness, rng: Rng) returns (rng': Rng)
      requires Valid() && Audible(audio)
      modifies this`pulses, this`neurons, this`lit
      ensures pulses == Sweep(old(pulses), connections, old(neurons), audio, rng).survivors
                      + Sweep(old(pulses), connections, old(neurons), audio, rng).spawned
      ensures neurons == Sweep(old(pulses), connections, old(neurons), audio, rng).neurons
      ensures lit == old(lit) + Sweep(old(pulses), connections, old(neurons), audio, rng).lit
      ensures rng'.source == rng.source
      ensures rng'.next == rng.next + Sweep(old(pulses), connections, old(neurons), audio, rng).used
      ensures Valid()
    {
      ghost var P, N := pulses, neurons;
      rng' := Pass(P, N, lit, audio, rng);
      ValidAfterSweep(P, N, audio, rng);
    }

    /** The loop of the pulse pass, from the last pulse down to the first. */
    method Pass(ghost P: seq<Pulse>, ghost N: seq<Neuron>, ghost L: set<nat>, audio: Loudness, rng: Rng)
      returns (rng': Rng)
      requires pulses == P && neurons == N && lit == L
      requires OnConnections(P, |connections|) && Wired(connections, |N|)
      modifies this`pulses, this`neurons, this`lit
      ensures pulses == Sweep(P, connections, N, audio, rng).survivors + Sweep(P, connections, N, audio, rng).spawned
      ensures neurons == Sweep(P, connections, N, audio, rng).neurons
      ensures lit == L + Sweep(P, connections, N, audio, rng).lit
      ensures rng' == rng.Skip(Sweep(P, connections, N, audio, rng).used)
    {
      var i := |pulses|;
      rng' := rng;
      while i > 0
        invariant 0 <= i <= |P|
        invariant OnConnections(P[i..], |connections|)
        invariant pulses == P[..i] + Sweep(P[i..], connections, N, audio, rng).survivors
                                   + Sweep(P[i..], connections, N, audio, rng).spawned
        invariant neurons == Sweep(P[i..], connections, N, audio, rng).neurons
        invariant lit == L + Sweep(P[i..], connections, N, audio, rng).lit
        invariant rng' == rng.Skip(Sweep(P[i..], connections, N, audio, rng).used)
      {
        i := i - 1;
        rng' := PassStep(P, N, L, i, audio, rng, rng');
      }
      assert P[0..] == P;
    }

    /** One step of the pulse pass, at index `i`: the state after the pulses above
        `i` becomes the state after the pulses from `i` on. */
    method PassStep(ghost P: seq<Pulse>, ghost N: seq<Neuron>, ghost L: set<nat>, i: nat, audio: Loudness,
                    ghost rng: Rng, at: Rng) returns (rng': Rng)
      requires i < |P| && OnConnections(P[i..], |connections|) && Wired(connections, |N|)
      requires pulses == P[..i + 1] + Sweep(P[i + 1..], connections, N, audio, rng).survivors
                                    + Sweep(P[i + 1..], connections, N, audio, rng).spawned
      requires neurons == Sweep(P[i + 1..], connections, N, audio, rng).neurons
      requires lit == L + Sweep(P[i + 1..], connections, N, audio, rng).lit
      requires at == rng.Skip(Sweep(P[i + 1..], connections, N, audio, rng).used)
      modifies this`pulses, this`neurons, this`lit
      ensures pulses == P[..i] + Sweep(P[i..], connections, N, audio, rng).survivors
                                + Sweep(P[i..], connections, N, audio, rng).spawned
      ensures neurons == Sweep(P[i..], connections, N, audio, rng).neurons
      ensures lit == L + Sweep(P[i..], connections, N, audio, rng).lit
      ensures rng' == rng.Skip(Sweep(P[i..], connections, N, audio, rng).used)
    {
      ghost var rest := Sweep(P[i + 1..], connections, N, audio, rng);
      FrontAt(P[..i + 1], rest.survivors, rest.spawned, i);
      assert P[..i + 1][i] == P[i];
      var p := pulses[i];
      var speed := p.speed;
      if audio.Some? {
        speed := speed * (1.0 + audio.value * 2.0);
      }
      assert speed == p.speed * SpeedFactor(audio);
      p := p.(progress := p.progress + speed);
      if p.progress >= 1.0 {
        rng' := Arrive(P, N, L, i, p, audio, rng, at);
      } else {
        Travel(P, N, L, i, p, audio, rng);
        rng' := at;
      }
    }

    /** Pulse `i` has reached its target. */
    method Arrive(ghost P: seq<Pulse>, ghost N: seq<Neuron>, ghost L: set<nat>, i: nat, p: Pulse, audio: Loudness,
                  ghost rng: Rng, at: Rng) returns (rng': Rng)
      requires i < |P| && OnConnections(P[i..], |connections|) && Wired(connections, |N|)
      requires pulses == P[..i + 1] + Sweep(P[i + 1..], connections, N, audio, rng).survivors
                                    + Sweep(P[i + 1..], connections, N, audio, rng).spawned
      requires neurons == Sweep(P[i + 1..], connections, N, audio, rng).neurons
      requires lit == L + Sweep(P[i + 1..], connections, N, audio, rng).lit
      requires at == rng.Skip(Sweep(P[i + 1..], connections, N, audio, rng).used)
      requires p == Advance(P[i], audio) && p.progress >= 1.0
      modifies this`pulses, this`neurons
      ensures pulses == P[..i] + Sweep(P[i..], connections, N, audio, rng).survivors
                                + Sweep(P[i..], connections, N, audio, rng).spawned
      ensures neurons == Sweep(P[i..], connections, N, audio, rng).neurons
      ensures lit == L + Sweep(P[i..], connections, N, audio, rng).lit
      ensures rng' == rng.Skip(Sweep(P[i..], connections, N, audio, rng).used)
    {
      SweepArrivesStep(P, i, connections, N, audio, rng);
      SweepArrives(P, i, connections, N, audio, rng, pulses, p);
      rng' := Deliver(i, p, at);
    }

    /** Pulse `i` is still travelling: it advances in place and lights its connection. */
    method Travel(ghost P: seq<Pulse>, ghost N: seq<Neuron>, ghost L: set<nat>, i: nat, p: Pulse, audio: Loudness,
                  ghost rng: Rng)
      requires i < |P| && OnConnections(P[i..], |connections|) && Wired(connections, |N|)
      requires pulses == P[..i + 1] + Sweep(P[i + 1..], connections, N, audio, rng).survivors
                                    + Sweep(P[i + 1..], connections, N, audio, rng).spawned
      requires neurons == Sweep(P[i + 1..], connections, N, audio, rng).neurons
      requires lit == L + Sweep(P[i + 1..], connections, N, audio, rng).lit
      requires p == Advance(P[i], audio) && p.progress < 1.0
      modifies this`pulses, this`lit
      ensures pulses == P[..i] + Sweep(P[i..], connections, N, audio, rng).survivors
                                + Sweep(P[i..], connections, N, audio, rng).spawned
      ensures neurons == Sweep(P[i..], connections, N, audio, rng).neurons
      ensures lit == L + Sweep(P[i..], connections, N, audio, rng).lit
      ensures Sweep(P[i..], connections, N, audio, rng).used == Sweep(P[i + 1..], connections, N, audio, rng).used
    {
      ghost var rest := Sweep(P[i + 1..], connections, N, audio, rng);
      assert P[..i + 1] == P[..i] + [P[i]];
      SweepTravels(P, i, connections, N, audio, rng);
      ReplaceAfter(P[..i], P[i], rest.survivors, rest.spawned, p);
      pulses := pulses[i := p];
      lit := lit + {p.connection};
    }

    /** The pulse pass keeps the scene valid. */
    lemma ValidAfterSweep(P: seq<Pulse>, N: seq<Neuron>, audio: Loudness, rng: Rng)
      requires Wired(connections, |N|) && Audible(audio)
      requires OnConnections(P, |connections|) && forall i :: 0 <= i < |P| ==> Live(P[i], |connections|)
      requires forall n :: 0 <= n < |N| ==> 0.0 <= N[n].pulseIntensity < 1.2
      requires |labels| == |Bands| && (forall i :: 0 <= i < |labels| ==> labels[i].band == Bands[i])
      requires pulses == Sweep(P, connections, N, audio, rng).survivors + Sweep(P, connections, N, audio, rng).spawned
      requires neurons == Sweep(P, connections, N, audio, rng).neurons
      ensures Valid()
    {
      SweepKeepsLive(P, connections, N, audio, rng);
      SweepIntensityBounds(P, connections, N, audio, rng);
      forall j | 0 <= j < |pulses| ensures Live(pulses[j], |connections|) {
        assert pulses[j] in Sweep(P, connections, N, audio, rng).survivors
                         + Sweep(P, connections, N, audio, rng).spawned;
      }
    }

    /** A pulse at index `i` that has reached its target: the target takes the
        pulse's intensity, the follow-ons are appended and the pulse is spliced out. */
    method Deliver(i: nat, p: Pulse, rng: Rng) returns (rng': Rng)
      requires i < |pulses| && p.connection < |connections| && Wired(connections, |neurons|)
      modifies this`pulses, this`neurons
      ensures var to := connections[p.connection].to;
              && neurons == old(neurons)[to := old(neurons)[to].(pulseIntensity := p.intensity)]
              && pulses == old(pulses)[..i] + old(pulses)[i + 1..] + FollowOns(Outgoing(connections, to), rng).pulses
              && rng'.source == rng.source && rng'.next == rng.next + FollowOns(Outgoing(connections, to), rng).used
    {
      var to := connections[p.connection].to;
      neurons := neurons[to := neurons[to].(pulseIntensity := p.intensity)];
      pulses := pulses[i := p];
      rng' := SpawnFollowOns(to, rng);
      pulses := pulses[..i] + pulses[i + 1..];
    }

    /** The animation loop's neuron pass: every neuron is shaded for the frame. */
    method UpdateNeurons(frame: Frame)
      requires Valid() && Audible(frame.audio)
      modifies this`neurons
      ensures |neurons| == |old(neurons)|
      ensures forall n :: 0 <= n < |neurons| ==> neurons[n] == Shade(old(neurons)[n], props, frame)
      ensures Valid()
    {
      ghost var N := neurons;
      for n := 0 to |neurons|
        invariant |neurons| == |N|
        invariant forall m :: 0 <= m < n ==> neurons[m] == Shade(N[m], props, frame)
        invariant forall m :: n <= m < |N| ==> neurons[m] == N[m]
      {
        neurons := neurons[n := Shade(neurons[n], props, frame)];
      }
      forall n | 0 <= n < |neurons| ensures 0.0 <= neurons[n].pulseIntensity < 1.2 {
        GlowBounds(N[n], props, frame);
      }
    }

    /** The animation loop's label pass. */
    method UpdateLabels(frame: Frame)
      requires Valid()
      modifies this`labels
      ensures |labels| == |old(labels)|
      ensures forall i :: 0 <= i < |labels| ==> labels[i] == Pose(old(labels)[i], props, frame)
      ensures Valid()
    {
      ghost var B := labels;
      for i := 0 to |labels|
        invariant |labels| == |B|
        invariant forall m :: 0 <= m < i ==> labels[m] == Pose(B[m], props, frame)
        invariant forall m :: i <= m < |B| ==> labels[m] == B[m]
      {
        labels := labels[i := Pose(labels[i], props, frame)];
      }
    }

    /** One animation frame: read the analyser (only while playing), then the
        pulse, neuron and label passes, in that order. */
    method Animate(analyser: Option<seq<Byte>>, beat: Sine, swell: Sine, rng: Rng) returns (rng': Rng)
      requires Valid()
      requires analyser.Some? ==> |analyser.value| == BinCount
      modifies this`pulses, this`neurons, this`lit, this`labels
      ensures var frame := Frame(Reading(props.isPlaying, analyser), beat, swell);
              var swept := Sweep(old(pulses), connections, old(neurons), frame.audio, rng);
              && pulses == swept.survivors + swept.spawned
              && |neurons| == |old(neurons)|
              && (forall n :: 0 <= n < |neurons| ==> neurons[n] == Shade(swept.neurons[n], props, frame))
              && lit == old(lit) + swept.lit
              && |labels| == |old(labels)|
              && (forall i :: 0 <= i < |labels| ==> labels[i] == Pose(old(labels)[i], props, frame))
              && rng'.source == rng.source && rng'.next == rng.next + swept.used
      ensures Valid()
    {
      var audio := Reading(props.isPlaying, analyser);
      var frame := Frame(audio, beat, swell);
      rng' := UpdatePulses(audio, rng);
      UpdateNeurons(frame);
      UpdateLabels(frame);
    }
  }
}
