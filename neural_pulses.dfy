/** Pulses travelling along the connections of the neural scene: creation,
    ambient pulses from the input layer, and one frame of travel, delivery and
    follow-on spawning. These are the specification functions the scene's
    methods are proved against. */
module NeuralPulses {
  import opened Randomness
  import opened Options
  import opened NeuralGraph

  /** A pulse on connection `connection` (an index into the connection list);
      `progress` runs from 0 at the source neuron to 1 at the target. */
  datatype Pulse = Pulse(connection: nat, progress: real, speed: real, intensity: real)

  /** Pulses produced by a run of draws, and the number of draws consumed. */
  datatype Batch = Batch(pulses: seq<Pulse>, used: nat)

  /** The average frequency read from the analyser in a frame; `None` when the
      scene is not playing or there is no analyser yet. */
  type Loudness = Option<real>

  /** A pulse as it may sit in the scene's pulse list between frames. */
  predicate Live(p: Pulse, connectionCount: nat) {
    && p.connection < connectionCount
    && 0.0 <= p.progress < 1.0
    && 0.02 <= p.speed < 0.05
    && 0.8 <= p.intensity < 1.2
  }

  /** A pulse just created: at the start of its connection, with its speed and
      intensity drawn. */
  predicate Fresh(p: Pulse) {
    && p.progress == 0.0
    && 0.02 <= p.speed < 0.05
    && 0.8 <= p.intensity < 1.2
  }

  /** `createPulse`: a pulse at the start of connection `c`, speed drawn first,
      intensity second. */
  function NewPulse(c: nat, rng: Rng): (p: Pulse)
    ensures p.connection == c && Fresh(p)
  {
    Pulse(c, 0.0, Spread(0.02, 0.03, rng.source(rng.next)), Spread(0.8, 0.4, rng.source(rng.next + 1)))
  }

  /** The indices, in list order, of the connections among the first `upTo`
      that leave neuron `n` (the source's `connections.filter(c => c.from === n)`). */
  function OutgoingBelow(conns: seq<Connection>, n: nat, upTo: nat): seq<nat>
    requires upTo <= |conns|
  {
    if upTo == 0 then []
    else OutgoingBelow(conns, n, upTo - 1) + (if conns[upTo - 1].from == n then [upTo - 1] else [])
  }

  function Outgoing(conns: seq<Connection>, n: nat): seq<nat> {
    OutgoingBelow(conns, n, |conns|)
  }

  /** The filter keeps exactly the connections leaving `n`, each once and in order. */
  lemma {:induction false} OutgoingOf(conns: seq<Connection>, n: nat, upTo: nat)
    requires upTo <= |conns|
    ensures forall t :: 0 <= t < |OutgoingBelow(conns, n, upTo)| ==>
              OutgoingBelow(conns, n, upTo)[t] < upTo && conns[OutgoingBelow(conns, n, upTo)[t]].from == n
    ensures forall k :: 0 <= k < upTo && conns[k].from == n ==> k in OutgoingBelow(conns, n, upTo)
    ensures forall s, t :: 0 <= s < t < |OutgoingBelow(conns, n, upTo)| ==>
              OutgoingBelow(conns, n, upTo)[s] < OutgoingBelow(conns, n, upTo)[t]
  {
    if upTo > 0 {
      OutgoingOf(conns, n, upTo - 1);
    }
  }

  /** Follow-on pulses for a delivered target with outgoing connections `outs`:
      one draw per connection, and when it exceeds 0.6 a new pulse on that
      connection (two more draws). */
  function FollowOns(outs: seq<nat>, rng: Rng): (b: Batch)
    ensures |b.pulses| <= |outs| && b.used == |outs| + 2 * |b.pulses|
  {
    if outs == [] then Batch([], 0)
    else
      var b := FollowOns(outs[..|outs| - 1], rng);
      var at := rng.Skip(b.used);
      if at.Peek() > 0.6 then Batch(b.pulses + [NewPulse(outs[|outs| - 1], at.Skip(1))], b.used + 3)
      else Batch(b.pulses, b.used + 1)
  }

  /** Follow-ons are fresh pulses on the given connections, at most one per
      connection; each connection costs one draw, each pulse two more. */
  lemma {:induction false} FollowOnsFresh(outs: seq<nat>, rng: Rng)
    ensures forall i :: 0 <= i < |FollowOns(outs, rng).pulses| ==>
              FollowOns(outs, rng).pulses[i].connection in outs && Fresh(FollowOns(outs, rng).pulses[i])
    ensures |FollowOns(outs, rng).pulses| <= |outs|
    ensures FollowOns(outs, rng).used == |outs| + 2 * |FollowOns(outs, rng).pulses|
  {
    if outs != [] {
      var init := outs[..|outs| - 1];
      FollowOnsFresh(init, rng);
      forall i | 0 <= i < |FollowOns(outs, rng).pulses|
        ensures FollowOns(outs, rng).pulses[i].connection in outs
      {
        if i < |FollowOns(init, rng).pulses| {
          var c := FollowOns(init, rng).pulses[i].connection;
          var s :| 0 <= s < |init| && init[s] == c;
          assert outs[s] == c;
        }
      }
    }
  }

  /** Draws of at most 0.6 for every connection spawn nothing. */
  lemma {:induction false} FollowOnsQuiet(outs: seq<nat>, rng: Rng)
    requires forall t :: rng.next <= t < rng.next + |outs| ==> rng.source(t) <= 0.6
    ensures FollowOns(outs, rng) == Batch([], |outs|)
  {
    if outs != [] {
      FollowOnsQuiet(outs[..|outs| - 1], rng);
    }
  }

  /** `startPulses`: each input neuron, in order, draws once; above 0.7, if it has
      outgoing connections, a second draw picks one of them and a pulse starts there. */
  function Ambient(conns: seq<Connection>, inputs: seq<nat>, rng: Rng): (b: Batch)
    ensures |b.pulses| <= |inputs| && b.used == |inputs| + 3 * |b.pulses|
  {
    if inputs == [] then Batch([], 0)
    else
      var b := Ambient(conns, inputs[..|inputs| - 1], rng);
      var at := rng.Skip(b.used);
      var outs := Outgoing(conns, inputs[|inputs| - 1]);
      if at.Peek() > 0.7 && |outs| > 0 then
        var c := outs[Pick(at.source(at.next + 1), |outs|)];
        Batch(b.pulses + [NewPulse(c, at.Skip(2))], b.used + 4)
      else Batch(b.pulses, b.used + 1)
  }

  /** Every ambient pulse is a fresh pulse on a connection leaving an input
      neuron; no input neuron starts more than one per call. */
  lemma {:induction false} AmbientFromInputs(conns: seq<Connection>, inputs: seq<nat>, rng: Rng)
    ensures forall i :: 0 <= i < |Ambient(conns, inputs, rng).pulses| ==>
              var p := Ambient(conns, inputs, rng).pulses[i];
              p.connection < |conns| && conns[p.connection].from in inputs && Fresh(p)
    ensures |Ambient(conns, inputs, rng).pulses| <= |inputs|
  {
    if inputs != [] {
      var init, n := inputs[..|inputs| - 1], inputs[|inputs| - 1];
      AmbientFromInputs(conns, init, rng);
      OutgoingOf(conns, n, |conns|);
      forall i | 0 <= i < |Ambient(conns, inputs, rng).pulses|
        ensures conns[Ambient(conns, inputs, rng).pulses[i].connection].from in inputs
      {
        if i < |Ambient(conns, init, rng).pulses| {
          var f := conns[Ambient(conns, init, rng).pulses[i].connection].from;
          var s :| 0 <= s < |init| && init[s] == f;
          assert inputs[s] == f;
        }
      }
    }
  }

  /** Distinct input neurons start pulses on connections with distinct sources:
      each neuron's turn starts at most one pulse. */
  lemma {:induction false} AmbientOnePerInput(conns: seq<Connection>, inputs: seq<nat>, rng: Rng)
    requires forall s, t :: 0 <= s < t < |inputs| ==> inputs[s] != inputs[t]
    ensures var ps := Ambient(conns, inputs, rng).pulses;
            forall i, j :: 0 <= i < j < |ps| ==>
              ps[i].connection < |conns| && ps[j].connection < |conns| &&
              conns[ps[i].connection].from != conns[ps[j].connection].from
  {
    AmbientFromInputs(conns, inputs, rng);
    if inputs != [] {
      var init, n := inputs[..|inputs| - 1], inputs[|inputs| - 1];
      AmbientOnePerInput(conns, init, rng);
      AmbientFromInputs(conns, init, rng);
      OutgoingOf(conns, n, |conns|);
      assert n !in init;
    }
  }

  /** Draws of at most 0.7 for every input neuron start nothing. */
  lemma {:induction false} AmbientQuiet(conns: seq<Connection>, inputs: seq<nat>, rng: Rng)
    requires forall t :: rng.next <= t < rng.next + |inputs| ==> rng.source(t) <= 0.7
    ensures Ambient(conns, inputs, rng) == Batch([], |inputs|)
  {
    if inputs != [] {
      AmbientQuiet(conns, inputs[..|inputs| - 1], rng);
    }
  }

  /** The factor a frame applies to every pulse's speed: 1 + 2 * average
      frequency while the music is read, 1 otherwise. */
  function SpeedFactor(audio: Loudness): (f: real)
    ensures audio.None? ==> f == 1.0
    ensures Audible(audio) ==> 1.0 <= f <= 3.0
  {
    match audio
    case None => 1.0
    case Some(average) => 1.0 + average * 2.0
  }

  /** A pulse after one frame of travel. */
  function Advance(p: Pulse, audio: Loudness): (q: Pulse)
    ensures q.connection == p.connection && q.speed == p.speed && q.intensity == p.intensity
  {
    p.(progress := p.progress + p.speed * SpeedFactor(audio))
  }

  /** A reading of the analyser is an average in [0, 1]. */
  predicate Audible(audio: Loudness) {
    audio.Some? ==> 0.0 <= audio.value <= 1.0
  }

  /** Travel per frame is between the pulse's speed and three times it. */
  lemma AdvanceBounds(p: Pulse, audio: Loudness)
    requires Audible(audio) && p.speed > 0.0
    ensures p.progress + p.speed <= Advance(p, audio).progress <= p.progress + 3.0 * p.speed
  {
    var f := SpeedFactor(audio);
    assert 1.0 <= f <= 3.0;
    Stretch(p.speed, f);
  }

  lemma Stretch(x: real, f: real)
    requires x > 0.0 && 1.0 <= f <= 3.0
    ensures x <= x * f <= 3.0 * x
  {
  }

  /** The progress of a pulse after frames with the given readings. */
  function Travelled(p: Pulse, frames: seq<Loudness>): real
    decreases |frames|
  {
    if frames == [] then p.progress else Travelled(Advance(p, frames[0]), frames[1..])
  }

  /** A pulse advances at least its speed every frame, so it has covered at least
      `|frames| * speed` after `frames`. */
  lemma {:induction false} TravelledAtLeast(p: Pulse, frames: seq<Loudness>)
    requires p.speed > 0.0
    requires forall i :: 0 <= i < |frames| ==> Audible(frames[i])
    ensures Travelled(p, frames) >= p.progress + |frames| as real * p.speed
    decreases |frames|
  {
    if frames != [] {
      AdvanceBounds(p, frames[0]);
      TravelledAtLeast(Advance(p, frames[0]), frames[1..]);
    }
  }

  /** Every live pulse reaches its target within 50 frames. */
  lemma ArrivesWithinFifty(p: Pulse, n: nat, frames: seq<Loudness>)
    requires Live(p, n) && |frames| == 50
    requires forall i :: 0 <= i < |frames| ==> Audible(frames[i])
    ensures Travelled(p, frames) >= 1.0
  {
    TravelledAtLeast(p, frames);
  }

  /** One frame over the pulse list: the pulses still travelling (in order, with
      their new progress), the follow-ons spawned (in spawn order), the neurons
      with delivered intensities, the connections lit cyan, and the draws consumed. */
  datatype Swept = Swept(survivors: seq<Pulse>, spawned: seq<Pulse>, neurons: seq<Neuron>, lit: set<nat>, used: nat)

  /** The connections' endpoints are neurons. */
  predicate Wired(conns: seq<Connection>, neuronCount: nat) {
    forall k :: 0 <= k < |conns| ==> conns[k].from < neuronCount && conns[k].to < neuronCount
  }

  predicate OnConnections(ps: seq<Pulse>, connectionCount: nat) {
    forall i :: 0 <= i < |ps| ==> ps[i].connection < connectionCount
  }

  /** The frame's pulse loop, which runs from the last pulse to the first: pulse 0
      is handled after all the others, so its effects come last. A pulse whose
      progress reaches 1 sets its target's pulse intensity, spawns follow-ons
      on the target's outgoing connections and leaves the list; the others
      light their connection. */
  function Sweep(ps: seq<Pulse>, conns: seq<Connection>, neurons: seq<Neuron>, audio: Loudness, rng: Rng): (r: Swept)
    requires OnConnections(ps, |conns|) && Wired(conns, |neurons|)
    ensures |r.neurons| == |neurons|
    decreases |ps|
  {
    if ps == [] then Swept([], [], neurons, {}, 0)
    else
      var rest := Sweep(ps[1..], conns, neurons, audio, rng);
      var p := Advance(ps[0], audio);
      if p.progress >= 1.0 then
        var to := conns[p.connection].to;
        var b := FollowOns(Outgoing(conns, to), rng.Skip(rest.used));
        Swept(rest.survivors, rest.spawned + b.pulses,
              rest.neurons[to := rest.neurons[to].(pulseIntensity := p.intensity)],
              rest.lit, rest.used + b.used)
      else
        Swept([p] + rest.survivors, rest.spawned, rest.neurons, rest.lit + {p.connection}, rest.used)
  }

  /** The pulses still short of their target after one frame, in list order. */
  function InFlight(ps: seq<Pulse>, audio: Loudness): seq<Pulse> {
    if ps == [] then []
    else if Advance(ps[|ps| - 1], audio).progress < 1.0
    then InFlight(ps[..|ps| - 1], audio) + [Advance(ps[|ps| - 1], audio)]
    else InFlight(ps[..|ps| - 1], audio)
  }

  lemma {:induction false} InFlightCons(p: Pulse, ps: seq<Pulse>, audio: Loudness)
    ensures InFlight([p] + ps, audio)
         == (if Advance(p, audio).progress < 1.0 then [Advance(p, audio)] else []) + InFlight(ps, audio)
    decreases |ps|
  {
    if ps != [] {
      var init := ps[..|ps| - 1];
      assert ([p] + ps)[..|ps|] == [p] + init;
      InFlightCons(p, init, audio);
    } else {
      assert [p] + ps == [p];
    }
  }

  /** The survivors are exactly the pulses that have not arrived, advanced, in order. */
  lemma {:induction false} SweepSurvivors(ps: seq<Pulse>, conns: seq<Connection>, neurons: seq<Neuron>, audio: Loudness, rng: Rng)
    requires OnConnections(ps, |conns|) && Wired(conns, |neurons|)
    ensures Sweep(ps, conns, neurons, audio, rng).survivors == InFlight(ps, audio)
    decreases |ps|
  {
    if ps != [] {
      SweepSurvivors(ps[1..], conns, neurons, audio, rng);
      InFlightCons(ps[0], ps[1..], audio);
      assert [ps[0]] + ps[1..] == ps;
    }
  }

  /** The intensity delivered to neuron `n` this frame: that of the first pulse in
      the list that reaches `n`, if any. */
  function FirstArrival(ps: seq<Pulse>, conns: seq<Connection>, audio: Loudness, n: nat): Option<real>
    requires OnConnections(ps, |conns|)
    decreases |ps|
  {
    if ps == [] then None
    else if Advance(ps[0], audio).progress >= 1.0 && conns[ps[0].connection].to == n then Some(ps[0].intensity)
    else FirstArrival(ps[1..], conns, audio, n)
  }

  /** A neuron that a pulse reaches takes the intensity of the lowest-indexed such
      pulse; every other neuron, and every other field, is untouched. */
  lemma {:induction false} SweepDelivers(ps: seq<Pulse>, conns: seq<Connection>, neurons: seq<Neuron>, audio: Loudness, rng: Rng, n: nat)
    requires OnConnections(ps, |conns|) && Wired(conns, |neurons|) && n < |neurons|
    ensures Sweep(ps, conns, neurons, audio, rng).neurons[n]
         == match FirstArrival(ps, conns, audio, n)
            case None => neurons[n]
            case Some(v) => neurons[n].(pulseIntensity := v)
    decreases |ps|
  {
    if ps != [] {
      SweepDelivers(ps[1..], conns, neurons, audio, rng, n);
    }
  }

  /** Every follow-on is a fresh pulse on a connection leaving the target of a
      pulse that arrived this frame. */
  lemma {:induction false} SweepSpawnsFromArrivals(ps: seq<Pulse>, conns: seq<Connection>, neurons: seq<Neuron>, audio: Loudness, rng: Rng)
    requires OnConnections(ps, |conns|) && Wired(conns, |neurons|)
    ensures forall q :: q in Sweep(ps, conns, neurons, audio, rng).spawned ==>
              Fresh(q) && q.connection < |conns| &&
              exists i :: 0 <= i < |ps| && Advance(ps[i], audio).progress >= 1.0 &&
                          conns[q.connection].from == conns[ps[i].connection].to
    decreases |ps|
  {
    if ps != [] {
      var r := Sweep(ps, conns, neurons, audio, rng);
      var rest := Sweep(ps[1..], conns, neurons, audio, rng);
      SweepSpawnsFromArrivals(ps[1..], conns, neurons, audio, rng);
      forall q | q in r.spawned
        ensures Fresh(q) && q.connection < |conns|
        ensures exists i :: 0 <= i < |ps| && Advance(ps[i], audio).progress >= 1.0 &&
                            conns[q.connection].from == conns[ps[i].connection].to
      {
        if q in rest.spawned {
          var i :| 0 <= i < |ps[1..]| && Advance(ps[1..][i], audio).progress >= 1.0 &&
                   conns[q.connection].from == conns[ps[1..][i].connection].to;
          assert ps[i + 1] == ps[1..][i];
        } else {
          var to := conns[ps[0].connection].to;
          var outs := Outgoing(conns, to);
          var b := FollowOns(outs, rng.Skip(rest.used));
          assert q in b.pulses;
          FollowOnsFresh(outs, rng.Skip(rest.used));
          OutgoingOf(conns, to, |conns|);
          var j :| 0 <= j < |b.pulses| && b.pulses[j] == q;
          var s :| 0 <= s < |outs| && outs[s] == q.connection;
        }
      }
    }
  }

  /** One frame keeps every pulse live: survivors have progressed but not
      arrived, and follow-ons start fresh on existing connections. */
  lemma {:induction false} SweepKeepsLive(ps: seq<Pulse>, conns: seq<Connection>, neurons: seq<Neuron>, audio: Loudness, rng: Rng)
    requires OnConnections(ps, |conns|) && Wired(conns, |neurons|) && Audible(audio)
    requires forall i :: 0 <= i < |ps| ==> Live(ps[i], |conns|)
    ensures forall q :: q in Sweep(ps, conns, neurons, audio, rng).survivors ==> Live(q, |conns|)
    ensures forall q :: q in Sweep(ps, conns, neurons, audio, rng).spawned ==> Live(q, |conns|)
    decreases |ps|
  {
    if ps != [] {
      var rest := Sweep(ps[1..], conns, neurons, audio, rng);
      SweepKeepsLive(ps[1..], conns, neurons, audio, rng);
      assert Live(ps[0], |conns|);
      AdvanceBounds(ps[0], audio);
      var p := Advance(ps[0], audio);
      if p.progress >= 1.0 {
        var to := conns[p.connection].to;
        var outs := Outgoing(conns, to);
        var b := FollowOns(outs, rng.Skip(rest.used));
        FollowOnsFresh(outs, rng.Skip(rest.used));
        OutgoingOf(conns, to, |conns|);
        forall q | q in b.pulses ensures Live(q, |conns|) {
          var i :| 0 <= i < |b.pulses| && b.pulses[i] == q;
          var s :| 0 <= s < |outs| && outs[s] == q.connection;
        }
      }
    }
  }

  /** Delivered intensities stay within [0, 1.2) when they start there. */
  lemma {:induction false} SweepIntensityBounds(ps: seq<Pulse>, conns: seq<Connection>, neurons: seq<Neuron>, audio: Loudness, rng: Rng)
    requires OnConnections(ps, |conns|) && Wired(conns, |neurons|)
    requires forall i :: 0 <= i < |ps| ==> Live(ps[i], |conns|)
    requires forall n :: 0 <= n < |neurons| ==> 0.0 <= neurons[n].pulseIntensity < 1.2
    ensures forall n :: 0 <= n < |neurons| ==>
              0.0 <= Sweep(ps, conns, neurons, audio, rng).neurons[n].pulseIntensity < 1.2
    decreases |ps|
  {
    if ps != [] {
      SweepIntensityBounds(ps[1..], conns, neurons, audio, rng);
      assert Live(ps[0], |conns|);
    }
  }
}
