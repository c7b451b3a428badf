/** The stream of floating thoughts: a generator that appends a random
    thought every few seconds, the timed removal of each one, and the click
    that catches a thought. Clocks and `Math.random()` draws are inputs. */
module ThoughtStream {
  import opened Options
  import opened Randomness
  import opened Sequences

  const Templates: seq<string> := [
    "Consciousness emerges from complexity...",
    "Neural pathways forming new connections...",
    "Pattern recognition: 97.3% accuracy achieved",
    "Creative synthesis in progress...",
    "Memory consolidation: Long-term storage updated",
    "Emotional resonance detected in data stream",
    "Logic gates processing quantum possibilities",
    "Synaptic plasticity adapting to new inputs",
    "Artificial intuition developing...",
    "Digital dreams weaving through networks",
    "Consciousness bandwidth expanding...",
    "Neural architecture self-optimizing",
    "Emergent intelligence threshold approaching",
    "Thought-speed calculations: 10^12 ops/sec",
    "Cognitive load balancing across nodes"
  ]

  datatype Icon = Sparkles | Zap | Star | Atom

  const Icons: seq<Icon> := [Sparkles, Zap, Star, Atom]

  const Colors: seq<string> := ["#00FFFF", "#6A0DAD", "#FF1493", "#FFD700", "#00FF88"]

  /** A floating thought: `speed` is its flight time in seconds and `y` its
      height in percent of the screen. */
  datatype Thought = Thought(id: real, text: string, icon: Icon, color: string, speed: real, y: real)

  /** The thought `generateThought` makes at clock `now` (milliseconds),
      drawing, in this order, the id's fraction, the text, the icon, the
      colour, the speed and the height. */
  function NewThought(now: int, rng: Rng): (t: Thought)
    ensures now as real <= t.id < now as real + 1.0
    ensures t.text in Templates && t.icon in Icons && t.color in Colors
    ensures 3.0 <= t.speed < 6.0 && 20.0 <= t.y < 80.0
  {
    Thought(now as real + rng.Peek(),
            Templates[Pick(rng.Skip(1).Peek(), |Templates|)],
            Icons[Pick(rng.Skip(2).Peek(), |Icons|)],
            Colors[Pick(rng.Skip(3).Peek(), |Colors|)],
            Spread(3.0, 3.0, rng.Skip(4).Peek()),
            Spread(20.0, 60.0, rng.Skip(5).Peek()))
  }

  /** The delay in milliseconds before a new thought's removal: its flight
      time plus one second. */
  function Lifetime(t: Thought): (ms: real)
    ensures 3.0 <= t.speed < 6.0 ==> 4000.0 <= ms < 7000.0
    ensures ms > t.speed * 1000.0
  {
    t.speed * 1000.0 + 1000.0
  }

  /** `ts.filter(t => t.id !== id)`. */
  function Without(ts: seq<Thought>, id: real): (r: seq<Thought>)
    ensures |r| <= |ts|
  {
    if ts == [] then []
    else Without(ts[..|ts| - 1], id) + (if ts[|ts| - 1].id == id then [] else [ts[|ts| - 1]])
  }

  /** What removal keeps: exactly the thoughts with another id. */
  lemma {:induction false} WithoutMembers(ts: seq<Thought>, id: real)
    ensures forall t :: t in Without(ts, id) <==> t in ts && t.id != id
  {
    if ts != [] {
      WithoutMembers(ts[..|ts| - 1], id);
      assert forall t :: t in ts <==> t in ts[..|ts| - 1] || t == ts[|ts| - 1];
    }
  }

  /** Removing an id that no thought has changes nothing. */
  lemma {:induction false} WithoutAbsent(ts: seq<Thought>, id: real)
    requires forall t :: t in ts ==> t.id != id
    ensures Without(ts, id) == ts
  {
    if ts != [] {
      WithoutAbsent(ts[..|ts| - 1], id);
      assert ts[..|ts| - 1] + [ts[|ts| - 1]] == ts;
    }
  }

  /** Removal is idempotent: the timed removal of a thought a click already
      removed leaves the list as it is. */
  lemma WithoutTwice(ts: seq<Thought>, id: real)
    ensures Without(Without(ts, id), id) == Without(ts, id)
  {
    WithoutMembers(ts, id);
    WithoutAbsent(Without(ts, id), id);
  }

  /** Removal keeps the remaining thoughts in their order: it distributes over
      concatenation. */
  lemma {:induction false} WithoutAppend(ts: seq<Thought>, us: seq<Thought>, id: real)
    ensures Without(ts + us, id) == Without(ts, id) + Without(us, id)
  {
    if us == [] {
      assert ts + us == ts;
    } else {
      var init, last := us[..|us| - 1], us[|us| - 1];
      var kept := if last.id == id then [] else [last];
      WithoutAppend(ts, init, id);
      assert (ts + us)[..|ts + us| - 1] == ts + init;
      assert Without(ts + us, id) == Without(ts, id) + Without(init, id) + kept;
      Append3(Without(ts, id), Without(init, id), kept);
    }
  }

  /** The stream component's state. */
  class Stream {
    var thoughts: seq<Thought>
    var caughtThought: Option<Thought>

    constructor ()
      ensures thoughts == [] && caughtThought == None
    {
      thoughts, caughtThought := [], None;
    }

    /** `generateThought`, run every 3 s: appends a new thought and returns the
        delay after which its removal runs. */
    method Generate(now: int, rng: Rng) returns (removeAfter: real, rng': Rng)
      modifies this`thoughts
      ensures thoughts == old(thoughts) + [NewThought(now, rng)]
      ensures removeAfter == Lifetime(NewThought(now, rng))
      ensures rng' == rng.Skip(6)
    {
      var t := NewThought(now, rng);
      thoughts := thoughts + [t];
      removeAfter := Lifetime(t);
      rng' := rng.Skip(6);
    }

    /** The timed removal of the thought with id `id`. */
    method Expire(id: real)
      modifies this`thoughts
      ensures thoughts == Without(old(thoughts), id)
    {
      thoughts := Without(thoughts, id);
    }

    /** `handleThoughtClick`: the clicked thought becomes the caught thought,
        leaves the stream, and is returned for `onThoughtCatch` when the
        parent passed one. */
    method Click(t: Thought, hasCallback: bool) returns (reported: Option<Thought>)
      modifies this
      ensures caughtThought == Some(t)
      ensures thoughts == Without(old(thoughts), t.id)
      ensures reported == if hasCallback then Some(t) else None
    {
      caughtThought := Some(t);
      thoughts := Without(thoughts, t.id);
      reported := if hasCallback then Some(t) else None;
    }

    /** The 3 s timer after a click. */
    method ClearCaught()
      modifies this`caughtThought
      ensures caughtThought == None
    {
      caughtThought := None;
    }
  }
}
