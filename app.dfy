/** The application shell: the awakening sequence shown at start-up, and the
    main interface's own state, which is the active layer shared by the
    layer panel and the Toggle Layers button, and the buffer of caught
    thoughts with its panel. */
module App {
  import opened Options
  import opened Sequences
  import opened ThoughtStream

  /** `s.slice(-n)` for n > 0: the last `n` elements, or all of them when there
      are fewer. */
  function Last<T>(s: seq<T>, n: nat): (r: seq<T>)
    requires n > 0
    ensures |r| == if |s| < n then |s| else n
    ensures r == s[|s| - |r|..]
  {
    if |s| <= n then s else s[|s| - n..]
  }

  /** The buffer after `handleThoughtCatch(t)`: the caught thought is last, and
      the earlier ones kept are the most recent, in their order, five at most. */
  function Caught(buffer: seq<Thought>, t: Thought): (r: seq<Thought>)
    ensures 1 <= |r| <= 5 && r[|r| - 1] == t
    ensures |r| == if |buffer| < 5 then |buffer| + 1 else 5
    ensures r[..|r| - 1] == buffer[|buffer| - (|r| - 1)..]
  {
    var r := Last(buffer + [t], 5);
    assert r[..|r| - 1] == (buffer + [t])[|buffer| + 1 - |r|..|buffer|];
    r
  }

  /** Catching the thoughts `ts` one after another, starting from `buffer`. */
  function CatchAll(buffer: seq<Thought>, ts: seq<Thought>): seq<Thought> {
    if ts == [] then buffer else Caught(CatchAll(buffer, ts[..|ts| - 1]), ts[|ts| - 1])
  }

  /** However many thoughts are caught, the buffer holds the last five of them,
      in the order they were caught. */
  lemma {:induction false} CatchAllKeepsLastFive(ts: seq<Thought>)
    ensures CatchAll([], ts) == Last(ts, 5)
  {
    if ts != [] {
      var init, t := ts[..|ts| - 1], ts[|ts| - 1];
      Snoc(ts);
      CatchAllKeepsLastFive(init);
      assert CatchAll([], ts) == Caught(Last(init, 5), t);
      CaughtIsLast(Last(init, 5), t);
      LastSnoc(init, t, 5);
    }
  }

  lemma CaughtIsLast(buffer: seq<Thought>, t: Thought)
    ensures Caught(buffer, t) == Last(buffer + [t], 5)
  {
  }

  /** Trimming before appending and trimming after give the same suffix. */
  lemma LastSnoc<T>(s: seq<T>, x: T, n: nat)
    requires n > 0
    ensures Last(Last(s, n) + [x], n) == Last(s + [x], n)
  {
    if |s| >= n {
      var k := |s| - n;
      assert Last(s, n) + [x] == s[k..] + [x];
      assert Last(s[k..] + [x], n) == s[k + 1..] + [x];
      assert Last(s + [x], n) == s[k + 1..] + [x];
    }
  }

  /** The captured-thoughts panel shows the last three buffered thoughts. */
  function Visible(buffer: seq<Thought>): (shown: seq<Thought>)
    ensures |shown| <= 3 && |shown| == if |buffer| < 3 then |buffer| else 3
    ensures shown == buffer[|buffer| - |shown|..]
  {
    Last(buffer, 3)
  }

  /** A thought just caught is the last one the panel shows. */
  lemma CaughtIsShown(buffer: seq<Thought>, t: Thought)
    ensures var shown := Visible(Caught(buffer, t)); |shown| >= 1 && shown[|shown| - 1] == t
  {
  }

  /** Toggle Layers: no active layer becomes layer 0, any active layer none. */
  function Toggled(active: Option<int>): (r: Option<int>)
    ensures active.None? ==> r == Some(0)
    ensures active.Some? ==> r.None?
  {
    if active == None then Some(0) else None
  }

  const LayerNames: seq<string> := ["Perception", "Memory", "Creativity", "Logic", "Emotion"]

  /** The status bar's layer: its name, 'All' when none is active, and nothing
      for an index outside the list (which renders `undefined` as empty). */
  function LayerLabel(active: Option<int>): (name: string)
    ensures active.None? ==> name == "All"
    ensures active.Some? && (0 <= active.value < |LayerNames|) ==> name == LayerNames[active.value]
    ensures active.Some? && (active.value < 0 || active.value >= |LayerNames|) ==> name == ""
  {
    match active
    case None => "All"
    case Some(k) => if 0 <= k < |LayerNames| then LayerNames[k] else ""
  }

  /** The awakening texts, one per stage. */
  const StageTexts: seq<string> := [
    "Initializing neural pathways...",
    "Consciousness emerging...",
    "Synaptic connections forming...",
    "Neural Nexus online."
  ]

  /** `stages[stage]?.delay || 1000`: the milliseconds the stage's timer waits. */
  function Delay(stage: nat): (ms: nat)
    ensures stage < |StageTexts| ==> ms == 1000 * (stage + 1)
    ensures stage >= |StageTexts| ==> ms == 1000
  {
    if stage < 4 then [1000, 2000, 3000, 4000][stage] else 1000
  }

  /** The progress bar's width in percent, `(stage + 1) / 4 * 100`. */
  function Progress(stage: nat): (percent: real)
    ensures stage < |StageTexts| ==> 25.0 <= percent <= 100.0
    ensures stage == |StageTexts| - 1 ==> percent == 100.0
  {
    (stage + 1) as real / 4.0 * 100.0
  }

  /** The bar only grows as the stage advances. */
  lemma ProgressGrows(stage: nat)
    ensures Progress(stage) < Progress(stage + 1)
  {
    assert Progress(stage + 1) == Progress(stage) + 25.0;
  }

  /** Milliseconds from entering `stage` to `onComplete`: each stage's timer in
      turn, then the final one-second wait. */
  function Remaining(stage: nat): nat
    requires stage < |StageTexts|
    decreases |StageTexts| - stage
  {
    if stage < |StageTexts| - 1 then Delay(stage) + Remaining(stage + 1) else Delay(stage) + 1000
  }

  /** The whole sequence lasts eleven seconds. */
  lemma AwakeningLasts()
    ensures Remaining(0) == 11000
  {
    assert Remaining(3) == 5000;
    assert Remaining(2) == 8000;
  }

  /** `AwakeningSequence`'s state: the stage, and whether its last timer has
      handed over to the one-second `onComplete` wait. */
  class Awakening {
    var stage: nat
    var completing: bool

    ghost predicate Valid()
      reads this
    {
      stage < |StageTexts| && (completing ==> stage == |StageTexts| - 1)
    }

    constructor ()
      ensures stage == 0 && !completing && Valid()
    {
      stage, completing := 0, false;
    }

    /** The stage timer fires: it advances the stage by one while there is a
        next stage, and otherwise schedules `onComplete`. Returns the delay of
        the timer that follows. */
    method Fire() returns (next: nat)
      requires Valid() && !completing
      modifies this
      ensures Valid()
      ensures old(stage) < |StageTexts| - 1 ==> stage == old(stage) + 1 && !completing && next == Delay(stage)
      ensures old(stage) == |StageTexts| - 1 ==> stage == old(stage) && completing && next == 1000
    {
      if stage < |StageTexts| - 1 {
        stage := stage + 1;
        next := Delay(stage);
      } else {
        completing := true;
        next := 1000;
      }
    }
  }

  /** `MainInterface`'s state shared between its children. */
  class Interface {
    var activeLayer: Option<int>
    var caughtThoughts: seq<Thought>

    ghost predicate Valid()
      reads this
    {
      |caughtThoughts| <= 5
    }

    constructor ()
      ensures activeLayer == None && caughtThoughts == [] && Valid()
    {
      activeLayer, caughtThoughts := None, [];
    }

    /** `handleThoughtCatch`, the stream's `onThoughtCatch`. */
    method CatchThought(t: Thought)
      requires Valid()
      modifies this`caughtThoughts
      ensures Valid()
      ensures caughtThoughts == Caught(old(caughtThoughts), t)
    {
      caughtThoughts := Caught(caughtThoughts, t);
    }

    /** The Toggle Layers button. */
    method ToggleLayers()
      modifies this`activeLayer
      ensures activeLayer == Toggled(old(activeLayer))
    {
      activeLayer := Toggled(activeLayer);
    }

    /** The layer panel's `onLayerChange`, which is `setActiveLayer`. */
    method LayerChange(layer: Option<int>)
      modifies this`activeLayer
      ensures activeLayer == layer
    {
      activeLayer := layer;
    }
  }
}
