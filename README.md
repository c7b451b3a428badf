# Neural Nexus — a Dafny model of its interactive core

Neural Nexus is a single-page React application built around a Three.js
"brain". This project models the logic behind its interactive parts:

- **The neural scene** (`NeuralScene.jsx`). The scene is built when it mounts:
  - 51 neurons in five layers, with 15 "music" neurons in the fourth layer;
  - a random feed-forward set of connections between consecutive layers, each
    pair kept when its draw exceeds 0.3;
  - one label per band.

  A 500 ms timer starts ambient pulses from the input layer. Each animation
  frame then does three passes:
  - it moves every pulse (faster with the music's average frequency);
  - it delivers the pulses that arrive, which spawns follow-on pulses;
  - it re-shades every neuron, and swells the selected band's label.
- **The neural playground** (`NeuralPlayground.jsx`). This is a canvas editor:
  - a click places a node, selects one, or joins the selection to another
    node;
  - nodes can be dragged, and the editor can be reset;
  - a play animation makes each node's activity drift;
  - the activity becomes the alpha digits of the node's colour.
- **The consciousness-layer panel** (`ConsciousnessLayers.jsx`). It has five
  layers, and a click toggles the selected one and reports it.
- **The music panel** (`BandSelector.jsx`). It has three bands of three tracks:
  - a track counter;
  - the play button's gating;
  - the tones each band's Web Audio loop schedules.
- **The thought stream** (`ThoughtStream.jsx`). Random thoughts appear every
  3 s and leave after their flight. A click catches one.
- **The application shell** (`App.jsx`). It holds:
  - the timed awakening sequence and its progress bar;
  - the active layer shared between the layer panel and the Toggle Layers
    button;
  - the buffer of the last five caught thoughts, of which the panel shows the
    last three.

## How it is modelled

Pure computations are functions over datatypes. Component state that the
source mutates is a class with `modifies` clauses:
- `NeuralScene.Scene`;
- `NeuralPlayground.Playground`;
- `ConsciousnessLayers.Panel`;
- `BandSelector.Panel`;
- `ThoughtStream.Stream`;
- `App.Awakening` and `App.Interface`.

The source's loops are methods with loops, each proved against a
specification function. Examples:
- the neuron and connection builders, against `Placed` and `Kept`;
- the pulse timer, against `Ambient`;
- the frame's backwards pulse pass, against `Sweep`;
- the tone scheduler, against `Schedule`.

The properties of the source's behaviour are then lemmas about those
functions.

Inputs from outside the program become parameters:
- `Math.random()` is an infinite stream of draws in [0, 1) (`Randomness.Rng`).
  Each operation consumes draws in the source's order and returns the stream
  advanced past them.
- `Date.now()` values, `Math.sin` values and the analyser's frequency bins
  are also parameters.
- Whether an audio context can be created is a boolean.
- Whether the canvas is mounted is a boolean.

Supporting modules:
- `Hex` models `toString(16)` and `padStart`, which the source uses to write
  colours.
- `Options` and `Sequences` hold stock helpers.

## Model

| member | source | states |
|---|---|---|
| NeuralGraph.BuildNeurons | NeuralScene.jsx:98-140 | neurons are placed layer by layer, `count` per layer in slot order, each with its layer's z and colour, no pulse, emissive 0.1, a radius in [3,5), or [4,7) for a music neuron whose first draw is discarded; the stream advances by one draw per neuron plus one per music neuron |
| NeuralGraph.MembersOf | NeuralScene.jsx:177-178 | the layer filter yields exactly the indices of the layer's neurons, each once, in list order |
| NeuralGraph.LayerOfIndex | NeuralScene.jsx:98-140 | a placed neuron belongs to layer k iff its index lies in layer k's block |
| NeuralGraph.LayerSizes | NeuralScene.jsx:98-140 | each layer's filter yields the contiguous block of `count` indices where the builder put that layer |
| NeuralGraph.SceneOffsets | NeuralScene.jsx:89-95 | the layer table's blocks start at 0, 8, 20, 30 and 45, and 51 neurons are built in all |
| NeuralGraph.SceneTable | NeuralScene.jsx:89-140 | the scene has 51 neurons, and a neuron is a music neuron iff it is in the fourth layer iff its index is in 30..44 |
| NeuralGraph.SceneDraws | NeuralScene.jsx:98-106 | mounting consumes 66 radius draws (8+12+10+2·15+6) and then one draw for each of 456 candidate pairs |
| NeuralGraph.BuildConnections | NeuralScene.jsx:175-204 | the connections are the candidate pairs of consecutive layers whose own draw exceeds 0.3, in the builder's order, one draw per candidate; every connection leads from layer k to layer k+1 |
| NeuralGraph.ConnectStep | NeuralScene.jsx:175-178 | layer k contributes its pairs with layer k+1, and the last layer contributes nothing |
| NeuralGraph.ConnectLayers | NeuralScene.jsx:180-202 | one layer pair is decided row by row: each neuron of the current layer against each neuron of the next |
| NeuralGraph.ConnectNeuron | NeuralScene.jsx:181-201 | one neuron's row keeps the target whose draw exceeds 0.3, one draw per target |
| NeuralGraph.KeptAppend | NeuralScene.jsx:175-204 | deciding two runs of candidates one after the other keeps what deciding them together keeps, with consecutive draws |
| NeuralGraph.KeptConcat | NeuralScene.jsx:175-204 | appending a second run's kept connections to the first run's gives the whole run's kept connections |
| NeuralGraph.PairsFrom | NeuralScene.jsx:180-182 | a layer pair yields (size of one layer)·(size of the next) candidates, each from a member of the current layer to a member of the next |
| NeuralGraph.RowFrom | NeuralScene.jsx:181-182 | a row pairs the neuron with each target, in order |
| NeuralGraph.PairsFeedForward | NeuralScene.jsx:176-182 | every pair between layers k-1 and k joins existing neurons of those two layers |
| NeuralGraph.CandidatesFeedForward | NeuralScene.jsx:175-204 | every candidate considered for the first k layers satisfies the feed-forward invariant |
| NeuralGraph.Candidates | NeuralScene.jsx:175-181 | every candidate pair joins a neuron of one layer to a neuron of the next, and none leaves the last layer |
| NeuralGraph.Kept | NeuralScene.jsx:182 | only candidates are ever connected: every kept connection is one of the candidate pairs |
| NeuralGraph.KeptFeedForward | NeuralScene.jsx:175-204 | whatever the draws, every connection joins a neuron of layer k to one of layer k+1, and none leaves the last layer |
| NeuralGraph.AllDrawsPass | NeuralScene.jsx:182 | when every draw exceeds 0.3, every candidate is connected, in order |
| NeuralGraph.AllDrawsFail | NeuralScene.jsx:182 | when no draw exceeds 0.3, nothing is connected |
| NeuralGraph.FullyConnected | NeuralScene.jsx:175-204 | with every draw above 0.3, each neuron of layer k is connected to each neuron of layer k+1; conversely, every connection is such a pair |
| NeuralGraph.CandidatesComplete | NeuralScene.jsx:175-204 | every (layer k neuron, layer k+1 neuron) pair is a candidate |
| NeuralGraph.CandidateCount | NeuralScene.jsx:175-204 | the builder draws once per pair of consecutive-layer neurons: Σ count(k)·count(k+1) |
| NeuralGraph.GroupSizes | NeuralScene.jsx:177-178 | each layer's filter finds that layer's `count` neurons |
| NeuralGraph.Range | NeuralScene.jsx:98-140 | the block of indices lo..hi-1 has hi-lo elements |
| Hex.ToHex | NeuralScene.jsx:153 | `toString(16)` writes at least one digit, all of them lower-case hexadecimal |
| Hex.HexRoundTrip | NeuralScene.jsx:153 | reading back the numeral `toString(16)` writes gives the number |
| Hex.HexLength | NeuralScene.jsx:153 | the numeral of n < 16^k has at most k digits and no leading zero |
| Hex.FromHexBelow | NeuralScene.jsx:153 | a numeral of k digits denotes a number below 16^k |
| Hex.PadStart | NeuralScene.jsx:153 | `padStart` yields the string preceded by fill characters up to the width, or the string itself when it is already that long |
| Hex.LeadingZeros | NeuralScene.jsx:153 | leading zeros do not change a numeral's value |
| Hex.ZerosRead | NeuralScene.jsx:153 | a run of zeros reads as 0 |
| Hex.PaddedReads | NeuralScene.jsx:153 | a 24-bit colour padded to six digits has six digits and reads back as the colour |
| Hex.CssColorRoundTrip | NeuralScene.jsx:153 | a label's fill style is `#` plus six digits that read back as the band's colour |
| NeuralScene.Labels | NeuralScene.jsx:146-172 | one label per band, in table order, at scale (2, 0.5, 1) |
| NeuralPulses.NewPulse | NeuralScene.jsx:221-230 | a created pulse starts at progress 0 on its connection, with speed in [0.02, 0.05) and intensity in [0.8, 1.2) |
| NeuralScene.Scene.CreatePulse | NeuralScene.jsx:221-230 | appends that pulse to the list, drawing speed then intensity |
| NeuralPulses.OutgoingOf | NeuralScene.jsx:238 | the connection filter yields exactly the connections leaving the neuron, each once, in list order |
| NeuralPulses.AmbientFromInputs | NeuralScene.jsx:233-245 | every ambient pulse is fresh and on a connection leaving an input neuron, and there are no more pulses than input neurons |
| NeuralPulses.AmbientOnePerInput | NeuralScene.jsx:236-243 | for distinct input neurons, no two ambient pulses leave the same neuron, so each input neuron starts at most one pulse |
| NeuralPulses.Ambient | NeuralScene.jsx:233-245 | at most one pulse per input neuron; each input costs one draw and each started pulse three more (the connection, the speed, the intensity) |
| NeuralPulses.AmbientQuiet | NeuralScene.jsx:233-245 | when no input neuron's draw exceeds 0.7, no pulse starts, and one draw per input is consumed |
| NeuralScene.AmbientNext | NeuralScene.jsx:236-243 | one more input neuron's turn adds one draw, or, above 0.7 with outgoing connections, a picked connection's pulse and four draws |
| NeuralScene.Scene.StartPulses | NeuralScene.jsx:233-245 | the timer appends the ambient batch of the input layer, no two new pulses leave the same neuron, and the scene stays valid |
| NeuralPulses.FollowOnsFresh | NeuralScene.jsx:284-288 | follow-ons are fresh pulses on the target's outgoing connections, at most one each; each connection costs one draw and each pulse two more |
| NeuralPulses.FollowOnsQuiet | NeuralScene.jsx:284-288 | when no draw exceeds 0.6, no follow-on is spawned |
| NeuralPulses.FollowOns | NeuralScene.jsx:284-288 | at most one follow-on per outgoing connection; each connection costs one draw and each spawned pulse two more |
| NeuralScene.FollowOnsNext | NeuralScene.jsx:286-287 | one more outgoing connection adds a draw, and a pulse when that draw exceeds 0.6 |
| NeuralScene.Scene.SpawnFollowOns | NeuralScene.jsx:284-288 | the loop appends exactly the follow-ons of the delivered target |
| NeuralPulses.Advance | NeuralScene.jsx:272-277 | a frame moves only the pulse's progress |
| NeuralPulses.SpeedFactor | NeuralScene.jsx:272-275 | without audio a pulse keeps its speed; with an average frequency in [0,1] the speed is multiplied by a factor in [1, 3] |
| NeuralPulses.AdvanceBounds | NeuralScene.jsx:272-277 | with an average frequency in [0,1], a pulse advances between its speed and three times its speed |
| NeuralPulses.TravelledAtLeast | NeuralScene.jsx:272-277 | after n frames a pulse has covered at least n·speed |
| NeuralPulses.ArrivesWithinFifty | NeuralScene.jsx:272-279 | every live pulse reaches its target within 50 frames |
| NeuralPulses.Sweep | NeuralScene.jsx:268-297 | the pass leaves the neuron list the same length |
| NeuralPulses.SweepSurvivors | NeuralScene.jsx:268-297 | the pulses left after the pass are exactly those that have not arrived, advanced once, in list order |
| NeuralPulses.SweepDelivers | NeuralScene.jsx:279-281 | a neuron that pulses reach takes the intensity of the lowest-indexed such pulse (the backwards loop delivers it last); every other neuron is untouched |
| NeuralPulses.SweepSpawnsFromArrivals | NeuralScene.jsx:279-290 | every spawned pulse is fresh, on a connection leaving the target of a pulse that arrived this frame |
| NeuralPulses.SweepKeepsLive | NeuralScene.jsx:268-297 | after a frame every pulse in the list is still live, i.e. short of its target, with speed and intensity in range |
| NeuralPulses.SweepIntensityBounds | NeuralScene.jsx:281 | delivered intensities stay in [0, 1.2) |
| NeuralScene.SweepArrivesStep | NeuralScene.jsx:279-290 | an arrived pulse does not survive; its target takes its intensity, and its follow-ons are spawned after the others with the draws that follow |
| NeuralScene.SweepArrives | NeuralScene.jsx:279-290 | splicing an arrived pulse out and appending its follow-ons is the pass's step for that pulse |
| NeuralScene.SweepTravels | NeuralScene.jsx:291-296 | a pulse still travelling is advanced in place and lights its connection |
| NeuralScene.Scene.UpdatePulses | NeuralScene.jsx:267-297 | the backwards loop leaves the survivors followed by the spawned pulses, the delivered neurons, the lit connections and the consumed draws that `Sweep` specifies, and keeps the scene valid |
| NeuralScene.Scene.Pass | NeuralScene.jsx:268-297 | the backwards loop over the pulse list ends in exactly the state `Sweep` describes |
| NeuralScene.Scene.PassStep | NeuralScene.jsx:268-297 | one iteration extends the processed suffix by one pulse, as `Sweep` specifies |
| NeuralScene.Scene.Arrive | NeuralScene.jsx:279-290 | an arrived pulse delivers, spawns and leaves the list |
| NeuralScene.Scene.Travel | NeuralScene.jsx:291-296 | a travelling pulse advances in place and lights its connection, with no draw |
| NeuralScene.Scene.Deliver | NeuralScene.jsx:279-290 | the target takes the pulse's intensity, the follow-ons are appended and pulse i is spliced out |
| NeuralScene.Scene.ValidAfterAppend | NeuralScene.jsx:229 | appending fresh pulses on existing connections keeps the scene valid |
| NeuralScene.Scene.ValidAfterSweep | NeuralScene.jsx:267-297 | the pulse pass keeps the scene valid |
| NeuralVisuals.Sum | NeuralScene.jsx:264 | the sum of the bins is at most 255 per bin |
| NeuralVisuals.AverageFrequency | NeuralScene.jsx:264 | the average frequency lies in [0, 1] |
| NeuralVisuals.SumUniform | NeuralScene.jsx:264 | equal bins sum to the value times the count |
| NeuralVisuals.AverageExtremes | NeuralScene.jsx:264 | silence reads 0 and a saturated spectrum reads 1 |
| NeuralVisuals.Reading | NeuralScene.jsx:257-265 | the analyser is read iff playing and it exists, and the reading is in [0,1] |
| NeuralVisuals.FindBand | NeuralScene.jsx:309 | the band found has the selected name, and none is found when no band does |
| NeuralVisuals.Rhythm | NeuralScene.jsx:304-310 | a band colours the music neurons only while the music is read, and it is the catalogue band with the selected name (Veridian selects the second band) |
| NeuralVisuals.BaseIntensity | NeuralScene.jsx:301-316 | 0.1 for every neuron except a music neuron while the music is read; with an average frequency in [0,1] it stays in [0.1, 0.9] |
| NeuralVisuals.Shade | NeuralScene.jsx:300-329 | shading a neuron changes only its glow, pulse intensity and displayed colour |
| NeuralVisuals.ShadeGlow | NeuralScene.jsx:300-329 | the glow is the base intensity, plus half the pulse intensity of a pulsing neuron, plus 0.3 on the active layer; a pulsing neuron's intensity falls to 95% and any other neuron's is kept |
| NeuralVisuals.QuietNeurons | NeuralScene.jsx:300-329 | a non-music neuron, or any neuron while no music is read, keeps its colour and glows 0.1 + half its pulse intensity (+0.3 when its layer is active) |
| NeuralVisuals.BandColour | NeuralScene.jsx:304-316 | a neuron's colour changes only to the selected band's colour, and only for a music neuron while the music is read |
| NeuralVisuals.LayerHighlight | NeuralScene.jsx:326-328 | an active layer adds exactly 0.3 to its neurons' glow and changes nothing else |
| NeuralVisuals.GlowBounds | NeuralScene.jsx:300-329 | the glow stays in [0.1, 1.8] and the pulse intensity stays in [0, 1.2) |
| NeuralVisuals.Decay | NeuralScene.jsx:320 | 0.95^k lies in (0, 1] |
| NeuralVisuals.PulseFades | NeuralScene.jsx:318-320 | after k frames a delivered intensity p has faded to p·0.95^k, which never reaches 0 |
| NeuralVisuals.Pose | NeuralScene.jsx:332-352 | a label keeps its band |
| NeuralVisuals.PoseBounds | NeuralScene.jsx:332-352 | a label keeps its 4:1 aspect; the selected one scales within [0.7, 1.3] of its rest size with opacity in [0.6, 1]; the others rest at (2, 0.5, 1) with opacity 0.7 |
| NeuralVisuals.OneSelected | NeuralScene.jsx:19-38 | the band names are distinct, so at most one label is selected |
| NeuralScene.Scene.UpdateNeurons | NeuralScene.jsx:300-329 | every neuron is shaded once for the frame and the scene stays valid |
| NeuralScene.Scene.UpdateLabels | NeuralScene.jsx:332-352 | every label is posed once for the frame |
| NeuralScene.Scene.Animate | NeuralScene.jsx:251-352 | a frame is the pulse pass, then shading of the neurons it left, then the labels, reading the analyser only while playing |
| NeuralScene.Scene.Mount | NeuralScene.jsx:40-209 | a mounted scene has 51 placed neurons, feed-forward connections decided by the 456 draws after the 66 radius draws, no pulses and the three labels |
| NeuralScene.Scene.constructor | NeuralScene.jsx:85-86 | a new scene has no pulses and fresh labels |
| Randomness.Pick | NeuralScene.jsx:240 | `Math.floor(r·n)` is an index below n |
| Randomness.Spread | NeuralScene.jsx:225-226 | `lo + r·width` lies in [lo, lo + width) |
| NeuralPlayground.FirstNear | NeuralPlayground.jsx:49-52 | the node found is the first within distance 20 of the click, and none is found iff no node is that close |
| NeuralPlayground.Near | NeuralPlayground.jsx:49-51 | a node near the click lies within 20 of it on each axis, and every node within 14 of it on both axes is near |
| NeuralPlayground.NewNode | NeuralPlayground.jsx:70-77 | a new node sits at the click with the click's id, a kind from the three, activity in [0,1) and size in [10,20) |
| NeuralPlayground.NewLink | NeuralPlayground.jsx:57-62 | a new connection joins the selected node to the clicked one, with strength in [0.2, 1) |
| NeuralPlayground.Playground.Click | NeuralPlayground.jsx:41-81 | nothing happens before mount; a click near a node joins a different selected node to it and clears the selection, or else selects it; a click elsewhere adds a node and clears the selection; no self-connection ever arises |
| NeuralPlayground.Dragged | NeuralPlayground.jsx:90-94 | exactly the nodes with the dragged id move to the point, and the rest are unchanged |
| NeuralPlayground.DragLastWins | NeuralPlayground.jsx:90-94 | two drags of one node equal the second drag alone |
| NeuralPlayground.Playground.Drag | NeuralPlayground.jsx:83-95 | once mounted, a drag applies `Dragged`; before mount it does nothing |
| NeuralPlayground.Playground.Reset | NeuralPlayground.jsx:97-102 | reset yields the initial state whatever the state was, so it is idempotent |
| NeuralPlayground.Playground.constructor | NeuralPlayground.jsx:8-11 | the playground starts with no nodes, no connections, no selection and not playing |
| NeuralPlayground.Playground.TogglePlay | NeuralPlayground.jsx:136 | the button flips playing |
| NeuralPlayground.Energized | NeuralPlayground.jsx:19-24 | a frame changes only activities: each stays non-negative, drops by at most 0.02 and rises by less than 0.08 |
| NeuralPlayground.EnergizedDraws | NeuralPlayground.jsx:19-24 | node i's activity uses draw i, in list order |
| NeuralPlayground.Stirred | NeuralPlayground.jsx:22 | a drifted activity is never negative, falls by at most 0.02 and, from a non-negative activity, rises by less than 0.08 |
| NeuralPlayground.Playground.Animate | NeuralPlayground.jsx:15-27 | a frame, which runs only while playing, applies `Energized` with one draw per node and keeps activities non-negative |
| NeuralPlayground.Alpha | NeuralPlayground.jsx:110-111 | the alpha is at least 76 for a non-negative activity and at most 255 for an activity up to 1 |
| NeuralPlayground.KindColor | NeuralPlayground.jsx:105-109 | each kind's colour is `#` followed by six hexadecimal digits |
| NeuralPlayground.NodeColor | NeuralPlayground.jsx:104-112 | a colour is the kind's `#rrggbb` followed by at least two alpha digits |
| NeuralPlayground.TwoDigits | NeuralPlayground.jsx:111 | values 16..255 print as exactly two hexadecimal digits |
| NeuralPlayground.NodeColorDigits | NeuralPlayground.jsx:104-112 | for activity in [0,1] the colour is nine characters whose last two read back as the alpha in [76, 255] |
| NeuralPlayground.FullOpacity | NeuralPlayground.jsx:104-112 | activity 1 gives the kind's colour followed by `ff` |
| NeuralPlayground.ColorOverflow | NeuralPlayground.jsx:19-24 | one animation frame takes activity 0.95 with draw 0.99 to 1.029, whose alpha 260 makes a ten-character colour |
| NeuralPlayground.Opacity | NeuralPlayground.jsx:110 | the capped opacity lies in [0,1] and equals the activity up to 1 |
| NeuralPlayground.ClampedNodeColor | NeuralPlayground.jsx:104-112 | the capped colour agrees with the source's for activities up to 1 |
| NeuralPlayground.ClampedNodeColorDigits | NeuralPlayground.jsx:104-112 | with the cap, every non-negative activity gives a nine-character `#rrggbbaa` whose alpha lies in [76, 255] |
| ConsciousnessLayers.Table | ConsciousnessLayers.jsx:5-46 | five layers with ids 0..4 in display order |
| ConsciousnessLayers.Clicked | ConsciousnessLayers.jsx:52-62 | a click clears the selection iff the clicked layer was selected; otherwise it selects that layer |
| ConsciousnessLayers.ClickTwice | ConsciousnessLayers.jsx:52-62 | two clicks on a layer not selected leave nothing selected; two clicks on the selected one leave it selected |
| ConsciousnessLayers.Panel.constructor | ConsciousnessLayers.jsx:49-50 | nothing is selected and the panel is collapsed |
| ConsciousnessLayers.Panel.Click | ConsciousnessLayers.jsx:52-62 | the click toggles the selection, keeps "expanded iff selected", and reports the new selection to the parent |
| BandSelector.FindBand | BandSelector.jsx:122 | the band found has the name and is the first such; none is found iff no band has it |
| BandSelector.NextTrack | BandSelector.jsx:120-127 | with a chosen catalogue band the track advances modulo 3; otherwise it is unchanged |
| BandSelector.TrackCycle | BandSelector.jsx:120-127 | the track stays below 3 and returns after three presses |
| BandSelector.Panel.Next | BandSelector.jsx:120-127 | the button applies `NextTrack` to the counter |
| BandSelector.Panel.constructor | BandSelector.jsx:38 | the counter starts at track 0 |
| BandSelector.PatternOf | BandSelector.jsx:65-92 | only the three band names have a loop pattern |
| BandSelector.Voices | BandSelector.jsx:65-92 | each pattern has four base frequencies |
| BandSelector.Sounds | BandSelector.jsx:78 | Penumbra and Mild Fever play on every beat, Veridian on the even beats only |
| BandSelector.Pitch | BandSelector.jsx:70-88 | Veridian plays the base frequency; for any sine in [-1, 1] the others stay within 30% of a non-negative base |
| BandSelector.VoiceSound | BandSelector.jsx:65-92 | every tone of a voice is on a sounding beat, planned at that beat's frequency and time |
| BandSelector.VoiceComplete | BandSelector.jsx:65-92 | every sounding beat has its tone in the voice |
| BandSelector.VoiceCount | BandSelector.jsx:65-92 | a voice has one tone per sounding beat |
| BandSelector.ScheduleSound | BandSelector.jsx:65-92 | every scheduled tone belongs to one of the four voices and a sounding beat, lasts the pattern's duration, starts at `now + beat·beatStep + voice·voiceStep` and has the pattern's pitch |
| BandSelector.ScheduleComplete | BandSelector.jsx:65-92 | every voice's tone on every sounding beat is scheduled |
| BandSelector.ScheduleCount | BandSelector.jsx:65-92 | the schedule has (voices)·(sounding beats) tones |
| BandSelector.Schedule | BandSelector.jsx:65-92 | a loop schedules four tones, one per voice, for each sounding beat |
| BandSelector.ScheduleSizes | BandSelector.jsx:65-92 | Penumbra and Veridian schedule 32 tones and Mild Fever 48 |
| BandSelector.LoopTones | BandSelector.jsx:65-92 | a name matching no pattern schedules nothing; Mild Fever schedules 48 tones and the other two bands 32 |
| BandSelector.GenerateLoop | BandSelector.jsx:42-99 | the nested loops make exactly the scheduled tones, and none for a name matching no pattern |
| BandSelector.AppendTone | BandSelector.jsx:76-81 | one beat of the inner loop extends the voice by its tone when it sounds |
| BandSelector.HandlePlay | BandSelector.jsx:101-118 | ignored without a chosen band; pauses while playing; otherwise starts the band's loop, or fails when no audio context can be made |
| App.Last | App.jsx:103 | `slice(-n)` keeps the last min(n, length) elements |
| App.Caught | App.jsx:102-104 | a caught thought is last in the buffer, after the most recent earlier ones, five at most |
| App.CaughtIsLast | App.jsx:103 | catching is appending and keeping the last five |
| App.LastSnoc | App.jsx:103 | trimming before or after appending keeps the same suffix |
| App.CatchAllKeepsLastFive | App.jsx:102-104 | after any run of catches the buffer is the last five thoughts caught, in order |
| App.Visible | App.jsx:178 | the panel shows the last min(3, length) buffered thoughts |
| App.CaughtIsShown | App.jsx:178 | a thought just caught is the last one shown |
| App.Toggled | App.jsx:155 | Toggle Layers turns "no layer" into layer 0 and any layer into none |
| App.Interface.ToggleLayers | App.jsx:155 | the button applies `Toggled` |
| App.Interface.LayerChange | App.jsx:130-132 | the layer panel's report becomes the active layer |
| App.Interface.CatchThought | App.jsx:102-104 | the buffer becomes `Caught` of the old buffer and stays at most five long |
| App.Interface.constructor | App.jsx:83-86 | no active layer and no caught thoughts |
| App.LayerLabel | App.jsx:217 | the status bar shows 'All' without an active layer, the layer's name for 0..4, and nothing for any other index |
| App.Delay | App.jsx:16-29 | stage k waits (k+1) seconds, and any stage past the list waits 1 s |
| App.Progress | App.jsx:73 | the bar is 25–100% wide during the sequence, and full at the last stage |
| App.ProgressGrows | App.jsx:73 | the bar grows with each stage |
| App.AwakeningLasts | App.jsx:15-32 | from the first stage to `onComplete` takes 11 s |
| App.Awakening.constructor | App.jsx:13 | the sequence starts at stage 0 |
| App.Awakening.Fire | App.jsx:23-29 | a stage's timer advances to the next stage with that stage's delay, or at the last stage schedules `onComplete` after 1 s |
| ThoughtStream.NewThought | ThoughtStream.jsx:30-38 | a thought's id lies in [now, now+1), and its text, icon and colour come from the tables; its flight time is in [3,6) s and its height in [20,80)% |
| ThoughtStream.Lifetime | ThoughtStream.jsx:43-45 | a thought is removed 1 s after its flight ends, 4–7 s after it appears |
| ThoughtStream.Without | ThoughtStream.jsx:44-57 | removal never lengthens the list |
| ThoughtStream.WithoutMembers | ThoughtStream.jsx:44-57 | removal keeps exactly the thoughts with another id |
| ThoughtStream.WithoutAbsent | ThoughtStream.jsx:44 | removing an id that no thought has changes nothing |
| ThoughtStream.WithoutTwice | ThoughtStream.jsx:44-57 | the timed removal of a thought already removed by a click changes nothing |
| ThoughtStream.WithoutAppend | ThoughtStream.jsx:40-44 | removal keeps order and distributes over appending |
| ThoughtStream.Stream.constructor | ThoughtStream.jsx:26-27 | the stream starts empty with nothing caught |
| ThoughtStream.Stream.Generate | ThoughtStream.jsx:30-45 | a new thought is appended and its removal is scheduled after its lifetime, using six draws |
| ThoughtStream.Stream.Expire | ThoughtStream.jsx:43-45 | the timed removal drops the thought's id |
| ThoughtStream.Stream.Click | ThoughtStream.jsx:52-63 | the clicked thought becomes the caught one, leaves the stream, and is reported when the parent listens |
| ThoughtStream.Stream.ClearCaught | ThoughtStream.jsx:65 | after 3 s nothing is caught |

## Left out

- Three.js rendering is not modelled: meshes, geometries, materials other than
  the modelled fields, camera, scene rotation, window resize and disposal. A
  prop change tears the scene down and mounts it again, which is a fresh
  `Scene.Mount`.
- Neuron positions are kept as the slot, radius and z. The cos/sin placement
  belongs to the renderer.
- A travelling pulse sets its connection's opacity to `0.3 + 0.7·sin(π·progress)·intensity`.
  Only the cyan colour it sets is modelled, as the `lit` set.
- The pulse's `active` field is not modelled: it is set and never read.
- Timers and animation frames are step methods that the host calls:
  - the 500 ms pulse interval;
  - `requestAnimationFrame`;
  - the 3 s thought interval;
  - the thought removal and caught-thought timeouts;
  - the awakening timeouts;
  - the 30 s stop timer in `handlePlay`.

  Their cancellation on unmount is not modelled.
- Web Audio is not modelled:
  - The analyser's bins are an input of the frame.
  - Whether an audio context can be created is a boolean.
  - Oscillators and gain envelopes are left out. `createTone` is recorded as a
    `Tone` (frequency, duration, start).
  - `Math.sin` and the audio clock are parameters.
  - `audioContext.close()` is left out.
- `Date.now()` values are inputs. The playground's node and connection ids
  are the click's time.
- The thought stream's id is `Date.now() + Math.random()`, taken as an exact
  real.
- JSX markup, framer-motion animations and icons are not modelled. Icons are
  an enumeration.
- Also left out, because nothing reads them:
  - the unused FontLoader;
  - mouse position tracking;
  - the playground's `draggedNode` state;
  - the console logging and `stopPropagation` in the thought click.
- The `selectedBand` prop's truthiness is modelled as "some, non-empty
  string". Other falsy values are not modelled.
- Floating point is not modelled: arithmetic is on exact reals. Rounding in
  `Math.floor(opacity * 255)` and in the speed and intensity sums is not
  captured.
- NeuralPlayground.NodeColor: requires a non-negative activity. The
  activities the source produces are never negative (`Math.random()` and
  `Math.max(0, …)`), so `toString(16)` of a negative alpha is not modelled.
- BandSelector.HandlePlay: the track name passed to `generateAudioLoop` is
  not modelled, because the loop never uses it.
- `App.jsx` renders `Zap` (line 174), `Cpu` (line 212) and `AnimatePresence`
  (lines 235-241), but imports only `Gamepad2` and `Layers` (line 3) and
  `motion` (line 2). As written, the shell's first render would fail on an
  undefined identifier. The model keeps the shell's state and handlers, which
  do not depend on the markup. It treats the missing names as if imported.

## Findings

| source | as written | input that shows it | evidently intended | confidence | as-written member | corrected member |
|---|---|---|---|---|---|---|
| NeuralPlayground.jsx:104-112 | the play animation clamps activity at 0 but not at 1. `getNodeColor` then computes an alpha above 255, whose `toString(16)` has three digits, so the colour string is not a valid `#rrggbbaa` | activity 0.95 with draw 0.99 becomes 1.029; the alpha is 260 (`104` in hex), giving a ten-character colour | opacity capped at 1, so the colour is always `#rrggbbaa` | not executed | NeuralPlayground.ColorOverflow | NeuralPlayground.ClampedNodeColorDigits |
