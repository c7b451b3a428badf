/** What one animation frame of the neural scene does to the look of its
    neurons and band labels: the analyser's average frequency, the neurons'
    glow, their fading pulse and their band colour, and the labels' scale and
    opacity. Trigonometric values (`Math.sin` of the clock) enter as inputs. */
module NeuralVisuals {
  import opened Options
  import opened NeuralGraph
  import opened NeuralPulses

  /** A value of `Math.sin`. */
  type Sine = s: real | -1.0 <= s <= 1.0

  /** One entry of the analyser's byte frequency data. */
  type Byte = b: int | 0 <= b < 256

  /** The analyser's FFT size and the number of frequency bins it reports (half of it). */
  const FftSize: nat := 256
  const BinCount: nat := FftSize / 2

  /** A band of the scene's band table. */
  datatype Band = Band(name: string, color: int)

  const Bands: seq<Band> := [
    Band("Penumbra", 0x00FFFF),
    Band("Veridian", 0x6A0DAD),
    Band("Mild Fever", 0xFF1493)
  ]

  /** The props the scene was mounted with; every prop change remounts it. */
  datatype Props = Props(activeLayer: Option<int>, selectedBand: Option<string>, isPlaying: bool)

  /** The time-dependent inputs of one frame: the analyser's average frequency
      when it was read, `sin(4t)` (the beat) and `sin(6t)` (the label swell). */
  datatype Frame = Frame(audio: Loudness, beat: Sine, swell: Sine)

  function Sum(bins: seq<Byte>): (s: nat)
    ensures s <= 255 * |bins|
  {
    if bins == [] then 0 else Sum(bins[..|bins| - 1]) + bins[|bins| - 1]
  }

  /** `dataArray.reduce((a, b) => a + b) / bufferLength / 255`: the mean bin
      scaled to [0, 1]. `reduce` without a seed has no value on an empty array. */
  function AverageFrequency(bins: seq<Byte>): (average: real)
    requires |bins| > 0
    ensures 0.0 <= average <= 1.0
  {
    var n := |bins| as real;
    assert Sum(bins) as real <= 255.0 * n;
    Sum(bins) as real / n / 255.0
  }

  /** Silence reads as 0 and a saturated spectrum as 1. */
  lemma {:induction false} SumUniform(bins: seq<Byte>, b: Byte)
    requires forall i :: 0 <= i < |bins| ==> bins[i] == b
    ensures Sum(bins) == b * |bins|
  {
    if bins != [] {
      SumUniform(bins[..|bins| - 1], b);
    }
  }

  lemma AverageExtremes(bins: seq<Byte>)
    requires |bins| > 0
    ensures (forall i :: 0 <= i < |bins| ==> bins[i] == 0) ==> AverageFrequency(bins) == 0.0
    ensures (forall i :: 0 <= i < |bins| ==> bins[i] == 255) ==> AverageFrequency(bins) == 1.0
  {
    if forall i :: 0 <= i < |bins| ==> bins[i] == 0 {
      SumUniform(bins, 0);
    }
    if forall i :: 0 <= i < |bins| ==> bins[i] == 255 {
      SumUniform(bins, 255);
    }
  }

  /** The frame's reading: the analyser is consulted only while playing and once
      it exists. */
  function Reading(isPlaying: bool, analyser: Option<seq<Byte>>): (audio: Loudness)
    requires analyser.Some? ==> |analyser.value| == BinCount
    ensures audio.Some? <==> isPlaying && analyser.Some?
    ensures Audible(audio)
  {
    if isPlaying && analyser.Some? then Some(AverageFrequency(analyser.value)) else None
  }

  /** `bands.find(b => b.name === name)`. */
  function FindBand(bands: seq<Band>, name: Option<string>): (b: Option<Band>)
    ensures b.Some? ==> name.Some? && b.value in bands && b.value.name == name.value
    ensures b.None? ==> forall i :: 0 <= i < |bands| ==> Some(bands[i].name) != name
  {
    if bands == [] || name.None? then None
    else if bands[0].name == name.value then Some(bands[0])
    else FindBand(bands[1..], name)
  }

  function Abs(x: real): real {
    if x < 0.0 then -x else x
  }

  /** The band that colours the music neurons this frame, if any. */
  function Rhythm(props: Props, frame: Frame): (r: Option<Band>)
    ensures r.Some? ==> props.isPlaying && frame.audio.Some? && r.value in Bands && Some(r.value.name) == props.selectedBand
    ensures props.isPlaying && frame.audio.Some? && props.selectedBand == Some("Veridian") ==> r == Some(Bands[1])
  {
    if props.isPlaying && frame.audio.Some? then FindBand(Bands, props.selectedBand) else None
  }

  /** The glow before pulses and highlighting: 0.1, and for a music neuron while
      the music is read, half the average frequency plus |0.3 sin(4t)| when a
      known band is selected. */
  function BaseIntensity(n: Neuron, props: Props, frame: Frame): (r: real)
    ensures !(n.isMusicNeuron && props.isPlaying && frame.audio.Some?) ==> r == 0.1
    ensures Audible(frame.audio) ==> 0.1 <= r <= 0.9
  {
    if n.isMusicNeuron && props.isPlaying && frame.audio.Some? then
      0.1 + frame.audio.value * 0.5 + (if Rhythm(props, frame).Some? then Abs(frame.beat * 0.3) else 0.0)
    else 0.1
  }

  /** One frame's update of a neuron's material and pulse intensity. */
  function Shade(n: Neuron, props: Props, frame: Frame): (m: Neuron)
    ensures m.layer == n.layer && m.slot == n.slot && m.radius == n.radius && m.z == n.z
    ensures m.color == n.color && m.isMusicNeuron == n.isMusicNeuron
  {
    var base := BaseIntensity(n, props, frame);
    var shown := if n.isMusicNeuron && Rhythm(props, frame).Some? then Rhythm(props, frame).value.color else n.displayColor;
    var glow := if n.pulseIntensity > 0.0 then base + n.pulseIntensity * 0.5 else base;
    var fade := if n.pulseIntensity > 0.0 then n.pulseIntensity * 0.95 else n.pulseIntensity;
    var lit := if props.activeLayer == Some(n.layer as int) then glow + 0.3 else glow;
    n.(emissiveIntensity := lit, pulseIntensity := fade, displayColor := shown)
  }

  /** The glow is the base intensity plus half the pulse intensity of a pulsing
      neuron plus 0.3 for the highlighted layer; a pulsing neuron's intensity
      falls by 5%, any other neuron's is left as it is. */
  lemma ShadeGlow(n: Neuron, props: Props, frame: Frame)
    ensures Shade(n, props, frame).emissiveIntensity
         == BaseIntensity(n, props, frame)
            + (if n.pulseIntensity > 0.0 then 0.5 * n.pulseIntensity else 0.0)
            + (if props.activeLayer == Some(n.layer as int) then 0.3 else 0.0)
    ensures n.pulseIntensity > 0.0 ==> Shade(n, props, frame).pulseIntensity == 0.95 * n.pulseIntensity
    ensures n.pulseIntensity <= 0.0 ==> Shade(n, props, frame).pulseIntensity == n.pulseIntensity
  {
  }

  /** Only music neurons react to the music, and only while it is read. */
  lemma QuietNeurons(n: Neuron, props: Props, frame: Frame)
    requires !n.isMusicNeuron || !props.isPlaying || frame.audio.None?
    ensures Shade(n, props, frame).displayColor == n.displayColor
    ensures Shade(n, props, frame).emissiveIntensity
         == 0.1 + (if n.pulseIntensity > 0.0 then n.pulseIntensity * 0.5 else 0.0)
                + (if props.activeLayer == Some(n.layer as int) then 0.3 else 0.0)
  {
  }

  /** A music neuron takes the selected band's colour while the music is read,
      and otherwise keeps whatever colour it last had. */
  lemma BandColour(n: Neuron, props: Props, frame: Frame)
    ensures var m := Shade(n, props, frame);
            m.displayColor == n.displayColor
            || (n.isMusicNeuron && props.isPlaying && frame.audio.Some? && props.selectedBand.Some?
                && exists b :: b in Bands && b.name == props.selectedBand.value && m.displayColor == b.color)
  {
  }

  /** Highlighting the neuron's layer adds exactly 0.3 to its glow and changes
      nothing else. */
  lemma LayerHighlight(n: Neuron, props: Props, frame: Frame)
    requires props.activeLayer == Some(n.layer as int)
    ensures Shade(n, props, frame) == Shade(n, props.(activeLayer := None), frame).(
              emissiveIntensity := Shade(n, props.(activeLayer := None), frame).emissiveIntensity + 0.3)
  {
  }

  /** The glow stays within [0.1, 1.8] for a neuron whose pulse intensity is below 1.2. */
  lemma GlowBounds(n: Neuron, props: Props, frame: Frame)
    requires Audible(frame.audio) && 0.0 <= n.pulseIntensity < 1.2
    ensures 0.1 <= Shade(n, props, frame).emissiveIntensity <= 1.8
    ensures 0.0 <= Shade(n, props, frame).pulseIntensity < 1.2
  {
    var beat := Abs(frame.beat * 0.3);
    assert beat <= 0.3;
  }

  /** `0.95^k`. */
  function Decay(k: nat): (d: real)
    ensures 0.0 < d <= 1.0
  {
    if k == 0 then 1.0 else 0.95 * Decay(k - 1)
  }

  /** A neuron after a run of frames. */
  function ShadeAll(n: Neuron, props: Props, frames: seq<Frame>): Neuron
    decreases |frames|
  {
    if frames == [] then n else ShadeAll(Shade(n, props, frames[0]), props, frames[1..])
  }

  /** A delivered pulse fades geometrically: after k frames its intensity is
      `p * 0.95^k`. It never reaches 0, so the neuron keeps some pulse glow
      until another delivery resets it. */
  lemma {:induction false} PulseFades(n: Neuron, props: Props, frames: seq<Frame>)
    requires n.pulseIntensity > 0.0
    ensures ShadeAll(n, props, frames).pulseIntensity == n.pulseIntensity * Decay(|frames|)
    ensures ShadeAll(n, props, frames).pulseIntensity > 0.0
    decreases |frames|
  {
    if frames != [] {
      var m := Shade(n, props, frames[0]);
      assert m.pulseIntensity == n.pulseIntensity * 0.95;
      PulseFades(m, props, frames[1..]);
      assert Decay(|frames|) == 0.95 * Decay(|frames[1..]|);
    }
  }

  /** A band label: the band, the sprite's scale and its material's opacity. */
  datatype Label = Label(band: Band, scaleX: real, scaleY: real, scaleZ: real, opacity: real)

  /** A label as created: scale (2, 0.5, 1), and the sprite material's default opacity 1. */
  function NewLabel(b: Band): Label {
    Label(b, 2.0, 0.5, 1.0, 1.0)
  }

  /** One frame's update of a label: the selected band's label swells by
      `0.3 sin(6t) + 1` and its opacity follows the beat; the others rest at
      scale (2, 0.5, 1) and opacity 0.7. */
  function Pose(l: Label, props: Props, frame: Frame): (m: Label)
    ensures m.band == l.band
  {
    if props.selectedBand == Some(l.band.name) then
      var swell := frame.swell * 0.3 + 1.0;
      Label(l.band, 2.0 * swell, 0.5 * swell, 1.0, 0.8 + frame.beat * 0.2)
    else Label(l.band, 2.0, 0.5, 1.0, 0.7)
  }

  /** A label keeps its 4:1 aspect; the selected one grows or shrinks by at most
      30% and its opacity stays in [0.6, 1]. */
  lemma PoseBounds(l: Label, props: Props, frame: Frame)
    ensures var m := Pose(l, props, frame);
            m.scaleX == 4.0 * m.scaleY && m.scaleZ == 1.0
            && 1.4 <= m.scaleX <= 2.6 && 0.6 <= m.opacity <= 1.0
    ensures props.selectedBand != Some(l.band.name) ==> Pose(l, props, frame) == Label(l.band, 2.0, 0.5, 1.0, 0.7)
  {
  }

  /** The band names are distinct, so at most one label of the table is selected. */
  lemma OneSelected(props: Props, i: nat, j: nat)
    requires i < |Bands| && j < |Bands| && i != j
    ensures !(props.selectedBand == Some(Bands[i].name) && props.selectedBand == Some(Bands[j].name))
  {
    assert Bands[0].name[0] == 'P' && Bands[1].name[0] == 'V' && Bands[2].name[0] == 'M';
  }
}
